/** Summaries in stages: long histories are split by token share, then by maximum cost,
    each leaf batch is summarized, and partial summaries are merged. */
module StagedSummary {
  import opened Wrappers
  import opened Compaction
  import opened Sequences
  import opened SplitProofs
  import opened ChunkOptimality
  import opened HistoryShare

  const MERGE_INSTRUCTIONS :=
    "Merge partial summaries into one cohesive summary. " +
    "Preserve decisions, constraints, unresolved issues, and tool failures."

  /** The model's answer to one batch; `digest` is the text used when it says nothing. */
  datatype Reply = Raises | Says(text: string)

  datatype Summarizer = Summarizer(reply: seq<Message> -> Reply, digest: seq<Message> -> string)

  function AdaptiveRatio(messages: seq<Message>, window: int): real
    requires window >= 1
    ensures 0.15 <= AdaptiveRatio(messages, window) <= 0.4
  {
    if messages == [] || EstimateTokens(messages) == 0 then 0.4
    else
      var average := EstimateTokens(messages) as real / |messages| as real;
      var ratio := average * 1.2 / window as real;
      if ratio <= 0.1 then 0.4
      else
        var reduction := if ratio * 2.0 < 0.25 then ratio * 2.0 else 0.25;
        if 0.4 - reduction > 0.15 then 0.4 - reduction else 0.15
  }

  lemma ScaledFloor(scale: real, a: real, b: real)
    requires scale >= 0.0 && a <= b
    ensures (scale * a).Floor <= (scale * b).Floor
  {
    assert scale * a <= scale * b;
  }

  lemma RatioFloor(window: real, ratio: real)
    requires window >= 0.0 && 0.15 <= ratio <= 0.4
    ensures (window * 0.15).Floor <= (window * ratio).Floor <= (window * 0.4).Floor
  {
    ScaledFloor(window, 0.15, ratio);
    ScaledFloor(window, ratio, 0.4);
  }

  function BaseTokens(messages: seq<Message>, window: int): (base: nat)
    requires window >= 1
    ensures base >= 1 && (window as real * 0.15).Floor <= base <= Max(1, (window as real * 0.4).Floor)
  {
    var ratio := AdaptiveRatio(messages, window);
    RatioFloor(window as real, ratio);
    Max(1, (window as real * ratio).Floor)
  }

  /** What is left of the adaptive share of the window after the overhead, which takes at
      most half of it; never less than the configured minimum. */
  function MaxChunkTokens(messages: seq<Message>, config: Config): (tokens: nat)
    ensures tokens >= 1 && tokens >= config.stagedMinChunk
    ensures var base := BaseTokens(messages, Max(1, config.contextWindow));
            2 * tokens >= base && tokens <= Max(Max(1, config.stagedMinChunk), base)
  {
    var base := BaseTokens(messages, Max(1, config.contextWindow));
    var overhead := Min(Max(0, config.stagedOverhead), base / 2);
    Max(Max(1, config.stagedMinChunk), base - overhead)
  }

  predicate InOneGo(messages: seq<Message>, config: Config) {
    || NormalizeParts(config.stagedParts, |messages|) <= 1
    || |messages| < Max(2, config.stagedMinMessages)
    || EstimateTokens(messages) <= MaxChunkTokens(messages, config)
    || |SplitByShare(messages, NormalizeParts(config.stagedParts, |messages|))| <= 1
  }

  /** The batches one token-share chunk is summarized in. */
  function ChunkLeaves(chunk: seq<Message>, maxTokens: nat): seq<seq<Message>> {
    var blocks := ChunkByMax(chunk, maxTokens);
    if |blocks| <= 1 then [chunk] else blocks
  }

  function AllLeaves(chunks: seq<seq<Message>>, maxTokens: nat): seq<seq<Message>> {
    if chunks == [] then []
    else AllLeaves(chunks[..|chunks| - 1], maxTokens) + ChunkLeaves(chunks[|chunks| - 1], maxTokens)
  }

  /** The batches of the original messages that reach the summarizer, in order. */
  function Leaves(messages: seq<Message>, config: Config): seq<seq<Message>> {
    if messages == [] then []
    else if InOneGo(messages, config) then [messages]
    else AllLeaves(SplitByShare(messages, NormalizeParts(config.stagedParts, |messages|)),
         MaxChunkTokens(messages, config))
  }

  // ----- the summary's text

  /** The text for one batch; `None` once the summarizer raises. */
  function OnceText(batch: seq<Message>, summarizer: Summarizer): Option<string> {
    match summarizer.reply(batch)
    case Raises => None
    case Says(text) => Some(if text != "" then text else summarizer.digest(batch))
  }

  /** The texts of all batches, in order, if every batch has one. */
  function Each(batches: seq<seq<Message>>, textOf: seq<Message> -> Option<string>): (texts: Option<seq<string>>)
    ensures texts.Some? ==> |texts.value| == |batches|
  {
    if batches == [] then Some([])
    else
      var n := |batches| - 1;
      var before, last := Each(batches[..n], textOf), textOf(batches[n]);
      if before.None? || last.None? then None else Some(before.value + [last.value])
  }

  lemma EachNext(batches: seq<seq<Message>>, i: nat, textOf: seq<Message> -> Option<string>)
    requires i < |batches|
    ensures var before, last := Each(batches[..i], textOf), textOf(batches[i]);
            Each(batches[..i + 1], textOf) ==
            if before.None? || last.None? then None else Some(before.value + [last.value])
  {
    assert batches[..i + 1][..i] == batches[..i];
  }

  lemma {:induction false} EachFails(batches: seq<seq<Message>>, i: nat, textOf: seq<Message> -> Option<string>)
    requires i < |batches| && textOf(batches[i]).None?
    ensures Each(batches, textOf).None?
  {
    if i < |batches| - 1 {
      EachFails(batches[..|batches| - 1], i, textOf);
    }
  }

  function Merged(partials: Option<seq<string>>, summarizer: Summarizer): Option<string> {
    match partials
    case None => None
    case Some(texts) => OnceText(MergeMessages(texts), summarizer)
  }

  function OnceOf(summarizer: Summarizer): seq<Message> -> Option<string> {
    (batch: seq<Message>) => OnceText(batch, summarizer)
  }

  /** One text for each leaf of a chunk, merged if there are several. */
  function ChunkText(chunk: seq<Message>, maxTokens: nat, summarizer: Summarizer): Option<string> {
    var blocks := ChunkByMax(chunk, maxTokens);
    if |blocks| <= 1 then OnceText(chunk, summarizer) else Merged(Each(blocks, OnceOf(summarizer)), summarizer)
  }

  function ChunkOf(maxTokens: nat, summarizer: Summarizer): seq<Message> -> Option<string> {
    (chunk: seq<Message>) => ChunkText(chunk, maxTokens, summarizer)
  }

  function StagedText(messages: seq<Message>, config: Config, summarizer: Summarizer): Option<string> {
    if messages == [] then Some("(No content)")
    else if InOneGo(messages, config) then OnceText(messages, summarizer)
    else
      var chunks := SplitByShare(messages, NormalizeParts(config.stagedParts, |messages|));
      Merged(Each(chunks, ChunkOf(MaxChunkTokens(messages, config), summarizer)), summarizer)
  }

  /** Older history first, under its own heading, if any of it was dropped. */
  function GeneratedText(messages: seq<Message>, config: Config, summarizer: Summarizer): Option<string> {
    var p := PruneHistory(messages, config);
    var older := if p.dropped == [] then Some("") else StagedText(p.dropped, config, summarizer);
    var retained := if p.kept == [] then Some("(No retained history)") else StagedText(p.kept, config, summarizer);
    if older.None? || retained.None? then None
    else if older.value == "" then retained
    else Some("## Older History\n" + older.value + "\n\n## Retained History\n" + retained.value)
  }

  method SummarizeOnce(messages: seq<Message>, summarizer: Summarizer) returns (summary: Option<string>)
    ensures summary == OnceText(messages, summarizer)
  {
    match summarizer.reply(messages)
    case Raises => return None;
    case Says(text) => return Some(if text != "" then text else summarizer.digest(messages));
  }

  function MergeMessages(partials: seq<string>): seq<Message> {
    if partials == [] then [Message(System, MERGE_INSTRUCTIONS, 0, [], "", false, true)]
    else
      var text := partials[|partials| - 1];
      MergeMessages(partials[..|partials| - 1]) +
      if text != "" then [Message(User, text, 0, [], "", false, true)] else []
  }

  function NonBlank(texts: seq<string>): seq<string> {
    if texts == [] then []
    else if texts[0] == "" then NonBlank(texts[1..])
    else [texts[0]] + NonBlank(texts[1..])
  }

  lemma {:induction false} NonBlankNext(texts: seq<string>, text: string)
    ensures NonBlank(texts + [text]) == NonBlank(texts) + if text != "" then [text] else []
  {
    if texts == [] {
      assert texts + [text] == [text] && [text][1..] == [];
    } else {
      NonBlankNext(texts[1..], text);
      assert (texts + [text])[1..] == texts[1..] + [text];
    }
  }

  lemma NothingToMerge()
    ensures NonBlank([]) == []
  {
  }

  /** A merge asks for all partial summaries that are not blank, oldest first. */
  lemma {:induction false} MergeCarries(partials: seq<string>)
    ensures var m, texts := MergeMessages(partials), NonBlank(partials);
            && |m| == 1 + |texts| && m[0].role == System && m[0].content == MERGE_INSTRUCTIONS
            && forall i :: 1 <= i < |m| ==> m[i].role == User && m[i].content == texts[i - 1]
  {
    hide NonBlank;
    NothingToMerge();
    if partials != [] {
      var n := |partials| - 1;
      MergeCarries(partials[..n]);
      NonBlankNext(partials[..n], partials[n]);
      assert partials == partials[..n] + [partials[n]];
    }
  }

  /** One summary for each leaf of a chunk, merged if there are several. `leaves` logs
      the batches handed to the summarizer. */
  method SummarizeChunk(chunk: seq<Message>, maxTokens: nat, summarizer: Summarizer)
    returns (summary: Option<string>, leaves: seq<seq<Message>>)
    ensures leaves <= ChunkLeaves(chunk, maxTokens)
    ensures summary.Some? ==> leaves == ChunkLeaves(chunk, maxTokens)
    ensures summary == ChunkText(chunk, maxTokens, summarizer)
  {
    var blocks := ChunkMessagesByMaxTokens(chunk, maxTokens);
    if |blocks| <= 1 {
      leaves := [chunk];
      summary := SummarizeOnce(chunk, summarizer);
      return;
    }
    leaves := [];
    var summaries := [];
    ghost var textOf := OnceOf(summarizer);
    hide MergeMessages, ChunkByMax;
    for i := 0 to |blocks|
      invariant leaves == blocks[..i] && Each(blocks[..i], textOf) == Some(summaries)
    {
      hide Each, OnceText, Merged;
      EachNext(blocks, i, textOf);
      leaves := leaves + [blocks[i]];
      assert leaves == blocks[..i + 1];
      var s := SummarizeOnce(blocks[i], summarizer);
      assert s == textOf(blocks[i]);
      if s.None? {
        EachFails(blocks, i, textOf);
        return None, leaves;
      }
      summaries := summaries + [s.value];
    }
    assert blocks[..|blocks|] == blocks;
    summary := SummarizeOnce(MergeMessages(summaries), summarizer);
  }

  lemma AllLeavesNext(chunks: seq<seq<Message>>, i: nat, maxTokens: nat)
    requires i < |chunks|
    ensures AllLeaves(chunks[..i + 1], maxTokens) ==
            AllLeaves(chunks[..i], maxTokens) + ChunkLeaves(chunks[i], maxTokens)
  {
    assert chunks[..i + 1][..i] == chunks[..i];
  }

  lemma PrefixFurther<T>(a: seq<T>, b: seq<T>, c: seq<T>, d: seq<T>)
    requires b <= c && a + c <= d
    ensures a <= d && a + b <= d
  {
    assert forall k :: 0 <= k < |a| ==> a[k] == (a + c)[k] == d[k];
    assert forall k :: 0 <= k < |b| ==> b[k] == c[k] == (a + c)[|a| + k] == d[|a| + k];
  }

  lemma {:induction false} AllLeavesPrefix(chunks: seq<seq<Message>>, i: nat, maxTokens: nat)
    requires i <= |chunks|
    ensures AllLeaves(chunks[..i], maxTokens) <= AllLeaves(chunks, maxTokens)
    decreases |chunks| - i
  {
    hide AllLeaves;
    if i < |chunks| {
      AllLeavesNext(chunks, i, maxTokens);
      AllLeavesPrefix(chunks, i + 1, maxTokens);
      PrefixFurther(AllLeaves(chunks[..i], maxTokens), [], ChunkLeaves(chunks[i], maxTokens),
        AllLeaves(chunks, maxTokens));
    } else {
      assert chunks[..i] == chunks;
    }
  }

  /** The batches of a history that is summarized in one go, or chunk by chunk. */
  lemma LeavesAre(messages: seq<Message>, config: Config)
    requires messages != []
    ensures InOneGo(messages, config) ==> Leaves(messages, config) == [messages]
    ensures !InOneGo(messages, config) ==>
              Leaves(messages, config) ==
              AllLeaves(SplitByShare(messages, NormalizeParts(config.stagedParts, |messages|)),
                MaxChunkTokens(messages, config))
  {
  }

  /** The chunks' partial summaries, or `None` once the summarizer raises. */
  method SummarizeChunks(chunks: seq<seq<Message>>, maxTokens: nat, summarizer: Summarizer)
    returns (partials: Option<seq<string>>, leaves: seq<seq<Message>>)
    ensures leaves <= AllLeaves(chunks, maxTokens)
    ensures partials.Some? ==> leaves == AllLeaves(chunks, maxTokens)
    ensures partials == Each(chunks, ChunkOf(maxTokens, summarizer))
  {
    leaves := [];
    var summaries := [];
    ghost var textOf := ChunkOf(maxTokens, summarizer);
    for i := 0 to |chunks|
      invariant leaves == AllLeaves(chunks[..i], maxTokens) && Each(chunks[..i], textOf) == Some(summaries)
    {
      hide AllLeaves, ChunkLeaves, Each, ChunkText;
      EachNext(chunks, i, textOf);
      var s, more := SummarizeChunk(chunks[i], maxTokens, summarizer);
      AllLeavesNext(chunks, i, maxTokens);
      AllLeavesPrefix(chunks, i + 1, maxTokens);
      PrefixFurther(leaves, more, ChunkLeaves(chunks[i], maxTokens), AllLeaves(chunks, maxTokens));
      leaves := leaves + more;
      assert s == textOf(chunks[i]);
      if s.None? {
        EachFails(chunks, i, textOf);
        return None, leaves;
      }
      summaries := summaries + [s.value];
    }
    assert chunks[..|chunks|] == chunks;
    partials := Some(summaries);
  }

  /** `_summarize_in_stages`: unless the summarizer raises, every leaf batch reaches it. */
  method SummarizeInStages(messages: seq<Message>, config: Config, summarizer: Summarizer)
    returns (summary: Option<string>, leaves: seq<seq<Message>>)
    ensures leaves <= Leaves(messages, config)
    ensures summary.Some? ==> leaves == Leaves(messages, config)
    ensures summary == StagedText(messages, config, summarizer)
  {
    if messages == [] {
      return Some("(No content)"), [];
    }
    hide Leaves, AllLeaves, MaxChunkTokens, NormalizeParts, SplitByShare, EstimateTokens, MergeMessages, Each, OnceText;
    LeavesAre(messages, config);
    var tokens := CountTokens(messages);
    var parts := NormalizeParts(config.stagedParts, |messages|);
    var maxTokens := MaxChunkTokens(messages, config);
    if parts <= 1 || |messages| < Max(2, config.stagedMinMessages) || tokens <= maxTokens {
      leaves := [messages];
      summary := SummarizeOnce(messages, summarizer);
      return;
    }
    var chunks := SplitMessagesByTokenShare(messages, parts);
    if |chunks| <= 1 {
      leaves := [messages];
      summary := SummarizeOnce(messages, summarizer);
      return;
    }
    var partials;
    partials, leaves := SummarizeChunks(chunks, maxTokens, summarizer);
    if partials.None? {
      return None, leaves;
    }
    summary := SummarizeOnce(MergeMessages(partials.value), summarizer);
  }

  /** `_generate_summary`, without the safeguard's additions: the dropped part and the
      kept part of the pruned history are summarized one after the other. */
  method GenerateSummary(messages: seq<Message>, config: Config, summarizer: Summarizer)
    returns (summary: Option<string>, leaves: seq<seq<Message>>)
    ensures var p := PruneHistory(messages, config);
            summary.Some? ==> leaves == Leaves(p.dropped, config) + Leaves(p.kept, config)
    ensures summary == if messages == [] then Some("(No content)") else GeneratedText(messages, config, summarizer)
  {
    hide StagedText, Leaves, PruneHistory;
    NoLeaves(config);
    if messages == [] {
      return Some("(No content)"), [];
    }
    var p := PruneHistoryForContextShare(messages, config);
    var older := "";
    leaves := [];
    if p.dropped != [] {
      var s, first := SummarizeInStages(p.dropped, config, summarizer);
      leaves := first;
      if s.None? {
        return None, leaves;
      }
      older := s.value;
    }
    var retained := "(No retained history)";
    if p.kept != [] {
      var s, more := SummarizeInStages(p.kept, config, summarizer);
      leaves := leaves + more;
      if s.None? {
        return None, leaves;
      }
      retained := s.value;
    }
    summary := Some(if older != "" then "## Older History\n" + older + "\n\n## Retained History\n" + retained
                    else retained);
  }

  lemma NoLeaves(config: Config)
    ensures Leaves([], config) == [] && PruneHistory([], config) == Pruned([], [], 0)
  {
  }

  // ----- staging loses nothing

  lemma ChunkLeavesCover(chunk: seq<Message>, maxTokens: nat)
    requires chunk != []
    ensures Concat(ChunkLeaves(chunk, maxTokens)) == chunk
    ensures forall leaf :: leaf in ChunkLeaves(chunk, maxTokens) ==> Fits(leaf, EffectiveMax(maxTokens))
  {
    ChunkingOptimal(chunk, maxTokens, []);
    var blocks := ChunkByMax(chunk, maxTokens);
    ConcatNext([], chunk);
    assert [] + [chunk] == [chunk];
    if |blocks| == 1 {
      ConcatNext([], blocks[0]);
      assert blocks == [] + [blocks[0]];
      assert Concat(blocks) == blocks[0] && blocks[0] in blocks;
    }
  }

  lemma {:induction false} AllLeavesCover(chunks: seq<seq<Message>>, maxTokens: nat)
    requires forall chunk :: chunk in chunks ==> chunk != []
    ensures Concat(AllLeaves(chunks, maxTokens)) == Concat(chunks)
    ensures forall leaf :: leaf in AllLeaves(chunks, maxTokens) ==> Fits(leaf, EffectiveMax(maxTokens))
  {
    if chunks != [] {
      var init, last := chunks[..|chunks| - 1], chunks[|chunks| - 1];
      assert last in chunks && forall chunk :: chunk in init ==> chunk in chunks;
      AllLeavesCover(init, maxTokens);
      ChunkLeavesCover(last, maxTokens);
      ConcatConcat(AllLeaves(init, maxTokens), ChunkLeaves(last, maxTokens));
    }
  }

  /** The leaf batches, in order, concatenate to the history; in a staged summary each is
      a single message or costs at most the limit. */
  lemma LeavesCover(messages: seq<Message>, config: Config)
    ensures Concat(Leaves(messages, config)) == messages
    ensures messages != [] && !InOneGo(messages, config) ==>
              forall leaf :: leaf in Leaves(messages, config) ==>
                               Fits(leaf, EffectiveMax(MaxChunkTokens(messages, config)))
  {
    if messages == [] {
    } else if InOneGo(messages, config) {
      ConcatNext([], messages);
      assert [] + [messages] == [messages];
    } else {
      SplitPartitions(messages, NormalizeParts(config.stagedParts, |messages|));
      AllLeavesCover(SplitByShare(messages, NormalizeParts(config.stagedParts, |messages|)),
        MaxChunkTokens(messages, config));
    }
  }

  /** A successful summary has seen the whole history, oldest first, each message once;
      only tool results whose call was dropped are missing from the kept part. */
  lemma SummaryCovers(messages: seq<Message>, config: Config)
    requires messages != []
    ensures var p := PruneHistory(messages, config);
            exists kept :: messages == p.dropped + kept &&
                           Concat(Leaves(p.dropped, config) + Leaves(p.kept, config)) == p.dropped + RepairPairing(kept)
  {
    var p := PruneHistory(messages, config);
    PruningFits(messages, config);
    LeavesCover(p.dropped, config);
    LeavesCover(p.kept, config);
    ConcatConcat(Leaves(p.dropped, config), Leaves(p.kept, config));
  }
}
