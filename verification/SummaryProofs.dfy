/** Nothing that a summarizer says is lost on the way to the summary: if each of its answers
    contains the contents it was asked about, so does the whole, the older history first. */
module SummaryProofs {
  import opened Wrappers
  import opened Compaction
  import opened Sequences
  import opened SplitProofs
  import opened HistoryShare
  import opened StagedSummary

  // ----- texts within texts

  ghost predicate Within(part: string, text: string) {
    exists i :: 0 <= i <= |text| && part <= text[i..]
  }

  lemma WithinItself(text: string)
    ensures Within(text, text)
  {
    assert text <= text[0..];
  }

  lemma WithinJoined(part: string, before: string, text: string, after: string)
    requires Within(part, text)
    ensures Within(part, before + text + after)
  {
    var i :| 0 <= i <= |text| && part <= text[i..];
    var all := before + text + after;
    assert all[|before| + i..] == text[i..] + after;
  }

  lemma WithinWithin(a: string, b: string, c: string)
    requires Within(a, b) && Within(b, c)
    ensures Within(a, c)
  {
    var i :| 0 <= i <= |b| && a <= b[i..];
    var j :| 0 <= j <= |c| && b <= c[j..];
    assert c == c[..j] + b + c[j + |b|..];
    WithinJoined(a, c[..j], b, c[j + |b|..]);
  }

  /** Every content of the batch stands in the text. */
  ghost predicate Holds(text: string, batch: seq<Message>) {
    forall m :: m in batch ==> Within(m.content, text)
  }

  lemma HoldsMore(a: string, b: string, batch: seq<Message>)
    requires Holds(a, batch) && Within(a, b)
    ensures Holds(b, batch)
  {
    hide Within;
    forall m | m in batch ensures Within(m.content, b) {
      WithinWithin(m.content, a, b);
    }
  }

  // ----- summarizers that leave nothing out

  /** It never raises, and its answer, or the digest where it says nothing, is not blank and
      holds every content it was asked about. */
  ghost predicate Thorough(summarizer: Summarizer) {
    forall batch ::
      var r := summarizer.reply(batch);
      && r.Says?
      && (r.text != "" ==> Holds(r.text, batch))
      && (r.text == "" ==> summarizer.digest(batch) != "" && Holds(summarizer.digest(batch), batch))
  }

  lemma OnceHolds(batch: seq<Message>, summarizer: Summarizer)
    requires Thorough(summarizer)
    ensures var t := OnceText(batch, summarizer); t.Some? && t.value != "" && Holds(t.value, batch)
  {
    hide Holds;
    var r := summarizer.reply(batch);
    assert r.Says?;
  }

  /** What a merge is asked about holds every text to be merged that is not blank. */
  lemma {:induction false} MergeHolds(partials: seq<string>, i: nat)
    requires i < |partials| && partials[i] != ""
    ensures exists m :: m in MergeMessages(partials) && m.content == partials[i]
  {
    var n := |partials| - 1;
    if i < n {
      MergeHolds(partials[..n], i);
      var m :| m in MergeMessages(partials[..n]) && m.content == partials[i];
      assert m in MergeMessages(partials);
    } else {
      var m := Message(User, partials[i], 0, [], "", false, true);
      assert MergeMessages(partials) == MergeMessages(partials[..n]) + [m];
      assert MergeMessages(partials)[|MergeMessages(partials[..n])|] == m;
    }
  }

  /** There is a text for each batch; none is blank, and each holds its batch. */
  ghost predicate Texts(batches: seq<seq<Message>>, texts: Option<seq<string>>) {
    && texts.Some? && |texts.value| == |batches|
    && forall i :: 0 <= i < |batches| ==> texts.value[i] != "" && Holds(texts.value[i], batches[i])
  }

  lemma {:induction false} EachHolds(batches: seq<seq<Message>>, textOf: seq<Message> -> Option<string>)
    requires forall i :: 0 <= i < |batches| ==>
                           textOf(batches[i]).Some? && textOf(batches[i]).value != ""
                           && Holds(textOf(batches[i]).value, batches[i])
    ensures Texts(batches, Each(batches, textOf))
  {
    hide Holds;
    if batches != [] {
      EachHolds(batches[..|batches| - 1], textOf);
    }
  }

  lemma {:induction false} InConcat(parts: seq<seq<Message>>, m: Message) returns (i: nat)
    requires m in Concat(parts)
    ensures i < |parts| && m in parts[i]
  {
    var n := |parts| - 1;
    if m in parts[n] {
      i := n;
    } else {
      i := InConcat(parts[..n], m);
    }
  }

  lemma MergedHolds(batches: seq<seq<Message>>, texts: Option<seq<string>>, summarizer: Summarizer)
    requires Thorough(summarizer) && Texts(batches, texts)
    ensures var t := Merged(texts, summarizer); t.Some? && t.value != "" && Holds(t.value, Concat(batches))
  {
    hide Within, MergeMessages, OnceText, Thorough, Concat;
    OnceHolds(MergeMessages(texts.value), summarizer);
    var t := Merged(texts, summarizer).value;
    forall m | m in Concat(batches) ensures Within(m.content, t) {
      var i := InConcat(batches, m);
      MergeHolds(texts.value, i);
      WithinWithin(m.content, texts.value[i], t);
    }
  }

  lemma ChunkHolds(chunk: seq<Message>, maxTokens: nat, summarizer: Summarizer)
    requires Thorough(summarizer)
    ensures var t := ChunkText(chunk, maxTokens, summarizer); t.Some? && t.value != "" && Holds(t.value, chunk)
  {
    hide Holds, Thorough, OnceText, Merged, ChunkByMax, Concat;
    var blocks := ChunkByMax(chunk, maxTokens);
    ChunksPartition(chunk, maxTokens);
    OnceHolds(chunk, summarizer);
    forall i | 0 <= i < |blocks|
      ensures var t := OnceOf(summarizer)(blocks[i]); t.Some? && t.value != "" && Holds(t.value, blocks[i])
    {
      OnceHolds(blocks[i], summarizer);
    }
    EachHolds(blocks, OnceOf(summarizer));
    MergedHolds(blocks, Each(blocks, OnceOf(summarizer)), summarizer);
  }

  lemma StagedHolds(messages: seq<Message>, config: Config, summarizer: Summarizer)
    requires Thorough(summarizer) && messages != []
    ensures var t := StagedText(messages, config, summarizer); t.Some? && t.value != "" && Holds(t.value, messages)
  {
    hide Holds, Thorough, OnceText, Merged, SplitByShare, Concat, ChunkText, MaxChunkTokens, EstimateTokens;
    var chunks := SplitByShare(messages, NormalizeParts(config.stagedParts, |messages|));
    var textOf := ChunkOf(MaxChunkTokens(messages, config), summarizer);
    SplitPartitions(messages, NormalizeParts(config.stagedParts, |messages|));
    OnceHolds(messages, summarizer);
    forall i | 0 <= i < |chunks|
      ensures var t := textOf(chunks[i]); t.Some? && t.value != "" && Holds(t.value, chunks[i])
    {
      ChunkHolds(chunks[i], MaxChunkTokens(messages, config), summarizer);
    }
    EachHolds(chunks, textOf);
    MergedHolds(chunks, Each(chunks, textOf), summarizer);
  }

  /** The whole summary: a first part that holds every content of the dropped history, and a
      second one that holds every content of the kept history, whatever the stages and merges
      in between. */
  lemma SummaryHolds(messages: seq<Message>, config: Config, summarizer: Summarizer)
    requires Thorough(summarizer) && messages != []
    ensures var p, t := PruneHistory(messages, config), GeneratedText(messages, config, summarizer);
            && t.Some?
            && exists older, retained ::
                 t.value == older + retained && Holds(older, p.dropped) && Holds(retained, p.kept)
                 && (p.dropped != [] ==> OLDER <= older) && (p.dropped == [] ==> older == "")
  {
    hide Thorough, StagedText, PruneHistory, Within;
    var p := PruneHistory(messages, config);
    PruningFits(messages, config);
    StagedHolds(p.kept, config, summarizer);
    var r := StagedText(p.kept, config, summarizer).value;
    if p.dropped == [] {
      assert "" + r == r;
    } else {
      StagedHolds(p.dropped, config, summarizer);
      var o := StagedText(p.dropped, config, summarizer).value;
      var older := OLDER + o + RETAINED;
      WithinItself(o);
      WithinJoined(o, OLDER, o, RETAINED);
      HoldsMore(o, older, p.dropped);
      assert GeneratedText(messages, config, summarizer).value == older + r;
    }
  }

  const OLDER := "## Older History\n"

  const RETAINED := "\n\n## Retained History\n"

  // ----- there are such summarizers

  function Echo(batch: seq<Message>): string {
    if batch == [] then "." else Echo(batch[..|batch| - 1]) + batch[|batch| - 1].content
  }

  lemma {:induction false} EchoHolds(batch: seq<Message>)
    ensures Echo(batch) != "" && Holds(Echo(batch), batch)
  {
    hide Within;
    if batch != [] {
      var init, last := batch[..|batch| - 1], batch[|batch| - 1];
      EchoHolds(init);
      WithinItself(Echo(init));
      WithinItself(last.content);
      WithinJoined(Echo(init), "", Echo(init), last.content);
      WithinJoined(last.content, Echo(init), last.content, "");
      assert "" + Echo(init) + last.content == Echo(batch) && Echo(init) + last.content + "" == Echo(batch);
      HoldsMore(Echo(init), Echo(batch), init);
    }
  }

  lemma EchoIsThorough()
    ensures Thorough(Summarizer((batch: seq<Message>) => Says(Echo(batch)), (batch: seq<Message>) => ""))
  {
    hide Echo, Holds;
    forall batch: seq<Message> ensures Echo(batch) != "" && Holds(Echo(batch), batch) {
      EchoHolds(batch);
    }
  }

  // ----- the budget of a history

  /** Between a tenth of the window and all of it, and never nothing. */
  lemma BudgetBounds(config: Config)
    requires config.contextWindow >= 0
    ensures 1 <= BudgetTokens(config) <= Max(1, config.contextWindow)
    ensures (config.contextWindow as real * 0.1).Floor <= BudgetTokens(config)
    ensures 0.1 <= config.maxHistoryShare <= 1.0 ==>
              BudgetTokens(config) == Max(1, (config.contextWindow as real * config.maxHistoryShare).Floor)
  {
    var share := if config.maxHistoryShare < 0.1 then 0.1
                 else if config.maxHistoryShare > 1.0 then 1.0 else config.maxHistoryShare;
    ScaledFloor(config.contextWindow as real, 0.1, share);
    ScaledFloor(config.contextWindow as real, share, 1.0);
    assert config.contextWindow as real * 1.0 == config.contextWindow as real;
  }
}
