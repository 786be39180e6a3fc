/** Rebuilding the transcript around a summary, and what holds over any run of appended
    messages and compactions. */
module CompactRuns {
  import opened Wrappers
  import opened Compaction

  predicate IsSummary(m: Message) {
    m.role == System && SUMMARY_PREFIX <= m.content
  }

  predicate HasPrompt(messages: seq<Message>) {
    messages != [] && messages[0].role == System && !IsSummary(messages[0])
  }

  datatype Split = Split(prompt: Option<Message>, recent: seq<Message>, toCompress: seq<Message>)

  /** `_split_for_compaction`; slices past the end of the list are cut short. */
  function SplitForCompaction(messages: seq<Message>, config: Config): Split {
    var keep := config.keepRecentTurns * 2;
    var prompt := if HasPrompt(messages) then Some(messages[0]) else None;
    var start := if prompt.Some? then 1 else 0;
    var end := if keep > 0 then Max(0, |messages| - keep) else |messages|;
    var recent := if keep > 0 then messages[end..] else [];
    Split(prompt, recent, if start <= end then messages[start..end] else [])
  }

  function SummaryMessage(summary: string): Message {
    Message(System, SUMMARY_PREFIX + "\n" + summary, 0, [], "", false, true)
  }

  predicate AnyAttachments(messages: seq<Message>) {
    exists m :: m in messages && m.attachments
  }

  /** The latest image turn the model may still look at. */
  function LatestImage(messages: seq<Message>): Option<Message> {
    if messages == [] then None
    else
      var m := messages[|messages| - 1];
      if m.attachments && m.eligible then Some(m) else LatestImage(messages[..|messages| - 1])
  }

  function Optional(m: Option<Message>): seq<Message> {
    if m.Some? then [m.value] else []
  }

  /** `generate` is the summarizer: it may fail. */
  function Compacted(messages: seq<Message>, config: Config, generate: seq<Message> -> Option<string>): seq<Message> {
    var s := SplitForCompaction(messages, config);
    if |messages| <= config.keepRecentTurns * 2 + 1 || s.toCompress == [] then messages
    else match generate(s.toCompress)
      case None => messages
      case Some(summary) =>
        Optional(s.prompt) + [SummaryMessage(summary)]
        + (if AnyAttachments(s.recent) then [] else Optional(LatestImage(s.toCompress)))
        + s.recent
  }

  method Compact(messages: seq<Message>, config: Config, generate: seq<Message> -> Option<string>)
    returns (result: seq<Message>)
    ensures result == Compacted(messages, config, generate)
  {
    hide SummaryMessage, SplitForCompaction, IsSummary;
    if |messages| <= config.keepRecentTurns * 2 + 1 {
      return messages;
    }
    var s := SplitForCompaction(messages, config);
    if s.toCompress == [] {
      return messages;
    }
    var summary := generate(s.toCompress);
    if summary.None? {
      return messages;
    }
    result := if s.prompt.Some? then [s.prompt.value] else [];
    result := result + [SummaryMessage(summary.value)];
    var anyRecent := false;
    for i := 0 to |s.recent|
      invariant anyRecent <==> AnyAttachments(s.recent[..i])
    {
      anyRecent := anyRecent || s.recent[i].attachments;
      assert s.recent[..i + 1] == s.recent[..i] + [s.recent[i]];
    }
    assert s.recent[..|s.recent|] == s.recent;
    if !anyRecent {
      var i := |s.toCompress|;
      assert s.toCompress[..i] == s.toCompress;
      while i > 0
        invariant 0 <= i <= |s.toCompress|
        invariant LatestImage(s.toCompress) == LatestImage(s.toCompress[..i])
      {
        i := i - 1;
        assert s.toCompress[..i + 1][..i] == s.toCompress[..i];
        if s.toCompress[i].attachments && s.toCompress[i].eligible {
          result := result + [s.toCompress[i]];
          break;
        }
      }
    }
    result := result + s.recent;
  }

  // ----- runs

  datatype Action = Append(m: Message) | Compaction(generate: seq<Message> -> Option<string>)

  function Step(messages: seq<Message>, config: Config, action: Action): seq<Message> {
    match action
    case Append(m) => messages + [m]
    case Compaction(generate) => Compacted(messages, config, generate)
  }

  function Run(messages: seq<Message>, config: Config, actions: seq<Action>): seq<Message> {
    if actions == [] then messages
    else Step(Run(messages, config, actions[..|actions| - 1]), config, actions[|actions| - 1])
  }

  /** Summaries enter a transcript only by compaction. */
  ghost predicate NoForeignSummary(actions: seq<Action>) {
    forall a :: a in actions && a.Append? ==> !IsSummary(a.m)
  }

  /** A summary can only stand at the head, or right after the system prompt. */
  predicate SummaryInPlace(messages: seq<Message>) {
    forall i :: 0 <= i < |messages| && IsSummary(messages[i]) ==> i == (if HasPrompt(messages) then 1 else 0)
  }

  lemma {:induction false} LatestImageFrom(messages: seq<Message>)
    ensures LatestImage(messages).Some? ==>
            LatestImage(messages).value in messages && LatestImage(messages).value.attachments
  {
    if messages != [] {
      LatestImageFrom(messages[..|messages| - 1]);
    }
  }

  /** The split cuts a long enough transcript in three. */
  lemma SplitCovers(messages: seq<Message>, config: Config)
    requires |messages| > config.keepRecentTurns * 2 + 1 && SplitForCompaction(messages, config).toCompress != []
    ensures var s := SplitForCompaction(messages, config);
            && messages == Optional(s.prompt) + s.toCompress + s.recent
            && Optional(s.prompt) == (if HasPrompt(messages) then [messages[0]] else [])
            && |s.recent| == if config.keepRecentTurns > 0 then config.keepRecentTurns * 2 else 0
  {
    hide IsSummary;
    var s := SplitForCompaction(messages, config);
    var head, end := Optional(s.prompt), |messages| - |s.recent|;
    assert head == messages[..|head|] && s.toCompress == messages[|head|..end] && s.recent == messages[end..];
  }

  lemma RecentPlain(messages: seq<Message>, front: seq<Message>, recent: seq<Message>)
    requires messages == front + recent && |front| >= 1 && (HasPrompt(messages) ==> |front| >= 2)
    requires SummaryInPlace(messages)
    ensures forall m :: m in recent ==> !IsSummary(m)
  {
    hide IsSummary;
    forall i | 0 <= i < |recent| ensures !IsSummary(recent[i]) {
      assert recent[i] == messages[|front| + i];
    }
  }

  /** The parts of a transcript that is really compacted. */
  lemma CompactedParts(messages: seq<Message>, config: Config, generate: seq<Message> -> Option<string>)
    returns (head: seq<Message>, past: seq<Message>, recent: seq<Message>, image: seq<Message>)
    requires Compacted(messages, config, generate) != messages
    ensures messages == head + past + recent && past != []
    ensures head == if HasPrompt(messages) then [messages[0]] else []
    ensures |recent| == if config.keepRecentTurns > 0 then config.keepRecentTurns * 2 else 0
    ensures generate(past).Some?
    ensures Compacted(messages, config, generate) == head + [SummaryMessage(generate(past).value)] + image + recent
    ensures image == if AnyAttachments(recent) then [] else Optional(LatestImage(past))
    ensures SummaryInPlace(messages) ==> forall m :: m in recent ==> !IsSummary(m)
  {
    hide AnyAttachments, LatestImage, SummaryMessage, IsSummary, SummaryInPlace, SplitForCompaction, HasPrompt;
    var s := SplitForCompaction(messages, config);
    SplitCovers(messages, config);
    head, past, recent := Optional(s.prompt), s.toCompress, s.recent;
    image := if AnyAttachments(recent) then [] else Optional(LatestImage(past));
    if SummaryInPlace(messages) {
      RecentPlain(messages, head + past, recent);
    }
  }

  /** Summaries carry no attachments, so none is taken for an image turn. */
  predicate PlainSummaries(messages: seq<Message>) {
    forall m :: m in messages ==> !(IsSummary(m) && m.attachments)
  }

  lemma RebuiltInPlace(head: seq<Message>, summary: Message, image: seq<Message>, recent: seq<Message>)
    requires |head| <= 1 && IsSummary(summary) && !summary.attachments
    requires head == [] || HasPrompt(head)
    requires forall m :: m in image + recent ==> !IsSummary(m)
    ensures var result := head + [summary] + image + recent;
            SummaryInPlace(result) && PlainSummaries(result) && HasPrompt(result) == HasPrompt(head)
            && (head != [] ==> result[0] == head[0])
  {
    var result := head + [summary] + image + recent;
    assert result == head + [summary] + (image + recent);
    forall i | 0 <= i < |result| ensures IsSummary(result[i]) ==> i == |head| {
      if i > |head| {
        assert result[i] == (image + recent)[i - |head| - 1];
      }
    }
    forall m | m in result ensures !(IsSummary(m) && m.attachments) {
      var i :| 0 <= i < |result| && result[i] == m;
    }
  }

  lemma CompactedInPlace(messages: seq<Message>, config: Config, generate: seq<Message> -> Option<string>)
    requires SummaryInPlace(messages) && PlainSummaries(messages)
    ensures var result := Compacted(messages, config, generate);
            && SummaryInPlace(result) && PlainSummaries(result)
            && (HasPrompt(messages) ==> HasPrompt(result) && result[0] == messages[0])
  {
    hide Compacted, LatestImage;
    if Compacted(messages, config, generate) != messages {
      var head, past, recent, image := CompactedParts(messages, config, generate);
      LatestImageFrom(past);
      assert forall m :: m in past ==> m in messages;
      RebuiltInPlace(head, SummaryMessage(generate(past).value), image, recent);
    }
  }

  /** Over any run: at most one summary, in its place; the system prompt never leaves
      the head. */
  lemma {:induction false} OneSummaryAndPrompt(messages: seq<Message>, config: Config, actions: seq<Action>)
    requires SummaryInPlace(messages) && NoForeignSummary(actions)
    requires PlainSummaries(messages)
    ensures var result := Run(messages, config, actions);
            && SummaryInPlace(result) && PlainSummaries(result)
            && (HasPrompt(messages) ==> HasPrompt(result) && result[0] == messages[0])
  {
    if actions != [] {
      var init, a := actions[..|actions| - 1], actions[|actions| - 1];
      OneSummaryAndPrompt(messages, config, init);
      assert a in actions;
      match a
      case Append(m) =>
      case Compaction(generate) =>
        CompactedInPlace(Run(messages, config, init), config, generate);
    }
  }

  lemma SummaryUnique(messages: seq<Message>, i: nat, j: nat)
    requires SummaryInPlace(messages) && i < |messages| && j < |messages|
    requires IsSummary(messages[i]) && IsSummary(messages[j])
    ensures i == j
  {
  }

  /** Unless the summarizer fails, a compaction leaves a bounded transcript, whatever
      its size was. */
  lemma CompactionBounds(messages: seq<Message>, config: Config, generate: seq<Message> -> Option<string>)
    requires forall past :: generate(past).Some?
    ensures |Compacted(messages, config, generate)| <= 2 * Max(0, config.keepRecentTurns) + 3
  {
    var s := SplitForCompaction(messages, config);
    assert generate(s.toCompress).Some?;
  }

  // ----- the image turn

  /** `m` is in the transcript and nothing after it has attachments. */
  ghost predicate LastImageAt(messages: seq<Message>, m: Message, i: nat) {
    i < |messages| && messages[i] == m && m.attachments && forall j :: i < j < |messages| ==> !messages[j].attachments
  }

  ghost predicate LastImage(messages: seq<Message>, m: Message) {
    exists i :: LastImageAt(messages, m, i)
  }

  lemma {:induction false} LatestImageIs(messages: seq<Message>, m: Message, i: nat)
    requires LastImageAt(messages, m, i) && m.eligible
    ensures LatestImage(messages) == Some(m)
  {
    if i < |messages| - 1 {
      LatestImageIs(messages[..|messages| - 1], m, i);
    }
  }

  lemma CompactedKeepsImage(messages: seq<Message>, config: Config, generate: seq<Message> -> Option<string>,
                            m: Message)
    requires LastImage(messages, m) && m.eligible
    ensures LastImage(Compacted(messages, config, generate), m)
  {
    if Compacted(messages, config, generate) != messages {
      var head, past, recent, image := CompactedParts(messages, config, generate);
      var i: nat :| LastImageAt(messages, m, i);
      RebuiltKeepsImage(head, past, recent, SummaryMessage(generate(past).value), m, i);
    }
  }

  lemma RebuiltKeepsImage(head: seq<Message>, past: seq<Message>, recent: seq<Message>, summary: Message, m: Message,
                          i: nat)
    requires LastImageAt(head + past + recent, m, i) && m.eligible && |head| <= 1 && !summary.attachments
    ensures var image := if AnyAttachments(recent) then [] else Optional(LatestImage(past));
            LastImage(head + [summary] + image + recent, m)
  {
    var messages := head + past + recent;
    var front := |head| + |past|;
    assert forall j :: 0 <= j < |recent| ==> recent[j] == messages[front + j];
    assert forall j :: 0 <= j < |past| ==> past[j] == messages[|head| + j];
    if i >= front {
      assert recent[i - front] == m && m in recent;
      ImageInTail(head + [summary] + [], recent, m, i - front);
    } else if i >= |head| {
      LatestImageIs(past, m, i - |head|);
      ImageAlone(head + [summary], recent, m);
    } else {
      LatestImageFrom(past);
      assert LatestImage(past) == None;
      assert head == [m];
      ImageAtHead(m, summary, recent);
    }
  }

  lemma ImageAlone(front: seq<Message>, tail: seq<Message>, m: Message)
    requires m.attachments && !AnyAttachments(tail)
    ensures LastImage(front + [m] + tail, m)
  {
    assert forall j :: 0 <= j < |tail| ==> tail[j] in tail;
    assert LastImageAt(front + [m] + tail, m, |front|);
  }

  lemma ImageAtHead(m: Message, summary: Message, tail: seq<Message>)
    requires m.attachments && !summary.attachments && !AnyAttachments(tail)
    ensures LastImage([m] + [summary] + [] + tail, m)
  {
    assert forall j :: 0 <= j < |tail| ==> tail[j] in tail;
    assert LastImageAt([m] + [summary] + [] + tail, m, 0);
  }

  lemma ImageInTail(front: seq<Message>, tail: seq<Message>, m: Message, i: nat)
    requires LastImageAt(tail, m, i)
    ensures LastImage(front + tail, m)
  {
    assert LastImageAt(front + tail, m, |front| + i);
  }

  /** An image turn the model may look at stays in the transcript, over any run, as long
      as no later message has attachments. */
  lemma {:induction false} ImageTurnKept(messages: seq<Message>, config: Config, actions: seq<Action>, m: Message)
    requires LastImage(messages, m) && m.eligible
    requires forall a :: a in actions && a.Append? ==> !a.m.attachments
    ensures LastImage(Run(messages, config, actions), m)
  {
    if actions != [] {
      var init, a := actions[..|actions| - 1], actions[|actions| - 1];
      ImageTurnKept(messages, config, init, m);
      var before := Run(messages, config, init);
      assert a in actions;
      match a
      case Append(next) =>
        var i: nat :| LastImageAt(before, m, i);
        assert LastImageAt(before + [next], m, i);
      case Compaction(generate) =>
        CompactedKeepsImage(before, config, generate, m);
    }
  }

  // ----- what the summary says

  /** A transcript is compacted exactly when it has more than the recent turns and one message,
      something is left between its prompt and its recent messages, and the summarizer answers
      on that. */
  predicate Compactable(messages: seq<Message>, config: Config) {
    |messages| > config.keepRecentTurns * 2 + 1 && PromptLength(messages) + RecentLength(config) < |messages|
  }

  function PromptLength(messages: seq<Message>): nat {
    if HasPrompt(messages) then 1 else 0
  }

  function RecentLength(config: Config): nat {
    Max(0, config.keepRecentTurns * 2)
  }

  /** The messages between the prompt and the recent ones. */
  function Past(messages: seq<Message>, config: Config): seq<Message>
    requires Compactable(messages, config)
  {
    messages[PromptLength(messages)..|messages| - RecentLength(config)]
  }

  /** It then is the prompt, a system message with the prefix, a line feed and the answer, at
      most one message of the past, and the recent messages; else it is as it was. */
  lemma CompactedExactly(messages: seq<Message>, config: Config, generate: seq<Message> -> Option<string>)
    ensures var result := Compacted(messages, config, generate);
            if Compactable(messages, config) && generate(Past(messages, config)).Some? then
              var head, end := PromptLength(messages), |messages| - RecentLength(config);
              && head < |result| && result[..head] == messages[..head]
              && result[head].role == System && !result[head].attachments
              && result[head].content == SUMMARY_PREFIX + "\n" + generate(Past(messages, config)).value
              && (exists image :: result == messages[..head] + [result[head]] + image + messages[end..]
                                  && |image| <= 1 && forall m :: m in image ==> m in Past(messages, config))
            else result == messages
  {
    hide HasPrompt, AnyAttachments, LatestImage;
    var s := SplitForCompaction(messages, config);
    if Compactable(messages, config) {
      var past, end := Past(messages, config), |messages| - RecentLength(config);
      assert s.toCompress == past && s.recent == messages[end..];
      assert Optional(s.prompt) == messages[..PromptLength(messages)];
      if generate(past).Some? {
        LatestImageFrom(past);
        var image := if AnyAttachments(s.recent) then [] else Optional(LatestImage(past));
        var result := Compacted(messages, config, generate);
        assert result == messages[..PromptLength(messages)] + [SummaryMessage(generate(past).value)] + image
                         + messages[end..];
      }
    }
  }

  /** The k-th action is a compaction that wrote this text: the summarizer's answer on the past
      of the transcript as it then was. */
  ghost predicate Wrote(messages: seq<Message>, config: Config, actions: seq<Action>, k: nat, text: string) {
    && k < |actions| && actions[k].Compaction?
    && var before := Run(messages, config, actions[..k]);
       && Compactable(before, config) && actions[k].generate(Past(before, config)).Some?
       && text == SUMMARY_PREFIX + "\n" + actions[k].generate(Past(before, config)).value
  }

  lemma WroteBefore(messages: seq<Message>, config: Config, actions: seq<Action>, k: nat, text: string)
    requires actions != [] && Wrote(messages, config, actions[..|actions| - 1], k, text)
    ensures Wrote(messages, config, actions, k, text)
  {
    assert actions[..|actions| - 1][..k] == actions[..k];
  }

  lemma PastIsWithin(messages: seq<Message>, config: Config, m: Message)
    requires Compactable(messages, config) && m in Past(messages, config)
    ensures m in messages
  {
    hide HasPrompt;
  }

  /** Where the messages of a compacted transcript come from. */
  lemma CompactedFrom(messages: seq<Message>, config: Config, generate: seq<Message> -> Option<string>, i: nat)
    requires i < |Compacted(messages, config, generate)|
    ensures var m := Compacted(messages, config, generate)[i];
            || m in messages
            || (Compactable(messages, config) && generate(Past(messages, config)).Some?
                && m.content == SUMMARY_PREFIX + "\n" + generate(Past(messages, config)).value)
  {
    hide Compacted, HasPrompt, PromptLength, RecentLength;
    CompactedExactly(messages, config, generate);
    var result := Compacted(messages, config, generate);
    if Compactable(messages, config) && generate(Past(messages, config)).Some? {
      var head, end := PromptLength(messages), |messages| - RecentLength(config);
      var image :| result == messages[..head] + [result[head]] + image + messages[end..]
                   && forall m :: m in image ==> m in Past(messages, config);
      if i < head {
        assert result[i] == messages[i];
      } else if i > head && i - head - 1 < |image| {
        assert result[i] == image[i - head - 1] && image[i - head - 1] in image;
        PastIsWithin(messages, config, result[i]);
      } else if i > head {
        assert result[i] == messages[end + (i - head - 1 - |image|)];
      }
    }
  }

  /** Over every run from a transcript without summaries: each summary in it is the answer that
      a compaction of the run was given, whole, behind the prefix. */
  lemma {:induction false} SummarySays(messages: seq<Message>, config: Config, actions: seq<Action>, m: Message)
    returns (k: nat)
    requires NoForeignSummary(actions) && forall x :: x in messages ==> !IsSummary(x)
    requires m in Run(messages, config, actions) && IsSummary(m)
    ensures Wrote(messages, config, actions, k, m.content)
  {
    hide IsSummary, Compacted, Wrote;
    if actions == [] {
      assert false;
    } else {
      var init, a := actions[..|actions| - 1], actions[|actions| - 1];
      assert a in actions && forall x :: x in init ==> x in actions;
      var before := Run(messages, config, init);
      if m in before {
        k := SummarySays(messages, config, init, m);
        WroteBefore(messages, config, actions, k, m.content);
      } else {
        match a
        case Append(x) => assert false;
        case Compaction(generate) =>
          var result := Compacted(before, config, generate);
          var i :| 0 <= i < |result| && result[i] == m;
          CompactedFrom(before, config, generate, i);
          k := |init|;
          WroteLast(messages, config, actions, m.content);
      }
    }
  }

  lemma WroteLast(messages: seq<Message>, config: Config, actions: seq<Action>, text: string)
    requires actions != [] && actions[|actions| - 1].Compaction?
    requires var before, generate := Run(messages, config, actions[..|actions| - 1]),
               actions[|actions| - 1].generate;
             Compactable(before, config) && generate(Past(before, config)).Some?
             && text == SUMMARY_PREFIX + "\n" + generate(Past(before, config)).value
    ensures Wrote(messages, config, actions, |actions| - 1, text)
  {
  }
}
