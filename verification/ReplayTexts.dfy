/** What the model reads: which texts, contents, arguments and images of a history reach it, in
    which order, and in which kind of message. */
module ReplayTexts {
  import Compaction
  import opened Transcripts
  import opened Pairing
  import opened HistoryMemory
  import opened ReplayBalance
  import opened ReplayProofs
  import opened Sequences

  // ----- what reaches the model, by kind

  datatype Prompt = Prompt(text: string, images: nat)

  function Returned(parts: seq<Part>): seq<Outcome> {
    if parts == [] then []
    else
      var p := parts[|parts| - 1];
      Returned(parts[..|parts| - 1]) + if p.ReturnPart? then [Outcome(p.name, p.id, p.content)] else []
  }

  function Prompted(parts: seq<Part>): seq<Prompt> {
    if parts == [] then []
    else
      var p := parts[|parts| - 1];
      Prompted(parts[..|parts| - 1]) + if p.PromptPart? then [Prompt(p.text, p.images)] else []
  }

  function Said(parts: seq<Part>): seq<string> {
    if parts == [] then []
    else
      var p := parts[|parts| - 1];
      Said(parts[..|parts| - 1]) + if p.TextPart? then [p.text] else []
  }

  function Called(parts: seq<Part>): seq<Call> {
    if parts == [] then []
    else
      var p := parts[|parts| - 1];
      Called(parts[..|parts| - 1]) + if p.CallPart? then [Call(p.name, p.id, p.args)] else []
  }

  lemma NoParts()
    ensures Returned([]) == [] && Prompted([]) == [] && Said([]) == [] && Called([]) == []
  {
  }

  lemma PartNext(parts: seq<Part>, p: Part)
    ensures Returned(parts + [p]) == Returned(parts) + if p.ReturnPart? then [Outcome(p.name, p.id, p.content)] else []
    ensures Prompted(parts + [p]) == Prompted(parts) + if p.PromptPart? then [Prompt(p.text, p.images)] else []
    ensures Said(parts + [p]) == Said(parts) + if p.TextPart? then [p.text] else []
    ensures Called(parts + [p]) == Called(parts) + if p.CallPart? then [Call(p.name, p.id, p.args)] else []
  {
    assert (parts + [p])[..|parts|] == parts;
  }

  lemma {:induction false} Joined(a: seq<Part>, b: seq<Part>)
    ensures Returned(a + b) == Returned(a) + Returned(b) && Prompted(a + b) == Prompted(a) + Prompted(b)
    ensures Said(a + b) == Said(a) + Said(b) && Called(a + b) == Called(a) + Called(b)
  {
    hide Returned, Prompted, Said, Called;
    if b == [] {
      NoParts();
      assert a + b == a && Returned(a) + [] == Returned(a) && Prompted(a) + [] == Prompted(a);
      assert Said(a) + [] == Said(a) && Called(a) + [] == Called(a);
    } else {
      var init, p := b[..|b| - 1], b[|b| - 1];
      Joined(a, init);
      assert b == init + [p] && a + b == (a + init) + [p];
      PartNext(init, p);
      PartNext(a + init, p);
    }
  }

  lemma OnePart(p: Part)
    ensures Returned([p]) == if p.ReturnPart? then [Outcome(p.name, p.id, p.content)] else []
    ensures Prompted([p]) == if p.PromptPart? then [Prompt(p.text, p.images)] else []
    ensures Said([p]) == if p.TextPart? then [p.text] else []
    ensures Called([p]) == if p.CallPart? then [Call(p.name, p.id, p.args)] else []
  {
    PartNext([], p);
    assert [] + [p] == [p];
  }

  // ----- what a history holds, by kind

  /** The results of a row: its own, then those it carries. */
  function Entries(m: Message): seq<Outcome> {
    [Outcome(m.name, m.id, m.content)] + m.results
  }

  function NamedOnly(entries: seq<Outcome>): seq<Outcome> {
    if entries == [] then []
    else
      var e := entries[|entries| - 1];
      NamedOnly(entries[..|entries| - 1]) + if e.name != "" then [e] else []
  }

  function Results(messages: seq<Message>): seq<Outcome> {
    if messages == [] then []
    else
      var m := messages[|messages| - 1];
      Results(messages[..|messages| - 1]) + if m.role == Tool then NamedOnly(Entries(m)) else []
  }

  function UserPrompts(messages: seq<Message>): seq<Prompt> {
    if messages == [] then []
    else
      var m := messages[|messages| - 1];
      UserPrompts(messages[..|messages| - 1])
      + if m.role == User && (m.content != "" || m.images > 0) then [Prompt(m.content, m.images)] else []
  }

  function Summaries(messages: seq<Message>): seq<Prompt> {
    if messages == [] then []
    else
      var m := messages[|messages| - 1];
      Summaries(messages[..|messages| - 1])
      + if m.role == System && Compaction.SUMMARY_PREFIX <= m.content then [Prompt(m.content, 0)] else []
  }

  function AssistantTexts(messages: seq<Message>): seq<string> {
    if messages == [] then []
    else
      var m := messages[|messages| - 1];
      AssistantTexts(messages[..|messages| - 1])
      + if m.role == Assistant && m.content != "" then [m.content] else []
  }

  // ----- the parts of one message

  lemma NothingNamedOnly()
    ensures NamedOnly([]) == []
  {
  }

  lemma NamedOnlyNext(entries: seq<Outcome>, e: Outcome)
    ensures NamedOnly(entries + [e]) == NamedOnly(entries) + if e.name != "" then [e] else []
  {
    assert (entries + [e])[..|entries|] == entries;
  }

  lemma {:induction false} NamedOnlyFirst(e: Outcome, rest: seq<Outcome>)
    ensures NamedOnly([e] + rest) == (if e.name != "" then [e] else []) + NamedOnly(rest)
  {
    hide NamedOnly;
    NothingNamedOnly();
    if rest == [] {
      NamedOnlyNext([], e);
      assert [e] + rest == [] + [e];
    } else {
      var init, last := rest[..|rest| - 1], rest[|rest| - 1];
      NamedOnlyFirst(e, init);
      assert rest == init + [last] && [e] + rest == ([e] + init) + [last];
      NamedOnlyNext(init, last);
      NamedOnlyNext([e] + init, last);
      Regroup(if e.name != "" then [e] else [], NamedOnly(init), if last.name != "" then [last] else []);
    }
  }

  lemma {:induction false} ResultsReturn(results: seq<Outcome>)
    ensures Returned(ResultParts(results)) == NamedOnly(results)
    ensures Prompted(ResultParts(results)) == [] && Said(ResultParts(results)) == []
    ensures Called(ResultParts(results)) == []
  {
    hide Returned, Prompted, Said, Called, NamedOnly;
    if results == [] {
      NoParts();
      NothingNamedOnly();
    } else {
      var r, rest := results[0], results[1..];
      ResultsReturn(rest);
      assert results == [r] + rest;
      NamedOnlyFirst(r, rest);
      var part := ReturnPart(r.name, r.content, r.id);
      if r.name != "" {
        OnePart(part);
        Joined([part], ResultParts(rest));
      } else {
        assert [] + ResultParts(rest) == ResultParts(rest) && [] + NamedOnly(rest) == NamedOnly(rest);
      }
    }
  }

  /** A row's return parts are its named entries, contents and ids included, in order. */
  lemma RowReturns(m: Message)
    ensures Returned(ReturnParts(m)) == NamedOnly(Entries(m))
    ensures Prompted(ReturnParts(m)) == [] && Said(ReturnParts(m)) == [] && Called(ReturnParts(m)) == []
  {
    hide Returned, Prompted, Said, Called, NamedOnly, ResultParts;
    ResultsReturn(m.results);
    var own := Outcome(m.name, m.id, m.content);
    NamedOnlyFirst(own, m.results);
    var part := ReturnPart(m.name, m.content, m.id);
    if m.name != "" {
      OnePart(part);
      Joined([part], ResultParts(m.results));
    } else {
      assert [] + ResultParts(m.results) == ResultParts(m.results);
    }
  }

  lemma {:induction false} CallsCalled(calls: seq<Call>)
    ensures Called(CallParts(calls)) == NamedCalls(calls)
    ensures Prompted(CallParts(calls)) == [] && Said(CallParts(calls)) == [] && Returned(CallParts(calls)) == []
  {
    hide Returned, Prompted, Said, Called;
    if calls == [] {
      NoParts();
    } else {
      var init, c := calls[..|calls| - 1], calls[|calls| - 1];
      CallsCalled(init);
      var part := CallPart(c.name, c.args, c.id);
      OnePart(part);
      Joined(CallParts(init), [part]);
      assert CallParts(init) + [] == CallParts(init) && NamedCalls(init) + [] == NamedCalls(init);
    }
  }

  /** Calls made up for returns that have none carry no arguments. */
  predicate NoArgs(calls: seq<Call>) {
    forall c :: c in calls ==> c.args == ""
  }

  lemma {:induction false} SyntheticCalled(l: Ledger, who: seq<Identity>)
    ensures var parts := ClaimAll(l, who).synthetic;
            && NoArgs(Called(parts))
            && Prompted(parts) == [] && Said(parts) == [] && Returned(parts) == []
  {
    hide Returned, Prompted, Said, Called;
    if who == [] {
      NoParts();
    } else {
      var init, w := who[..|who| - 1], who[|who| - 1];
      SyntheticCalled(l, init);
      var part := CallPart(w.name, "", w.id);
      OnePart(part);
      Joined(ClaimAll(l, init).synthetic, [part]);
    }
  }

  // ----- all parts

  /** The history's calls, in order, with calls without arguments among them. */
  ghost predicate Interleaves(calls: seq<Call>, own: seq<Call>) {
    if calls == [] then own == []
    else
      var init, c := calls[..|calls| - 1], calls[|calls| - 1];
      || (own != [] && own[|own| - 1] == c && Interleaves(init, own[..|own| - 1]))
      || (c.args == "" && Interleaves(init, own))
  }

  lemma {:induction false} InterleavesOwn(calls: seq<Call>, own: seq<Call>, more: seq<Call>)
    requires Interleaves(calls, own)
    ensures Interleaves(calls + more, own + more)
  {
    if more == [] {
      assert calls + more == calls && own + more == own;
    } else {
      var init := more[..|more| - 1];
      InterleavesOwn(calls, own, init);
      var a, b := calls + more, own + more;
      assert a[..|a| - 1] == calls + init && b[..|b| - 1] == own + init;
    }
  }

  lemma {:induction false} InterleavesSynthetic(calls: seq<Call>, own: seq<Call>, more: seq<Call>)
    requires Interleaves(calls, own) && NoArgs(more)
    ensures Interleaves(calls + more, own)
  {
    if more == [] {
      assert calls + more == calls;
    } else {
      var init, a := more[..|more| - 1], calls + more;
      assert more[|more| - 1] in more;
      InterleavesSynthetic(calls, own, init);
      assert a[..|a| - 1] == calls + init;
    }
  }

  lemma NothingHeld()
    ensures Results([]) == [] && UserPrompts([]) == [] && Summaries([]) == [] && AssistantTexts([]) == []
    ensures NumberedCalls([]) == [] && Interleaves([], [])
  {
  }

  lemma HeldNext(messages: seq<Message>, m: Message)
    ensures Results(messages + [m]) ==
            Results(messages) + if m.role == Tool then NamedOnly(Entries(m)) else []
    ensures UserPrompts(messages + [m]) ==
            UserPrompts(messages)
            + if m.role == User && (m.content != "" || m.images > 0) then [Prompt(m.content, m.images)]
              else []
    ensures AssistantTexts(messages + [m]) ==
            AssistantTexts(messages)
            + if m.role == Assistant && m.content != "" then [m.content] else []
    ensures Summaries(messages + [m]) ==
            Summaries(messages)
            + if m.role == System && Compaction.SUMMARY_PREFIX <= m.content then [Prompt(m.content, 0)] else []
  {
    assert (messages + [m])[..|messages|] == messages;
  }

  /** What one message adds, by kind. */
  lemma AddedHolds(r: Replay, m: Message)
    ensures var parts := Added(r, m);
            && Returned(parts) == (if m.role == Tool then NamedOnly(Entries(m)) else [])
            && Prompted(parts) == (if m.role == User && (m.content != "" || m.images > 0)
                                   then [Prompt(m.content, m.images)] else [])
            && Said(parts) == (if m.role == Assistant && m.content != "" then [m.content] else [])
    ensures m.role == Assistant ==> Called(Added(r, m)) == NamedCalls(m.calls)
    ensures m.role != Assistant ==> NoArgs(Called(Added(r, m)))
  {
    hide Returned, Prompted, Said, Called, NamedOnly, ReturnParts, CallParts, ClaimAll, RowIdentities, NamedCalls;
    NoParts();
    if m.role == User {
      OnePart(PromptPart(m.content, m.images));
    } else if m.role == Assistant {
      CallsCalled(m.calls);
      OnePart(TextPart(m.content));
      Joined(if m.content != "" then [TextPart(m.content)] else [], CallParts(m.calls));
    } else if m.role == Tool {
      RowReturns(m);
      SyntheticCalled(r.ledger, RowIdentities(m));
      Joined(ClaimAll(r.ledger, RowIdentities(m)).synthetic, ReturnParts(m));
    }
  }

  lemma {:induction false} ModelHolds(messages: seq<Message>)
    ensures var parts := Flatten(ReplayAll(messages).model);
            && Returned(parts) == Results(messages) && Prompted(parts) == UserPrompts(messages)
            && Said(parts) == AssistantTexts(messages) && Interleaves(Called(parts), NumberedCalls(messages))
  {
    hide Returned, Prompted, Said, Called, Results, UserPrompts, AssistantTexts, Summaries, NumberedCalls, Interleaves;
    hide Added, StepReplay, NamedOnly, NamedCalls;
    if messages == [] {
      NothingHeld();
      NoParts();
    } else {
      var init, m := messages[..|messages| - 1], messages[|messages| - 1];
      assert messages == init + [m];
      ModelHolds(init);
      var r := ReplayAll(init);
      FlattenStep(r, m);
      Joined(Flatten(r.model), Added(r, m));
      AddedHolds(r, m);
      HeldNext(init, m);
      NumberedNext(init, m);
      var calls := Called(Flatten(r.model));
      if m.role == Assistant {
        InterleavesOwn(calls, NumberedCalls(init), NamedCalls(m.calls));
      } else {
        InterleavesSynthetic(calls, NumberedCalls(init), Called(Added(r, m)));
        assert NumberedCalls(init) + [] == NumberedCalls(init);
      }
    }
  }

  lemma ReplayStart()
    ensures ReplayAll([]) == Replay(EMPTY, [], []) && Flatten([]) == []
  {
  }

  /** Only a summary adds to the front part. */
  lemma ContextNext(r: Replay, m: Message)
    ensures Flatten(StepReplay(r, m).context) ==
            if m.role == System && Compaction.SUMMARY_PREFIX <= m.content
            then Flatten(r.context) + [PromptPart(m.content, 0)] else Flatten(r.context)
  {
    hide ClaimAll, Issue, RowIdentities, Flatten;
    FlattenOne(r.context, Request([PromptPart(m.content, 0)]));
  }

  lemma {:induction false} ContextHolds(messages: seq<Message>)
    ensures var parts := Flatten(ReplayAll(messages).context);
            && Prompted(parts) == Summaries(messages) && Returned(parts) == [] && Said(parts) == []
            && Called(parts) == []
  {
    hide Returned, Prompted, Said, Called, Results, UserPrompts, AssistantTexts, Summaries;
    hide ReplayAll, StepReplay, Flatten;
    if messages == [] {
      ReplayStart();
      NothingHeld();
      NoParts();
    } else {
      var init, m := messages[..|messages| - 1], messages[|messages| - 1];
      assert messages == init + [m];
      ContextHolds(init);
      HeldNext(init, m);
      var r := ReplayAll(init);
      ReplayPiece(init, [m]);
      ContextNext(r, m);
      NoParts();
      if m.role == System && Compaction.SUMMARY_PREFIX <= m.content {
        var part := PromptPart(m.content, 0);
        OnePart(part);
        Joined(Flatten(r.context), [part]);
      } else {
        assert Summaries(init) + [] == Summaries(init);
      }
    }
  }

  /** Everything the model reads: the kept summaries, then the user's prompts with their
      images; every text of an assistant; of every row of role `Tool` its named results with
      name, id and content; and every named call of an assistant with its arguments, among
      calls without arguments. Each kind is in the order of the history. */
  lemma ModelReads(messages: seq<Message>)
    ensures var parts := Flatten(ToModel(messages));
            && Prompted(parts) == Summaries(messages) + UserPrompts(messages)
            && Said(parts) == AssistantTexts(messages)
            && Returned(parts) == Results(messages)
            && Interleaves(Called(parts), NumberedCalls(messages))
  {
    hide Returned, Prompted, Said, Called, Results, UserPrompts, AssistantTexts, Summaries, NumberedCalls, Interleaves;
    hide Flatten, ReplayAll;
    var r := ReplayAll(messages);
    ModelHolds(messages);
    ContextHolds(messages);
    FlattenConcat(r.context, r.model);
    Joined(Flatten(r.context), Flatten(r.model));
    assert [] + Said(Flatten(r.model)) == Said(Flatten(r.model));
    assert [] + Returned(Flatten(r.model)) == Returned(Flatten(r.model));
    assert [] + Called(Flatten(r.model)) == Called(Flatten(r.model));
  }

  // ----- one kind of message at a time

  /** A request has prompts or returns; a response has at most one text, first, and calls. */
  predicate Regular(m: ModelMessage) {
    && m.parts != []
    && match m
       case Request(parts) => (forall p :: p in parts ==> p.PromptPart?) || (forall p :: p in parts ==> p.ReturnPart?)
       case Response(parts) => (parts[0].TextPart? || parts[0].CallPart?) && forall p :: p in parts[1..] ==> p.CallPart?
  }

  /** What one message appends: nothing, one message, or made-up calls and then returns. */
  predicate Appends(more: seq<ModelMessage>) {
    && |more| <= 2 && (forall x :: x in more ==> Regular(x))
    && (|more| == 2 ==> more[0].Response? && more[1].Request?)
  }

  lemma {:induction false} CallPartsOnly(calls: seq<Call>)
    ensures forall p :: p in CallParts(calls) ==> p.CallPart?
  {
    if calls != [] {
      CallPartsOnly(calls[..|calls| - 1]);
    }
  }

  lemma {:induction false} ReturnPartsOnly(results: seq<Outcome>)
    ensures forall p :: p in ResultParts(results) ==> p.ReturnPart?
  {
    if results != [] {
      ReturnPartsOnly(results[1..]);
    }
  }

  lemma ResponseRegular(m: Message)
    ensures ResponseParts(m) != [] ==> Regular(Response(ResponseParts(m)))
  {
    CallPartsOnly(m.calls);
    var calls, all := CallParts(m.calls), ResponseParts(m);
    if all != [] {
      if m.content != "" {
        assert all[1..] == calls;
      } else {
        assert all == calls && all[0] in calls;
        assert forall p :: p in all[1..] ==> p in calls;
      }
    }
  }

  lemma RowRegular(r: Replay, m: Message)
    ensures var c, returned := ClaimAll(r.ledger, RowIdentities(m)).synthetic, ReturnParts(m);
            && (c != [] ==> Regular(Response(c))) && (returned != [] ==> Regular(Request(returned)))
  {
    hide ClaimAll, RowIdentities;
    SyntheticAreCalls(r.ledger, RowIdentities(m));
    ReturnPartsOnly(m.results);
    var c := ClaimAll(r.ledger, RowIdentities(m)).synthetic;
    if c != [] {
      assert c[0] in c && forall p :: p in c[1..] ==> p in c;
    }
  }

  /** Replaying one message more appends to what the model got before, and a kept summary goes
      to the front part instead. */
  lemma ReplayAppends(messages: seq<Message>, m: Message)
    ensures var before, after := ReplayAll(messages), ReplayAll(messages + [m]);
            && before.model <= after.model && before.context <= after.context
            && Appends(after.model[|before.model|..])
            && (m.role != System ==> after.context == before.context)
            && (m.role == System ==> after.model == before.model)
  {
    hide ClaimAll, RowIdentities, ReturnParts, ResponseParts, Regular, ReplayAll;
    ReplayPiece(messages, [m]);
    var r := ReplayAll(messages);
    if m.role == User {
      assert [PromptPart(m.content, m.images)][0].PromptPart?;
      PromptRegular(m);
    } else if m.role == Assistant {
      ResponseRegular(m);
    } else if m.role == Tool {
      RowRegular(r, m);
    }
  }

  lemma PromptRegular(m: Message)
    ensures Regular(Request([PromptPart(m.content, m.images)]))
  {
  }
}
