/** Replay of a stored transcript to the model: identity repair, removal of unresolved
    tool calls, and conversion into model requests and responses. */
module HistoryMemory {
  import Compaction
  import opened Wrappers
  import opened Transcripts
  import opened Pairing

  /** The state of a matching pass: its ledger and the messages it has gone through. */
  datatype Pass = Pass(ledger: Ledger, rows: seq<Message>)

  const START := Pass(EMPTY, [])

  // ----- specification of build_message_history

  function StepBuild(p: Pass, m: Message): Pass {
    var l := Issue(p.ledger, m.calls, false);
    if m.role != Tool then Pass(l, p.rows + [m])
    else
      var row := Fill(m, Infer(m, l.pending));
      Pass(Settle(l, Pick(l.pending, row.Own())), p.rows + [row])
  }

  function Repair(transcript: seq<Message>): Pass {
    if transcript == [] then START
    else StepBuild(Repair(transcript[..|transcript| - 1]), transcript[|transcript| - 1])
  }

  function StepMatch(p: Pass, m: Message): Pass {
    if m.role == Assistant then Pass(Issue(p.ledger, m.calls, false), p.rows + [m])
    else if m.role != Tool then Pass(p.ledger, p.rows + [m])
    else
      var row := Fill(m, Infer(m, p.ledger.pending));
      Pass(Settle(p.ledger, PickOrOnly(p.ledger.pending, row.Own())), p.rows + [row])
  }

  function Match(messages: seq<Message>): Pass {
    if messages == [] then START
    else StepMatch(Match(messages[..|messages| - 1]), messages[|messages| - 1])
  }

  /** What the second pass makes of one message: nothing, or the message with the calls
      whose key was matched. */
  function SiftOne(m: Message, count: nat, matched: set<Key>): seq<Message> {
    if m.role != Assistant then [m]
    else if m.calls == [] then if m.content != "" then [m] else []
    else
      var kept := Keep(m.calls, count, matched, false).calls;
      if kept != [] || m.content != "" then [m.(calls := kept)] else []
  }

  function CountAfter(m: Message, count: nat, matched: set<Key>): nat {
    if m.role == Assistant then Keep(m.calls, count, matched, false).count else count
  }

  datatype Sifted = Sifted(rows: seq<Message>, count: nat)

  function Sift(messages: seq<Message>, matched: set<Key>): Sifted {
    if messages == [] then Sifted([], 0)
    else
      var s := Sift(messages[..|messages| - 1], matched);
      var m := messages[|messages| - 1];
      Sifted(s.rows + SiftOne(m, s.count, matched), CountAfter(m, s.count, matched))
  }

  function Strip(messages: seq<Message>): seq<Message> {
    var p := Match(messages);
    Sift(p.rows, p.ledger.matched).rows
  }

  function BuildHistory(transcript: seq<Message>): seq<Message> {
    Strip(Repair(transcript).rows)
  }

  // ----- specification of to_model_message_history

  datatype Part =
    | PromptPart(text: string, images: nat)
    | TextPart(text: string)
    | CallPart(name: string, args: string, id: string)
    | ReturnPart(name: string, content: string, id: string)

  datatype ModelMessage = Request(parts: seq<Part>) | Response(parts: seq<Part>)

  function IsSummary(content: string): bool {
    Compaction.SUMMARY_PREFIX <= content
  }

  function CallParts(calls: seq<Call>): seq<Part> {
    if calls == [] then []
    else
      var call := calls[|calls| - 1];
      CallParts(calls[..|calls| - 1]) +
      (if call.name != "" then [CallPart(call.name, call.args, call.id)] else [])
  }

  function ResultParts(results: seq<Outcome>): seq<Part> {
    if results == [] then []
    else
      var r := results[0];
      (if r.name != "" then [ReturnPart(r.name, r.content, r.id)] else []) + ResultParts(results[1..])
  }

  function ReturnParts(m: Message): seq<Part> {
    (if m.name != "" then [ReturnPart(m.name, m.content, m.id)] else []) + ResultParts(m.results)
  }

  datatype Claims = Claims(ledger: Ledger, synthetic: seq<Part>)

  function ClaimOne(c: Claims, who: Identity): Claims {
    var i := Pick(c.ledger.pending, who);
    if i >= 0 then c.(ledger := Settle(c.ledger, i))
    else if who.name != "" then c.(synthetic := c.synthetic + [CallPart(who.name, "", who.id)])
    else c
  }

  /** Each identity of a row claims a pending call; a named one that finds none gets a
      synthetic call. */
  function ClaimAll(l: Ledger, who: seq<Identity>): Claims {
    if who == [] then Claims(l, [])
    else ClaimOne(ClaimAll(l, who[..|who| - 1]), who[|who| - 1])
  }

  datatype Replay = Replay(ledger: Ledger, context: seq<ModelMessage>, model: seq<ModelMessage>)

  function OneUnless(parts: seq<Part>, m: ModelMessage): seq<ModelMessage> {
    if parts == [] then [] else [m]
  }

  function ResponseParts(m: Message): seq<Part> {
    (if m.content != "" then [TextPart(m.content)] else []) + CallParts(m.calls)
  }

  function StepReplay(r: Replay, m: Message): Replay {
    match m.role
    case User =>
      if m.content != "" || m.images > 0 then
        r.(model := r.model + [Request([PromptPart(m.content, m.images)])])
      else r
    case System =>
      if m.content != "" && IsSummary(m.content) then
        r.(context := r.context + [Request([PromptPart(m.content, 0)])])
      else r
    case Assistant =>
      var parts := ResponseParts(m);
      r.(ledger := Issue(r.ledger, m.calls, false), model := r.model + OneUnless(parts, Response(parts)))
    case Tool =>
      var c := ClaimAll(r.ledger, RowIdentities(m));
      r.(ledger := c.ledger,
         model := r.model + OneUnless(c.synthetic, Response(c.synthetic))
                  + OneUnless(ReturnParts(m), Request(ReturnParts(m))))
    case _ => r
  }

  function ReplayAll(messages: seq<Message>): Replay {
    if messages == [] then Replay(EMPTY, [], [])
    else StepReplay(ReplayAll(messages[..|messages| - 1]), messages[|messages| - 1])
  }

  function ToModel(messages: seq<Message>): seq<ModelMessage> {
    var r := ReplayAll(messages);
    r.context + r.model
  }

  // ----- the loops

  method ScanForId(pending: seq<Pending>, id: string) returns (i: int)
    ensures i == FirstWithId(pending, id)
  {
    i := 0;
    while i < |pending|
      invariant 0 <= i <= |pending|
      invariant forall k :: 0 <= k < i ==> pending[k].call.id != id
    {
      if pending[i].call.id == id { return; }
      i := i + 1;
    }
    return -1;
  }

  method ScanForName(pending: seq<Pending>, name: string) returns (i: int)
    ensures i == FirstWithName(pending, name)
  {
    i := 0;
    while i < |pending|
      invariant 0 <= i <= |pending|
      invariant forall k :: 0 <= k < i ==> pending[k].call.name != name
    {
      if pending[i].call.name == name { return; }
      i := i + 1;
    }
    return -1;
  }

  /** `_consume_pending_model_tool_call`, and `_consume_pending_tool_call` when the
      result is ignored. */
  method ConsumePending(pending: seq<Pending>, name: string, id: string)
    returns (rest: seq<Pending>, found: bool)
    ensures var i := Pick(pending, Identity(name, id));
            found == (i >= 0) && rest == Without(pending, i)
  {
    if id != "" {
      var i := ScanForId(pending, id);
      if i >= 0 {
        return pending[..i] + pending[i + 1..], true;
      }
    }
    if name != "" {
      var i := ScanForName(pending, name);
      if i >= 0 {
        return pending[..i] + pending[i + 1..], true;
      }
    }
    return pending, false;
  }

  /** `_consume_pending_tool_call_with_key`; `None` stands for the empty key. */
  method ConsumePendingWithKey(pending: seq<Pending>, name: string, id: string)
    returns (rest: seq<Pending>, key: Option<Key>)
    ensures var i := PickOrOnly(pending, Identity(name, id));
            rest == Without(pending, i) && key == if i < 0 then None else Some(pending[i].MatchKey())
  {
    hide FirstWithId, FirstWithName;
    if id != "" {
      var i := ScanForId(pending, id);
      if i >= 0 {
        return pending[..i] + pending[i + 1..], Some(pending[i].MatchKey());
      }
    }
    if name != "" {
      var i := ScanForName(pending, name);
      if i >= 0 {
        return pending[..i] + pending[i + 1..], Some(pending[i].MatchKey());
      }
    }
    if |pending| == 1 {
      WithoutFirst(pending);
      return pending[1..], Some(pending[0].MatchKey());
    }
    return pending, None;
  }

  method InferIdentity(m: Message, pending: seq<Pending>) returns (who: Identity)
    ensures who == Infer(m, pending)
  {
    if !m.Own().Blank() {
      return m.Own();
    }
    for i := 0 to |m.results|
      invariant ResultIdentities(m.results) == ResultIdentities(m.results[i..])
    {
      if !m.results[i].Who().Blank() {
        return m.results[i].Who();
      }
    }
    if |pending| == 1 {
      return pending[0].Who();
    }
    for i := 0 to |pending|
      invariant FirstIdentity(pending) == FirstIdentity(pending[i..])
    {
      if !pending[i].Who().Blank() {
        return pending[i].Who();
      }
    }
    return Identity("", "");
  }

  method RegisterCalls(ghost l: Ledger, calls: seq<Call>, pending: seq<Pending>, counter: nat)
    returns (pending': seq<Pending>, counter': nat)
    requires pending == l.pending && counter == |l.issued|
    ensures pending' == Issue(l, calls, false).pending && counter' == |Issue(l, calls, false).issued|
  {
    pending', counter' := pending, counter;
    assert calls[..0] == [];
    for i := 0 to |calls|
      invariant pending' == Issue(l, calls[..i], false).pending
      invariant counter' == |Issue(l, calls[..i], false).issued|
    {
      assert calls[..i + 1][..i] == calls[..i];
      if calls[i].name != "" {
        pending' := pending' + [Pending(calls[i], counter')];
        counter' := counter' + 1;
      }
    }
    assert calls[..|calls|] == calls;
  }

  method FilterCalls(calls: seq<Call>, counter: nat, matched: set<Key>)
    returns (kept: seq<Call>, counter': nat)
    ensures Kept(kept, counter') == Keep(calls, counter, matched, false)
  {
    kept, counter' := [], counter;
    for i := 0 to |calls|
      invariant Kept(kept, counter') == Keep(calls[..i], counter, matched, false)
    {
      assert calls[..i + 1][..i] == calls[..i];
      if calls[i].name != "" {
        if KeyOf(calls[i], counter') in matched {
          kept := kept + [calls[i]];
        }
        counter' := counter' + 1;
      }
    }
    assert calls[..|calls|] == calls;
  }

  lemma MatchNext(messages: seq<Message>, i: nat)
    requires i < |messages|
    ensures Match(messages[..i + 1]) == StepMatch(Match(messages[..i]), messages[i])
  {
    assert messages[..i + 1][..i] == messages[..i];
  }

  lemma SiftNext(messages: seq<Message>, i: nat, matched: set<Key>)
    requires i < |messages|
    ensures var s, m := Sift(messages[..i], matched), messages[i];
            Sift(messages[..i + 1], matched) ==
            Sifted(s.rows + SiftOne(m, s.count, matched), CountAfter(m, s.count, matched))
  {
    assert messages[..i + 1][..i] == messages[..i];
  }

  lemma IssueNone(l: Ledger)
    ensures Issue(l, [], false) == l
  {
  }

  lemma KeepNothing(count: nat, matched: set<Key>)
    ensures Keep([], count, matched, false) == Kept([], count)
  {
  }

  /** The second loop of `_strip_unmatched_tool_calls`. */
  method SiftLoop(messages: array<Message>, matched: set<Key>) returns (sanitized: seq<Message>)
    ensures sanitized == Sift(messages[..], matched).rows
  {
    sanitized := [];
    var counter := 0;
    for i := 0 to messages.Length
      invariant Sifted(sanitized, counter) == Sift(messages[..i], matched)
    {
      hide Sift, Keep;
      assert messages[..i + 1] == messages[..i] + [messages[i]];
      SiftNext(messages[..], i, matched);
      KeepNothing(counter, matched);
      var m := messages[i];
      if m.role != Assistant {
        sanitized := sanitized + [m];
      } else if m.calls == [] {
        if m.content != "" {
          sanitized := sanitized + [m];
        }
      } else {
        var kept;
        kept, counter := FilterCalls(m.calls, counter, matched);
        if kept != [] || m.content != "" {
          sanitized := sanitized + [m.(calls := kept)];
        }
      }
    }
    assert messages[..messages.Length] == messages[..];
  }

  /** `_strip_unmatched_tool_calls`: the first loop also writes inferred identities
      into the rows it is given. */
  method StripUnmatchedToolCalls(messages: array<Message>) returns (sanitized: seq<Message>)
    modifies messages
    ensures messages[..] == Match(old(messages[..])).rows
    ensures sanitized == Strip(old(messages[..]))
  {
    ghost var input := messages[..];
    var pending, matched, counter := [], {}, 0;
    for i := 0 to messages.Length
      invariant Match(input[..i]).ledger.pending == pending
      invariant Match(input[..i]).ledger.matched == matched
      invariant |Match(input[..i]).ledger.issued| == counter
      invariant messages[..i] == Match(input[..i]).rows
      invariant forall k :: i <= k < messages.Length ==> messages[k] == input[k]
    {
      hide Match, Issue, Infer, PickOrOnly, Fill, Without;
      ghost var p := Match(input[..i]);
      MatchNext(input, i);
      var m := messages[i];
      if m.role == Assistant {
        IssueKeepsMatched(p.ledger, m.calls);
        pending, counter := RegisterCalls(p.ledger, m.calls, pending, counter);
      }
      if m.role == Tool {
        var who := InferIdentity(m, pending);
        messages[i] := Fill(m, who);
        var key;
        pending, key := ConsumePendingWithKey(pending, messages[i].name, messages[i].id);
        if key.Some? {
          matched := matched + {key.value};
        }
      }
      assert messages[..i + 1] == messages[..i] + [messages[i]];
    }
    assert input[..messages.Length] == input && messages[..messages.Length] == messages[..];
    sanitized := SiftLoop(messages, matched);
  }

  lemma {:induction false} IssueKeepsMatched(l: Ledger, calls: seq<Call>)
    ensures Issue(l, calls, false).matched == l.matched
  {
    if calls != [] {
      IssueKeepsMatched(l, calls[..|calls| - 1]);
    }
  }

  method BuildMessageHistory(transcript: seq<Message>) returns (history: seq<Message>)
    ensures history == BuildHistory(transcript)
  {
    var messages, pending, counter := [], [], 0;
    for i := 0 to |transcript|
      invariant Repair(transcript[..i]).ledger.pending == pending
      invariant |Repair(transcript[..i]).ledger.issued| == counter
      invariant Repair(transcript[..i]).rows == messages
    {
      assert transcript[..i + 1][..i] == transcript[..i];
      ghost var p := Repair(transcript[..i]);
      var m := transcript[i];
      pending, counter := RegisterCalls(p.ledger, m.calls, pending, counter);
      if m.role == Tool {
        var who := InferIdentity(m, pending);
        m := Fill(m, who);
        var found;
        pending, found := ConsumePending(pending, m.name, m.id);
      }
      messages := messages + [m];
    }
    assert transcript[..|transcript|] == transcript;
    var list := new Message[|messages|](i requires 0 <= i < |messages| => messages[i]);
    assert list[..] == messages;
    history := StripUnmatchedToolCalls(list);
  }

  lemma ClaimNext(l: Ledger, who: seq<Identity>, i: nat)
    requires i < |who|
    ensures ClaimAll(l, who[..i + 1]) == ClaimOne(ClaimAll(l, who[..i]), who[i])
  {
    assert who[..i + 1][..i] == who[..i];
  }

  /** `_build_synthetic_tool_call_parts_for_orphan_returns`. */
  method BuildSyntheticCalls(ghost l: Ledger, pending: seq<Pending>, m: Message)
    returns (pending': seq<Pending>, parts: seq<Part>)
    requires pending == l.pending
    ensures var c := ClaimAll(l, RowIdentities(m)); pending' == c.ledger.pending && parts == c.synthetic
  {
    var who := RowIdentities(m);
    pending', parts := pending, [];
    for i := 0 to |who|
      invariant pending' == ClaimAll(l, who[..i]).ledger.pending
      invariant parts == ClaimAll(l, who[..i]).synthetic
    {
      hide ClaimAll, Pick;
      ClaimNext(l, who, i);
      var found;
      pending', found := ConsumePending(pending', who[i].name, who[i].id);
      if !found && who[i].name != "" {
        parts := parts + [CallPart(who[i].name, "", who[i].id)];
      }
    }
    assert who[..|who|] == who;
  }

  method BuildReturnParts(m: Message) returns (parts: seq<Part>)
    ensures parts == ReturnParts(m)
  {
    parts := if m.name != "" then [ReturnPart(m.name, m.content, m.id)] else [];
    for i := 0 to |m.results|
      invariant parts + ResultParts(m.results[i..]) == ReturnParts(m)
    {
      var r := m.results[i];
      if r.name != "" {
        parts := parts + [ReturnPart(r.name, r.content, r.id)];
      }
    }
  }

  method RegisterParts(calls: seq<Call>) returns (parts: seq<Part>)
    ensures parts == CallParts(calls)
  {
    parts := [];
    for i := 0 to |calls|
      invariant parts == CallParts(calls[..i])
    {
      assert calls[..i + 1][..i] == calls[..i];
      if calls[i].name != "" {
        parts := parts + [CallPart(calls[i].name, calls[i].args, calls[i].id)];
      }
    }
    assert calls[..|calls|] == calls;
  }

  lemma {:induction false} ClaimsKeepIssued(l: Ledger, who: seq<Identity>)
    ensures ClaimAll(l, who).ledger.issued == l.issued
  {
    if who != [] {
      ClaimsKeepIssued(l, who[..|who| - 1]);
    }
  }

  lemma ReplayNext(messages: seq<Message>, i: nat)
    requires i < |messages|
    ensures ReplayAll(messages[..i + 1]) == StepReplay(ReplayAll(messages[..i]), messages[i])
  {
    assert messages[..i + 1][..i] == messages[..i];
  }

  lemma AppendUnless(model: seq<ModelMessage>, parts: seq<Part>, m: ModelMessage)
    ensures model + OneUnless(parts, m) == if parts != [] then model + [m] else model
  {
  }

  method ToModelMessageHistory(messages: seq<Message>) returns (history: seq<ModelMessage>)
    ensures history == ToModel(messages)
  {
    var model, context, pending, counter := [], [], [], 0;
    for i := 0 to |messages|
      invariant ReplayAll(messages[..i]).ledger.pending == pending
      invariant |ReplayAll(messages[..i]).ledger.issued| == counter
      invariant ReplayAll(messages[..i]).context == context
      invariant ReplayAll(messages[..i]).model == model
    {
      hide ReplayAll, ClaimAll, Issue, CallParts, ReturnParts, RowIdentities, OneUnless, IsSummary;
      ghost var r := ReplayAll(messages[..i]);
      ReplayNext(messages, i);
      var m := messages[i];
      if m.role == User {
        if m.content != "" || m.images > 0 {
          model := model + [Request([PromptPart(m.content, m.images)])];
        }
      } else if m.role == System {
        if m.content != "" && IsSummary(m.content) {
          context := context + [Request([PromptPart(m.content, 0)])];
        }
      } else if m.role == Assistant {
        var parts := if m.content != "" then [TextPart(m.content)] else [];
        var calls := RegisterParts(m.calls);
        parts := parts + calls;
        pending, counter := RegisterCalls(r.ledger, m.calls, pending, counter);
        AppendUnless(model, parts, Response(parts));
        if parts != [] {
          model := model + [Response(parts)];
        }
      } else if m.role == Tool {
        ClaimsKeepIssued(r.ledger, RowIdentities(m));
        var synthetic;
        pending, synthetic := BuildSyntheticCalls(r.ledger, pending, m);
        AppendUnless(model, synthetic, Response(synthetic));
        if synthetic != [] {
          model := model + [Response(synthetic)];
        }
        var returned := BuildReturnParts(m);
        AppendUnless(model, returned, Request(returned));
        if returned != [] {
          model := model + [Request(returned)];
        }
      }
    }
    assert messages[..|messages|] == messages;
    history := context + model;
  }
}
