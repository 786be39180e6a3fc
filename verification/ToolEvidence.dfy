/** What one turn persists: unresolved tool calls are removed, planning text is cleared,
    the user's own words are restored and the final answer is written last. */
module ToolEvidence {
  import opened Wrappers
  import opened Transcripts
  import opened Pairing

  predicate IsToolRole(role: Role) {
    role == Tool || role == ToolAlias
  }

  function SafeStart(start: int, length: nat): (s: nat)
    ensures s <= length
  {
    Max(0, Min(start, length))
  }

  // ----- specification of _collect_matched_tool_call_keys

  /** Any message may carry results; an anonymous tool row answers the only pending call. */
  function CompletedIdentities(m: Message, pending: seq<Pending>): seq<Identity> {
    var own := if IsToolRole(m.role) && !m.Own().Blank() then [m.Own()] else [];
    var who := own + ResultIdentities(m.results);
    if who != [] then who
    else if IsToolRole(m.role) && |pending| == 1 then [pending[0].Who()]
    else []
  }

  function SettleAll(l: Ledger, who: seq<Identity>): Ledger {
    if who == [] then l
    else
      var l1 := SettleAll(l, who[..|who| - 1]);
      Settle(l1, PickOrOnly(l1.pending, who[|who| - 1]))
  }

  function StepCollect(l: Ledger, m: Message): Ledger {
    var l1 := if m.role == Assistant then Issue(l, m.calls, true) else l;
    SettleAll(l1, CompletedIdentities(m, l1.pending))
  }

  function Collect(messages: seq<Message>): Ledger {
    if messages == [] then EMPTY
    else StepCollect(Collect(messages[..|messages| - 1]), messages[|messages| - 1])
  }

  // ----- specification of _sanitize_turn_messages_for_persistence

  /** The turn's settings: `looksLikeCall` recognizes leaked tool-call text and `narrow`
      gives the narrowed content of a workflow row, if later calls select from it. */
  datatype Turn = Turn(
    start: int,
    finalAssistant: string,
    clearPlanning: bool,
    userMessage: Option<string>,
    userAttachments: bool,
    looksLikeCall: string -> bool,
    narrow: (Message, seq<Message>) -> Option<string>)

  function WithoutUnmatched(m: Message, count: nat, matched: set<Key>): Message {
    if m.calls != [] then m.(calls := Keep(m.calls, count, matched, true).calls) else m
  }

  function ClearedText(m: Message, item: Message, turn: Turn): Message {
    if turn.clearPlanning && m.role == Assistant && (m.calls != [] || turn.looksLikeCall(item.content))
    then item.(content := "")
    else item
  }

  /** What is left of a message of the turn, `count` calls after its start. */
  function ScreenOne(m: Message, count: nat, matched: set<Key>, turn: Turn): seq<Message> {
    var item := ClearedText(m, WithoutUnmatched(m, count, matched), turn);
    if m.role == Assistant && (m.calls != [] || turn.looksLikeCall(m.content)) && item.calls == [] && item.content == ""
    then []
    else [item]
  }

  datatype Screened = Screened(rows: seq<Message>, count: nat)

  function Screen(messages: seq<Message>, start: nat, matched: set<Key>, turn: Turn): Screened {
    if messages == [] then Screened([], 0)
    else
      var n := |messages| - 1;
      var s := Screen(messages[..n], start, matched, turn);
      var m := messages[n];
      if n < start then Screened(s.rows + [m], s.count)
      else Screened(s.rows + ScreenOne(m, s.count, matched, turn),
                    if m.calls != [] then Keep(m.calls, s.count, matched, true).count else s.count)
  }

  function NarrowRow(rows: seq<Message>, i: nat, turn: Turn): Message
    requires i < |rows|
  {
    if rows[i].role != Tool then rows[i]
    else match turn.narrow(rows[i], rows[i + 1..])
      case None => rows[i]
      case Some(content) => rows[i].(content := content)
  }

  function Narrowed(rows: seq<Message>, start: nat, turn: Turn): (r: seq<Message>)
    ensures |r| == |rows|
  {
    seq(|rows|, i requires 0 <= i < |rows| => if i < start then rows[i] else NarrowRow(rows, i, turn))
  }

  /** The first user message from `start` on; `|rows|` if there is none. */
  function FirstUser(rows: seq<Message>, start: nat): (i: nat)
    requires start <= |rows|
    ensures start <= i <= |rows|
    ensures i < |rows| ==> rows[i].role == User
    ensures forall k :: start <= k < i ==> rows[k].role != User
    decreases |rows| - start
  {
    if start == |rows| || rows[start].role == User then start else FirstUser(rows, start + 1)
  }

  function Restored(rows: seq<Message>, start: nat, turn: Turn): (r: seq<Message>)
    requires start <= |rows|
    ensures |r| == |rows|
  {
    match turn.userMessage
    case Some(text) =>
      var i := FirstUser(rows, start);
      if (text != "" || turn.userAttachments) && i < |rows| then rows[i := rows[i].(content := text)] else rows
    case None => rows
  }

  predicate IsPlain(m: Message) {
    m.role == Assistant && m.calls == []
  }

  /** The last assistant message without calls, from `start` on; -1 if there is none. */
  function LastPlain(rows: seq<Message>, start: nat): (i: int)
    requires start <= |rows|
    ensures i == -1 || start <= i < |rows|
    ensures i >= 0 ==> IsPlain(rows[i])
    ensures forall k :: (if i < 0 then start else i + 1) <= k < |rows| ==> !IsPlain(rows[k])
  {
    if start == |rows| then -1
    else if IsPlain(rows[|rows| - 1]) then |rows| - 1
    else LastPlain(rows[..|rows| - 1], start)
  }

  function Finished(rows: seq<Message>, start: nat, turn: Turn): seq<Message>
    requires start <= |rows|
  {
    if turn.finalAssistant == "" then rows
    else
      var i := LastPlain(rows, start);
      if i < 0 then rows + [Message(Assistant, turn.finalAssistant, [], "", "", [], 0)]
      else rows[i := rows[i].(content := turn.finalAssistant)]
  }

  lemma {:induction false} ScreenKeepsPrefix(messages: seq<Message>, start: nat, matched: set<Key>, turn: Turn)
    ensures var rows := Screen(messages, start, matched, turn).rows;
            var k := Min(start, |messages|);
            k <= |rows| && rows[..k] == messages[..k]
    ensures |messages| <= start ==> |Screen(messages, start, matched, turn).rows| == |messages|
  {
    hide ScreenOne, Keep;
    if messages != [] {
      var n := |messages| - 1;
      ScreenKeepsPrefix(messages[..n], start, matched, turn);
      assert messages == messages[..n] + [messages[n]];
    }
  }

  function Sanitize(messages: seq<Message>, turn: Turn): seq<Message> {
    var start := SafeStart(turn.start, |messages|);
    var rows := Screen(messages, start, Collect(messages[start..]).matched, turn).rows;
    ScreenKeepsPrefix(messages, start, Collect(messages[start..]).matched, turn);
    Finished(Restored(Narrowed(rows, start, turn), start, turn), start, turn)
  }

  /** `_extract_latest_assistant_from_messages`: the last plain assistant text that is
      not blank. */
  function LatestAssistant(messages: seq<Message>, start: nat): string
    requires start <= |messages|
  {
    if start == |messages| then ""
    else
      var m := messages[|messages| - 1];
      if IsPlain(m) && m.content != "" then m.content
      else LatestAssistant(messages[..|messages| - 1], start)
  }

  // ----- the loops

  method ConsumeMatching(pending: seq<Pending>, who: Identity) returns (rest: seq<Pending>, key: set<Key>)
    ensures var i := PickOrOnly(pending, who);
            rest == Without(pending, i) && key == if i < 0 then {} else {pending[i].MatchKey()}
  {
    if who.id != "" {
      for i := 0 to |pending|
        invariant forall k :: 0 <= k < i ==> pending[k].call.id != who.id
      {
        if pending[i].call.id == who.id {
          return pending[..i] + pending[i + 1..], {pending[i].MatchKey()};
        }
      }
    }
    if who.name != "" {
      for i := 0 to |pending|
        invariant forall k :: 0 <= k < i ==> pending[k].call.name != who.name
      {
        if pending[i].call.name == who.name {
          return pending[..i] + pending[i + 1..], {pending[i].MatchKey()};
        }
      }
    }
    if |pending| == 1 {
      WithoutFirst(pending);
      return pending[1..], {pending[0].MatchKey()};
    }
    return pending, {};
  }

  method RegisterTurnCalls(ghost l: Ledger, calls: seq<Call>, pending: seq<Pending>, counter: nat)
    returns (pending': seq<Pending>, counter': nat)
    requires pending == l.pending && counter == |l.issued|
    ensures pending' == Issue(l, calls, true).pending && counter' == |Issue(l, calls, true).issued|
    ensures l.matched == Issue(l, calls, true).matched
  {
    pending', counter' := pending, counter;
    for j := 0 to |calls|
      invariant pending' == Issue(l, calls[..j], true).pending
      invariant l.matched == Issue(l, calls[..j], true).matched
      invariant counter' == |Issue(l, calls[..j], true).issued|
    {
      assert calls[..j + 1][..j] == calls[..j];
      pending' := pending' + [Pending(calls[j], counter')];
      counter' := counter' + 1;
    }
    assert calls[..|calls|] == calls;
  }

  method ConsumeAll(ghost l: Ledger, who: seq<Identity>, pending: seq<Pending>, matched: set<Key>)
    returns (pending': seq<Pending>, matched': set<Key>)
    requires pending == l.pending && matched == l.matched
    ensures pending' == SettleAll(l, who).pending && matched' == SettleAll(l, who).matched
    ensures l.issued == SettleAll(l, who).issued
  {
    pending', matched' := pending, matched;
    for j := 0 to |who|
      invariant pending' == SettleAll(l, who[..j]).pending
      invariant matched' == SettleAll(l, who[..j]).matched
      invariant l.issued == SettleAll(l, who[..j]).issued
    {
      assert who[..j + 1][..j] == who[..j];
      var key;
      pending', key := ConsumeMatching(pending', who[j]);
      matched' := matched' + key;
    }
    assert who[..|who|] == who;
  }

  method CollectMatchedKeys(messages: seq<Message>, start: int) returns (matched: set<Key>)
    ensures matched == Collect(messages[SafeStart(start, |messages|)..]).matched
  {
    var turn := messages[SafeStart(start, |messages|)..];
    var pending, counter := [], 0;
    matched := {};
    for i := 0 to |turn|
      invariant pending == Collect(turn[..i]).pending
      invariant matched == Collect(turn[..i]).matched
      invariant counter == |Collect(turn[..i]).issued|
    {
      assert turn[..i + 1][..i] == turn[..i];
      ghost var l := Collect(turn[..i]);
      var m := turn[i];
      if m.role == Assistant {
        pending, counter := RegisterTurnCalls(l, m.calls, pending, counter);
        l := Issue(l, m.calls, true);
      }
      pending, matched := ConsumeAll(l, CompletedIdentities(m, pending), pending, matched);
    }
    assert turn[..|turn|] == turn;
  }

  method FilterTurnCalls(calls: seq<Call>, counter: nat, matched: set<Key>)
    returns (kept: seq<Call>, counter': nat)
    ensures Kept(kept, counter') == Keep(calls, counter, matched, true)
  {
    kept, counter' := [], counter;
    for i := 0 to |calls|
      invariant Kept(kept, counter') == Keep(calls[..i], counter, matched, true)
    {
      assert calls[..i + 1][..i] == calls[..i];
      if KeyOf(calls[i], counter') in matched {
        kept := kept + [calls[i]];
      }
      counter' := counter' + 1;
    }
    assert calls[..|calls|] == calls;
  }

  method ScreenTurn(messages: seq<Message>, start: nat, matched: set<Key>, turn: Turn) returns (sanitized: seq<Message>)
    ensures sanitized == Screen(messages, start, matched, turn).rows
  {
    sanitized := [];
    var counter := 0;
    for index := 0 to |messages|
      invariant Screened(sanitized, counter) == Screen(messages[..index], start, matched, turn)
    {
      assert messages[..index + 1][..index] == messages[..index];
      var m := messages[index];
      var item := m;
      if m.calls != [] && index >= start {
        var kept;
        kept, counter := FilterTurnCalls(m.calls, counter, matched);
        item := item.(calls := kept);
      }
      var attempt := m.role == Assistant && index >= start;
      if turn.clearPlanning && attempt && (m.calls != [] || turn.looksLikeCall(item.content)) {
        item := item.(content := "");
      }
      if attempt && (m.calls != [] || turn.looksLikeCall(m.content)) && item.calls == [] && item.content == "" {
        continue;
      }
      sanitized := sanitized + [item];
    }
    assert messages[..|messages|] == messages;
  }

  method NarrowRows(rows: seq<Message>, start: nat, turn: Turn) returns (narrowed: seq<Message>)
    requires start <= |rows|
    ensures narrowed == Narrowed(rows, start, turn)
  {
    narrowed := rows;
    ghost var goal := Narrowed(rows, start, turn);
    for i := start to |rows|
      invariant |narrowed| == |rows|
      invariant forall k :: 0 <= k < i ==> narrowed[k] == goal[k]
      invariant forall k :: i <= k < |rows| ==> narrowed[k] == rows[k]
    {
      assert narrowed[i + 1..] == rows[i + 1..];
      if narrowed[i].role == Tool {
        match turn.narrow(narrowed[i], narrowed[i + 1..])
        case None =>
        case Some(content) => narrowed := narrowed[i := narrowed[i].(content := content)];
      }
    }
  }

  method RestoreUserMessage(rows: seq<Message>, start: nat, turn: Turn) returns (restored: seq<Message>)
    requires start <= |rows|
    ensures restored == Restored(rows, start, turn)
  {
    restored := rows;
    if turn.userMessage.Some? && (turn.userMessage.value != "" || turn.userAttachments) {
      for i := start to |rows|
        invariant restored == rows
        invariant FirstUser(rows, start) == FirstUser(rows, i)
      {
        if rows[i].role == User {
          return rows[i := rows[i].(content := turn.userMessage.value)];
        }
      }
    }
  }

  method WriteFinalAssistant(rows: seq<Message>, start: nat, turn: Turn) returns (finished: seq<Message>)
    requires start <= |rows|
    ensures finished == Finished(rows, start, turn)
  {
    if turn.finalAssistant == "" {
      return rows;
    }
    var i := |rows|;
    while i > start
      invariant start <= i <= |rows|
      invariant forall k :: i <= k < |rows| ==> !IsPlain(rows[k])
    {
      i := i - 1;
      if rows[i].role == Assistant && rows[i].calls == [] {
        return rows[i := rows[i].(content := turn.finalAssistant)];
      }
    }
    return rows + [Message(Assistant, turn.finalAssistant, [], "", "", [], 0)];
  }

  method SanitizeTurnMessages(messages: seq<Message>, turn: Turn) returns (sanitized: seq<Message>)
    ensures sanitized == Sanitize(messages, turn)
  {
    var start := SafeStart(turn.start, |messages|);
    var matched := CollectMatchedKeys(messages, turn.start);
    sanitized := ScreenTurn(messages, start, matched, turn);
    ScreenKeepsPrefix(messages, start, matched, turn);
    sanitized := NarrowRows(sanitized, start, turn);
    sanitized := RestoreUserMessage(sanitized, start, turn);
    sanitized := WriteFinalAssistant(sanitized, start, turn);
  }

  method ExtractLatestAssistant(messages: seq<Message>, start: int) returns (text: string)
    ensures text == LatestAssistant(messages, SafeStart(start, |messages|))
  {
    var safe := SafeStart(start, |messages|);
    var i := |messages|;
    assert messages[..i] == messages;
    while i > safe
      invariant safe <= i <= |messages|
      invariant LatestAssistant(messages, safe) == LatestAssistant(messages[..i], safe)
    {
      i := i - 1;
      assert messages[..i + 1][..i] == messages[..i];
      if messages[i].role == Assistant && messages[i].calls == [] && messages[i].content != "" {
        return messages[i].content;
      }
    }
    return "";
  }
}
