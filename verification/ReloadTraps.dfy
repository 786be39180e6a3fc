/** Stored turns whose calls are lost when they are replayed, one for each condition of
    `ReloadProofs.Replayable`: replay pairs named calls with rows of role `Tool`, by one
    identity each, while persistence also counts calls without a name and accepts other
    spellings of that role, results carried by any message and further identities. */
module ReloadTraps {
  import opened Transcripts
  import opened Pairing
  import opened FirstClaims
  import opened HistoryMemory
  import opened StripProofs
  import opened ToolEvidence
  import opened ReplayTraps
  import opened StoredCalls

  /** No rows that replay would read, and calls on assistant messages only. */
  predicate Rowless(m: Message) {
    m.role != Tool && (m.role != Assistant ==> m.calls == [])
  }

  predicate AllRowless(messages: seq<Message>) {
    forall i :: 0 <= i < |messages| ==> Rowless(messages[i])
  }

  lemma {:induction false} NothingClaimed(messages: seq<Message>)
    requires AllRowless(messages)
    ensures Repair(messages).rows == messages == Match(messages).rows
    ensures Match(messages).ledger.matched == {}
  {
    hide Issue, Infer, Pick, PickOrOnly, Repair, Match;
    if messages == [] {
      NothingYet();
    } else {
      var init, m := messages[..|messages| - 1], messages[|messages| - 1];
      assert init + [m] == messages;
      NothingClaimed(init);
      RepairStep(init, m);
      MatchStep(init, m);
      IssueKeepsMatched(Match(init).ledger, m.calls);
    }
  }

  lemma {:induction false} KeepUnmatched(calls: seq<Call>, count: nat)
    ensures Keep(calls, count, {}, false).calls == []
  {
    if calls != [] {
      KeepUnmatched(calls[..|calls| - 1], count);
    }
  }

  lemma {:induction false} SiftNone(messages: seq<Message>)
    requires NoForeignCalls(messages)
    ensures CallsOf(Sift(messages, {}).rows) == []
  {
    hide Sift, CallsOf;
    SiftNothingYet();
    if messages != [] {
      var init, m := messages[..|messages| - 1], messages[|messages| - 1];
      SiftNone(init);
      SiftStep(init, m, {});
      var s := Sift(init, {});
      KeepUnmatched(m.calls, s.count);
      assert init + [m] == messages;
      if SiftOne(m, s.count, {}) != [] {
        CallsOfNext(s.rows, SiftOne(m, s.count, {})[0]);
      } else {
        assert s.rows + [] == s.rows;
      }
    }
  }

  lemma SiftNothingYet()
    ensures Sift([], {}).rows == [] && CallsOf([]) == []
  {
  }

  /** Without a row of role `Tool`, replay drops every call. */
  lemma RowlessReplay(messages: seq<Message>)
    requires AllRowless(messages)
    ensures CallsOf(BuildHistory(messages)) == []
  {
    NothingClaimed(messages);
    SiftNone(messages);
  }

  /** A turn that persistence only screens. */
  ghost predicate Plainly(turn: Turn) {
    && turn.start <= 0 && turn.finalAssistant == "" && turn.userMessage.None?
    && forall m, rest :: turn.narrow(m, rest).None?
  }

  lemma SanitizeIsScreen(messages: seq<Message>, turn: Turn)
    requires Plainly(turn) && Screen(messages, 0, Collect(messages).matched, turn).rows == messages
    ensures Sanitize(messages, turn) == messages
  {
    hide Screen, Collect;
    assert messages[0..] == messages;
    assert Narrowed(messages, 0, turn) == messages;
  }

  /** The only call of a message is kept if its key, the first one, was matched. */
  lemma ScreenKeepsCall(m: Message, call: Call, matched: set<Key>, turn: Turn)
    requires m.calls == [call] && m.content == "" && KeyOf(call, 0) in matched
    ensures ScreenOne(m, 0, matched, turn) == [m]
  {
    KeepCall(call, 0, matched);
    var item := WithoutUnmatched(m, 0, matched);
    assert item == m;
    assert item.(content := "") == m;
  }

  /** Results on the assistant message itself answer its call for persistence only. */
  lemma OwnResultsTrap(call: Call, turn: Turn)
    requires call.name != "" && Plainly(turn)
    ensures var messages := [Message(Assistant, "", [call], "", "", [Outcome(call.name, call.id, "ok")], 0)];
            && Sanitize(messages, turn) == messages && CallsOf(messages) == [call]
            && CallsOf(BuildHistory(messages)) == []
  {
    hide Sanitize, BuildHistory, CallsOf, Collect, KeyOf, AllRowless;
    var m := Message(Assistant, "", [call], "", "", [Outcome(call.name, call.id, "ok")], 0);
    OwnResultsMatched(m, call);
    OneRowless(m);
    OneStored(m, call, turn);
    RowlessReplay([m]);
  }

  lemma OneRowless(m: Message)
    requires Rowless(m)
    ensures AllRowless([m])
  {
  }

  lemma OneStored(m: Message, call: Call, turn: Turn)
    requires Plainly(turn) && m.calls == [call] && m.content == "" && KeyOf(call, 0) in Collect([m]).matched
    ensures Sanitize([m], turn) == [m] && CallsOf([m]) == [call]
  {
    hide Collect, Screen, ScreenOne, Sanitize, CallsOf;
    ScreenKeepsCall(m, call, Collect([m]).matched, turn);
    NothingCounted(Collect([m]).matched, turn);
    ScreenStep([], 0, Collect([m]).matched, turn, m);
    assert [] + [m] == [m];
    SanitizeIsScreen([m], turn);
    CallsOfOne(m);
  }

  lemma {:induction false} OneIdentity(results: seq<Outcome>)
    requires |results| == 1 && !results[0].Who().Blank()
    ensures ResultIdentities(results) == [results[0].Who()]
  {
    assert ResultIdentities(results[1..]) == [];
  }

  lemma OwnResultsMatched(m: Message, call: Call)
    requires m.role == Assistant && m.calls == [call] && |m.results| == 1 && !m.results[0].Who().Blank()
    ensures Collect([m]).matched == {KeyOf(call, 0)}
  {
    hide Collect, SettleAll;
    CollectNone();
    CollectStep([], m);
    assert [] + [m] == [m];
    IssueCall(EMPTY, call);
    var l, w := IssueOne(EMPTY, call), m.results[0].Who();
    OneIdentity(m.results);
    assert CompletedIdentities(m, l.pending) == [w];
    SettleOnly(l, w);
  }

  /** A row with another spelling of its role answers a call for persistence only. */
  lemma AliasTrap(call: Call, turn: Turn)
    requires call.name != "" && Plainly(turn)
    ensures var messages := [Message(Assistant, "", [call], "", "", [], 0),
                             Message(ToolAlias, "ok", [], call.name, call.id, [], 0)];
            && Sanitize(messages, turn) == messages && CallsOf(messages) == [call]
            && CallsOf(BuildHistory(messages)) == []
  {
    var asks, row := Message(Assistant, "", [call], "", "", [], 0),
      Message(ToolAlias, "ok", [], call.name, call.id, [], 0);
    RowStored(asks, row, call, turn);
    RowlessReplay([asks, row]);
  }

  lemma RowMatched(asks: Message, row: Message, call: Call)
    requires asks.role == Assistant && asks.calls == [call] && asks.results == []
    requires IsToolRole(row.role) && !row.Own().Blank() && row.results == []
    ensures Collect([asks, row]).matched == {KeyOf(call, 0)}
  {
    hide Collect, SettleAll;
    CollectNone();
    CollectStep([], asks);
    IssueCall(EMPTY, call);
    var l := IssueOne(EMPTY, call);
    assert [] + [asks] == [asks] && [asks] + [row] == [asks, row];
    assert CompletedIdentities(asks, l.pending) == [];
    SettleNone(l);
    CollectStep([asks], row);
    assert CompletedIdentities(row, l.pending) == [row.Own()];
    SettleOnly(l, row.Own());
  }

  lemma ScreenPair(asks: Message, row: Message, calls: seq<Call>, matched: set<Key>, turn: Turn)
    requires asks.calls == calls && ScreenOne(asks, 0, matched, turn) == [asks]
    requires row.role != Assistant && row.calls == []
    ensures Screen([asks, row], 0, matched, turn).rows == [asks, row]
  {
    hide Screen, Keep;
    NothingCounted(matched, turn);
    ScreenStep([], 0, matched, turn, asks);
    assert [] + [asks] == [asks];
    ScreenStep([asks], 0, matched, turn, row);
    assert [asks] + [row] == [asks, row];
  }

  // ----- calls without a name

  /** A call without a name, answered by its id, is stored and then dropped. */
  lemma NamelessTrap(call: Call, turn: Turn)
    requires call.name == "" && call.id != "" && Plainly(turn)
    ensures var messages := [Calling([call]), Row("", call.id)];
            && Sanitize(messages, turn) == messages && CallsOf(messages) == [call]
            && CallsOf(BuildHistory(messages)) == []
  {
    var asks, row := Calling([call]), Row("", call.id);
    RowStored(asks, row, call, turn);
    NamelessReplay(call, row);
  }

  lemma NamelessReplay(call: Call, row: Message)
    requires call.name == "" && row.role == Tool && !row.Own().Blank() && row.calls == []
    ensures CallsOf(BuildHistory([Calling([call]), row])) == []
  {
    hide CallsOf, Sift, Repair, Match;
    var messages := [Calling([call]), row];
    TwoMessages([call], row);
    assert [call][..0] == [];
    assert Issue(EMPTY, [call], false) == EMPTY;
    SiftNone(messages);
  }

  /** The turn of one call and one row of its own is stored as it is. */
  lemma RowStored(asks: Message, row: Message, call: Call, turn: Turn)
    requires Plainly(turn) && asks.role == Assistant && asks.calls == [call] && asks.results == [] && asks.content == ""
    requires IsToolRole(row.role) && !row.Own().Blank() && row.results == [] && row.calls == []
    ensures Sanitize([asks, row], turn) == [asks, row] && CallsOf([asks, row]) == [call]
  {
    hide Sanitize, CallsOf, Collect, Screen, ScreenOne, KeyOf;
    var messages := [asks, row];
    RowMatched(asks, row, call);
    var matched := Collect(messages).matched;
    ScreenKeepsCall(asks, call, matched, turn);
    ScreenPair(asks, row, [call], matched, turn);
    SanitizeIsScreen(messages, turn);
    CallsOfOne(asks);
    CallsOfNext([asks], row);
    assert [asks] + [row] == messages && [call] + [] == [call];
  }

  // ----- a second identity

  /** A row's second identity takes the other call by the last resort: it is stored, though
      nothing has answered it, and dropped when the row is replayed by its first identity. */
  lemma SecondIdentityTrap(a: Call, b: Call, turn: Turn)
    requires a.name != "" && b.name != "" && a.name != b.name && a.id != "" && b.id != "" && a.id != b.id
    requires Plainly(turn)
    ensures var messages := [Calling([a, b]), Message(Tool, "ok", [], a.name, a.id, [Outcome(a.name, a.id, "ok")], 0)];
            && Sanitize(messages, turn) == messages && CallsOf(messages) == [a, b]
            && CallsOf(BuildHistory(messages)) == [a]
  {
    var asks, row := Calling([a, b]), Message(Tool, "ok", [], a.name, a.id, [Outcome(a.name, a.id, "ok")], 0);
    SecondStored(asks, row, a, b, turn);
    SecondReplay(row, a, b);
  }

  lemma IssueTwo(a: Call, b: Call)
    ensures Issue(EMPTY, [a, b], true) == Ledger([a, b], [Pending(a, 0), Pending(b, 1)], {})
    ensures a.name != "" && b.name != "" ==> Issue(EMPTY, [a, b], false) == Issue(EMPTY, [a, b], true)
  {
    assert [a, b][..1] == [a] && [a][..0] == [];
    assert Issue(EMPTY, [a], true) == IssueOne(EMPTY, a);
    assert a.name != "" ==> Issue(EMPTY, [a], false) == IssueOne(EMPTY, a);
  }

  lemma ClaimBoth(a: Call, b: Call, w: Identity)
    requires a.id != "" && b.id != "" && a.id != b.id && a.name != b.name && w == Identity(a.name, a.id)
    ensures SettleAll(Ledger([a, b], [Pending(a, 0), Pending(b, 1)], {}), [w, w]).matched == {ById(a.id), ById(b.id)}
    ensures Settle(Ledger([a, b], [Pending(a, 0), Pending(b, 1)], {}),
                   PickOrOnly([Pending(a, 0), Pending(b, 1)], w)).matched == {ById(a.id)}
  {
    var l := Ledger([a, b], [Pending(a, 0), Pending(b, 1)], {});
    assert [w, w][..1] == [w];
    SettleSingle(l, w);
    assert Pick(l.pending, w) == 0;
    WithoutFirst(l.pending);
    var l1 := Settle(l, 0);
    assert l1.pending == [Pending(b, 1)];
    assert Pick(l1.pending, w) == -1;
  }

  lemma TwoIdentities(row: Message, pending: seq<Pending>)
    requires row.role == Tool && !row.Own().Blank() && |row.results| == 1 && row.results[0].Who() == row.Own()
    ensures CompletedIdentities(row, pending) == [row.Own(), row.Own()]
  {
    OneIdentity(row.results);
  }

  lemma SecondMatched(asks: Message, row: Message, a: Call, b: Call)
    requires asks.role == Assistant && asks.calls == [a, b] && asks.results == []
    requires row.role == Tool && row.Own() == Identity(a.name, a.id) && row.results == [Outcome(a.name, a.id, "ok")]
    requires a.id != "" && b.id != "" && a.id != b.id && a.name != b.name
    ensures Collect([asks, row]).matched == {ById(a.id), ById(b.id)}
  {
    hide Collect, SettleAll, Issue;
    CollectNone();
    CollectStep([], asks);
    IssueTwo(a, b);
    var l, w := Issue(EMPTY, [a, b], true), row.Own();
    assert [] + [asks] == [asks] && [asks] + [row] == [asks, row];
    assert CompletedIdentities(asks, l.pending) == [];
    SettleNone(l);
    CollectStep([asks], row);
    TwoIdentities(row, l.pending);
    ClaimBoth(a, b, w);
  }

  lemma KeepTwo(a: Call, b: Call, matched: set<Key>, unnamed: bool)
    requires a.id != "" && b.id != "" && (unnamed || (a.name != "" && b.name != "")) && ById(a.id) in matched
    ensures Keep([a, b], 0, matched, unnamed).calls == if ById(b.id) in matched then [a, b] else [a]
  {
    assert [a, b][..1] == [a] && [a][..0] == [];
    assert Keep([a], 0, matched, unnamed) == Kept([a], 1);
  }

  lemma SecondStored(asks: Message, row: Message, a: Call, b: Call, turn: Turn)
    requires asks == Calling([a, b]) && Plainly(turn) && row.calls == []
    requires row.role == Tool && row.Own() == Identity(a.name, a.id) && row.results == [Outcome(a.name, a.id, "ok")]
    requires a.id != "" && b.id != "" && a.id != b.id && a.name != b.name
    ensures Sanitize([asks, row], turn) == [asks, row] && CallsOf([asks, row]) == [a, b]
  {
    hide Sanitize, CallsOf, Collect, Screen, Keep;
    var messages := [asks, row];
    SecondMatched(asks, row, a, b);
    var matched := Collect(messages).matched;
    KeepTwo(a, b, matched, true);
    assert ScreenOne(asks, 0, matched, turn) == [asks];
    ScreenPair(asks, row, [a, b], matched, turn);
    SanitizeIsScreen(messages, turn);
    CallsOfOne(asks);
    CallsOfNext([asks], row);
    assert [asks] + [row] == messages && [a, b] + [] == [a, b];
  }

  lemma SecondReplay(row: Message, a: Call, b: Call)
    requires row.role == Tool && row.Own() == Identity(a.name, a.id) && row.calls == []
    requires a.name != "" && b.name != "" && a.name != b.name && a.id != "" && b.id != "" && a.id != b.id
    ensures CallsOf(BuildHistory([Calling([a, b]), row])) == [a]
  {
    hide CallsOf, Sift, Repair, Match, Keep, Issue, Settle, PickOrOnly;
    var asks, matched := Calling([a, b]), {ById(a.id)};
    TwoMessages([a, b], row);
    IssueTwo(a, b);
    ClaimBoth(a, b, row.Own());
    assert Match([asks, row]).ledger.matched == matched;
    KeepTwo(a, b, matched, false);
    SiftNothingYet();
    SiftStart(matched);
    SiftStep([], asks, matched);
    SiftStep([asks], row, matched);
    assert [] + [asks] == [asks] && [asks] + [row] == [asks, row];
    var kept := asks.(calls := [a]);
    assert [] + [kept] == [kept];
    CallsOfOne(kept);
    CallsOfNext([kept], row);
    assert [a] + [] == [a];
  }

  // ----- where the two counters of persistence part

  /** With calls on a message that is not an assistant's, the second pass numbers calls
      the first one skipped: the call that was answered loses its number and is dropped,
      and its number goes to a call that nobody answered. */
  lemma CounterTrap(call: Call, turn: Turn)
    requires call.name != "" && call.id == ""
    ensures var user := Message(User, "hi", [call], "", "", [], 0);
            var asks := Message(Assistant, "", [call], "", "", [], 0);
            var row := Message(Tool, "ok", [], call.name, "", [], 0);
            var messages := [user, asks, row];
            Screen(messages, 0, Collect(messages).matched, turn).rows == [user, row]
  {
    var user := Message(User, "hi", [call], "", "", [], 0);
    var asks := Message(Assistant, "", [call], "", "", [], 0);
    var row := Message(Tool, "ok", [], call.name, "", [], 0);
    CollectThree(user, asks, row, call);
    ScreenThree(user, asks, row, call, turn);
  }

  lemma CollectNone()
    ensures Collect([]) == EMPTY
  {
  }

  lemma CollectTwo(user: Message, asks: Message, call: Call)
    requires user.role == User && user.results == []
    requires asks.role == Assistant && asks.calls == [call] && asks.results == []
    ensures Collect([user, asks]) == IssueOne(EMPTY, call)
  {
    hide Collect, Issue;
    assert [] + [user] == [user] && [user] + [asks] == [user, asks];
    CollectNone();
    CollectStep([], user);
    assert CompletedIdentities(user, []) == [];
    CollectStep([user], asks);
    IssueCall(EMPTY, call);
    assert CompletedIdentities(asks, IssueOne(EMPTY, call).pending) == [];
  }

  lemma CollectThree(user: Message, asks: Message, row: Message, call: Call)
    requires call.name != "" && call.id == "" && user.role == User && user.results == []
    requires asks.role == Assistant && asks.calls == [call] && asks.results == []
    requires row.role == Tool && row.Own() == Identity(call.name, "") && row.results == []
    ensures Collect([user, asks, row]).matched == {BySeq(0, call.name)}
  {
    hide Collect, SettleAll;
    CollectTwo(user, asks, call);
    assert [user, asks] + [row] == [user, asks, row];
    CollectStep([user, asks], row);
    var l, who := IssueOne(EMPTY, call), [Identity(call.name, "")];
    assert l.pending == [Pending(call, 0)];
    assert CompletedIdentities(row, l.pending) == who;
    SettleOnly(l, Identity(call.name, ""));
  }

  lemma SettleOnly(l: Ledger, w: Identity)
    requires |l.pending| == 1
    ensures SettleAll(l, [w]) == Settle(l, 0)
  {
    SettleSingle(l, w);
  }

  lemma IssueCall(l: Ledger, call: Call)
    ensures Issue(l, [call], true) == IssueOne(l, call)
  {
    assert [call][..0] == [];
  }

  lemma KeepCall(call: Call, count: nat, matched: set<Key>)
    ensures Keep([call], count, matched, true) ==
            Kept(if KeyOf(call, count) in matched then [call] else [], count + 1)
  {
    assert [call][..0] == [];
  }

  lemma ScreenThree(user: Message, asks: Message, row: Message, call: Call, turn: Turn)
    requires call.name != "" && call.id == "" && user.role == User && user.calls == [call]
    requires asks.role == Assistant && asks.calls == [call] && asks.content == ""
    requires row.role == Tool && row.calls == []
    ensures Screen([user, asks, row], 0, {BySeq(0, call.name)}, turn).rows == [user, row]
  {
    hide Keep, Screen;
    var matched := {BySeq(0, call.name)};
    NothingCounted(matched, turn);
    KeepCall(call, 0, matched);
    ScreenStep([], 0, matched, turn, user);
    assert [] + [user] == [user] && [user] + [asks] == [user, asks] && user.(calls := [call]) == user;
    assert Screen([user], 0, matched, turn) == Screened([user], 1);
    KeepCall(call, 1, matched);
    ScreenStep([user], 0, matched, turn, asks);
    assert Screen([user, asks], 0, matched, turn) == Screened([user], 2);
    ScreenStep([user, asks], 0, matched, turn, row);
    assert [user, asks] + [row] == [user, asks, row];
  }
}
