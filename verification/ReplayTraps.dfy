/** Transcripts for which replay is not balanced, one for each condition of
    `ReplayBalance.ReplayBalanced`. */
module ReplayTraps {
  import opened Transcripts
  import opened Pairing
  import opened HistoryMemory
  import opened ReplayProofs
  import opened ReplayBalance
  import opened StripProofs

  function Calling(calls: seq<Call>): Message {
    Message(Assistant, "", calls, "", "", [], 0)
  }

  function Row(name: string, id: string): Message {
    Message(Tool, "ok", [], name, id, [], 0)
  }

  /** A row with an identity of its own keeps it. */
  lemma OwnStays(b: Message, pending: seq<Pending>)
    requires !b.Own().Blank()
    ensures Fill(b, Infer(b, pending)) == b
  {
    var f := Fill(b, b.Own());
    assert f.name == b.name && f.id == b.id;
  }

  lemma StartOnly(a: Message)
    requires a.role == Assistant
    ensures var p := Pass(Issue(EMPTY, a.calls, false), [a]); Repair([a]) == p && Match([a]) == p
    ensures NoFallback([a])
  {
    hide Issue;
    RepairStep([], a);
    MatchStep([], a);
    NoFallbackNext([], a);
    assert [] + [a] == [a];
  }

  /** Both passes over one assistant message and one row with an identity of its own. */
  lemma TwoMessages(calls: seq<Call>, b: Message)
    requires b.role == Tool && b.calls == [] && !b.Own().Blank()
    ensures var a, l := Calling(calls), Issue(EMPTY, calls, false);
            && Repair([a, b]).rows == [a, b]
            && Match([a, b]) == Pass(Settle(l, PickOrOnly(l.pending, b.Own())), [a, b])
            && NoFallback([a, b]) == !FallsBack(l.pending, b)
  {
    hide Issue, Infer, Fill, Pick, PickOrOnly, Settle, Repair, Match, NoFallback;
    var a, l := Calling(calls), Issue(EMPTY, calls, false);
    StartOnly(a);
    RepairStep([a], b);
    MatchStep([a], b);
    NoFallbackNext([a], b);
    assert [a] + [b] == [a, b];
    OwnStays(b, l.pending);
    IssueNone(l);
  }

  lemma KeepAllOf(calls: seq<Call>, b: Message, matched: set<Key>)
    requires b.role == Tool && calls != [] && Keep(calls, 0, matched, false).calls == calls
    ensures Sift([Calling(calls), b], matched).rows == [Calling(calls), b]
  {
    var a := Calling(calls);
    assert [a, b][..1] == [a] && [a][..0] == [];
    assert Sift([a], matched).rows == [] + SiftOne(a, 0, matched);
  }

  lemma ReplayTwo(calls: seq<Call>, b: Message)
    requires b.role == Tool
    ensures var l := Issue(EMPTY, calls, false);
            && ReplayAll([Calling(calls), b]).ledger == ClaimAll(l, RowIdentities(b)).ledger
            && NamelessClaims([Calling(calls), b]) == Nameless(l, RowIdentities(b))
  {
    var a := Calling(calls);
    assert [a, b][..1] == [a] && [a][..0] == [];
    assert ReplayAll([a]) == StepReplay(Replay(EMPTY, [], []), a);
    assert NamelessClaims([a]) == 0;
  }

  lemma IssueOnce(call: Call)
    requires call.name != ""
    ensures Issue(EMPTY, [call], false) == Ledger([call], [Pending(call, 0)], {})
    ensures Keep([call], 0, {KeyOf(call, 0)}, false).calls == [call]
  {
    assert [call][..0] == [];
  }

  /** The row resolves the only call, which is therefore kept. */
  lemma KeptTrap(call: Call, b: Message)
    requires call.name != "" && b.role == Tool && b.calls == [] && !b.Own().Blank()
    ensures BuildHistory([Calling([call]), b]) == [Calling([call]), b]
  {
    var a, l := Calling([call]), Issue(EMPTY, [call], false);
    IssueOnce(call);
    TwoMessages([call], b);
    assert PickOrOnly(l.pending, b.Own()) == 0;
    assert Match([a, b]).ledger.matched == {KeyOf(call, 0)};
    KeepAllOf([call], b, {KeyOf(call, 0)});
  }

  lemma IssueTwice(call: Call)
    requires call.name != ""
    ensures Issue(EMPTY, [call, call], false) == Ledger([call, call], [Pending(call, 0), Pending(call, 1)], {})
  {
    IssueOnce(call);
    assert [call, call][..1] == [call];
  }

  /** Two calls with one id are both kept for the single row that answers the first. */
  lemma DuplicateIdTrap(call: Call)
    requires call.name != "" && call.id != ""
    ensures !Balanced(Flatten(ToModel(BuildHistory([Calling([call, call]), Row(call.name, call.id)]))))
  {
    hide Issue, Repair, Match, NoFallback, BuildHistory, Balanced, Settle, Pick;
    var a, b := Calling([call, call]), Row(call.name, call.id);
    var l := Issue(EMPTY, [call, call], false);
    IssueTwice(call);
    TwoMessages([call, call], b);
    ClaimsFirst(call, l);
    AliasLeft(call, Match([a, b]).ledger);
    ReplayBalanced([a, b]);
  }

  lemma ClaimsFirst(call: Call, l: Ledger)
    requires call.id != "" && l == Ledger([call, call], [Pending(call, 0), Pending(call, 1)], {})
    ensures Pick(l.pending, Identity(call.name, call.id)) == 0
    ensures Settle(l, 0) == Ledger([call, call], [Pending(call, 1)], {ById(call.id)})
  {
    WithoutFirst(l.pending);
  }

  lemma AliasLeft(call: Call, l: Ledger)
    requires call.id != "" && l.pending == [Pending(call, 1)] && l.matched == {ById(call.id)}
    ensures !NoAlias(l)
  {
    assert l.pending[0] in l.pending;
  }

  /** A row of another tool, paired by the last resort, is not paired again by replay. */
  lemma LastResortTrap(call: Call, name: string)
    requires call.name != "" && call.id == "" && name != "" && name != call.name
    ensures !Balanced(Flatten(ToModel(BuildHistory([Calling([call]), Row(name, "")]))))
  {
    var a, b, w := Calling([call]), Row(name, ""), Identity(name, "");
    IssueOnce(call);
    TwoMessages([call], b);
    KeptTrap(call, b);
    ReplayTwo([call], b);
    assert RowIdentities(b) == [w] && [w][..0] == [];
    assert Pick([Pending(call, 0)], w) == -1;
    BalancedExactly([a, b]);
  }

  /** A row with an id but no name claims its call and returns nothing. */
  lemma NamelessRowTrap(call: Call)
    requires call.name != "" && call.id != ""
    ensures !Balanced(Flatten(ToModel(BuildHistory([Calling([call]), Row("", call.id)]))))
  {
    var a, b, w := Calling([call]), Row("", call.id), Identity("", call.id);
    IssueOnce(call);
    TwoMessages([call], b);
    KeptTrap(call, b);
    ReplayTwo([call], b);
    assert RowIdentities(b) == [w] && [w][..0] == [];
    assert Pick([Pending(call, 0)], w) == 0;
    BalancedExactly([a, b]);
  }
}
