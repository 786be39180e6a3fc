/** When replay leaves no call without a return: exactly when no call stays pending and
    no nameless row claims one. For a stored transcript: when no row falls back to the
    only pending call and no unresolved call shares its id with a resolved one. */
module ReplayBalance {
  import opened Transcripts
  import opened Pairing
  import opened HistoryMemory
  import opened ReplayProofs
  import opened StripProofs

  // ----- counting calls against returns

  function Weight(part: Part): int {
    if part.CallPart? then 1 else if part.ReturnPart? then -1 else 0
  }

  /** Calls minus returns. */
  function Surplus(parts: seq<Part>): int {
    if parts == [] then 0 else Surplus(parts[..|parts| - 1]) + Weight(parts[|parts| - 1])
  }

  lemma {:induction false} SurplusConcat(a: seq<Part>, b: seq<Part>)
    ensures Surplus(a + b) == Surplus(a) + Surplus(b)
  {
    if b == [] {
      assert a + b == a;
    } else {
      assert (a + b)[..|a + b| - 1] == a + b[..|b| - 1];
      SurplusConcat(a, b[..|b| - 1]);
    }
  }

  ghost function ReturnSet(parts: seq<Part>): set<nat> {
    set r: nat | r < |parts| && IsReturn(parts, r)
  }

  lemma NoSets()
    ensures CallSet([]) == {} == ReturnSet([])
  {
  }

  lemma CallSetNext(init: seq<Part>, last: Part)
    ensures |CallSet(init + [last])| == |CallSet(init)| + if last.CallPart? then 1 else 0
  {
    var parts, n := init + [last], |init|;
    assert parts[n] == last && CallSet(parts) - {n} == CallSet(init);
    assert n in CallSet(parts) <==> last.CallPart?;
  }

  lemma ReturnSetNext(init: seq<Part>, last: Part)
    ensures |ReturnSet(init + [last])| == |ReturnSet(init)| + if last.ReturnPart? then 1 else 0
  {
    var parts, n := init + [last], |init|;
    assert parts[n] == last && ReturnSet(parts) - {n} == ReturnSet(init);
    assert n in ReturnSet(parts) <==> last.ReturnPart?;
  }

  lemma {:induction false} SurplusCounts(parts: seq<Part>)
    ensures Surplus(parts) == |CallSet(parts)| - |ReturnSet(parts)|
  {
    hide CallSet, ReturnSet;
    NoSets();
    if parts != [] {
      var init, last := parts[..|parts| - 1], parts[|parts| - 1];
      SurplusCounts(init);
      CallSetNext(init, last);
      ReturnSetNext(init, last);
      assert parts == init + [last];
    }
  }

  lemma {:induction false} InjectiveSize(m: map<nat, nat>)
    requires forall r, s :: r in m && s in m && r != s ==> m[r] != m[s]
    ensures |m.Values| == |m.Keys|
    decreases |m.Keys|
  {
    if m.Keys != {} {
      var k :| k in m.Keys;
      var rest := m - {k};
      InjectiveSize(rest);
      assert rest.Keys == m.Keys - {k};
      forall v | v in m.Values ensures v in rest.Values || v == m[k] {
        var r :| r in m && m[r] == v;
        if r != k {
          assert rest[r] == v;
        }
      }
      assert m.Values == rest.Values + {m[k]};
    }
  }

  lemma SameSize(a: set<nat>, b: set<nat>)
    requires a <= b && |a| == |b|
    ensures a == b
  {
    assert b == a + (b - a);
    assert |b| == |a| + |b - a|;
  }

  lemma MateSizes(parts: seq<Part>, mate: map<nat, nat>)
    requires Mates(parts, mate)
    ensures mate.Values <= CallSet(parts) && |mate.Values| == |ReturnSet(parts)|
  {
    assert mate.Keys == ReturnSet(parts);
    InjectiveSize(mate);
  }

  /** With a call of its own for every return, a bijection is a matter of numbers. */
  lemma BalancedIsZeroSurplus(parts: seq<Part>, mate: map<nat, nat>)
    requires Mates(parts, mate)
    ensures Balanced(parts) <==> Surplus(parts) == 0
  {
    hide Mates, CallSet, ReturnSet;
    SurplusCounts(parts);
    if Surplus(parts) == 0 {
      MateSizes(parts, mate);
      SameSize(mate.Values, CallSet(parts));
      assert Onto(parts, mate);
    }
    if Balanced(parts) {
      var full: map<nat, nat> :| Mates(parts, full) && Onto(parts, full);
      MateSizes(parts, full);
      assert full.Values == CallSet(parts);
    }
  }

  // ----- the surplus of a replay

  /** How many pending calls the nameless identities of a row claim. */
  function Nameless(l: Ledger, who: seq<Identity>): nat {
    if who == [] then 0
    else
      var init, w := who[..|who| - 1], who[|who| - 1];
      Nameless(l, init) + if w.name == "" && Pick(ClaimAll(l, init).ledger.pending, w) >= 0 then 1 else 0
  }

  function NamelessClaims(messages: seq<Message>): nat {
    if messages == [] then 0
    else
      var init, m := messages[..|messages| - 1], messages[|messages| - 1];
      NamelessClaims(init) +
      if m.role == Tool then Nameless(ReplayAll(init).ledger, RowIdentities(m)) else 0
  }

  lemma {:induction false} ClaimCount(l: Ledger, who: seq<Identity>)
    ensures var c := ClaimAll(l, who);
            |c.synthetic| - |Named(who)| == |c.ledger.pending| - |l.pending| + Nameless(l, who)
    ensures Surplus(ClaimAll(l, who).synthetic) == |ClaimAll(l, who).synthetic|
  {
    if who != [] {
      var init, w := who[..|who| - 1], who[|who| - 1];
      ClaimCount(l, init);
      var c := ClaimAll(l, init);
      var extra := CallPart(w.name, "", w.id);
      assert (c.synthetic + [extra])[..|c.synthetic|] == c.synthetic;
    }
  }

  lemma {:induction false} ReturnSurplus(parts: seq<Part>)
    requires forall p :: p in parts ==> p.ReturnPart?
    ensures Surplus(parts) == -|parts|
  {
    if parts != [] {
      ReturnSurplus(parts[..|parts| - 1]);
    }
  }

  lemma {:induction false} CallSurplus(l: Ledger, calls: seq<Call>)
    ensures Surplus(CallParts(calls)) == |Issue(l, calls, false).pending| - |l.pending|
  {
    if calls != [] {
      var init, call := calls[..|calls| - 1], calls[|calls| - 1];
      CallSurplus(l, init);
      SurplusConcat(CallParts(init), if call.name != "" then [PartOf(call)] else []);
      assert [PartOf(call)][..0] == [];
    }
  }

  lemma AddedSurplus(r: Replay, m: Message)
    ensures Surplus(Added(r, m)) ==
            |StepReplay(r, m).ledger.pending| - |r.ledger.pending|
            + if m.role == Tool then Nameless(r.ledger, RowIdentities(m)) else 0
  {
    if m.role == Assistant {
      var text := if m.content != "" then [TextPart(m.content)] else [];
      CallSurplus(r.ledger, m.calls);
      SurplusConcat(text, CallParts(m.calls));
      assert [TextPart(m.content)][..0] == [];
    } else if m.role == Tool {
      var c := ClaimAll(r.ledger, RowIdentities(m));
      ClaimCount(r.ledger, RowIdentities(m));
      ReturnPartsNamed(m);
      ReturnSurplus(ReturnParts(m));
      SurplusConcat(c.synthetic, ReturnParts(m));
    } else {
      assert [PromptPart(m.content, m.images)][..0] == [];
    }
  }

  lemma {:induction false} ModelSurplus(messages: seq<Message>)
    ensures var r := ReplayAll(messages);
            Surplus(Flatten(r.model)) == |r.ledger.pending| + NamelessClaims(messages)
  {
    if messages != [] {
      var init, m := messages[..|messages| - 1], messages[|messages| - 1];
      ModelSurplus(init);
      var r := ReplayAll(init);
      FlattenStep(r, m);
      SurplusConcat(Flatten(r.model), Added(r, m));
      AddedSurplus(r, m);
    }
  }

  lemma {:induction false} PromptSurplus(parts: seq<Part>)
    requires Prompts(parts)
    ensures Surplus(parts) == 0
  {
    if parts != [] {
      assert parts[|parts| - 1] in parts;
      PromptSurplus(parts[..|parts| - 1]);
    }
  }

  /** Calls and returns are in bijection, each call before its return, exactly when
      replay ends with no pending call and no nameless row has claimed one. */
  lemma BalancedExactly(messages: seq<Message>)
    ensures Balanced(Flatten(ToModel(messages))) <==>
            ReplayAll(messages).ledger.pending == [] && NamelessClaims(messages) == 0
  {
    var r := ReplayAll(messages);
    EveryReturnHasItsCall(messages);
    var mate: map<nat, nat> :| Mates(Flatten(ToModel(messages)), mate);
    BalancedIsZeroSurplus(Flatten(ToModel(messages)), mate);
    FlattenConcat(r.context, r.model);
    SurplusConcat(Flatten(r.context), Flatten(r.model));
    ContextPrompts(messages);
    PromptSurplus(Flatten(r.context));
    ModelSurplus(messages);
    assert ToModel(messages) == r.context + r.model;
  }

  // ----- the conditions on a transcript

  predicate NamedOrBlank(who: Identity) {
    who.name != "" || who.Blank()
  }

  /** No row and no result has an id but no name. */
  predicate RowNamed(m: Message) {
    m.role == Tool ==> NamedOrBlank(m.Own()) && forall o :: o in m.results ==> NamedOrBlank(o.Who())
  }

  predicate RowsNamed(messages: seq<Message>) {
    forall m :: m in messages ==> RowNamed(m)
  }

  /** Rows carry one identity: their own. */
  predicate NoResults(messages: seq<Message>) {
    forall m :: m in messages ==> m.results == []
  }

  /** The guard of the last resort. */
  predicate FallsBack(pending: seq<Pending>, m: Message) {
    m.role == Tool && Pick(pending, Fill(m, Infer(m, pending)).Own()) < 0 && |pending| == 1
  }

  /** No row of the matching pass is left to the last resort. */
  predicate NoFallback(messages: seq<Message>) {
    messages != [] ==>
      var init := messages[..|messages| - 1];
      NoFallback(init) && !FallsBack(Match(init).ledger.pending, messages[|messages| - 1])
  }

  lemma NoFallbackNext(messages: seq<Message>, m: Message)
    ensures NoFallback(messages + [m]) == (NoFallback(messages) && !FallsBack(Match(messages).ledger.pending, m))
  {
    assert (messages + [m])[..|messages|] == messages;
  }

  /** No unresolved call shares its key, hence its id, with a resolved one. */
  predicate NoAlias(l: Ledger) {
    forall p :: p in l.pending ==> p.MatchKey() !in l.matched
  }

  predicate DistinctIds(calls: seq<Call>) {
    forall i, j :: 0 <= i < j < |calls| && calls[i].id != "" ==> calls[i].id != calls[j].id
  }

  lemma DistinctIdsNoAlias(l: Ledger)
    requires Valid(l)
    ensures DistinctIds(l.issued) ==> NoAlias(l)
  {
    if !NoAlias(l) {
      var p :| p in l.pending && p.MatchKey() in l.matched;
      var t: nat :| Claimed(l, t, p.MatchKey());
      assert t != p.index;
      assert l.issued[t].id == l.issued[p.index].id != "";
    }
  }

  // ----- replay follows the matching pass of strip

  /** One claim, by the same rule in both passes. */
  lemma ClaimFollows(small: Ledger, big: Ledger, at: seq<nat>, kept: set<Key>, who: Identity)
    requires Follows(small, big, at, kept)
    ensures Follows(Settle(small, Pick(small.pending, who)), Settle(big, Pick(big.pending, who)), at, kept)
  {
    var s, b := Pick(small.pending, who), Pick(big.pending, who);
    if b >= 0 {
      forall j | 0 <= j < |small.pending| && StandsFor(small.pending[j], big.pending[b], at) ensures j == s {
        PickAgrees(small.pending, big.pending, at, who, j);
      }
    }
    SettleFollows(small, big, at, kept, s, b);
  }

  /** Claims by the later identities of a row only remove more calls. */
  lemma {:induction false} ClaimsFollow(small: Ledger, big: Ledger, at: seq<nat>, kept: set<Key>, who: seq<Identity>)
    requires Follows(small, big, at, kept) && who != []
    ensures Follows(ClaimAll(small, who).ledger, Settle(big, Pick(big.pending, who[0])), at, kept)
  {
    hide Follows, Pick;
    var init, w := who[..|who| - 1], who[|who| - 1];
    if init == [] {
      ClaimFollows(small, big, at, kept, w);
    } else {
      ClaimsFollow(small, big, at, kept, init);
      FollowsOn(ClaimAll(small, init).ledger, Settle(big, Pick(big.pending, who[0])), at, kept, w);
    }
  }

  lemma FollowsOn(small: Ledger, big: Ledger, at: seq<nat>, kept: set<Key>, who: Identity)
    requires Follows(small, big, at, kept)
    ensures Follows(Settle(small, Pick(small.pending, who)), big, at, kept)
  {
    SettleFollows(small, big, at, kept, Pick(small.pending, who), -1);
  }

  function StepReplayAny(r: Replay, piece: seq<Message>): Replay
    requires |piece| <= 1
  {
    if piece == [] then r else StepReplay(r, piece[0])
  }

  lemma ReplayPiece(messages: seq<Message>, piece: seq<Message>)
    requires |piece| <= 1
    ensures ReplayAll(messages + piece) == StepReplayAny(ReplayAll(messages), piece)
  {
    if piece == [] {
      assert messages + piece == messages;
    } else {
      assert (messages + piece)[..|messages|] == messages;
    }
  }

  /** `Follows`, and `Tight` where it is asked for. */
  ghost predicate Together(small: Ledger, big: Ledger, at: seq<nat>, kept: set<Key>, exact: bool) {
    Follows(small, big, at, kept) && (exact ==> Tight(small, big, at))
  }

  lemma AssistantTogether(small: Ledger, big: Ledger, at: seq<nat>, kept: set<Key>, exact: bool, calls: seq<Call>)
    returns (at': seq<nat>)
    requires Together(small, big, at, kept, exact)
    ensures Keep(calls, |big.issued|, kept, false).count == |Issue(big, calls, false).issued|
    ensures Together(Issue(small, Keep(calls, |big.issued|, kept, false).calls, false), Issue(big, calls, false), at',
                     kept, exact)
  {
    hide Follows, Tight, Keep, Issue;
    at' := IssueFollows(small, big, at, kept, calls, false);
  }

  lemma RowTogether(small: Ledger, big: Ledger, at: seq<nat>, kept: set<Key>, exact: bool, row: Message)
    requires Together(small, big, at, kept, exact) && !row.Own().Blank()
    requires exact ==> row.results == []
                       && var b := Pick(big.pending, row.Own()); b >= 0 ==> big.pending[b].MatchKey() in kept
    ensures Together(ClaimAll(small, RowIdentities(row)).ledger, Settle(big, Pick(big.pending, row.Own())), at, kept,
            exact)
  {
    hide Follows, Tight, Pick, Settle;
    var who, own := RowIdentities(row), row.Own();
    assert who[0] == own;
    ClaimsFollow(small, big, at, kept, who);
    if exact {
      assert who == [own];
      ClaimSingle(small, own);
      PickTight(small, big, at, kept, own);
    }
  }

  lemma ClaimSingle(l: Ledger, who: Identity)
    ensures ClaimAll(l, [who]).ledger == Settle(l, Pick(l.pending, who))
  {
    assert [who][..0] == [];
  }

  lemma StepReplayFollows(r: Replay, p: Pass, at: seq<nat>, kept: set<Key>, exact: bool, m: Message)
    returns (at': seq<nat>)
    requires Together(r.ledger, p.ledger, at, kept, exact)
    requires !FallsBack(p.ledger.pending, m)
    requires exact ==> m.results == [] && StepMatch(p, m).ledger.matched <= kept
    ensures var p' := StepMatch(p, m);
            |p'.rows| == |p.rows| + 1 && p'.rows == p.rows + [p'.rows[|p.rows|]]
    ensures var p' := StepMatch(p, m);
            var row := p'.rows[|p.rows|];
            && CountAfter(row, |p.ledger.issued|, kept) == |p'.ledger.issued|
            && Together(StepReplayAny(r, SiftOne(row, |p.ledger.issued|, kept)).ledger, p'.ledger, at', kept, exact)
  {
    hide Follows, Tight, Keep, Issue, Together, ClaimAll, Pick, Infer, RowIdentities;
    at' := at;
    if m.role == Assistant {
      at' := AssistantTogether(r.ledger, p.ledger, at, kept, exact, m.calls);
      IssueNone(r.ledger);
      KeepNothing(|p.ledger.issued|, kept);
    } else if m.role == Tool {
      var row := Fill(m, Infer(m, p.ledger.pending));
      if row.Own().Blank() {
        BlankRow(m, p.ledger.pending, r.ledger);
      } else {
        RowTogether(r.ledger, p.ledger, at, kept, exact, row);
      }
    }
  }

  /** A row that stays anonymous claims nothing in either pass. */
  lemma BlankRow(m: Message, pending: seq<Pending>, l: Ledger)
    requires Fill(m, Infer(m, pending)).Own().Blank()
    ensures Pick(pending, Fill(m, Infer(m, pending)).Own()) == -1
    ensures ClaimAll(l, RowIdentities(Fill(m, Infer(m, pending)))) == Claims(l, [])
  {
    assert RowIdentities(Fill(m, Infer(m, pending))) == [];
  }

  /** Replaying what sifting left follows the matching pass. */
  ghost predicate ReplayInStep(messages: seq<Message>, kept: set<Key>, at: seq<nat>, exact: bool) {
    var p := Match(messages);
    var s := Sift(p.rows, kept);
    s.count == |p.ledger.issued| && Together(ReplayAll(s.rows).ledger, p.ledger, at, kept, exact)
  }

  lemma ReplayInStepNext(init: seq<Message>, m: Message, kept: set<Key>, at: seq<nat>, exact: bool)
    returns (at': seq<nat>)
    requires ReplayInStep(init, kept, at, exact) && !FallsBack(Match(init).ledger.pending, m)
    requires exact ==> m.results == [] && StepMatch(Match(init), m).ledger.matched <= kept
    ensures ReplayInStep(init + [m], kept, at', exact)
  {
    hide Together, Match, Sift, ReplayAll, StepMatch, SiftOne, CountAfter, StepReplayAny, FallsBack;
    var p := Match(init);
    var s := Sift(p.rows, kept);
    at' := StepReplayFollows(ReplayAll(s.rows), p, at, kept, exact, m);
    MatchStep(init, m);
    var row := StepMatch(p, m).rows[|p.rows|];
    SiftStep(p.rows, row, kept);
    SiftPiece(row, s.count, kept);
    ReplayPiece(s.rows, SiftOne(row, s.count, kept));
  }

  lemma SiftPiece(m: Message, count: nat, kept: set<Key>)
    ensures |SiftOne(m, count, kept)| <= 1
  {
  }

  lemma MatchedGrows(p: Pass, m: Message)
    ensures p.ledger.matched <= StepMatch(p, m).ledger.matched
  {
    IssueKeepsMatched(p.ledger, m.calls);
  }

  lemma {:induction false} ReplayFollows(messages: seq<Message>, kept: set<Key>, exact: bool) returns (at: seq<nat>)
    requires NoFallback(messages)
    requires exact ==> NoResults(messages) && Match(messages).ledger.matched <= kept
    ensures ReplayInStep(messages, kept, at, exact)
  {
    hide Together, Sift, ReplayAll, StepMatch, FallsBack, ReplayInStep;
    if messages == [] {
      at := [];
      ReplayInStepStart(kept, exact);
    } else {
      var init, m := messages[..|messages| - 1], messages[|messages| - 1];
      MatchedGrows(Match(init), m);
      assert m in messages && forall x :: x in init ==> x in messages;
      at := ReplayFollows(init, kept, exact);
      at := ReplayInStepNext(init, m, kept, at, exact);
      assert init + [m] == messages;
    }
  }

  lemma ReplayInStepStart(kept: set<Key>, exact: bool)
    ensures ReplayInStep([], kept, [], exact)
  {
  }

  lemma PendingIsAlias(small: Ledger, big: Ledger, at: seq<nat>)
    requires Follows(small, big, at, big.matched)
    ensures NoAlias(big) ==> small.pending == []
  {
    if small.pending != [] {
      var e := small.pending[0];
      assert e in small.pending;
      var q := Pending(e.call, at[e.index]);
      assert q in big.pending && at[e.index] in at;
      assert q.MatchKey() in big.matched;
    }
  }

  lemma AliasIsPending(small: Ledger, big: Ledger, at: seq<nat>)
    requires Follows(small, big, at, big.matched) && Tight(small, big, at)
    ensures small.pending == [] ==> NoAlias(big)
  {
    if !NoAlias(big) {
      var p :| p in big.pending && p.MatchKey() in big.matched;
      assert p.index in at;
      var j :| 0 <= j < |at| && at[j] == p.index;
      assert Waiting(big, at[j]);
      assert Waiting(small, j);
    }
  }

  /** Under these conditions replay claims every call that stripping kept; and if every
      row carries one identity, only under these. */
  lemma NothingPending(messages: seq<Message>)
    requires NoFallback(messages)
    ensures NoAlias(Match(messages).ledger) ==> ReplayAll(Strip(messages)).ledger.pending == []
    ensures NoResults(messages) && ReplayAll(Strip(messages)).ledger.pending == [] ==> NoAlias(Match(messages).ledger)
  {
    var p := Match(messages);
    var at := ReplayFollows(messages, p.ledger.matched, NoResults(messages));
    var l := ReplayAll(Strip(messages)).ledger;
    PendingIsAlias(l, p.ledger, at);
    if NoResults(messages) {
      AliasIsPending(l, p.ledger, at);
    }
  }

  // ----- names survive the repair of identities

  predicate LedgerNamed(l: Ledger) {
    forall p :: p in l.pending ==> p.call.name != ""
  }

  lemma {:induction false} IssueNamed(l: Ledger, calls: seq<Call>)
    requires LedgerNamed(l)
    ensures LedgerNamed(Issue(l, calls, false))
  {
    if calls != [] {
      IssueNamed(l, calls[..|calls| - 1]);
    }
  }

  lemma {:induction false} FirstIdentityNamed(pending: seq<Pending>)
    requires forall p :: p in pending ==> p.call.name != ""
    ensures NamedOrBlank(FirstIdentity(pending))
  {
    if pending != [] {
      assert pending[0] in pending;
    }
  }

  lemma {:induction false} ResultsNamed(results: seq<Outcome>)
    requires forall o :: o in results ==> NamedOrBlank(o.Who())
    ensures forall w :: w in ResultIdentities(results) ==> w.name != ""
  {
    if results != [] {
      assert results[0] in results;
      ResultsNamed(results[1..]);
    }
  }

  lemma FillNamed(m: Message, pending: seq<Pending>)
    requires RowNamed(m) && m.role == Tool && forall p :: p in pending ==> p.call.name != ""
    ensures RowNamed(Fill(m, Infer(m, pending)))
  {
    FirstIdentityNamed(pending);
    ResultsNamed(m.results);
  }

  lemma {:induction false} RepairNamed(transcript: seq<Message>)
    requires RowsNamed(transcript)
    ensures RowsNamed(Repair(transcript).rows) && LedgerNamed(Repair(transcript).ledger)
  {
    if transcript != [] {
      var init, m := transcript[..|transcript| - 1], transcript[|transcript| - 1];
      RepairNamed(init);
      IssueNamed(Repair(init).ledger, m.calls);
      var l := Issue(Repair(init).ledger, m.calls, false);
      assert m in transcript;
      if m.role == Tool {
        FillNamed(m, l.pending);
      }
    }
  }

  lemma {:induction false} MatchNamed(messages: seq<Message>)
    requires RowsNamed(messages)
    ensures RowsNamed(Match(messages).rows) && LedgerNamed(Match(messages).ledger)
  {
    if messages != [] {
      var init, m := messages[..|messages| - 1], messages[|messages| - 1];
      MatchNamed(init);
      IssueNamed(Match(init).ledger, m.calls);
      assert m in messages;
      if m.role == Tool {
        FillNamed(m, Match(init).ledger.pending);
      }
    }
  }

  lemma {:induction false} SiftNamed(messages: seq<Message>, matched: set<Key>)
    requires RowsNamed(messages)
    ensures RowsNamed(Sift(messages, matched).rows)
  {
    if messages != [] {
      assert messages[|messages| - 1] in messages;
      SiftNamed(messages[..|messages| - 1], matched);
    }
  }

  lemma {:induction false} NamedClaimsNothingNameless(l: Ledger, who: seq<Identity>)
    requires forall w :: w in who ==> w.name != ""
    ensures Nameless(l, who) == 0
  {
    if who != [] {
      assert who[|who| - 1] in who;
      NamedClaimsNothingNameless(l, who[..|who| - 1]);
    }
  }

  lemma {:induction false} NoNamelessClaims(messages: seq<Message>)
    requires RowsNamed(messages)
    ensures NamelessClaims(messages) == 0
  {
    if messages != [] {
      var init, m := messages[..|messages| - 1], messages[|messages| - 1];
      NoNamelessClaims(init);
      assert m in messages;
      if m.role == Tool {
        ResultsNamed(m.results);
        NamedClaimsNothingNameless(ReplayAll(init).ledger, RowIdentities(m));
      }
    }
  }

  lemma BuiltRowsNamed(transcript: seq<Message>)
    requires RowsNamed(transcript)
    ensures NamelessClaims(BuildHistory(transcript)) == 0
  {
    var messages := Repair(transcript).rows;
    RepairNamed(transcript);
    MatchNamed(messages);
    SiftNamed(Match(messages).rows, Match(messages).ledger.matched);
    NoNamelessClaims(BuildHistory(transcript));
  }

  lemma {:induction false} RepairResults(transcript: seq<Message>)
    requires NoResults(transcript)
    ensures NoResults(Repair(transcript).rows)
  {
    if transcript != [] {
      assert transcript[|transcript| - 1] in transcript;
      RepairResults(transcript[..|transcript| - 1]);
    }
  }

  /** Replay balance: when rows are named or anonymous and none is left to the last
      resort, calls and returns are in bijection if no unresolved call shares its id with
      a resolved one; and only if, when rows carry no results of their own. */
  lemma ReplayBalanced(transcript: seq<Message>)
    requires RowsNamed(transcript) && NoFallback(Repair(transcript).rows)
    ensures NoAlias(Match(Repair(transcript).rows).ledger) ==>
              Balanced(Flatten(ToModel(BuildHistory(transcript))))
    ensures NoResults(transcript) && Balanced(Flatten(ToModel(BuildHistory(transcript)))) ==>
              NoAlias(Match(Repair(transcript).rows).ledger)
  {
    BuiltRowsNamed(transcript);
    NothingPending(Repair(transcript).rows);
    BalancedExactly(BuildHistory(transcript));
    if NoResults(transcript) {
      RepairResults(transcript);
    }
  }

  // ----- rows without a name

  /** A row that goes by an id alone and claims a pending call. */
  predicate ClaimsNameless(pending: seq<Pending>, m: Message) {
    m.role == Tool &&
    var who := Fill(m, Infer(m, pending)).Own();
    who.name == "" && Pick(pending, who) >= 0
  }

  /** No row of the matching pass claims a call by its id alone. */
  predicate NoNamelessMatch(messages: seq<Message>) {
    messages != [] ==>
      var init := messages[..|messages| - 1];
      NoNamelessMatch(init) && !ClaimsNameless(Match(init).ledger.pending, messages[|messages| - 1])
  }

  lemma NoNamelessMatchNext(messages: seq<Message>, m: Message)
    ensures NoNamelessMatch(messages + [m]) ==
            (NoNamelessMatch(messages) && !ClaimsNameless(Match(messages).ledger.pending, m))
  {
    assert (messages + [m])[..|messages|] == messages;
  }

  lemma NamelessClaimsNext(messages: seq<Message>, m: Message)
    ensures NamelessClaims(messages + [m]) ==
            NamelessClaims(messages)
            + if m.role == Tool then Nameless(ReplayAll(messages).ledger, RowIdentities(m)) else 0
  {
    assert (messages + [m])[..|messages|] == messages;
  }

  /** A row finds a call in the one pass if it does in the other. */
  lemma PickToo(small: Ledger, big: Ledger, at: seq<nat>, kept: set<Key>, who: Identity)
    requires Follows(small, big, at, kept) && Tight(small, big, at)
    requires var b := Pick(big.pending, who); b >= 0 ==> big.pending[b].MatchKey() in kept
    ensures Pick(small.pending, who) >= 0 <==> Pick(big.pending, who) >= 0
  {
    hide Pick, Tight;
    var b := Pick(big.pending, who);
    if b < 0 {
      UnmatchedStays(small.pending, big.pending, at, who);
    } else {
      var k := ClaimedStands(small, big, at, kept, b);
      PickAgrees(small.pending, big.pending, at, who, k);
    }
  }

  lemma NamelessSingle(l: Ledger, who: Identity)
    ensures Nameless(l, [who]) == if who.name == "" && Pick(l.pending, who) >= 0 then 1 else 0
    ensures Nameless(l, []) == 0
  {
    assert [who][..0] == [];
  }

  /** One row without results, seen by the matching pass and by replay. */
  lemma NamelessAgrees(small: Ledger, p: Pass, at: seq<nat>, kept: set<Key>, m: Message)
    requires Together(small, p.ledger, at, kept, true) && m.role == Tool && m.results == []
    requires !FallsBack(p.ledger.pending, m) && StepMatch(p, m).ledger.matched <= kept
    ensures var row := Fill(m, Infer(m, p.ledger.pending));
            Nameless(small, RowIdentities(row)) == 0 <==> !ClaimsNameless(p.ledger.pending, m)
  {
    hide Follows, Tight, Pick, Infer, Nameless;
    var row := Fill(m, Infer(m, p.ledger.pending));
    var own := row.Own();
    NamelessSingle(small, own);
    if own.Blank() {
      assert RowIdentities(row) == [];
      assert own == Identity("", "");
      BlankPicks(p.ledger.pending);
    } else {
      assert RowIdentities(row) == [own];
      PickToo(small, p.ledger, at, kept, own);
    }
  }

  /** What sifting leaves of a message that is no row claims nothing. */
  lemma SiftedOther(rows: seq<Message>, m: Message, count: nat, kept: set<Key>)
    requires m.role != Tool
    ensures NamelessClaims(rows + SiftOne(m, count, kept)) == NamelessClaims(rows)
  {
    hide NamelessClaims, Keep;
    if SiftOne(m, count, kept) == [] {
      assert rows + [] == rows;
    } else {
      NamelessClaimsNext(rows, SiftOne(m, count, kept)[0]);
    }
  }

  lemma NamelessNext(init: seq<Message>, m: Message, kept: set<Key>, at: seq<nat>)
    requires ReplayInStep(init, kept, at, true) && m.results == []
    requires !FallsBack(Match(init).ledger.pending, m) && StepMatch(Match(init), m).ledger.matched <= kept
    ensures var before, after := Sift(Match(init).rows, kept).rows, Sift(Match(init + [m]).rows, kept).rows;
            NamelessClaims(after) == 0 <==>
            NamelessClaims(before) == 0 && !ClaimsNameless(Match(init).ledger.pending, m)
  {
    hide Together, Match, Sift, ReplayAll, Nameless, NamelessClaims, ClaimsNameless, FallsBack, Infer, PickOrOnly, Fill;
    hide RowIdentities, Issue, Keep;
    MatchStep(init, m);
    var p := Match(init);
    var s, row := Sift(p.rows, kept), StepMatch(p, m).rows[|p.rows|];
    SiftStep(p.rows, row, kept);
    if m.role == Tool {
      FillKeeps(m, Infer(m, p.ledger.pending));
      NamelessAgrees(ReplayAll(s.rows).ledger, p, at, kept, m);
      NamelessClaimsNext(s.rows, row);
    } else {
      OtherClaimsNothing(m, p.ledger.pending);
      SiftedOther(s.rows, row, s.count, kept);
    }
  }

  /** Replay of a stripped history lets no nameless row claim exactly when the matching pass
      let none. */
  lemma {:induction false} NamelessExactly(messages: seq<Message>, kept: set<Key>)
    requires NoFallback(messages) && NoResults(messages) && Match(messages).ledger.matched <= kept
    ensures NamelessClaims(Sift(Match(messages).rows, kept).rows) == 0 <==> NoNamelessMatch(messages)
  {
    if messages != [] {
      hide Match, Sift, NamelessClaims, NoFallback, NoNamelessMatch, ClaimsNameless, FallsBack, ReplayInStep, StepMatch;
      var init, m := messages[..|messages| - 1], messages[|messages| - 1];
      assert messages == init + [m] && m in messages && forall x :: x in init ==> x in messages;
      NoFallbackNext(init, m);
      MatchStep(init, m);
      MatchedGrows(Match(init), m);
      NamelessExactly(init, kept);
      NoNamelessMatchNext(init, m);
      var at := ReplayFollows(init, kept, true);
      NamelessNext(init, m, kept, at);
    }
  }

  lemma OtherClaimsNothing(m: Message, pending: seq<Pending>)
    requires m.role != Tool
    ensures !ClaimsNameless(pending, m)
  {
  }

  /** For rows that carry no results and are never left to the last resort, with a name or
      without: calls and returns are in bijection if and only if no unresolved call shares its
      id with a resolved one and no row claims a call by its id alone. */
  lemma ReplayBalancedExactly(transcript: seq<Message>)
    requires NoResults(transcript) && NoFallback(Repair(transcript).rows)
    ensures Balanced(Flatten(ToModel(BuildHistory(transcript)))) <==>
            NoAlias(Match(Repair(transcript).rows).ledger) && NoNamelessMatch(Repair(transcript).rows)
  {
    hide Repair, Match, Sift, NoFallback, NoAlias, NoNamelessMatch, NamelessClaims, ReplayAll, Balanced;
    var rows := Repair(transcript).rows;
    RepairResults(transcript);
    NothingPending(rows);
    NamelessExactly(rows, Match(rows).ledger.matched);
    BalancedExactly(BuildHistory(transcript));
  }

  /** The calls that replay numbers: those of assistant messages that have a name. */
  function NamedCalls(calls: seq<Call>): seq<Call> {
    if calls == [] then []
    else
      var call := calls[|calls| - 1];
      NamedCalls(calls[..|calls| - 1]) + if call.name != "" then [call] else []
  }

  function NumberedCalls(transcript: seq<Message>): seq<Call> {
    if transcript == [] then []
    else
      var m := transcript[|transcript| - 1];
      NumberedCalls(transcript[..|transcript| - 1]) + if m.role == Assistant then NamedCalls(m.calls) else []
  }

  lemma {:induction false} IssuesNamed(l: Ledger, calls: seq<Call>)
    ensures Issue(l, calls, false).issued == l.issued + NamedCalls(calls)
  {
    if calls == [] {
      assert l.issued + [] == l.issued;
    } else {
      IssuesNamed(l, calls[..|calls| - 1]);
    }
  }

  lemma {:induction false} MatchIssues(messages: seq<Message>)
    ensures Match(messages).ledger.issued == NumberedCalls(messages)
  {
    if messages != [] {
      hide Issue, Infer, PickOrOnly, NamedCalls;
      var init, m := messages[..|messages| - 1], messages[|messages| - 1];
      MatchIssues(init);
      IssuesNamed(Match(init).ledger, m.calls);
      assert NumberedCalls(init) + [] == NumberedCalls(init);
    }
  }

  lemma {:induction false} RepairKeepsCalls(transcript: seq<Message>)
    ensures NumberedCalls(Repair(transcript).rows) == NumberedCalls(transcript)
  {
    hide Repair, Infer, Issue, Pick, NamedCalls, NumberedCalls;
    if transcript == [] {
      NothingYet();
    } else {
      var init, m := transcript[..|transcript| - 1], transcript[|transcript| - 1];
      assert transcript == init + [m];
      RepairKeepsCalls(init);
      RepairStep(init, m);
      NumberedNext(init, m);
      NumberedNext(Repair(init).rows, StepBuild(Repair(init), m).rows[|Repair(init).rows|]);
    }
  }

  lemma NumberedNext(messages: seq<Message>, m: Message)
    ensures NumberedCalls(messages + [m]) ==
            NumberedCalls(messages) + if m.role == Assistant then NamedCalls(m.calls) else []
  {
    assert (messages + [m])[..|messages|] == messages;
  }

  /** It is enough that the ids of the transcript's named assistant calls are distinct. */
  lemma ReplayBalancedDistinctIds(transcript: seq<Message>)
    requires RowsNamed(transcript) && NoFallback(Repair(transcript).rows)
    requires DistinctIds(NumberedCalls(transcript))
    ensures Balanced(Flatten(ToModel(BuildHistory(transcript))))
  {
    var rows := Repair(transcript).rows;
    RepairKeepsCalls(transcript);
    MatchIssues(rows);
    MatchValid(rows);
    DistinctIdsNoAlias(Match(rows).ledger);
    ReplayBalanced(transcript);
  }
}
