/** A turn whose rows each name a pending call, persisted and then replayed: calls and
    returns are in bijection. The conditions are on the turn as it was, before it is stored. */
module ReloadBalance {
  import opened Transcripts
  import opened Pairing
  import opened FirstClaims
  import opened HistoryMemory
  import opened Rebasing
  import opened ReloadProofs
  import opened ReplayBalance
  import opened ReplayProofs
  import opened ReplayedCalls
  import opened StoredCalls
  import opened StripProofs
  import opened ToolEvidence

  /** The identity by which replay lets a row claim: the first it carries, or else that of the
      only pending call. */
  function Claimant(m: Message, pending: seq<Pending>): Identity {
    if FirstOf(m).Blank() && |pending| == 1 then pending[0].Who() else FirstOf(m)
  }

  /** A row of role `Tool` names a call that is pending, or comes when none is. */
  predicate AnswersAt(l: Ledger, m: Message) {
    m.role == Tool ==> l.pending == [] || Pick(l.pending, Claimant(m, l.pending)) >= 0
  }

  predicate Answering(messages: seq<Message>) {
    messages != [] ==>
      var init, m := messages[..|messages| - 1], messages[|messages| - 1];
      Answering(init) && AnswersAt(Registered(Collect(Firsts(init)), m), m)
  }

  /** Both passes of replay over what is stored agree, no row is left to the last resort,
      and every kept call that waits in the turn's ledger waits in replay's. */
  ghost predicate Balancing(stored: seq<Message>, n: nat, big: Ledger, at: seq<nat>, kept: set<Key>) {
    && InStep(stored, n, big, at, kept)
    && Tight(Rebase(Reloaded(stored).ledger, n), big, at)
    && NoFallback(Repair(stored).rows)
    && Repair(stored).ledger == Reloaded(stored).ledger
  }

  /** A row that is not left to the last resort: both passes claim the same call. */
  lemma RowAgrees(stored: seq<Message>, m: Message)
    requires m.role == Tool && m.calls == [] && Repair(stored).ledger == Reloaded(stored).ledger
    requires var l := Reloaded(stored).ledger; !FallsBack(l.pending, Fill(m, Infer(m, l.pending)))
    ensures var l := Reloaded(stored).ledger;
            var who := Fill(m, Infer(m, l.pending)).Own();
            && RepairedRow(stored, m) == Fill(m, Infer(m, l.pending))
            && Repair(stored + [m]).ledger == Reloaded(stored + [m]).ledger == Settle(l, Pick(l.pending, who))
  {
    hide Repair, Reloaded, Infer, Fill, Pick, Settle;
    var l := Reloaded(stored).ledger;
    IssueNone(l);
    FillAgain(m, l.pending);
    RepairStep(stored, m);
    ReloadedNext(stored, m);
    FillKeeps(m, Infer(m, l.pending));
  }

  /** Any other message: both passes register its calls, which only an assistant's has. */
  lemma OtherAgrees(stored: seq<Message>, m: Message)
    requires m.role != Tool && (m.role != Assistant ==> m.calls == [])
    requires Repair(stored).ledger == Reloaded(stored).ledger && NoFallback(Repair(stored).rows)
    ensures Repair(stored + [m]).ledger == Reloaded(stored + [m]).ledger && NoFallback(Repair(stored + [m]).rows)
  {
    hide Repair, Match, Issue, NoFallback;
    IssueNone(Reloaded(stored).ledger);
    RepairStep(stored, m);
    ReloadedNext(stored, m);
    NoFallbackNext(Repair(stored).rows, m);
  }

  // ----- one row

  lemma ReloadedIs(stored: seq<Message>)
    ensures Reloaded(stored) == Match(Repair(stored).rows)
  {
  }

  lemma EmbedsInSome(small: seq<Pending>, big: seq<Pending>, at: seq<nat>)
    requires Embeds(small, big, at)
    ensures small != [] ==> big != []
  {
    if small != [] {
      assert small[0] in small;
      assert Pending(small[0].call, at[small[0].index]) in big;
    }
  }

  /** Replay has nothing pending when the turn's ledger has nothing. */
  lemma NothingToClaim(l: Ledger, n: nat, big: Ledger, at: seq<nat>, kept: set<Key>)
    requires SettledBefore(l, n) && Follows(Rebase(l, n), big, at, kept) && big.pending == []
    ensures l.pending == []
  {
    FollowsOrders(Rebase(l, n), big, at, kept);
    EmbedsInSome(Rebase(l, n).pending, big.pending, at);
  }

  /** A row that names a pending call by `who` names it in replay too. */
  lemma ClaimsToo(l: Ledger, n: nat, big: Ledger, at: seq<nat>, kept: set<Key>, who: Identity)
    requires SettledBefore(l, n) && Follows(Rebase(l, n), big, at, kept) && Tight(Rebase(l, n), big, at)
    requires Pick(big.pending, who) >= 0 && big.pending[Pick(big.pending, who)].MatchKey() in kept
    ensures Pick(l.pending, who) >= 0
    ensures l.pending[Pick(l.pending, who)].call == big.pending[Pick(big.pending, who)].call
  {
    hide Pick, Tight, KeyOf, Valid, ClaimedSince;
    var small := Rebase(l, n);
    var k := ClaimedStands(small, big, at, kept, Pick(big.pending, who));
    PickAgrees(small.pending, big.pending, at, who, k) by {
      FollowsOrders(small, big, at, kept);
    }
    RebasePicks(l, n, who);
  }

  lemma FollowsOrders(small: Ledger, big: Ledger, at: seq<nat>, kept: set<Key>)
    requires Follows(small, big, at, kept)
    ensures Ordered(small.pending) && Ordered(big.pending) && Increasing(at) && Embeds(small.pending, big.pending, at)
  {
  }

  /** The identity a row goes by in replay is the one it had when it was persisted. */
  lemma SameIdentity(l: Ledger, n: nat, big: Ledger, at: seq<nat>, kept: set<Key>, m: Message)
    requires SettledBefore(l, n) && Follows(Rebase(l, n), big, at, kept) && Tight(Rebase(l, n), big, at)
    requires m.role == Tool
    requires var b := Pick(big.pending, Claimant(m, big.pending)); b >= 0 && big.pending[b].MatchKey() in kept
    ensures Fill(m, Infer(m, l.pending)).Own() == Claimant(m, big.pending)
  {
    hide Follows, Tight, Valid, ClaimedSince, KeyOf;
    var who := Claimant(m, big.pending);
    NotBlank(big.pending, who);
    if RowIdentities(m) != [] {
      RowIdentity(m, l.pending, l.pending);
      FillAgain(m, l.pending);
    } else {
      ClaimsToo(l, n, big, at, kept, who);
      OnlyOneLeft(l, n, big, at, kept);
      assert l.pending[0].Who() == who;
      assert FirstIdentity(l.pending) == who;
    }
  }

  /** A row that answers makes the claim that its identity names. */
  lemma ClaimIsPick(l: Ledger, m: Message)
    requires m.role == Tool && Pick(l.pending, Claimant(m, l.pending)) >= 0
    ensures FirstClaim(l, m) == Settle(l, Pick(l.pending, Claimant(m, l.pending)))
  {
    BlankPicks(l.pending);
  }

  lemma NotBlank(pending: seq<Pending>, who: Identity)
    requires Pick(pending, who) >= 0
    ensures !who.Blank()
  {
  }

  lemma OnlyOneLeft(l: Ledger, n: nat, big: Ledger, at: seq<nat>, kept: set<Key>)
    requires SettledBefore(l, n) && Follows(Rebase(l, n), big, at, kept) && |big.pending| == 1
    ensures |l.pending| <= 1
  {
    FollowsOrders(Rebase(l, n), big, at, kept);
    OnlyOne(Rebase(l, n).pending, big.pending, at);
  }

  lemma RowBalances(stored: seq<Message>, n: nat, big: Ledger, at: seq<nat>, kept: set<Key>, m: Message)
    requires Balancing(stored, n, big, at, kept) && m.role == Tool && m.calls == []
    requires AnswersAt(big, m) && FirstClaim(big, m).matched <= kept
    ensures Balancing(stored + [m], n, FirstClaim(big, m), at, kept)
  {
    hide Follows, Tight, Valid, SettledBefore, Rebase, Reloaded, Repair, NoFallback, Infer, Fill, Pick, Claimant;
    hide FirstClaim;
    var l, who := Reloaded(stored).ledger, Claimant(m, big.pending);
    RowInStep(stored, n, big, at, kept, m);
    FillAgain(m, l.pending);
    ReloadedIs(stored);
    NoFallbackNext(Repair(stored).rows, RepairedRow(stored, m));
    if big.pending == [] {
      NothingToClaim(l, n, big, at, kept);
      RowAgrees(stored, m);
      ReloadedNext(stored, m);
      NothingClaimed(big, m);
      assert Settle(l, Pick(l.pending, Fill(m, Infer(m, l.pending)).Own())) == l;
    } else {
      ClaimIsPick(big, m);
      SameIdentity(l, n, big, at, kept, m);
      ClaimsToo(l, n, big, at, kept, who);
      RowAgrees(stored, m);
      ReloadedNext(stored, m);
      RebasePicks(l, n, who);
      RebaseSettle(l, n, Pick(l.pending, who));
      PickTight(Rebase(l, n), big, at, kept, who);
    }
  }

  lemma NothingClaimed(l: Ledger, m: Message)
    requires l.pending == []
    ensures FirstClaim(l, m) == l
  {
  }

  // ----- the whole turn

  lemma StepBalances(stored: seq<Message>, n: nat, big: Ledger, at: seq<nat>, kept: set<Key>, m: Message, turn: Turn)
    returns (at': seq<nat>)
    requires Balancing(stored, n, big, at, kept) && (m.role != Assistant ==> m.calls == [])
    requires AnswersAt(Registered(big, m), m) && FirstClaim(Registered(big, m), m).matched <= kept
    requires NamedWith(big.issued + m.calls, kept)
    ensures Balancing(stored + ScreenOne(m, |big.issued|, kept, turn), n, FirstClaim(Registered(big, m), m), at', kept)
  {
    hide InStep, AnswersAt, PickOrOnly, NamedWith, Issue, Tight, Rebase, NoFallback, Repair, Reloaded, ScreenOne;
    at' := at;
    if m.role == Assistant {
      at' := AssistantInStep(stored, n, big, at, kept, m, turn);
      AssistantPiece(m, |big.issued|, kept, turn);
      var piece := ScreenOne(m, |big.issued|, kept, turn);
      if piece == [] {
        assert stored + piece == stored;
      } else {
        assert piece == [piece[0]];
        OtherAgrees(stored, piece[0]);
      }
    } else {
      ScreenedAsIs(m, |big.issued|, kept, turn);
      if m.role == Tool {
        RowBalances(stored, n, big, at, kept, m);
      } else {
        OtherInStep(stored, n, big, at, kept, m);
        OtherAgrees(stored, m);
      }
    }
  }

  lemma AssistantPiece(m: Message, count: nat, kept: set<Key>, turn: Turn)
    requires m.role == Assistant
    ensures |ScreenOne(m, count, kept, turn)| <= 1
    ensures forall i :: 0 <= i < |ScreenOne(m, count, kept, turn)| ==>
            ScreenOne(m, count, kept, turn)[i].role == Assistant
  {
  }

  /** A past that replay leaves in balance: no call waits at its end, no row was left to the
      last resort, and assistants alone carry calls. */
  predicate Settling(past: seq<Message>) {
    Quiet(past) && NoForeignCalls(past) && NoFallback(Repair(past).rows)
  }

  lemma RowsAgree(stored: seq<Message>, m: Message)
    requires Repair(stored) == Reloaded(stored) && (m.role != Assistant ==> m.calls == [])
    requires Repair(stored + [m]).ledger == Reloaded(stored + [m]).ledger
    ensures Repair(stored + [m]) == Reloaded(stored + [m])
  {
    hide Repair, Match, Infer, Fill, Issue, Pick, PickOrOnly;
    var l := Reloaded(stored).ledger;
    IssueNone(l);
    FillAgain(m, l.pending);
    FillKeeps(m, Infer(m, l.pending));
    RepairStep(stored, m);
    ReloadedNext(stored, m);
  }

  lemma {:induction false} PassesAgree(stored: seq<Message>)
    requires NoForeignCalls(stored) && NoFallback(Repair(stored).rows)
    ensures Repair(stored) == Reloaded(stored)
  {
    hide NoFallback, Repair, Match, NoForeignCalls, FallsBack, Infer, Fill, RepairedRow;
    if stored == [] {
      NothingStored();
    } else {
      var init, m := stored[..|stored| - 1], stored[|stored| - 1];
      assert stored == init + [m];
      NoForeignBefore(init, m);
      ReloadedNext(init, m);
      NoFallbackNext(Repair(init).rows, RepairedRow(init, m));
      PassesAgree(init);
      if m.role == Tool {
        RowIs(init, m);
        RowAgrees(init, m);
      } else {
        OtherAgrees(init, m);
      }
      RowsAgree(init, m);
    }
  }

  lemma NothingStored()
    ensures Repair([]) == START == Reloaded([])
  {
  }

  lemma RowIs(stored: seq<Message>, m: Message)
    requires m.role == Tool && m.calls == [] && Repair(stored).ledger == Reloaded(stored).ledger
    ensures RepairedRow(stored, m) == Fill(m, Infer(m, Reloaded(stored).ledger.pending))
    ensures Match(Repair(stored).rows).ledger == Reloaded(stored).ledger
  {
    hide Repair, Match, Infer, Fill, Issue;
    IssueNone(Reloaded(stored).ledger);
  }

  lemma BalancingAtStart(past: seq<Message>, kept: set<Key>)
    requires Settling(past)
    ensures Balancing(past, |Reloaded(past).ledger.issued|, EMPTY, [], kept)
  {
    hide Reloaded, Repair, NoForeignCalls, NoFallback;
    PassesAgree(past);
    InStepAtStart(past, kept);
  }

  lemma {:induction false} IssueMatched(l: Ledger, calls: seq<Call>)
    ensures Issue(l, calls, true).matched == l.matched
  {
    if calls != [] {
      IssueMatched(l, calls[..|calls| - 1]);
    }
  }

  lemma ClaimGrows(l: Ledger, m: Message)
    ensures l.matched <= FirstClaim(Registered(l, m), m).matched
  {
    hide Issue;
    IssueMatched(l, m.calls);
  }

  lemma AnsweringNext(messages: seq<Message>, m: Message)
    requires Answering(messages + [m])
    ensures Answering(messages) && AnswersAt(Registered(Collect(Firsts(messages)), m), m)
  {
    var all := messages + [m];
    assert all[..|all| - 1] == messages && all[|messages|] == m;
  }

  lemma {:induction false} TurnBalances(past: seq<Message>, own: seq<Message>, kept: set<Key>, turn: Turn)
    returns (at: seq<nat>)
    requires Settling(past) && NoForeignCalls(own) && Answering(own)
    requires NamedWith(CallsOf(own), kept) && Collect(Firsts(own)).matched <= kept
    ensures Balancing(past + Screen(own, 0, kept, turn).rows, |Reloaded(past).ledger.issued|, Collect(Firsts(own)), at,
            kept)
  {
    hide Balancing, Settling, NoForeignCalls, Answering, AnswersAt, NamedWith, Collect, Screen, CallsOf;
    hide FirstClaim, Registered, Reloaded, ScreenOne;
    if own == [] {
      at := [];
      NothingCounted(kept, turn);
      assert past + [] == past && Firsts(own) == [];
      BalancingAtStart(past, kept);
    } else {
      var init, m := own[..|own| - 1], own[|own| - 1];
      assert own == init + [m];
      var s, big := Screen(init, 0, kept, turn), Collect(Firsts(init));
      NamedNext(init, m, kept);
      AnsweringNext(init, m);
      FirstsNext(init, m);
      ClaimGrows(big, m);
      at := TurnBalances(past, init, kept, turn);
      ScreenedCalls(init, kept, turn);
      FirstsIssueCalls(init);
      at := StepBalances(past + s.rows, |Reloaded(past).ledger.issued|, big, at, kept, m, turn);
      ScreenStep(init, 0, kept, turn, m);
      assert past + (s.rows + ScreenOne(m, s.count, kept, turn)) == (past + s.rows) + ScreenOne(m, s.count, kept, turn);
    }
  }

  // ----- texts do not matter

  lemma {:induction false} NoFallbackShape(a: seq<Message>, b: seq<Message>)
    requires SameShape(a, b)
    ensures NoFallback(a) == NoFallback(b)
  {
    if a != [] {
      hide Match, Pick, Infer, Fill;
      var n := |a| - 1;
      NoFallbackShape(a[..n], b[..n]);
      MatchShape(a[..n], b[..n]);
      ShapeInfers(a[n], b[n], Match(a[..n]).ledger.pending);
    }
  }

  lemma {:induction false} ScreenRowsNamed(messages: seq<Message>, kept: set<Key>, turn: Turn)
    requires RowsNamed(messages)
    ensures RowsNamed(Screen(messages, 0, kept, turn).rows)
  {
    if messages == [] {
      NothingCounted(kept, turn);
    } else {
      hide Screen, RowNamed, ScreenOne;
      var init, m := messages[..|messages| - 1], messages[|messages| - 1];
      assert messages == init + [m] && m in messages;
      ScreenRowsNamed(init, kept, turn);
      ScreenStep(init, 0, kept, turn, m);
      ScreenOneRowNamed(m, Screen(init, 0, kept, turn).count, kept, turn);
    }
  }

  lemma ScreenOneRowNamed(m: Message, count: nat, kept: set<Key>, turn: Turn)
    requires RowNamed(m)
    ensures RowsNamed(ScreenOne(m, count, kept, turn))
  {
  }

  lemma RowsNamedShape(rows: seq<Message>, texts: seq<Message>)
    requires SameShape(rows, texts) && RowsNamed(rows)
    ensures RowsNamed(texts)
  {
    forall m | m in texts ensures RowNamed(m) {
      var i :| 0 <= i < |texts| && texts[i] == m;
      assert rows[i] in rows && Shape(rows[i]) == Shape(m);
      assert rows[i].role == m.role && rows[i].Own() == m.Own() && rows[i].results == m.results;
    }
  }

  /** What is stored replays like the screened turn behind its past. */
  lemma StoredBalances(rows: seq<Message>, texts: seq<Message>, stored: seq<Message>)
    requires SameShape(rows, texts) && (stored == texts || exists m :: IsPlain(m) && stored == texts + [m])
    requires RowsNamed(rows) && NoFallback(Repair(rows).rows) && Reloaded(rows).ledger.pending == []
    ensures RowsNamed(stored) && NoFallback(Repair(stored).rows) && Reloaded(stored).ledger.pending == []
  {
    hide Repair, Match, NoFallback, RowNamed;
    RepairShape(rows, texts);
    MatchShape(Repair(rows).rows, Repair(texts).rows);
    NoFallbackShape(Repair(rows).rows, Repair(texts).rows);
    RowsNamedShape(rows, texts);
    if stored != texts {
      var m :| IsPlain(m) && stored == texts + [m];
      PlainAdds(texts, m);
      PlainBalances(texts, m);
    }
  }

  lemma PlainBalances(texts: seq<Message>, m: Message)
    requires IsPlain(m) && RowsNamed(texts) && NoFallback(Repair(texts).rows)
    ensures RowsNamed(texts + [m]) && NoFallback(Repair(texts + [m]).rows)
  {
    hide Repair, Match, NoFallback;
    ReloadedNext(texts, m);
    NoFallbackNext(Repair(texts).rows, m);
  }

  lemma NothingWaits(stored: seq<Message>, n: nat, big: Ledger, at: seq<nat>)
    requires Balancing(stored, n, big, at, big.matched) && NoAlias(big)
    ensures Reloaded(stored).ledger.pending == []
  {
    hide Reloaded, Repair, NoFallback, Tight, Follows, NoAlias;
    var l := Reloaded(stored).ledger;
    PendingIsAlias(Rebase(l, n), big, at);
    assert |Rebase(l, n).pending| == |l.pending|;
  }

  /** Every call of the stored turn settled, nothing waits after it. */
  lemma StoredSettles(messages: seq<Message>, turn: Turn)
    requires var start := SafeStart(turn.start, |messages|);
             && Settling(messages[..start]) && Replayable(messages[start..]) && Answering(messages[start..])
             && NoAlias(Collect(Firsts(messages[start..])))
    requires RowsNamed(messages)
    ensures var stored := Sanitize(messages, turn);
            RowsNamed(stored) && NoFallback(Repair(stored).rows) && Reloaded(stored).ledger.pending == []
  {
    hide Sanitize, Collect, Screen, Settling, Balancing, NoForeignCalls, Answering, NamedWith, SameShape;
    hide Match, Repair, NoFallback, NoAlias, RowNamed, Reloaded, CallsOf;
    var past := messages[..SafeStart(turn.start, |messages|)];
    var own, texts := SanitizeParts(messages, turn);
    var stored, big := Sanitize(messages, turn), Collect(Firsts(own));
    var rows := Screen(own, 0, big.matched, turn).rows;
    var n := |Reloaded(past).ledger.issued|;
    var at := TurnBalances(past, own, big.matched, turn);
    NothingWaits(past + rows, n, big, at);
    BalancingNoFallback(past + rows, n, big, at);
    assert RowsNamed(past) && RowsNamed(own);
    ScreenRowsNamed(own, big.matched, turn);
    StoredBalances(past + rows, texts, stored);
  }

  /** Persist, then reload, then replay: calls and returns are in bijection, each call
      before its return, whatever comes before the turn, if that is itself in balance; if in
      the turn assistants alone carry calls, the settled ones have names and no unsettled one
      shares its id, what replay reads settles them too, and every row, named or anonymous,
      names a call that is pending. */
  lemma PersistedIsBalanced(messages: seq<Message>, turn: Turn)
    requires var start := SafeStart(turn.start, |messages|);
             && Settling(messages[..start]) && Replayable(messages[start..]) && Answering(messages[start..])
             && NoAlias(Collect(Firsts(messages[start..])))
    requires RowsNamed(messages)
    ensures Balanced(Flatten(ToModel(BuildHistory(Sanitize(messages, turn)))))
  {
    hide Sanitize, Settling, Replayable, Answering, NoAlias, Repair, NoFallback, RowNamed, Reloaded, Balanced;
    hide BuildHistory;
    var stored := Sanitize(messages, turn);
    StoredSettles(messages, turn);
    EmptyNoAlias(Reloaded(stored).ledger);
    ReloadedIs(stored);
    ReplayBalanced(stored);
  }

  lemma BalancingNoFallback(stored: seq<Message>, n: nat, big: Ledger, at: seq<nat>)
    requires Balancing(stored, n, big, at, big.matched)
    ensures NoFallback(Repair(stored).rows)
  {
  }

  lemma EmptyNoAlias(l: Ledger)
    requires l.pending == []
    ensures NoAlias(l)
  {
  }
}
