/** Every call that a turn persists is kept when the stored transcript is replayed,
    although replay repairs identities, numbers the calls anew and pairs rows itself. */
module ReloadProofs {
  import opened Transcripts
  import opened Pairing
  import opened FirstClaims
  import opened HistoryMemory
  import opened Rebasing
  import opened ReplayedCalls
  import opened StoredCalls
  import opened StripProofs
  import opened ToolEvidence

  // ----- conditions on a turn

  /** Every call with one of these keys has a name. */
  predicate NamedWith(issued: seq<Call>, keys: set<Key>) {
    forall t :: 0 <= t < |issued| && KeyOf(issued[t], t) in keys ==> issued[t].name != ""
  }

  /** Assistants alone carry calls, the settled ones have names, and what replay reads of the
      turn settles them too. */
  predicate Replayable(messages: seq<Message>) {
    && NoForeignCalls(messages) && SettledByFirst(messages)
    && NamedWith(CallsOf(messages), Collect(messages).matched)
  }

  // ----- replay of the screened turn follows the pass that collected its keys

  lemma {:induction false} IssueSame(l: Ledger, calls: seq<Call>)
    requires forall c :: c in calls ==> c.name != ""
    ensures Issue(l, calls, false) == Issue(l, calls, true)
  {
    if calls != [] {
      assert calls[|calls| - 1] in calls;
      IssueSame(l, calls[..|calls| - 1]);
    }
  }

  lemma {:induction false} KeptAreNamed(issued: seq<Call>, calls: seq<Call>, kept: set<Key>)
    requires NamedWith(issued + calls, kept)
    ensures forall c :: c in Keep(calls, |issued|, kept, true).calls ==> c.name != ""
  {
    if calls != [] {
      var init, last := calls[..|calls| - 1], calls[|calls| - 1];
      assert issued + calls == (issued + init) + [last];
      NamedBefore(issued + init, issued + calls, kept);
      KeptAreNamed(issued, init, kept);
      KeepCounts(init, |issued|, kept);
      assert (issued + calls)[|issued + init|] == last;
    }
  }

  lemma NamedBefore(before: seq<Call>, after: seq<Call>, kept: set<Key>)
    requires before <= after && NamedWith(after, kept)
    ensures NamedWith(before, kept)
  {
    forall t | 0 <= t < |before| && KeyOf(before[t], t) in kept ensures before[t].name != "" {
      assert before[t] == after[t];
    }
  }

  /** The identity a row goes by is the first it carries, whoever fills it in. */
  lemma RowIdentity(m: Message, other: seq<Pending>, pending: seq<Pending>)
    requires m.role == Tool && RowIdentities(m) != []
    ensures var repaired := Fill(m, Infer(m, other));
            Fill(repaired, Infer(repaired, pending)).Own() == RowIdentities(m)[0]
  {
    var own := if m.Own().Blank() then [] else [m.Own()];
    assert RowIdentities(m) == own + ResultIdentities(m.results);
  }

  lemma RowSettles(small: Ledger, big: Ledger, at: seq<nat>, kept: set<Key>, m: Message, other: seq<Pending>)
    requires Follows(small, big, at, kept) && m.role == Tool
    ensures var repaired := Fill(m, Infer(m, other));
            var row := Fill(repaired, Infer(repaired, small.pending));
            Follows(Settle(small, PickOrOnly(small.pending, row.Own())), FirstClaim(big, m), at, kept)
  {
    hide Follows, Settle, Infer, Fill, Pick;
    var repaired := Fill(m, Infer(m, other));
    var row := Fill(repaired, Infer(repaired, small.pending));
    var s := PickOrOnly(small.pending, row.Own());
    if RowIdentities(m) != [] {
      RowIdentity(m, other, small.pending);
      RowFollows(small, big, at, kept, FirstOf(m));
    } else {
      BlankPicks(big.pending);
      if |big.pending| == 1 {
        OnlyRowFollows(small, big, at, kept, s);
      } else {
        FreeClaimFollows(small, big, at, kept, s);
      }
    }
  }

  lemma OnlyRowFollows(small: Ledger, big: Ledger, at: seq<nat>, kept: set<Key>, s: int)
    requires Follows(small, big, at, kept) && |big.pending| == 1
    requires -1 <= s < |small.pending| && (|small.pending| == 1 ==> s == 0)
    ensures Follows(Settle(small, s), Settle(big, 0), at, kept)
  {
    OnlyOne(small.pending, big.pending, at);
    SettleFollows(small, big, at, kept, s, 0);
  }

  lemma FreeClaimFollows(small: Ledger, big: Ledger, at: seq<nat>, kept: set<Key>, s: int)
    requires Follows(small, big, at, kept) && -1 <= s < |small.pending|
    ensures Follows(Settle(small, s), Settle(big, -1), at, kept)
  {
    SettleFollows(small, big, at, kept, s, -1);
  }

  /** The stored transcript's ledger, seen from the end of the past, follows the ledger that
      persistence collected over the turn. */
  ghost predicate InStep(stored: seq<Message>, n: nat, big: Ledger, at: seq<nat>, kept: set<Key>) {
    var l := Reloaded(stored).ledger;
    Valid(l) && SettledBefore(l, n) && Follows(Rebase(l, n), big, at, kept)
  }

  lemma AssistantInStep(stored: seq<Message>, n: nat, big: Ledger, at: seq<nat>, kept: set<Key>, m: Message, turn: Turn)
    returns (at': seq<nat>)
    requires InStep(stored, n, big, at, kept) && m.role == Assistant && NamedWith(big.issued + m.calls, kept)
    ensures at <= at'
    ensures InStep(stored + ScreenOne(m, |big.issued|, kept, turn), n, Issue(big, m.calls, true), at', kept)
    ensures var l := Reloaded(stored).ledger;
            Tight(Rebase(l, n), big, at) ==>
              Tight(Rebase(Reloaded(stored + ScreenOne(m, |big.issued|, kept, turn)).ledger, n),
                    Issue(big, m.calls, true), at')
  {
    hide Follows, Tight, Valid, SettledBefore, Rebase, Issue, Keep, Reloaded;
    var piece, calls := ScreenOne(m, |big.issued|, kept, turn), Keep(m.calls, |big.issued|, kept, true).calls;
    var l := Reloaded(stored).ledger;
    KeptAreNamed(big.issued, m.calls, kept);
    KeepNone(|big.issued|, kept);
    RebaseIssue(l, n, calls, false);
    IssueSame(Rebase(l, n), calls);
    at' := IssueFollows(Rebase(l, n), big, at, kept, m.calls, true);
    if piece == [] {
      assert stored + piece == stored;
      IssueNone(l);
    } else {
      assert piece == [piece[0]];
      ReloadedNext(stored, piece[0]);
    }
  }

  /** A message that is not an assistant's and carries no calls is stored as it is. */
  lemma ScreenedAsIs(m: Message, count: nat, kept: set<Key>, turn: Turn)
    requires m.role != Assistant && m.calls == []
    ensures ScreenOne(m, count, kept, turn) == [m]
  {
  }

  lemma RowInStep(stored: seq<Message>, n: nat, big: Ledger, at: seq<nat>, kept: set<Key>, m: Message)
    requires InStep(stored, n, big, at, kept) && m.role == Tool && m.calls == []
    ensures InStep(stored + [m], n, FirstClaim(big, m), at, kept)
  {
    hide Follows, Valid, SettledBefore, Rebase, Infer, PickOrOnly, Pick, Settle, FirstClaim, Reloaded;
    var l, row := Reloaded(stored).ledger, RepairedRow(stored, m);
    ReloadedNext(stored, m);
    RebaseInfers(l, n, row);
    var who := Fill(row, Infer(row, l.pending)).Own();
    RebasePicks(l, n, who);
    RebaseSettle(l, n, PickOrOnly(l.pending, who));
    RowSettles(Rebase(l, n), big, at, kept, m, Issue(Repair(stored).ledger, m.calls, false).pending);
  }

  lemma OtherInStep(stored: seq<Message>, n: nat, big: Ledger, at: seq<nat>, kept: set<Key>, m: Message)
    requires InStep(stored, n, big, at, kept) && m.role != Tool && m.role != Assistant
    ensures InStep(stored + [m], n, big, at, kept)
    ensures Reloaded(stored + [m]).ledger == Reloaded(stored).ledger
  {
    hide Follows, Valid, SettledBefore, Rebase, Reloaded;
    ReloadedNext(stored, m);
  }

  lemma StepReload(stored: seq<Message>, n: nat, big: Ledger, at: seq<nat>, kept: set<Key>, m: Message, turn: Turn)
    returns (at': seq<nat>)
    requires InStep(stored, n, big, at, kept) && (m.role != Assistant ==> m.calls == [])
    requires NamedWith(big.issued + m.calls, kept)
    ensures InStep(stored + ScreenOne(m, |big.issued|, kept, turn), n, FirstClaim(Registered(big, m), m), at', kept)
  {
    hide InStep, Follows, NamedWith, ScreenOne, Issue, PickOrOnly;
    at' := at;
    if m.role == Assistant {
      at' := AssistantInStep(stored, n, big, at, kept, m, turn);
    } else {
      ScreenedAsIs(m, |big.issued|, kept, turn);
      if m.role == Tool {
        RowInStep(stored, n, big, at, kept, m);
      } else {
        OtherInStep(stored, n, big, at, kept, m);
      }
    }
  }

  /** A past in which every call was claimed, in the pass that replay makes over it. */
  predicate Quiet(past: seq<Message>) {
    Reloaded(past).ledger.pending == []
  }

  lemma {:induction false} ReloadedValid(stored: seq<Message>)
    ensures Valid(Reloaded(stored).ledger)
  {
    MatchValid(Repair(stored).rows);
  }

  lemma InStepAtStart(past: seq<Message>, kept: set<Key>)
    requires Quiet(past)
    ensures InStep(past, |Reloaded(past).ledger.issued|, EMPTY, [], kept)
  {
    hide Reloaded;
    ReloadedValid(past);
    RebaseStart(Reloaded(past).ledger);
  }

  /** The conditions on all of a turn, for all but its last message and for that one. */
  lemma NamedNext(messages: seq<Message>, m: Message, kept: set<Key>)
    requires NoForeignCalls(messages + [m]) && NamedWith(CallsOf(messages + [m]), kept)
    ensures NoForeignCalls(messages) && NamedWith(CallsOf(messages), kept)
    ensures m.role != Assistant ==> m.calls == []
    ensures NamedWith(CallsOf(messages) + m.calls, kept)
  {
    hide NoForeignCalls, CallsOf;
    NoForeignBefore(messages, m);
    CallsOfNext(messages, m);
    NamedBefore(CallsOf(messages), CallsOf(messages + [m]), kept);
  }

  /** Replay of what is stored of a turn, under any keys, follows the ledger of the claims
      that it reads. */
  lemma {:induction false} ReloadFollows(past: seq<Message>, own: seq<Message>, kept: set<Key>, turn: Turn)
    requires Quiet(past) && NoForeignCalls(own) && NamedWith(CallsOf(own), kept)
    ensures var n, rows := |Reloaded(past).ledger.issued|, Screen(own, 0, kept, turn).rows;
            exists at: seq<nat> :: InStep(past + rows, n, Collect(Firsts(own)), at, kept)
  {
    hide InStep, Quiet, NoForeignCalls, NamedWith, Collect, Screen, FirstClaim, Registered, Reloaded, ScreenOne;
    hide CallsOf;
    var n := |Reloaded(past).ledger.issued|;
    if own == [] {
      NothingCounted(kept, turn);
      assert past + [] == past && Firsts(own) == [];
      InStepAtStart(past, kept);
    } else {
      var init, m := own[..|own| - 1], own[|own| - 1];
      assert own == init + [m];
      NamedNext(init, m, kept);
      ReloadFollows(past, init, kept, turn);
      var s, big := Screen(init, 0, kept, turn), Collect(Firsts(init));
      var at: seq<nat> :| InStep(past + s.rows, n, big, at, kept);
      ScreenedCalls(init, kept, turn);
      FirstsIssueCalls(init);
      at := StepReload(past + s.rows, n, big, at, kept, m, turn);
      ScreenStep(init, 0, kept, turn, m);
      FirstsNext(init, m);
      assert past + (s.rows + ScreenOne(m, s.count, kept, turn)) == (past + s.rows) + ScreenOne(m, s.count, kept, turn);
    }
  }

  // ----- the stored transcript as a whole

  lemma ScreenOneNaming(issued: seq<Call>, m: Message, kept: set<Key>, turn: Turn)
    requires m.role == Assistant ==> NamedWith(issued + m.calls, kept)
    requires m.role != Assistant ==> m.calls == []
    ensures forall x :: x in ScreenOne(m, |issued|, kept, turn) ==> Naming(x)
  {
    hide NamedWith, Keep;
    if m.role == Assistant {
      KeptAreNamed(issued, m.calls, kept);
      KeepNone(|issued|, kept);
    }
  }

  lemma NamingConcat(a: seq<Message>, b: seq<Message>)
    requires (forall m :: m in a ==> Naming(m)) && (forall m :: m in b ==> Naming(m))
    ensures forall m :: m in a + b ==> Naming(m)
  {
  }

  lemma {:induction false} ScreenNaming(messages: seq<Message>, kept: set<Key>, turn: Turn)
    requires NoForeignCalls(messages) && NamedWith(CallsOf(messages), kept)
    ensures forall m :: m in Screen(messages, 0, kept, turn).rows ==> Naming(m)
  {
    hide NoForeignCalls, NamedWith, Screen, Naming, ScreenOne, CallsOf;
    if messages == [] {
      NothingCounted(kept, turn);
    } else {
      var init, m := messages[..|messages| - 1], messages[|messages| - 1];
      assert messages == init + [m];
      NamedNext(init, m, kept);
      ScreenNaming(init, kept, turn);
      ScreenedCalls(init, kept, turn);
      ScreenStep(init, 0, kept, turn, m);
      ScreenOneNaming(CallsOf(init), m, kept, turn);
      NamingConcat(Screen(init, 0, kept, turn).rows, ScreenOne(m, |CallsOf(init)|, kept, turn));
    }
  }

  // ----- every call that a turn persists is kept

  /** Every call is settled in the ledger that replay ends with: those of the past because
      nothing was left waiting there, those of the turn because persistence kept them. */
  lemma AllSettled(past: seq<Message>, rows: seq<Message>, n: nat, big: Ledger, at: seq<nat>)
    requires Quiet(past) && n == |Reloaded(past).ledger.issued| && InStep(past + rows, n, big, at, big.matched)
    ensures AllMatched(Reloaded(past + rows).ledger, Reloaded(past + rows).ledger.matched)
  {
    hide Reloaded, Follows, KeyOf, Valid, SettledBefore, ClaimedSince;
    var l := Reloaded(past + rows).ledger;
    SettledWithin(l, n);
    KeptIsMatched(Rebase(l, n), big, at);
    forall t | 0 <= t < |l.issued| ensures KeyOf(l.issued[t], t) in l.matched {
      if t >= n {
        assert Rebase(l, n).issued[t - n] == l.issued[t];
        RebaseMatched(l, n, t - n);
      } else {
        NotWaitingBefore(l, n, t);
      }
    }
  }

  lemma SettledWithin(l: Ledger, n: nat)
    requires SettledBefore(l, n)
    ensures n <= |l.issued| && Rebase(l, n).issued == l.issued[n..]
  {
  }

  lemma NotWaitingBefore(l: Ledger, n: nat, t: nat)
    requires Valid(l) && SettledBefore(l, n) && t < n
    ensures KeyOf(l.issued[t], t) in l.matched
  {
    assert !Waiting(l, t);
  }

  /** Persist, then reload, from any start: if every call of the past was claimed and named,
      and in the turn assistants alone carry calls, the settled ones have names, and what
      replay reads settles them too, replay keeps every call of the stored transcript, message
      by message. It leaves out only assistant messages with neither text nor calls. */
  lemma PersistedCallsSurvive(messages: seq<Message>, turn: Turn)
    requires var start := SafeStart(turn.start, |messages|);
             && Replayable(messages[start..])
             && Quiet(messages[..start]) && forall m :: m in messages[..start] ==> Naming(m)
    ensures var stored := Sanitize(messages, turn);
            && BuildHistory(stored) == NonEmpty(Reloaded(stored).rows)
            && CallsOf(BuildHistory(stored)) == CallsOf(stored)
            && forall m :: m in stored ==> Naming(m)
  {
    hide Sanitize, Collect, Screen, Quiet, InStep, NoForeignCalls, NamedWith, SameShape, NonEmpty, CallsOf;
    hide BuildHistory, Reloaded, AllMatched;
    var past := messages[..SafeStart(turn.start, |messages|)];
    var own, texts := SanitizeParts(messages, turn);
    var stored, big := Sanitize(messages, turn), Collect(Firsts(own));
    var rows := Screen(own, 0, big.matched, turn).rows;
    ReloadFollows(past, own, big.matched, turn);
    var at: seq<nat> :| InStep(past + rows, |Reloaded(past).ledger.issued|, big, at, big.matched);
    AllSettled(past, rows, |Reloaded(past).ledger.issued|, big, at);
    ScreenNaming(own, big.matched, turn);
    assert forall m :: m in past + rows ==> Naming(m);
    ReloadedText(past + rows, texts, stored);
    KeptWholeExactly(stored);
  }
}
