/** Exactly when replay keeps every call of a stored turn. */
module ReloadExact {
  import opened Transcripts
  import opened Pairing
  import opened FirstClaims
  import opened HistoryMemory
  import opened Rebasing
  import opened ReloadBalance
  import opened ReloadProofs
  import opened ReplayBalance
  import opened ReplayedCalls
  import opened StoredCalls
  import opened StripProofs
  import opened ToolEvidence

  // ----- names

  lemma {:induction false} MatchedNames(issued: seq<Call>, matched: set<Key>, t: nat)
    requires t < |issued| && KeyOf(issued[t], t) in matched
    ensures exists i :: 0 <= i < |MatchedCalls(issued, matched)| && MatchedCalls(issued, matched)[i] == issued[t]
  {
    var n := |issued| - 1;
    var before := MatchedCalls(issued[..n], matched);
    if t < n {
      MatchedNames(issued[..n], matched, t);
      var i :| 0 <= i < |before| && before[i] == issued[t];
      assert MatchedCalls(issued, matched)[i] == issued[t];
    } else {
      assert MatchedCalls(issued, matched)[|before|] == issued[t];
    }
  }

  lemma {:induction false} ScreenNoForeign(messages: seq<Message>, matched: set<Key>, turn: Turn)
    requires NoForeignCalls(messages)
    ensures NoForeignCalls(Screen(messages, 0, matched, turn).rows)
  {
    hide Screen, NoForeignCalls, ScreenOne;
    if messages == [] {
      NothingCounted(matched, turn);
      NoneWithout();
    } else {
      var init, m := messages[..|messages| - 1], messages[|messages| - 1];
      assert messages == init + [m];
      NoForeignConcat(init, [m]);
      ScreenNoForeign(init, matched, turn);
      ScreenStep(init, 0, matched, turn, m);
      var s := Screen(init, 0, matched, turn);
      ScreenOneNoForeign(m, s.count, matched, turn);
      NoForeignConcat(s.rows, ScreenOne(m, s.count, matched, turn));
    }
  }

  lemma NoneWithout()
    ensures NoForeignCalls([])
  {
  }

  lemma ScreenOneNoForeign(m: Message, count: nat, matched: set<Key>, turn: Turn)
    requires NoForeignCalls([m])
    ensures NoForeignCalls(ScreenOne(m, count, matched, turn))
  {
    assert [m][0] == m;
  }

  lemma {:induction false} CallHasMessage(messages: seq<Message>, i: nat)
    requires i < |CallsOf(messages)|
    ensures exists m :: m in messages && CallsOf(messages)[i] in m.calls
  {
    if messages != [] {
      var init, m := messages[..|messages| - 1], messages[|messages| - 1];
      if i < |CallsOf(init)| {
        CallHasMessage(init, i);
        var x :| x in init && CallsOf(init)[i] in x.calls;
        assert x in messages;
      } else {
        assert CallsOf(messages)[i] == m.calls[i - |CallsOf(init)|];
      }
    }
  }

  /** A stored transcript whose assistants' calls all have names, seen from before its texts
      were changed. */
  lemma NamesBefore(rows: seq<Message>, texts: seq<Message>, stored: seq<Message>)
    requires SameShape(rows, texts) && (stored == texts || exists m :: stored == texts + [m])
    requires forall m :: m in stored ==> Naming(m)
    ensures forall m :: m in rows ==> Naming(m)
  {
    forall m | m in rows ensures Naming(m) {
      var i :| 0 <= i < |rows| && rows[i] == m;
      assert Shape(texts[i]) == Shape(m) && stored[i] == texts[i] && stored[i] in stored;
    }
  }

  /** Names are needed: if assistants alone carry calls in the turn and replay keeps every
      stored call, every settled call of the turn has a name, and every assistant's call of
      the past. */
  lemma SurvivalNeedsNames(messages: seq<Message>, turn: Turn)
    requires NoForeignCalls(messages[SafeStart(turn.start, |messages|)..])
    requires var stored := Sanitize(messages, turn); CallsOf(BuildHistory(stored)) == CallsOf(stored)
    ensures var start := SafeStart(turn.start, |messages|);
            && NamedWith(CallsOf(messages[start..]), Collect(messages[start..]).matched)
            && forall m :: m in messages[..start] ==> Naming(m)
  {
    hide Sanitize, Collect, BuildHistory, CallsOf, MatchedCalls, NoForeignCalls, KeyOf, Naming, Screen;
    var past, stored := messages[..SafeStart(turn.start, |messages|)], Sanitize(messages, turn);
    var own, texts := SanitizeParts(messages, turn);
    var matched := Collect(own).matched;
    var rows := Screen(own, 0, matched, turn).rows;
    KeptWholeExactly(stored);
    NamesBefore(past + rows, texts, stored);
    assert forall m :: m in rows ==> m in past + rows;
    assert forall m :: m in past ==> m in past + rows;
    ScreenedCalls(own, matched, turn);
    ScreenNoForeign(own, matched, turn);
    forall t | 0 <= t < |CallsOf(own)| && KeyOf(CallsOf(own)[t], t) in matched ensures CallsOf(own)[t].name != "" {
      MatchedNames(CallsOf(own), matched, t);
      var i :| 0 <= i < |CallsOf(rows)| && CallsOf(rows)[i] == CallsOf(own)[t];
      CallHasMessage(rows, i);
      var m :| m in rows && CallsOf(rows)[i] in m.calls;
      CarrierNames(rows, m, CallsOf(own)[t]);
    }
  }

  lemma CarrierNames(rows: seq<Message>, m: Message, call: Call)
    requires NoForeignCalls(rows) && m in rows && Naming(m) && call in m.calls
    ensures call.name != ""
  {
    var i :| 0 <= i < |rows| && rows[i] == m;
  }

  // ----- exactly

  /** No id belongs to a call of both. */
  predicate NoSharedIds(a: seq<Call>, b: seq<Call>) {
    forall i, j :: 0 <= i < |a| && 0 <= j < |b| && a[i].id != "" ==> a[i].id != b[j].id
  }

  /** A call that stays waiting in replay and has a matched key shares its id with another. */
  lemma AliasOf(l: Ledger, u: nat) returns (v: nat)
    requires Valid(l) && u < |l.issued| && Waiting(l, u) && KeyOf(l.issued[u], u) in l.matched
    ensures v < |l.issued| && !Waiting(l, v) && l.issued[v].id == l.issued[u].id != ""
  {
    v :| Claimed(l, v, KeyOf(l.issued[u], u));
  }

  lemma NotShared(past: seq<Call>, calls: seq<Call>, issued: seq<Call>, v: nat, t: nat)
    requires NoSharedIds(past, calls) && past <= issued && v < |issued| && t < |calls|
    requires issued[v].id == calls[t].id != ""
    ensures v >= |past|
  {
  }

  /** A kept call that waits in the turn's ledger waits in replay's. */
  lemma WaitsInReplay(l: Ledger, n: nat, big: Ledger, at: seq<nat>, kept: set<Key>, t: nat) returns (u: nat)
    requires SettledBefore(l, n) && Follows(Rebase(l, n), big, at, kept) && Tight(Rebase(l, n), big, at)
    requires t < |big.issued| && Waiting(big, t) && KeyOf(big.issued[t], t) in kept
    ensures n <= u < |l.issued| && Waiting(l, u) && l.issued[u] == big.issued[t]
  {
    hide KeyOf, ClaimedSince, Valid, Embeds;
    var j: nat :| j < |at| && at[j] == t;
    u := n + j;
    assert Waiting(Rebase(l, n), j);
    RebaseWaits(l, n, j);
    assert Rebase(l, n).issued[j] == l.issued[u];
  }

  /** A call that replay claimed in the turn was claimed in the turn's ledger. */
  lemma ClaimedInTurn(l: Ledger, n: nat, big: Ledger, at: seq<nat>, kept: set<Key>, v: nat) returns (w: nat)
    requires SettledBefore(l, n) && Follows(Rebase(l, n), big, at, kept) && Tight(Rebase(l, n), big, at)
    requires n <= v < |l.issued| && !Waiting(l, v)
    ensures w < |big.issued| && !Waiting(big, w) && big.issued[w] == l.issued[v]
  {
    hide KeyOf, ClaimedSince, Valid, Embeds;
    assert Rebase(l, n).issued[v - n] == l.issued[v];
    RebaseWaits(l, n, v - n);
    w := at[v - n];
  }

  /** If every call that replay numbers has a matched key, what it reads of the turn has
      settled every call that was kept. */
  lemma KeptIsSettled(stored: seq<Message>, n: nat, big: Ledger, at: seq<nat>, kept: set<Key>, t: nat)
    requires Balancing(stored, n, big, at, kept) && t < |big.issued| && KeyOf(big.issued[t], t) in kept
    requires var l := Reloaded(stored).ledger; AllMatched(l, l.matched) && NoSharedIds(l.issued[..n], big.issued)
    ensures KeyOf(big.issued[t], t) in big.matched
  {
    hide Reloaded, Repair, NoFallback, Rebase, Tight, Valid, NoSharedIds, SettledBefore;
    var l := Reloaded(stored).ledger;
    BigSettles(big);
    if Waiting(big, t) {
      var u := WaitsInReplay(l, n, big, at, kept, t);
      var v := AliasOf(l, u);
      NotShared(l.issued[..n], big.issued, l.issued, v, t);
      var w := ClaimedInTurn(l, n, big, at, kept, v);
      assert KeyOf(big.issued[w], w) == KeyOf(big.issued[t], t);
    }
  }

  lemma BigSettles(big: Ledger)
    requires Valid(big)
    ensures forall t :: 0 <= t < |big.issued| ==> Waiting(big, t) || KeyOf(big.issued[t], t) in big.matched
  {
  }

  lemma {:induction false} NumberedPrefix(a: seq<Message>, b: seq<Message>)
    ensures NumberedCalls(a) <= NumberedCalls(a + b)
  {
    if b == [] {
      assert a + b == a;
    } else {
      var init, m := b[..|b| - 1], b[|b| - 1];
      NumberedPrefix(a, init);
      assert a + b == (a + init) + [m];
      NumberedNext(a + init, m);
    }
  }

  lemma {:induction false} NamedAreCalls(calls: seq<Call>)
    ensures forall c :: c in NamedCalls(calls) ==> c in calls
  {
    if calls != [] {
      NamedAreCalls(calls[..|calls| - 1]);
    }
  }

  lemma {:induction false} NumberedAreCalls(messages: seq<Message>)
    ensures forall c :: c in NumberedCalls(messages) ==> c in CallsOf(messages)
  {
    if messages != [] {
      NumberedAreCalls(messages[..|messages| - 1]);
      NamedAreCalls(messages[|messages| - 1].calls);
    }
  }

  lemma ReloadedIssues(messages: seq<Message>)
    ensures Reloaded(messages).ledger.issued == NumberedCalls(messages)
  {
    hide Repair, Match, NumberedCalls;
    RepairKeepsCalls(messages);
    MatchIssues(Repair(messages).rows);
  }

  /** The calls that replay has numbered at the end of the past are calls of the past. */
  lemma PastIssued(past: seq<Message>, rows: seq<Message>, calls: seq<Call>)
    requires NoSharedIds(CallsOf(past), calls)
    ensures var n := |Reloaded(past).ledger.issued|;
            && n <= |Reloaded(past + rows).ledger.issued|
            && NoSharedIds(Reloaded(past + rows).ledger.issued[..n], calls)
  {
    hide Reloaded, CallsOf, NumberedCalls;
    ReloadedIssues(past);
    ReloadedIssues(past + rows);
    NumberedPrefix(past, rows);
    NumberedAreCalls(past);
    var issued := Reloaded(past).ledger.issued;
    forall i, j | 0 <= i < |issued| && 0 <= j < |calls| && issued[i].id != "" ensures issued[i].id != calls[j].id {
      assert issued[i] in CallsOf(past);
    }
    assert Reloaded(past + rows).ledger.issued[..|issued|] == issued;
  }

  /** If replay keeps every stored call, what it reads of the turn settles every call that the
      turn's claims settle. */
  lemma SurvivalNeedsFirst(messages: seq<Message>, turn: Turn)
    requires var start := SafeStart(turn.start, |messages|);
             && Settling(messages[..start]) && NoForeignCalls(messages[start..]) && Answering(messages[start..])
             && NoSharedIds(CallsOf(messages[..start]), CallsOf(messages[start..]))
    requires var stored := Sanitize(messages, turn); CallsOf(BuildHistory(stored)) == CallsOf(stored)
    ensures SettledByFirst(messages[SafeStart(turn.start, |messages|)..])
  {
    hide Sanitize, Collect, Screen, Settling, Balancing, NoForeignCalls, Answering, NamedWith, SameShape, NoSharedIds;
    hide Reloaded, CallsOf, BuildHistory, AllMatched, Naming, Covers, KeyOf, FirstOnly;
    var past, stored := messages[..SafeStart(turn.start, |messages|)], Sanitize(messages, turn);
    var own, texts := SanitizeParts(messages, turn);
    var big, kept := Collect(Firsts(own)), Collect(own).matched;
    var rows := Screen(own, 0, kept, turn).rows;
    SurvivalNeedsNames(messages, turn);
    KeptWholeExactly(stored);
    ScreenNaming(own, kept, turn);
    assert forall m :: m in past + rows ==> Naming(m);
    ReloadedText(past + rows, texts, stored);
    FirstsSettleFewer(own);
    var at := TurnBalances(past, own, kept, turn);
    FirstsIssueCalls(own);
    PastIssued(past, rows, CallsOf(own));
    FirstsCovered(own);
    forall k | k in kept ensures k in big.matched {
      var t := SettledCall(own, k);
      KeptIsSettled(past + rows, |Reloaded(past).ledger.issued|, big, at, kept, t);
    }
  }

  lemma SettledCall(own: seq<Message>, k: Key) returns (t: nat)
    requires k in Collect(own).matched
    ensures t < |Collect(Firsts(own)).issued| && KeyOf(Collect(Firsts(own)).issued[t], t) == k
  {
    hide Collect;
    CollectValid(own);
    FirstsIssue(own);
    t :| Claimed(Collect(own), t, k);
  }

  /** Replay keeps every call of a stored turn, behind a past that is itself in balance, if and
      only if every call that the turn stores or its past carries has a name and what replay
      reads of the turn - one identity of each row of role `Tool` - settles every call that
      the turn's claims settle. The turn is one in which assistants alone carry calls, each
      row names a call that is pending, and no id is used again. */
  lemma SurvivesExactly(messages: seq<Message>, turn: Turn)
    requires var start := SafeStart(turn.start, |messages|);
             && Settling(messages[..start]) && NoForeignCalls(messages[start..]) && Answering(messages[start..])
             && NoSharedIds(CallsOf(messages[..start]), CallsOf(messages[start..]))
    ensures var start, stored := SafeStart(turn.start, |messages|), Sanitize(messages, turn);
            CallsOf(BuildHistory(stored)) == CallsOf(stored) <==>
            && (forall m :: m in messages[..start] ==> Naming(m))
            && NamedWith(CallsOf(messages[start..]), Collect(messages[start..]).matched)
            && SettledByFirst(messages[start..])
  {
    hide Sanitize, BuildHistory, CallsOf, Collect, NoForeignCalls, Answering, NoSharedIds, SettledByFirst, NamedWith;
    hide Reloaded, Repair, NoFallback, Naming;
    var start, stored := SafeStart(turn.start, |messages|), Sanitize(messages, turn);
    if CallsOf(BuildHistory(stored)) == CallsOf(stored) {
      SurvivalNeedsNames(messages, turn);
      SurvivalNeedsFirst(messages, turn);
    }
    if (forall m :: m in messages[..start] ==> Naming(m)) && Replayable(messages[start..]) {
      PersistedCallsSurvive(messages, turn);
    }
  }
}
