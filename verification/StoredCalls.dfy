/** Which calls a turn stores: exactly those that are settled under their number in the second
    of its two passes, in order; and when the two passes number calls alike. */
module StoredCalls {
  import opened Transcripts
  import opened Pairing
  import opened Sequences
  import opened ToolEvidence

  function CallsOf(messages: seq<Message>): seq<Call> {
    if messages == [] then []
    else CallsOf(messages[..|messages| - 1]) + messages[|messages| - 1].calls
  }

  lemma CallsOfNext(messages: seq<Message>, m: Message)
    ensures CallsOf(messages + [m]) == CallsOf(messages) + m.calls
  {
    assert (messages + [m])[..|messages|] == messages;
  }

  lemma CallsOfOne(m: Message)
    ensures CallsOf([m]) == m.calls
  {
    assert [m][..0] == [];
  }

  lemma NoCalls()
    ensures CallsOf([]) == []
  {
  }

  lemma {:induction false} CallsOfConcat(a: seq<Message>, b: seq<Message>)
    ensures CallsOf(a + b) == CallsOf(a) + CallsOf(b)
  {
    hide CallsOf;
    if b == [] {
      NoCalls();
      assert a + b == a && CallsOf(a) + [] == CallsOf(a);
    } else {
      var init, last := b[..|b| - 1], b[|b| - 1];
      CallsOfConcat(a, init);
      assert b == init + [last] && a + b == (a + init) + [last];
      CallsOfNext(init, last);
      CallsOfNext(a + init, last);
      Regroup(CallsOf(a), CallsOf(init), last.calls);
    }
  }

  // ----- the rest of persistence changes texts only

  function Shape(m: Message): Message {
    m.(content := "")
  }

  ghost predicate SameShape(a: seq<Message>, b: seq<Message>) {
    |a| == |b| && forall i :: 0 <= i < |a| ==> Shape(a[i]) == Shape(b[i])
  }

  lemma {:induction false} SameShapeCalls(a: seq<Message>, b: seq<Message>)
    requires SameShape(a, b)
    ensures CallsOf(a) == CallsOf(b)
  {
    if a != [] {
      SameShapeCalls(a[..|a| - 1], b[..|b| - 1]);
    }
  }

  lemma NarrowedShape(rows: seq<Message>, start: nat, turn: Turn)
    requires start <= |rows|
    ensures SameShape(rows, Narrowed(rows, start, turn)) && Narrowed(rows, start, turn)[..start] == rows[..start]
  {
  }

  lemma RestoredShape(rows: seq<Message>, start: nat, turn: Turn)
    requires start <= |rows|
    ensures SameShape(rows, Restored(rows, start, turn)) && Restored(rows, start, turn)[..start] == rows[..start]
  {
  }

  /** Narrowing, restoring the user's words and writing the answer into a plain message
      change texts of the turn; otherwise the answer is appended. */
  lemma RestIsText(rows: seq<Message>, start: nat, turn: Turn) returns (texts: seq<Message>)
    requires start <= |rows|
    ensures SameShape(rows, texts) && texts[..start] == rows[..start]
    ensures var stored := Finished(Restored(Narrowed(rows, start, turn), start, turn), start, turn);
            stored == texts || exists m :: IsPlain(m) && stored == texts + [m]
  {
    hide NarrowRow;
    var narrowed := Narrowed(rows, start, turn);
    NarrowedShape(rows, start, turn);
    RestoredShape(narrowed, start, turn);
    texts := Restored(narrowed, start, turn);
    assert forall i :: 0 <= i < |rows| ==> Shape(rows[i]) == Shape(narrowed[i]) == Shape(texts[i]);
    var i := LastPlain(texts, start);
    if turn.finalAssistant != "" {
      if i >= 0 {
        texts := texts[i := texts[i].(content := turn.finalAssistant)];
      } else {
        assert IsPlain(Message(Assistant, turn.finalAssistant, [], "", "", [], 0));
      }
    }
  }

  // ----- the two counters

  lemma ScreenStep(messages: seq<Message>, start: nat, matched: set<Key>, turn: Turn, m: Message)
    ensures var s := Screen(messages, start, matched, turn);
            Screen(messages + [m], start, matched, turn) ==
            if |messages| < start then Screened(s.rows + [m], s.count)
            else Screened(s.rows + ScreenOne(m, s.count, matched, turn), CountPast(m, s.count, matched))
  {
    assert (messages + [m])[..|messages|] == messages;
  }

  function CountPast(m: Message, count: nat, matched: set<Key>): nat {
    if m.calls != [] then Keep(m.calls, count, matched, true).count else count
  }

  lemma CollectStep(messages: seq<Message>, m: Message)
    ensures Collect(messages + [m]) == StepCollect(Collect(messages), m)
  {
    assert (messages + [m])[..|messages|] == messages;
  }

  lemma {:induction false} KeepCounts(calls: seq<Call>, count: nat, matched: set<Key>)
    ensures Keep(calls, count, matched, true).count == count + |calls|
  {
    if calls != [] {
      KeepCounts(calls[..|calls| - 1], count, matched);
    }
  }

  lemma {:induction false} IssueAppends(l: Ledger, calls: seq<Call>)
    ensures Issue(l, calls, true).issued == l.issued + calls
  {
    if calls == [] {
      assert l.issued + calls == l.issued;
    } else {
      var init, last := calls[..|calls| - 1], calls[|calls| - 1];
      IssueAppends(l, init);
      assert l.issued + calls == (l.issued + init) + [last];
    }
  }

  lemma {:induction false} SettleAllIssued(l: Ledger, who: seq<Identity>)
    ensures SettleAll(l, who).issued == l.issued
  {
    if who != [] {
      SettleAllIssued(l, who[..|who| - 1]);
    }
  }

  lemma StepIssues(l: Ledger, m: Message)
    ensures StepCollect(l, m).issued == l.issued + if m.role == Assistant then m.calls else []
  {
    hide Issue, SettleAll, CompletedIdentities;
    var l1 := if m.role == Assistant then Issue(l, m.calls, true) else l;
    IssueAppends(l, m.calls);
    SettleAllIssued(l1, CompletedIdentities(m, l1.pending));
    assert l.issued + [] == l.issued;
  }

  /** The calls that the second pass counts and the first does not. */
  function ForeignCalls(messages: seq<Message>): nat {
    if messages == [] then 0
    else
      var m := messages[|messages| - 1];
      ForeignCalls(messages[..|messages| - 1]) + if m.role != Assistant then |m.calls| else 0
  }

  /** Only assistant messages carry calls. */
  predicate NoForeignCalls(messages: seq<Message>) {
    forall i :: 0 <= i < |messages| && messages[i].role != Assistant ==> messages[i].calls == []
  }

  lemma NoForeignConcat(a: seq<Message>, b: seq<Message>)
    ensures NoForeignCalls(a + b) <==> NoForeignCalls(a) && NoForeignCalls(b)
  {
    var all := a + b;
    if NoForeignCalls(all) {
      assert forall i :: 0 <= i < |a| ==> a[i] == all[i];
      assert forall i :: 0 <= i < |b| ==> b[i] == all[|a| + i];
    }
  }

  lemma NoForeignBefore(messages: seq<Message>, m: Message)
    requires NoForeignCalls(messages + [m])
    ensures NoForeignCalls(messages) && (m.role != Assistant ==> m.calls == [])
  {
    NoForeignConcat(messages, [m]);
    assert [m][0] == m;
  }

  lemma {:induction false} NoneForeign(messages: seq<Message>)
    ensures ForeignCalls(messages) == 0 <==> NoForeignCalls(messages)
  {
    if messages != [] {
      var n := |messages| - 1;
      NoneForeign(messages[..n]);
      assert NoForeignCalls(messages) <==>
             NoForeignCalls(messages[..n]) && (messages[n].role != Assistant ==> messages[n].calls == []);
    }
  }

  lemma {:induction false} CountersDiffer(messages: seq<Message>, matched: set<Key>, turn: Turn)
    ensures Screen(messages, 0, matched, turn).count == |Collect(messages).issued| + ForeignCalls(messages)
  {
    if messages != [] {
      hide Screen, Collect, StepCollect, Keep, ScreenOne;
      var init, m := messages[..|messages| - 1], messages[|messages| - 1];
      assert messages == init + [m];
      CountersDiffer(init, matched, turn);
      ScreenStep(init, 0, matched, turn, m);
      CollectStep(init, m);
      StepIssues(Collect(init), m);
      KeepCounts(m.calls, Screen(init, 0, matched, turn).count, matched);
    } else {
      NothingCounted(matched, turn);
    }
  }

  lemma NothingCounted(matched: set<Key>, turn: Turn)
    ensures Screen([], 0, matched, turn) == Screened([], 0) && Collect([]) == EMPTY
  {
  }

  /** The two passes number the calls of a turn alike if and only if assistant messages
      alone carry calls. */
  lemma CountersAgreeExactly(messages: seq<Message>, matched: set<Key>, turn: Turn)
    ensures Screen(messages, 0, matched, turn).count == |Collect(messages).issued| <==> NoForeignCalls(messages)
  {
    CountersDiffer(messages, matched, turn);
    NoneForeign(messages);
  }

  // ----- what is stored

  /** The issued calls whose key is matched, in order. */
  function MatchedCalls(issued: seq<Call>, matched: set<Key>): seq<Call> {
    if issued == [] then []
    else
      var t := |issued| - 1;
      MatchedCalls(issued[..t], matched) + if KeyOf(issued[t], t) in matched then [issued[t]] else []
  }

  lemma {:induction false} KeepIsMatched(issued: seq<Call>, calls: seq<Call>, matched: set<Key>)
    ensures MatchedCalls(issued + calls, matched) ==
            MatchedCalls(issued, matched) + Keep(calls, |issued|, matched, true).calls
  {
    if calls == [] {
      assert issued + calls == issued;
    } else {
      var init, last := calls[..|calls| - 1], calls[|calls| - 1];
      KeepIsMatched(issued, init, matched);
      KeepCounts(init, |issued|, matched);
      assert issued + calls == (issued + init) + [last];
      MatchedNext(issued + init, last, matched);
    }
  }

  lemma MatchedNext(issued: seq<Call>, call: Call, matched: set<Key>)
    ensures MatchedCalls(issued + [call], matched) ==
            MatchedCalls(issued, matched) + if KeyOf(call, |issued|) in matched then [call] else []
  {
    assert (issued + [call])[..|issued|] == issued;
  }

  lemma ScreenOneCalls(m: Message, count: nat, matched: set<Key>, turn: Turn)
    ensures CallsOf(ScreenOne(m, count, matched, turn)) == Keep(m.calls, count, matched, true).calls
  {
    hide Keep;
    var item := ClearedText(m, WithoutUnmatched(m, count, matched), turn);
    KeepNone(count, matched);
    CallsOfOne(item);
  }

  lemma KeepNone(count: nat, matched: set<Key>)
    ensures Keep([], count, matched, true).calls == []
  {
  }

  /** The second pass numbers every call of the turn, whoever carries it. */
  lemma {:induction false} ScreenedCalls(messages: seq<Message>, matched: set<Key>, turn: Turn)
    ensures Screen(messages, 0, matched, turn).count == |CallsOf(messages)|
    ensures CallsOf(Screen(messages, 0, matched, turn).rows) == MatchedCalls(CallsOf(messages), matched)
  {
    if messages == [] {
      NothingCounted(matched, turn);
    } else {
      hide Screen, Keep, ScreenOne, MatchedCalls, CallsOf;
      var init, m := messages[..|messages| - 1], messages[|messages| - 1];
      assert messages == init + [m];
      var s := Screen(init, 0, matched, turn);
      ScreenedCalls(init, matched, turn);
      ScreenStep(init, 0, matched, turn, m);
      CallsOfNext(init, m);
      ScreenOneCalls(m, s.count, matched, turn);
      CallsOfConcat(s.rows, ScreenOne(m, s.count, matched, turn));
      KeepIsMatched(CallsOf(init), m.calls, matched);
      KeepCounts(m.calls, s.count, matched);
    }
  }

  /** The turn is screened on its own; what came before stays in front of it. */
  lemma {:induction false} ScreenFrom(past: seq<Message>, own: seq<Message>, matched: set<Key>, turn: Turn)
    ensures var s := Screen(own, 0, matched, turn);
            Screen(past + own, |past|, matched, turn) == Screened(past + s.rows, s.count)
  {
    if own == [] {
      assert past + own == past;
      ScreenPast(past, |past|, matched, turn);
      NothingCounted(matched, turn);
    } else {
      hide Screen, Keep, ScreenOne;
      var init, m := own[..|own| - 1], own[|own| - 1];
      assert own == init + [m] && past + own == (past + init) + [m];
      ScreenFrom(past, init, matched, turn);
      ScreenStep(init, 0, matched, turn, m);
      ScreenStep(past + init, |past|, matched, turn, m);
    }
  }

  lemma {:induction false} ScreenPast(past: seq<Message>, start: nat, matched: set<Key>, turn: Turn)
    requires |past| <= start
    ensures Screen(past, start, matched, turn) == Screened(past, 0)
  {
    if past != [] {
      var init, m := past[..|past| - 1], past[|past| - 1];
      ScreenPast(init, start, matched, turn);
      assert past == init + [m];
    }
  }

  lemma {:induction false} SettleAllValid(l: Ledger, who: seq<Identity>)
    requires Valid(l)
    ensures Valid(SettleAll(l, who))
  {
    if who != [] {
      hide Valid, PickOrOnly;
      SettleAllValid(l, who[..|who| - 1]);
      var l1 := SettleAll(l, who[..|who| - 1]);
      SettleValid(l1, PickOrOnly(l1.pending, who[|who| - 1]));
    }
  }

  lemma {:induction false} CollectValid(messages: seq<Message>)
    ensures Valid(Collect(messages))
  {
    if messages != [] {
      hide Valid, Issue, SettleAll, CompletedIdentities;
      var init, m := messages[..|messages| - 1], messages[|messages| - 1];
      CollectValid(init);
      IssueValid(Collect(init), m.calls, true);
      var l1 := if m.role == Assistant then Issue(Collect(init), m.calls, true) else Collect(init);
      SettleAllValid(l1, CompletedIdentities(m, l1.pending));
    }
  }

  /** What persistence makes of a transcript: its past, and the turn with texts changed,
      possibly followed by one plain message. */
  lemma SanitizeParts(messages: seq<Message>, turn: Turn) returns (own: seq<Message>, texts: seq<Message>)
    ensures var start := SafeStart(turn.start, |messages|);
            && own == messages[start..]
            && SameShape(messages[..start] + Screen(own, 0, Collect(own).matched, turn).rows, texts)
            && (Sanitize(messages, turn) == texts || exists m :: IsPlain(m) && Sanitize(messages, turn) == texts + [m])
  {
    hide Screen, Collect, NarrowRow;
    var start := SafeStart(turn.start, |messages|);
    var past := messages[..start];
    own := messages[start..];
    assert past + own == messages;
    ScreenFrom(past, own, Collect(own).matched, turn);
    texts := RestIsText(past + Screen(own, 0, Collect(own).matched, turn).rows, start, turn);
  }

  /** For every start and every turn: what is stored of the turn's calls, in order, are exactly
      those whose key, under their number among all its calls, was settled; and the key of
      every call that a row has answered was settled, under its number among the assistants'. */
  lemma StoredExactly(messages: seq<Message>, turn: Turn)
    ensures var start := SafeStart(turn.start, |messages|);
            var own, stored := messages[start..], Sanitize(messages, turn);
            var l := Collect(own);
            && CallsOf(stored) == CallsOf(messages[..start]) + MatchedCalls(CallsOf(own), l.matched)
            && forall t :: 0 <= t < |l.issued| && !Waiting(l, t) ==> KeyOf(l.issued[t], t) in l.matched
  {
    hide Screen, Collect, MatchedCalls, Sanitize;
    var own, texts := SanitizeParts(messages, turn);
    var start, stored := SafeStart(turn.start, |messages|), Sanitize(messages, turn);
    var rows := Screen(own, 0, Collect(own).matched, turn).rows;
    ScreenedCalls(own, Collect(own).matched, turn);
    CallsOfConcat(messages[..start], rows);
    SameShapeCalls(messages[..start] + rows, texts);
    if stored != texts {
      var m :| IsPlain(m) && stored == texts + [m];
      CallsOfNext(texts, m);
    }
    CollectValid(own);
  }

  /** If assistants alone carry calls, the numbers are the same. */
  lemma {:induction false} CollectIssues(messages: seq<Message>)
    requires NoForeignCalls(messages)
    ensures Collect(messages).issued == CallsOf(messages)
  {
    hide Collect, StepCollect, CallsOf, NoForeignCalls;
    if messages == [] {
      NothingCollected();
    } else {
      var init, m := messages[..|messages| - 1], messages[|messages| - 1];
      assert messages == init + [m];
      NoForeignBefore(init, m);
      CollectIssues(init);
      CollectStep(init, m);
      StepIssues(Collect(init), m);
      CallsOfNext(init, m);
    }
  }

  lemma NothingCollected()
    ensures Collect([]) == EMPTY && CallsOf([]) == []
  {
  }

  // ----- where an answered call is at risk

  /** The message that carries the t-th call of the assistants, and the call's number among
      all calls of the turn: there are as many more before it as foreign ones. */
  lemma {:induction false} SpotOf(messages: seq<Message>, t: nat) returns (i: nat, k: nat)
    requires t < |Collect(messages).issued|
    ensures k < |messages| && messages[k].role == Assistant && Collect(messages).issued[t] in messages[k].calls
    ensures i == t + ForeignCalls(messages[..k]) < |CallsOf(messages)|
    ensures CallsOf(messages)[i] == Collect(messages).issued[t]
  {
    hide Collect, StepCollect, CallsOf, ForeignCalls;
    if messages == [] {
      NothingCollected();
      assert false;
    } else {
      var init, m := messages[..|messages| - 1], messages[|messages| - 1];
      assert messages == init + [m];
      CollectStep(init, m);
      StepIssues(Collect(init), m);
      CallsOfNext(init, m);
      if t < |Collect(init).issued| {
        i, k := SpotOf(init, t);
        assert init[..k] == messages[..k];
      } else {
        CallsAndForeign(init);
        i, k := t + ForeignCalls(init), |init|;
      }
    }
  }

  lemma {:induction false} CallsAndForeign(messages: seq<Message>)
    ensures |CallsOf(messages)| == |Collect(messages).issued| + ForeignCalls(messages)
  {
    hide Collect, StepCollect, CallsOf, ForeignCalls;
    if messages == [] {
      NothingCollected();
      NothingForeign();
    } else {
      var init, m := messages[..|messages| - 1], messages[|messages| - 1];
      assert messages == init + [m];
      CallsAndForeign(init);
      CollectStep(init, m);
      StepIssues(Collect(init), m);
      CallsOfNext(init, m);
      ForeignNext(init, m);
    }
  }

  lemma NothingForeign()
    ensures ForeignCalls([]) == 0
  {
  }

  lemma ForeignNext(messages: seq<Message>, m: Message)
    ensures ForeignCalls(messages + [m]) == ForeignCalls(messages) + if m.role != Assistant then |m.calls| else 0
  {
    assert (messages + [m])[..|messages|] == messages;
  }

  /** The i-th of a turn's calls is among those that `StoredExactly` says are stored. */
  predicate StoredAt(messages: seq<Message>, i: nat)
    requires i < |CallsOf(messages)|
  {
    KeyOf(CallsOf(messages)[i], i) in Collect(messages).matched
  }

  /** The t-th call of the assistants has no id, this name, and an answer. */
  ghost predicate AnsweredByName(l: Ledger, t: nat, name: string) {
    t < |l.issued| && !Waiting(l, t) && l.issued[t].id == "" && l.issued[t].name == name
  }

  /** An answered call that has an id is stored in every turn. One that has none is stored if
      and only if the call whose number it gets from the foreign calls before it, itself if
      there are none, has its name, no id, and an answer. */
  lemma AnsweredIsStored(messages: seq<Message>, t: nat) returns (i: nat, k: nat)
    requires t < |Collect(messages).issued| && !Waiting(Collect(messages), t)
    ensures k < |messages| && messages[k].role == Assistant
    ensures i == t + ForeignCalls(messages[..k]) < |CallsOf(messages)|
    ensures var l, call := Collect(messages), Collect(messages).issued[t];
            && call in messages[k].calls && CallsOf(messages)[i] == call
            && (StoredAt(messages, i) <==> call.id != "" || AnsweredByName(l, i, call.name))
  {
    hide Collect, ForeignCalls, CallsOf, Valid;
    i, k := SpotOf(messages, t);
    CollectValid(messages);
    AnsweredIsSettled(Collect(messages), t);
    SettledByName(Collect(messages), i, Collect(messages).issued[t].name);
  }

  lemma AnsweredIsSettled(l: Ledger, t: nat)
    requires Valid(l) && t < |l.issued| && !Waiting(l, t)
    ensures KeyOf(l.issued[t], t) in l.matched
  {
  }

  lemma SettledByName(l: Ledger, i: nat, name: string)
    requires Valid(l)
    ensures BySeq(i, name) in l.matched <==> AnsweredByName(l, i, name)
  {
    if BySeq(i, name) in l.matched {
      var t: nat :| Claimed(l, t, BySeq(i, name));
    }
    if AnsweredByName(l, i, name) {
      AnsweredIsSettled(l, i);
    }
  }

  // ----- rows that name no call

  /** A row of either spelling without a name, an id, or a result that has one answers the only
      call that waits; if none or several wait, it answers none. */
  lemma AnonymousSettles(messages: seq<Message>, m: Message)
    requires IsToolRole(m.role) && RowIdentities(m) == []
    ensures var l, after := Collect(messages), Collect(messages + [m]);
            && (|l.pending| == 1 ==> after.pending == [] && after.matched == l.matched + {l.pending[0].MatchKey()})
            && (|l.pending| != 1 ==> after == l)
  {
    hide Collect, Pick;
    CollectStep(messages, m);
    var l := Collect(messages);
    assert m.Own().Blank() && ResultIdentities(m.results) == [];
    if |l.pending| == 1 {
      var w := l.pending[0].Who();
      assert [w][..0] == [];
      assert SettleAll(l, [w]) == Settle(l, 0);
      assert Without(l.pending, 0) == [];
    }
  }

  /** A row with one identity answers the call that `Pick` finds, else the only one. */
  lemma RowSettles(messages: seq<Message>, m: Message)
    requires IsToolRole(m.role) && !m.Own().Blank() && m.results == []
    ensures Collect(messages + [m]) ==
            Settle(Collect(messages), PickOrOnly(Collect(messages).pending, m.Own()))
  {
    hide Collect, PickOrOnly;
    CollectStep(messages, m);
    var l, w := Collect(messages), m.Own();
    assert ResultIdentities(m.results) == [] && [w] + [] == [w] && [w][..0] == [];
    assert CompletedIdentities(m, l.pending) == [w];
    assert SettleAll(l, []) == l;
    assert SettleAll(l, [w]) == Settle(l, PickOrOnly(l.pending, w));
  }
}
