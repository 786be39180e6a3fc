/** Exactly when replay keeps every call of a stored transcript. */
module ReplayedCalls {
  import opened Transcripts
  import opened Pairing
  import opened HistoryMemory
  import opened StoredCalls
  import opened StripProofs
  import opened ToolEvidence

  /** Identity repair followed by the matching pass. */
  function Reloaded(stored: seq<Message>): Pass {
    Match(Repair(stored).rows)
  }

  /** The row that reaches the matching pass for a stored message. */
  function RepairedRow(stored: seq<Message>, m: Message): Message {
    if m.role == Tool then Fill(m, Infer(m, Issue(Repair(stored).ledger, m.calls, false).pending)) else m
  }

  lemma ReloadedNext(stored: seq<Message>, m: Message)
    ensures Repair(stored + [m]).rows == Repair(stored).rows + [RepairedRow(stored, m)]
    ensures Reloaded(stored + [m]) == StepMatch(Reloaded(stored), RepairedRow(stored, m))
  {
    hide Repair, Match, StepMatch, Infer, Issue, Fill;
    RepairStep(stored, m);
    MatchStep(Repair(stored).rows, RepairedRow(stored, m));
  }

  // ----- texts do not matter to any pass

  lemma ShapeInfers(a: Message, b: Message, pending: seq<Pending>)
    requires Shape(a) == Shape(b)
    ensures a.role == b.role && a.calls == b.calls && Infer(a, pending) == Infer(b, pending)
    ensures var x, y := Fill(a, Infer(a, pending)), Fill(b, Infer(b, pending));
            x.Own() == y.Own() && Shape(x) == Shape(y)
  {
    assert a.results == b.results && a.Own() == b.Own();
  }

  lemma {:induction false} RepairShape(a: seq<Message>, b: seq<Message>)
    requires SameShape(a, b)
    ensures Repair(a).ledger == Repair(b).ledger && SameShape(Repair(a).rows, Repair(b).rows)
  {
    hide Issue, Pick, Infer, Settle, Fill;
    if a != [] {
      var n := |a| - 1;
      RepairShape(a[..n], b[..n]);
      ShapeInfers(a[n], b[n], Issue(Repair(a[..n]).ledger, a[n].calls, false).pending);
    }
  }

  lemma {:induction false} MatchShape(a: seq<Message>, b: seq<Message>)
    requires SameShape(a, b)
    ensures Match(a).ledger == Match(b).ledger && SameShape(Match(a).rows, Match(b).rows)
  {
    hide Issue, PickOrOnly, Infer, Settle, Fill;
    if a != [] {
      var n := |a| - 1;
      MatchShape(a[..n], b[..n]);
      ShapeInfers(a[n], b[n], Match(a[..n]).ledger.pending);
    }
  }

  // ----- a pass over its own rows

  /** Filling in a row's identity twice, from the same pending calls, is doing it once. */
  lemma FillAgain(m: Message, pending: seq<Pending>)
    ensures var row := Fill(m, Infer(m, pending)); Fill(row, Infer(row, pending)) == row
  {
    var row := Fill(m, Infer(m, pending));
    assert row.results == m.results;
    if row.Own().Blank() {
      assert m.Own().Blank();
    }
  }

  lemma {:induction false} MatchAgain(messages: seq<Message>)
    ensures Match(Match(messages).rows) == Match(messages)
  {
    hide Match, Issue, Infer, Fill, PickOrOnly;
    if messages == [] {
      NothingYet();
    } else {
      var init, m := messages[..|messages| - 1], messages[|messages| - 1];
      assert messages == init + [m];
      MatchAgain(init);
      MatchStep(init, m);
      var p := Match(init);
      var row := if m.role == Tool then Fill(m, Infer(m, p.ledger.pending)) else m;
      FillAgain(m, p.ledger.pending);
      FillKeeps(m, Infer(m, p.ledger.pending));
      MatchStep(p.rows, row);
    }
  }

  // ----- when replay keeps every call

  /** Only assistant messages with neither text nor calls are left out. */
  function NonEmpty(messages: seq<Message>): seq<Message> {
    if messages == [] then []
    else
      var m := messages[|messages| - 1];
      NonEmpty(messages[..|messages| - 1]) + if IsPlain(m) && m.content == "" then [] else [m]
  }

  predicate Naming(m: Message) {
    m.role == Assistant ==> forall c :: c in m.calls ==> c.name != ""
  }

  lemma {:induction false} SiftKeepsCalls(messages: seq<Message>, matched: set<Key>)
    requires forall m :: m in messages ==> Naming(m)
    requires AllMatched(Match(messages).ledger, matched)
    ensures Sift(messages, matched) == Sifted(NonEmpty(messages), |Match(messages).ledger.issued|)
  {
    if messages != [] {
      var init, m := messages[..|messages| - 1], messages[|messages| - 1];
      assert m in messages;
      var l := Match(init).ledger;
      if m.role == Assistant {
        IssuedGrows(l, m.calls);
        AllMatchedBefore(l, Match(messages).ledger, matched);
        KeepAll(l, m.calls, matched);
      }
      SiftKeepsCalls(init, matched);
    }
  }

  /** Every call from the n-th on has one of these keys. */
  predicate MatchedFrom(issued: seq<Call>, n: nat, matched: set<Key>) {
    forall t :: n <= t < |issued| ==> KeyOf(issued[t], t) in matched
  }

  /** A message's calls are all kept only if they have names and matched keys. */
  lemma {:induction false} KeepFewer(l: Ledger, calls: seq<Call>, matched: set<Key>)
    ensures var k := Keep(calls, |l.issued|, matched, false);
            && k.count == |Issue(l, calls, false).issued| && |k.calls| <= |calls|
            && (|k.calls| == |calls| ==>
                  MatchedFrom(Issue(l, calls, false).issued, |l.issued|, matched)
                  && forall c :: c in calls ==> c.name != "")
  {
    if calls != [] {
      KeepFewer(l, calls[..|calls| - 1], matched);
    }
  }

  /** Sifting keeps every call only if every assistant's call has a name and a matched key. */
  lemma {:induction false} SiftFewer(messages: seq<Message>, matched: set<Key>)
    ensures Sift(messages, matched).count == |Match(messages).ledger.issued|
    ensures |CallsOf(Sift(messages, matched).rows)| <= |CallsOf(messages)|
    ensures |CallsOf(Sift(messages, matched).rows)| == |CallsOf(messages)| ==>
              AllMatched(Match(messages).ledger, matched) && forall m :: m in messages ==> Naming(m)
  {
    hide Match, Sift, Issue, Keep, CallsOf, Infer, PickOrOnly, Fill;
    if messages == [] {
      SiftStart(matched);
    } else {
      var init, m := messages[..|messages| - 1], messages[|messages| - 1];
      assert messages == init + [m];
      SiftFewer(init, matched);
      var l, s := Match(init).ledger, Sift(init, matched);
      MatchStep(init, m);
      SiftStep(init, m, matched);
      CallsOfNext(init, m);
      CallsOfConcat(s.rows, SiftOne(m, s.count, matched));
      SiftOneCalls(m, s.count, matched);
      KeepFewer(l, m.calls, matched);
      IssuedGrows(l, m.calls);
      KeepNothing(|l.issued|, matched);
      AllFrom(l, StepMatch(Match(init), m).ledger, matched);
    }
  }

  lemma SiftOneCalls(m: Message, count: nat, matched: set<Key>)
    ensures CallsOf(SiftOne(m, count, matched)) ==
            if m.role == Assistant then Keep(m.calls, count, matched, false).calls else m.calls
  {
    hide Keep;
    KeepNothing(count, matched);
    CallsOfOne(m);
    CallsOfOne(m.(calls := Keep(m.calls, count, matched, false).calls));
    NoCalls();
  }

  lemma AllFrom(before: Ledger, after: Ledger, matched: set<Key>)
    requires before.issued <= after.issued
    ensures AllMatched(before, matched) && MatchedFrom(after.issued, |before.issued|, matched) ==>
              AllMatched(after, matched)
  {
    if AllMatched(before, matched) && MatchedFrom(after.issued, |before.issued|, matched) {
      forall t | 0 <= t < |after.issued| ensures KeyOf(after.issued[t], t) in matched {
        if t < |before.issued| {
          assert before.issued[t] == after.issued[t];
        }
      }
    }
  }

  // ----- roles, texts and calls pass through identity repair

  ghost predicate SameBut(a: seq<Message>, b: seq<Message>) {
    |a| == |b| && forall i :: 0 <= i < |a| ==>
                                a[i].role == b[i].role && a[i].content == b[i].content && a[i].calls == b[i].calls
  }

  lemma {:induction false} RepairCarries(messages: seq<Message>)
    ensures SameBut(Repair(messages).rows, messages)
  {
    if messages != [] {
      RepairCarries(messages[..|messages| - 1]);
    }
  }

  lemma {:induction false} MatchCarries(messages: seq<Message>)
    ensures SameBut(Match(messages).rows, messages)
  {
    if messages != [] {
      MatchCarries(messages[..|messages| - 1]);
    }
  }

  lemma {:induction false} SameCallsOf(a: seq<Message>, b: seq<Message>)
    requires SameBut(a, b)
    ensures CallsOf(a) == CallsOf(b)
  {
    if a != [] {
      SameCallsOf(a[..|a| - 1], b[..|b| - 1]);
    }
  }

  lemma {:induction false} NonEmptyCalls(messages: seq<Message>)
    ensures CallsOf(NonEmpty(messages)) == CallsOf(messages)
  {
    if messages != [] {
      var init, m := messages[..|messages| - 1], messages[|messages| - 1];
      NonEmptyCalls(init);
      CallsOfNext(NonEmpty(init), m);
      assert CallsOf(init) + [] == CallsOf(init) && NonEmpty(init) + [] == NonEmpty(init);
    }
  }

  /** Replay keeps every call of a transcript if and only if every assistant's call has a name
      and its key, or that of another call with its id, was matched. It then leaves out only
      assistant messages with neither text nor calls. */
  lemma KeptWholeExactly(stored: seq<Message>)
    ensures var l := Reloaded(stored).ledger;
            CallsOf(BuildHistory(stored)) == CallsOf(stored) <==>
            AllMatched(l, l.matched) && forall m :: m in stored ==> Naming(m)
    ensures CallsOf(BuildHistory(stored)) == CallsOf(stored) ==>
              BuildHistory(stored) == NonEmpty(Reloaded(stored).rows)
  {
    hide Match, Repair, Sift, NonEmpty, CallsOf, AllMatched;
    var p := Reloaded(stored);
    ReloadedCarries(stored);
    SameCallsOf(p.rows, stored);
    MatchAgain(Repair(stored).rows);
    SiftFewer(p.rows, p.ledger.matched);
    SameNaming(p.rows, stored);
    if AllMatched(p.ledger, p.ledger.matched) && forall m :: m in stored ==> Naming(m) {
      SiftKeepsCalls(p.rows, p.ledger.matched);
      NonEmptyCalls(p.rows);
    }
  }

  lemma ReloadedCarries(messages: seq<Message>)
    ensures SameBut(Reloaded(messages).rows, messages)
  {
    RepairCarries(messages);
    MatchCarries(Repair(messages).rows);
  }

  lemma SameNaming(a: seq<Message>, b: seq<Message>)
    requires SameBut(a, b)
    ensures (forall m :: m in a ==> Naming(m)) <==> (forall m :: m in b ==> Naming(m))
  {
    forall i | 0 <= i < |a| ensures Naming(a[i]) == Naming(b[i]) && a[i] in a && b[i] in b {
    }
  }

  // ----- an answer appended

  lemma PlainAdds(texts: seq<Message>, m: Message)
    requires IsPlain(m)
    ensures Reloaded(texts + [m]).ledger == Reloaded(texts).ledger && Naming(m)
  {
    hide Reloaded, Issue;
    ReloadedNext(texts, m);
    IssueNone(Reloaded(texts).ledger);
  }

  /** What was made of the rows' texts since, and an answer appended to them, change nothing
      for replay. */
  lemma ReloadedText(rows: seq<Message>, texts: seq<Message>, stored: seq<Message>)
    requires SameShape(rows, texts)
    requires stored == texts || exists m :: IsPlain(m) && stored == texts + [m]
    requires forall m :: m in rows ==> Naming(m)
    ensures Reloaded(stored).ledger == Reloaded(rows).ledger
    ensures forall m :: m in stored ==> Naming(m)
  {
    hide Repair, Match, IsPlain;
    RepairShape(rows, texts);
    MatchShape(Repair(rows).rows, Repair(texts).rows);
    forall m | m in texts ensures Naming(m) {
      var i :| 0 <= i < |texts| && texts[i] == m;
      assert rows[i] in rows && Shape(rows[i]) == Shape(texts[i]);
    }
    if stored != texts {
      var m :| IsPlain(m) && stored == texts + [m];
      PlainAdds(texts, m);
    }
  }
}
