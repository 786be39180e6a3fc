/** Stripping unresolved tool calls a second time changes nothing. */
module StripProofs {
  import opened Transcripts
  import opened Pairing
  import opened HistoryMemory

  lemma MatchStep(messages: seq<Message>, m: Message)
    ensures Match(messages + [m]) == StepMatch(Match(messages), m)
  {
    assert (messages + [m])[..|messages|] == messages;
  }

  lemma RepairStep(messages: seq<Message>, m: Message)
    ensures Repair(messages + [m]) == StepBuild(Repair(messages), m)
  {
    assert (messages + [m])[..|messages|] == messages;
  }

  lemma NothingYet()
    ensures Match([]) == START == Repair([])
  {
  }

  lemma FillKeeps(m: Message, who: Identity)
    ensures Fill(m, who).role == m.role && Fill(m, who).calls == m.calls && Fill(m, who).results == m.results
  {
  }

  lemma BlankPicks(pending: seq<Pending>)
    ensures Pick(pending, Identity("", "")) == -1
  {
  }

  lemma SiftStep(messages: seq<Message>, m: Message, matched: set<Key>)
    ensures Sift(messages + [m], matched) ==
            var s := Sift(messages, matched);
            Sifted(s.rows + SiftOne(m, s.count, matched), CountAfter(m, s.count, matched))
  {
    assert (messages + [m])[..|messages|] == messages;
  }

  lemma MatchPiece(messages: seq<Message>, piece: seq<Message>)
    requires |piece| <= 1
    ensures Match(messages + piece) == StepMatchAny(Match(messages), piece)
  {
    if piece == [] {
      assert messages + piece == messages;
    } else {
      assert piece == [piece[0]];
      MatchStep(messages, piece[0]);
    }
  }

  lemma {:induction false} MatchValid(messages: seq<Message>)
    ensures Valid(Match(messages).ledger)
  {
    if messages != [] {
      hide Valid, Issue, Infer, Fill, PickOrOnly;
      var init, m := messages[..|messages| - 1], messages[|messages| - 1];
      MatchValid(init);
      var l := Match(init).ledger;
      IssueValid(l, m.calls, false);
      SettleValid(l, PickOrOnly(l.pending, Fill(m, Infer(m, l.pending)).Own()));
    }
  }

  /** A row that went through one pass already has every identity it can be given. */
  lemma FillOnce(m: Message, big: seq<Pending>, small: seq<Pending>, at: seq<nat>)
    requires Embeds(small, big, at)
    ensures var row := Fill(m, Infer(m, big)); Fill(row, Infer(row, small)) == row
  {
    var row := Fill(m, Infer(m, big));
    if row.Own().Blank() {
      assert FirstIdentity(big).Blank();
      forall p | p in small ensures p.Who().Blank() {
        assert Pending(p.call, at[p.index]) in big;
        assert Pending(p.call, at[p.index]).Who().Blank();
      }
    }
  }

  /** One row, seen by both passes. */
  lemma RowFollows(small: Ledger, big: Ledger, at: seq<nat>, kept: set<Key>, who: Identity)
    requires Follows(small, big, at, kept)
    ensures Follows(Settle(small, PickOrOnly(small.pending, who)), Settle(big, PickOrOnly(big.pending, who)), at, kept)
  {
    var s, b := PickOrOnly(small.pending, who), PickOrOnly(big.pending, who);
    if b >= 0 {
      forall j | 0 <= j < |small.pending| && StandsFor(small.pending[j], big.pending[b], at) ensures j == s {
        PickOrOnlyAgrees(small.pending, big.pending, at, who, j);
      }
    }
    SettleFollows(small, big, at, kept, s, b);
  }

  function StepMatchAny(p: Pass, piece: seq<Message>): Pass
    requires |piece| <= 1
  {
    if piece == [] then p else StepMatch(p, piece[0])
  }

  lemma FollowsEmbeds(small: Ledger, big: Ledger, at: seq<nat>, kept: set<Key>)
    requires Follows(small, big, at, kept)
    ensures Embeds(small.pending, big.pending, at)
  {
  }

  /** One message, seen by both passes: the later one sees what sifting left of it. */
  lemma StepFollows(q: Pass, p: Pass, at: seq<nat>, kept: set<Key>, m: Message) returns (at': seq<nat>)
    requires Follows(q.ledger, p.ledger, at, kept)
    ensures var p' := StepMatch(p, m);
            var row := p'.rows[|p.rows|];
            var piece := SiftOne(row, |p.ledger.issued|, kept);
            var q' := StepMatchAny(q, piece);
            && p'.rows == p.rows + [row]
            && CountAfter(row, |p.ledger.issued|, kept) == |p'.ledger.issued|
            && q'.rows == q.rows + piece
            && Follows(q'.ledger, p'.ledger, at', kept)
  {
    hide Follows, Keep, Issue, Infer, PickOrOnly, Embeds;
    at' := at;
    if m.role == Assistant {
      at' := IssueFollows(q.ledger, p.ledger, at, kept, m.calls, false);
      IssueNone(q.ledger);
      KeepNothing(|p.ledger.issued|, kept);
    } else if m.role == Tool {
      FollowsEmbeds(q.ledger, p.ledger, at, kept);
      var row := Fill(m, Infer(m, p.ledger.pending));
      FillOnce(m, p.ledger.pending, q.ledger.pending, at);
      RowFollows(q.ledger, p.ledger, at, kept, row.Own());
    }
  }

  /** The pass over the sifted messages follows the pass over the original ones, and
      leaves their rows as they are. */
  lemma {:induction false} RematchFollows(messages: seq<Message>, kept: set<Key>) returns (at: seq<nat>)
    ensures var p := Match(messages);
            var s := Sift(p.rows, kept);
            && s.count == |p.ledger.issued|
            && Match(s.rows).rows == s.rows
            && Follows(Match(s.rows).ledger, p.ledger, at, kept)
  {
    if messages == [] {
      at := [];
    } else {
      var init, m := messages[..|messages| - 1], messages[|messages| - 1];
      at := RematchFollows(init, kept);
      var p0, p := Match(init), Match(messages);
      var s0 := Sift(p0.rows, kept);
      at := StepFollows(Match(s0.rows), p0, at, kept, m);
      var row := p.rows[|p0.rows|];
      SiftStep(p0.rows, row, kept);
      MatchPiece(s0.rows, SiftOne(row, s0.count, kept));
    }
  }

  /** No call without a name, and no assistant message with neither text nor calls. */
  predicate Settled(m: Message) {
    m.role == Assistant ==>
      && (m.calls != [] || m.content != "")
      && forall c :: c in m.calls ==> c.name != ""
  }

  lemma {:induction false} KeepNamed(calls: seq<Call>, count: nat, matched: set<Key>)
    ensures forall c :: c in Keep(calls, count, matched, false).calls ==> c.name != "" && c in calls
  {
    if calls != [] {
      KeepNamed(calls[..|calls| - 1], count, matched);
    }
  }

  lemma {:induction false} SiftSettled(messages: seq<Message>, matched: set<Key>)
    ensures forall m :: m in Sift(messages, matched).rows ==> Settled(m)
  {
    if messages != [] {
      var init, m := messages[..|messages| - 1], messages[|messages| - 1];
      SiftSettled(init, matched);
      KeepNamed(m.calls, Sift(init, matched).count, matched);
    }
  }

  predicate AllMatched(l: Ledger, matched: set<Key>) {
    forall t :: 0 <= t < |l.issued| ==> KeyOf(l.issued[t], t) in matched
  }

  lemma AllMatchedBefore(before: Ledger, after: Ledger, matched: set<Key>)
    requires before.issued <= after.issued && AllMatched(after, matched)
    ensures AllMatched(before, matched)
  {
    forall t | 0 <= t < |before.issued| ensures KeyOf(before.issued[t], t) in matched {
      assert before.issued[t] == after.issued[t];
    }
  }

  lemma {:induction false} KeepAll(l: Ledger, calls: seq<Call>, matched: set<Key>)
    requires forall c :: c in calls ==> c.name != ""
    requires AllMatched(Issue(l, calls, false), matched)
    ensures Keep(calls, |l.issued|, matched, false) == Kept(calls, |Issue(l, calls, false).issued|)
    ensures l.issued <= Issue(l, calls, false).issued
  {
    if calls != [] {
      var init, call := calls[..|calls| - 1], calls[|calls| - 1];
      var l1, l2 := Issue(l, init, false), Issue(l, calls, false);
      assert call in calls;
      assert l2.issued == l1.issued + [call];
      AllMatchedBefore(l1, l2, matched);
      KeepAll(l, init, matched);
      assert l2.issued[|l1.issued|] == call;
    }
  }

  lemma {:induction false} SiftNothing(messages: seq<Message>, matched: set<Key>)
    requires forall m :: m in messages ==> Settled(m)
    requires AllMatched(Match(messages).ledger, matched)
    ensures Sift(messages, matched) == Sifted(messages, |Match(messages).ledger.issued|)
  {
    hide Match, Sift, Settled, SiftOne, CountAfter, StepMatch, AllMatched;
    if messages == [] {
      SiftStart(matched);
    } else {
      var init, m := messages[..|messages| - 1], messages[|messages| - 1];
      assert messages == init + [m];
      MatchStep(init, m);
      SiftStep(init, m, matched);
      assert m in messages && forall x :: x in init ==> x in messages;
      SiftOneNothing(Match(init), m, matched);
      SiftNothing(init, matched);
    }
  }

  lemma SiftStart(matched: set<Key>)
    ensures Sift([], matched) == Sifted([], 0) && Match([]) == START
  {
  }

  /** A settled message whose calls are all matched is kept as it is. */
  lemma SiftOneNothing(p: Pass, m: Message, matched: set<Key>)
    requires Settled(m) && AllMatched(StepMatch(p, m).ledger, matched)
    ensures AllMatched(p.ledger, matched)
    ensures SiftOne(m, |p.ledger.issued|, matched) == [m]
    ensures CountAfter(m, |p.ledger.issued|, matched) == |StepMatch(p, m).ledger.issued|
  {
    hide Issue, Keep, AllMatched, PickOrOnly, Infer, Fill;
    IssuedGrows(p.ledger, m.calls);
    AllMatchedBefore(p.ledger, StepMatch(p, m).ledger, matched);
    if m.role == Assistant {
      KeepAll(p.ledger, m.calls, matched);
      KeepNothing(|p.ledger.issued|, matched);
    }
  }

  lemma {:induction false} IssuedGrows(l: Ledger, calls: seq<Call>)
    ensures l.issued <= Issue(l, calls, false).issued
  {
    if calls != [] {
      IssuedGrows(l, calls[..|calls| - 1]);
    }
  }

  /** Stripping is idempotent on every transcript: duplicate ids, anonymous rows and
      the last resort included. */
  lemma StripIdempotent(messages: seq<Message>)
    ensures Strip(Strip(messages)) == Strip(messages)
  {
    var p := Match(messages);
    var at := RematchFollows(messages, p.ledger.matched);
    var stripped := Strip(messages);
    SiftSettled(p.rows, p.ledger.matched);
    KeptIsMatched(Match(stripped).ledger, p.ledger, at);
    SiftNothing(stripped, Match(stripped).ledger.matched);
  }
}
