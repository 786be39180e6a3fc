/** Building the history of a built history changes nothing: stripping leaves rows that
    identity repair leaves alone, although it numbers and pairs their calls in its own way. */
module HistoryProofs {
  import opened Transcripts
  import opened Pairing
  import opened HistoryMemory
  import opened ReplayBalance
  import opened StripProofs

  // ----- identity repair of what stripping left

  predicate Within(l: Ledger) {
    forall p :: p in l.pending ==> p.index < |l.issued|
  }

  /** Each call that waits in `small` waits in `big`, under the number that `at` gives. */
  ghost predicate Thins(small: Ledger, big: Ledger, at: seq<nat>) {
    && Ordered(small.pending) && Ordered(big.pending) && Within(small) && Within(big)
    && Increasing(at) && |at| == |small.issued| && (forall j :: 0 <= j < |at| ==> at[j] < |big.issued|)
    && Embeds(small.pending, big.pending, at)
  }

  lemma IssueOneWithin(l: Ledger, call: Call)
    requires Ordered(l.pending) && Within(l)
    ensures Ordered(IssueOne(l, call).pending) && Within(IssueOne(l, call))
  {
    assert forall i :: 0 <= i < |l.pending| ==> l.pending[i] in l.pending;
  }

  lemma ThinsBoth(small: Ledger, big: Ledger, at: seq<nat>, call: Call)
    requires Thins(small, big, at)
    ensures Thins(IssueOne(small, call), IssueOne(big, call), at + [|big.issued|])
  {
    IssueOneWithin(small, call);
    IssueOneWithin(big, call);
    IssueOneEmbeds(small, big, at, call);
  }

  lemma ThinsMore(small: Ledger, big: Ledger, at: seq<nat>, call: Call)
    requires Thins(small, big, at)
    ensures Thins(small, IssueOne(big, call), at)
  {
    IssueOneWithin(big, call);
    assert forall p :: p in big.pending ==> p in IssueOne(big, call).pending;
  }

  lemma {:induction false} ThinsIssue(small: Ledger, big: Ledger, at: seq<nat>, calls: seq<Call>)
    returns (at': seq<nat>)
    requires Thins(small, big, at)
    ensures Thins(Issue(small, calls, false), Issue(big, calls, false), at')
  {
    hide Thins;
    at' := at;
    if calls != [] {
      var init, call := calls[..|calls| - 1], calls[|calls| - 1];
      at' := ThinsIssue(small, big, at, init);
      if call.name != "" {
        var b := Issue(big, init, false);
        ThinsBoth(Issue(small, init, false), b, at', call);
        at' := at' + [|b.issued|];
      }
    }
  }

  /** A message of which only some calls were kept. */
  lemma {:induction false} ThinsKeep(small: Ledger, big: Ledger, at: seq<nat>, calls: seq<Call>, count: nat,
                                     kept: set<Key>)
    returns (at': seq<nat>)
    requires Thins(small, big, at)
    ensures Thins(Issue(small, Keep(calls, count, kept, false).calls, false), Issue(big, calls, false), at')
  {
    hide Thins, KeyOf;
    at' := at;
    if calls != [] {
      var init, call := calls[..|calls| - 1], calls[|calls| - 1];
      at' := ThinsKeep(small, big, at, init, count, kept);
      var k := Keep(init, count, kept, false);
      var s, b := Issue(small, k.calls, false), Issue(big, init, false);
      if call.name != "" {
        if KeyOf(call, k.count) in kept {
          assert (k.calls + [call])[..|k.calls|] == k.calls;
          ThinsBoth(s, b, at', call);
          at' := at' + [|b.issued|];
        } else {
          ThinsMore(s, b, at', call);
        }
      }
    }
  }

  lemma SettleWithin(l: Ledger, i: int)
    requires Ordered(l.pending) && Within(l) && -1 <= i < |l.pending|
    ensures Ordered(Settle(l, i).pending) && Within(Settle(l, i))
  {
    WithoutMembers(l.pending, i);
  }

  lemma ThinsClaim(small: Ledger, big: Ledger, at: seq<nat>, who: Identity)
    requires Thins(small, big, at)
    ensures Thins(Settle(small, Pick(small.pending, who)), Settle(big, Pick(big.pending, who)), at)
  {
    hide Pick;
    var s, b := Pick(small.pending, who), Pick(big.pending, who);
    if b >= 0 {
      forall j | 0 <= j < |small.pending| && StandsFor(small.pending[j], big.pending[b], at) ensures j == s {
        PickAgrees(small.pending, big.pending, at, who, j);
      }
    }
    SettleWithin(small, s);
    SettleWithin(big, b);
    WithoutEmbeds(small.pending, big.pending, at, s, b);
  }

  lemma ThinsNone(small: Ledger, big: Ledger, at: seq<nat>)
    requires Thins(small, big, at)
    ensures big.pending == [] ==> small.pending == []
  {
    if small.pending != [] {
      assert small.pending[0] in small.pending;
    }
  }

  // ----- rows

  lemma {:induction false} PendingNamed(transcript: seq<Message>)
    ensures LedgerNamed(Repair(transcript).ledger)
  {
    if transcript != [] {
      hide Issue, Pick, Infer, Fill;
      var init, m := transcript[..|transcript| - 1], transcript[|transcript| - 1];
      PendingNamed(init);
      IssueNamed(Repair(init).ledger, m.calls);
    }
  }

  /** A row with an identity keeps it, and so does one without when no call is pending. */
  lemma RowStays(row: Message, pending: seq<Pending>)
    requires !row.Own().Blank() || (ResultIdentities(row.results) == [] && pending == [])
    ensures Fill(row, Infer(row, pending)) == row
  {
    var f := Fill(row, Infer(row, pending));
    assert f.name == row.name && f.id == row.id;
  }

  /** Repair leaves a row anonymous only if it carries no identity and no call is pending. */
  lemma StaysBlank(m: Message, l: Ledger)
    requires LedgerNamed(l)
    ensures Fill(m, Infer(m, l.pending)).Own().Blank() ==> ResultIdentities(m.results) == [] && l.pending == []
  {
    if l.pending != [] {
      assert l.pending[0] in l.pending;
    }
  }

  /** One row in all four passes: repaired, matched, and both again. */
  lemma RowAgain(r: Pass, q: Pass, p: Pass, at: seq<nat>, m: Message) returns (at': seq<nat>)
    requires Thins(r.ledger, q.ledger, at) && LedgerNamed(q.ledger) && m.role == Tool
    ensures var row := Fill(m, Infer(m, Issue(q.ledger, m.calls, false).pending));
            var piece := Fill(row, Infer(row, p.ledger.pending));
            && StepBuild(r, piece).rows == r.rows + [piece]
            && Thins(StepBuild(r, piece).ledger, StepBuild(q, m).ledger, at')
  {
    hide Thins, Issue, Infer, Fill, Pick;
    var big, small := Issue(q.ledger, m.calls, false), Issue(r.ledger, m.calls, false);
    at' := ThinsIssue(r.ledger, q.ledger, at, m.calls);
    IssueNamed(q.ledger, m.calls);
    var row := Fill(m, Infer(m, big.pending));
    FillKeeps(m, Infer(m, big.pending));
    FillKeeps(row, Infer(row, p.ledger.pending));
    var piece := Fill(row, Infer(row, p.ledger.pending));
    if row.Own().Blank() {
      StaysBlank(m, big);
      ThinsNone(small, big, at');
    } else {
      RowStays(row, p.ledger.pending);
      ThinsClaim(small, big, at', row.Own());
    }
    RowStays(piece, small.pending);
  }

  function StepBuildAny(p: Pass, piece: seq<Message>): Pass
    requires |piece| <= 1
  {
    if piece == [] then p else StepBuild(p, piece[0])
  }

  lemma RepairPiece(messages: seq<Message>, piece: seq<Message>)
    requires |piece| <= 1
    ensures Repair(messages + piece) == StepBuildAny(Repair(messages), piece)
  {
    if piece == [] {
      assert messages + piece == messages;
    } else {
      assert piece == [piece[0]];
      RepairStep(messages, piece[0]);
    }
  }

  /** One message: repaired, matched and sifted, and what is left of it repaired again. */
  lemma StepAgain(r: Pass, q: Pass, p: Pass, at: seq<nat>, kept: set<Key>, m: Message, count: nat)
    returns (at': seq<nat>)
    requires Thins(r.ledger, q.ledger, at) && LedgerNamed(q.ledger)
    ensures var q' := StepBuild(q, m);
            && |q'.rows| == |q.rows| + 1 && q'.rows == q.rows + [q'.rows[|q.rows|]]
    ensures var q' := StepBuild(q, m);
            var p' := StepMatch(p, q'.rows[|q.rows|]);
            && |p'.rows| == |p.rows| + 1 && p'.rows == p.rows + [p'.rows[|p.rows|]]
    ensures var q' := StepBuild(q, m);
            var p' := StepMatch(p, q'.rows[|q.rows|]);
            var piece := SiftOne(p'.rows[|p.rows|], count, kept);
            && |piece| <= 1 && StepBuildAny(r, piece).rows == r.rows + piece
            && Thins(StepBuildAny(r, piece).ledger, q'.ledger, at')
  {
    hide Thins, Keep, Issue, Infer, Pick, PickOrOnly, Fill, LedgerNamed;
    at' := at;
    if m.role == Assistant {
      at' := ThinsKeep(r.ledger, q.ledger, at, m.calls, count, kept);
      IssueNone(r.ledger);
      KeepNothing(count, kept);
    } else if m.role == Tool {
      FillKeeps(m, Infer(m, Issue(q.ledger, m.calls, false).pending));
      var row := StepBuild(q, m).rows[|q.rows|];
      FillKeeps(row, Infer(row, p.ledger.pending));
      at' := RowAgain(r, q, p, at, m);
    } else {
      at' := ThinsIssue(r.ledger, q.ledger, at, m.calls);
    }
  }

  /** Repairing what was left of a repaired transcript, whatever keys were kept, changes no
      row, and no call waits that did not wait when the transcript was repaired. */
  lemma {:induction false} RepairFollows(transcript: seq<Message>, kept: set<Key>) returns (at: seq<nat>)
    ensures var q := Repair(transcript);
            var s := Sift(Match(q.rows).rows, kept);
            Repair(s.rows).rows == s.rows && Thins(Repair(s.rows).ledger, q.ledger, at)
  {
    if transcript == [] {
      at := [];
    } else {
      hide Repair, Match, Sift, SiftOne, StepMatch, Thins, StepBuildAny;
      var init, m := transcript[..|transcript| - 1], transcript[|transcript| - 1];
      assert transcript == init + [m];
      at := RepairFollows(init, kept);
      PendingNamed(init);
      var q := Repair(init);
      var p := Match(q.rows);
      var s := Sift(p.rows, kept);
      at := StepAgain(Repair(s.rows), q, p, at, kept, m, s.count);
      RepairStep(init, m);
      var row := StepBuild(q, m).rows[|q.rows|];
      MatchStep(q.rows, row);
      var row' := StepMatch(p, row).rows[|p.rows|];
      SiftStep(p.rows, row', kept);
      RepairPiece(s.rows, SiftOne(row', s.count, kept));
    }
  }

  /** Building a history from a built history changes nothing, whatever the transcript. */
  lemma HistoryIdempotent(transcript: seq<Message>)
    ensures BuildHistory(BuildHistory(transcript)) == BuildHistory(transcript)
  {
    hide Repair, Match, Sift;
    var rows := Repair(transcript).rows;
    var at := RepairFollows(transcript, Match(rows).ledger.matched);
    StripIdempotent(rows);
  }
}
