/** A built history, message by message: which messages and calls of the transcript it holds,
    and by which identity each row goes. Rows without any identity take the calls before them
    one by one, in the order in which these were made. */
module HistoryRows {
  import opened Transcripts
  import opened Pairing
  import opened HistoryMemory
  import opened HistoryProofs
  import opened ReloadProofs
  import opened ReplayBalance
  import opened ReplayedCalls
  import opened StripProofs

  // ----- rows without any identity

  /** A tool row without a name, an id, or a result that has one. */
  predicate Anonymous(m: Message) {
    m.role == Tool && m.calls == [] && RowIdentities(m) == []
  }

  /** It goes by the first pending call that has a name or an id. */
  lemma {:induction false} AnonymousGoesBy(m: Message, pending: seq<Pending>, j: nat)
    requires Anonymous(m) && j < |pending| && !pending[j].Who().Blank()
    requires forall i :: 0 <= i < j ==> pending[i].Who().Blank()
    ensures Fill(m, Infer(m, pending)).Own() == pending[j].Who()
    decreases j
  {
    if j > 0 {
      assert pending[0].Who().Blank();
      AnonymousGoesBy(m, pending[1..], j - 1);
    }
  }

  function Answering(m: Message, call: Call): Message {
    m.(name := call.name, id := call.id)
  }

  /** It claims the first pending call, if calls have names, and goes by it. */
  lemma AnonymousTakes(transcript: seq<Message>, m: Message)
    requires Anonymous(m) && Repair(transcript).ledger.pending != []
    ensures var q := Repair(transcript);
            var q' := Repair(transcript + [m]);
            && q'.rows == q.rows + [Answering(m, q.ledger.pending[0].call)]
            && q'.ledger.pending == q.ledger.pending[1..]
  {
    hide Repair, Infer, FirstWithId, FirstWithName, LedgerNamed;
    var q := Repair(transcript);
    RepairStep(transcript, m);
    IssueNone(q.ledger);
    PendingNamed(transcript);
    FirstHasName(q.ledger);
    AnonymousGoesBy(m, q.ledger.pending, 0);
    assert Fill(m, Infer(m, q.ledger.pending)) == Answering(m, q.ledger.pending[0].call);
    PicksItself(q.ledger.pending);
    WithoutFirst(q.ledger.pending);
  }

  lemma FirstHasName(l: Ledger)
    requires LedgerNamed(l) && l.pending != []
    ensures l.pending[0].call.name != ""
  {
    assert l.pending[0] in l.pending;
  }

  lemma PicksItself(pending: seq<Pending>)
    requires pending != [] && pending[0].call.name != ""
    ensures Pick(pending, pending[0].Who()) == 0
  {
  }

  function Answered(rows: seq<Message>, calls: seq<Call>): (r: seq<Message>)
    requires |rows| <= |calls|
    ensures |r| == |rows| && forall k :: 0 <= k < |r| ==> r[k] == rows[k].(name := calls[k].name, id := calls[k].id)
  {
    seq(|rows|, k requires 0 <= k < |rows| => rows[k].(name := calls[k].name, id := calls[k].id))
  }

  ghost predicate Waits(pending: seq<Pending>, calls: seq<Call>) {
    |pending| == |calls| && forall k :: 0 <= k < |calls| ==> pending[k].call == calls[k]
  }

  /** Anonymous rows take the waiting calls one by one. */
  lemma {:induction false} AnonymousTakeInOrder(transcript: seq<Message>, rows: seq<Message>, calls: seq<Call>)
    requires Waits(Repair(transcript).ledger.pending, calls) && |rows| <= |calls|
    requires forall k :: 0 <= k < |rows| ==> Anonymous(rows[k])
    ensures var q := Repair(transcript + rows);
            && q.rows == Repair(transcript).rows + Answered(rows, calls) && Waits(q.ledger.pending, calls[|rows|..])
  {
    hide Repair, Anonymous;
    if rows == [] {
      assert transcript + rows == transcript && Answered(rows, calls) == [];
      assert Repair(transcript).rows + [] == Repair(transcript).rows && calls[0..] == calls;
    } else {
      var n := |rows| - 1;
      AnonymousTakeInOrder(transcript, rows[..n], calls);
      AnonymousTakes(transcript + rows[..n], rows[n]);
      assert transcript + rows == (transcript + rows[..n]) + [rows[n]];
      assert Answered(rows, calls) == Answered(rows[..n], calls) + [Answering(rows[n], calls[n])];
      Appended(Repair(transcript).rows, Answered(rows[..n], calls), Answering(rows[n], calls[n]));
    }
  }

  lemma Appended(a: seq<Message>, b: seq<Message>, m: Message)
    ensures a + (b + [m]) == (a + b) + [m]
  {
  }

  lemma {:induction false} AllNamedIssue(l: Ledger, calls: seq<Call>)
    requires l.pending == [] && forall c :: c in calls ==> c.name != ""
    ensures Waits(Issue(l, calls, false).pending, calls)
  {
    if calls != [] {
      assert calls[|calls| - 1] in calls;
      AllNamedIssue(l, calls[..|calls| - 1]);
    }
  }

  /** Behind a past that leaves no call waiting, an assistant message whose calls all have
      names, and at most as many anonymous rows: the k-th row goes by the k-th call. */
  lemma RowsAnswerInOrder(past: seq<Message>, asks: Message, rows: seq<Message>)
    requires Repair(past).ledger.pending == [] && asks.role == Assistant
    requires (forall c :: c in asks.calls ==> c.name != "") && |rows| <= |asks.calls|
    requires forall k :: 0 <= k < |rows| ==> Anonymous(rows[k])
    ensures Repair(past + [asks] + rows).rows == Repair(past).rows + [asks] + Answered(rows, asks.calls)
  {
    hide Repair, Anonymous, Issue;
    RepairStep(past, asks);
    AllNamedIssue(Repair(past).ledger, asks.calls);
    AnonymousTakeInOrder(past + [asks], rows, asks.calls);
  }

  // ----- the rest of the way leaves them as they are

  /** Rows that go by an identity. */
  predicate Identified(rows: seq<Message>) {
    forall k :: 0 <= k < |rows| ==> rows[k].role == Tool && !rows[k].Own().Blank()
  }

  lemma {:induction false} IdentifiedStay(messages: seq<Message>, rows: seq<Message>, kept: set<Key>)
    requires Identified(rows)
    ensures Match(messages + rows).rows == Match(messages).rows + rows
    ensures Sift(messages + rows, kept).rows == Sift(messages, kept).rows + rows
  {
    hide Match, Sift, Infer, Fill, PickOrOnly;
    if rows == [] {
      assert messages + rows == messages;
      assert Match(messages).rows + [] == Match(messages).rows;
      assert Sift(messages, kept).rows + [] == Sift(messages, kept).rows;
    } else {
      var init, row := rows[..|rows| - 1], rows[|rows| - 1];
      IdentifiedStay(messages, init, kept);
      assert messages + rows == (messages + init) + [row] && rows == init + [row];
      MatchStep(messages + init, row);
      SiftStep(messages + init, row, kept);
      RowStays(row, Match(messages + init).ledger.pending);
      Appended(Match(messages).rows, init, row);
      Appended(Sift(messages, kept).rows, init, row);
    }
  }

  /** The built history ends in these rows: the k-th goes by the k-th call. */
  lemma HistoryAnswersInOrder(past: seq<Message>, asks: Message, rows: seq<Message>)
    requires Repair(past).ledger.pending == [] && asks.role == Assistant
    requires (forall c :: c in asks.calls ==> c.name != "") && |rows| <= |asks.calls|
    requires forall k :: 0 <= k < |rows| ==> Anonymous(rows[k])
    ensures var h := BuildHistory(past + [asks] + rows);
            |h| >= |rows| && h[|h| - |rows|..] == Answered(rows, asks.calls)
  {
    hide Repair, Match, Sift, Anonymous;
    var repaired := Repair(past + [asks] + rows).rows;
    var front, answered := Repair(past).rows + [asks], Answered(rows, asks.calls);
    RowsAnswerInOrder(past, asks, rows);
    assert Identified(answered) by {
      AnsweredIdentified(rows, asks.calls);
    }
    var kept := Match(repaired).ledger.matched;
    IdentifiedStay(front, answered, kept);
    IdentifiedStay(Match(front).rows, answered, kept);
    var h := BuildHistory(past + [asks] + rows);
    assert h == Sift(Match(front).rows, kept).rows + answered;
  }

  lemma AnsweredIdentified(rows: seq<Message>, calls: seq<Call>)
    requires |rows| <= |calls| && (forall c :: c in calls ==> c.name != "")
    requires forall k :: 0 <= k < |rows| ==> Anonymous(rows[k])
    ensures Identified(Answered(rows, calls))
  {
    assert forall k :: 0 <= k < |rows| ==> calls[k] in calls;
  }

  // ----- the whole history

  /** What is left of an identity: rows may gain a name or an id they lacked, and a row that
      carries an identity goes by the first. */
  predicate Named(row: Message, m: Message) {
    && row == m.(name := row.name, id := row.id)
    && (m.role != Tool ==> row == m)
    && (m.name != "" ==> row.name == m.name) && (m.id != "" ==> row.id == m.id)
    && (m.role == Tool && RowIdentities(m) != [] ==> row.Own() == RowIdentities(m)[0])
  }

  ghost predicate AllNamed(rows: seq<Message>, messages: seq<Message>) {
    |rows| == |messages| && forall i :: 0 <= i < |rows| ==> Named(rows[i], messages[i])
  }

  lemma FillNames(m: Message, a: seq<Pending>, b: seq<Pending>)
    requires m.role == Tool
    ensures var row := Fill(m, Infer(m, a)); Named(Fill(row, Infer(row, b)), m)
  {
    if RowIdentities(m) != [] {
      RowIdentity(m, a, b);
    }
  }

  lemma {:induction false} RowsNamedOnce(messages: seq<Message>)
    ensures AllNamed(Reloaded(messages).rows, messages)
  {
    hide Repair, Match, Infer, Fill, Issue, PickOrOnly, Named;
    if messages == [] {
      NothingYet();
    } else {
      var init, m := messages[..|messages| - 1], messages[|messages| - 1];
      assert messages == init + [m];
      RowsNamedOnce(init);
      ReloadedNext(init, m);
      NamedRow(init, m);
    }
  }

  lemma NamedRow(init: seq<Message>, m: Message)
    ensures var row := RepairedRow(init, m);
            var p := StepMatch(Reloaded(init), row);
            |p.rows| == |Reloaded(init).rows| + 1 && p.rows[..|Reloaded(init).rows|] == Reloaded(init).rows
            && Named(p.rows[|Reloaded(init).rows|], m)
  {
    hide Repair, Match, Infer, Fill, Issue, PickOrOnly, Named;
    var l := Reloaded(init).ledger;
    if m.role == Tool {
      var pending := Issue(Repair(init).ledger, m.calls, false).pending;
      FillKeeps(m, Infer(m, pending));
      FillNames(m, pending, l.pending);
    } else {
      NamedItself(m);
    }
  }

  lemma NamedItself(m: Message)
    requires m.role != Tool
    ensures Named(m, m)
  {
  }

  /** The calls of the k-th message that replay keeps: of an assistant's, those that have a name
      and a matched key under their number among all such calls. */
  function CallsReplayed(transcript: seq<Message>, k: nat, matched: set<Key>): seq<Call>
    requires k < |transcript|
  {
    if transcript[k].role != Assistant then transcript[k].calls
    else Keep(transcript[k].calls, |NumberedCalls(transcript[..k])|, matched, false).calls
  }

  /** An assistant's message without text of which no call is kept. */
  predicate Dropped(transcript: seq<Message>, k: nat, matched: set<Key>)
    requires k < |transcript|
  {
    transcript[k].role == Assistant && transcript[k].content == "" && CallsReplayed(transcript, k, matched) == []
  }

  /** The history holds, in order, all messages but the dropped ones, each with the calls that
      are kept and, if it is a row, the identity it goes by. */
  ghost predicate HistoryAt(history: seq<Message>, transcript: seq<Message>, at: seq<nat>, matched: set<Key>) {
    && |history| == |at| && Increasing(at)
    && (forall i :: 0 <= i < |at| ==>
          at[i] < |transcript|
          && Named(history[i], transcript[at[i]].(calls := CallsReplayed(transcript, at[i], matched))))
    && (forall k :: 0 <= k < |transcript| ==> (k in at <==> !Dropped(transcript, k, matched)))
  }

  lemma DroppedBefore(transcript: seq<Message>, m: Message, k: nat, matched: set<Key>)
    requires k < |transcript|
    ensures CallsReplayed(transcript + [m], k, matched) == CallsReplayed(transcript, k, matched)
    ensures Dropped(transcript + [m], k, matched) == Dropped(transcript, k, matched)
  {
    assert (transcript + [m])[..k] == transcript[..k] && (transcript + [m])[k] == transcript[k];
  }

  lemma SiftOneIs(transcript: seq<Message>, m: Message, row: Message, matched: set<Key>)
    requires Named(row, m)
    ensures var all, n := transcript + [m], |transcript|;
            var piece := SiftOne(row, |NumberedCalls(transcript)|, matched);
            && (Dropped(all, n, matched) ==> piece == [])
            && (!Dropped(all, n, matched) ==>
                  |piece| == 1 && Named(piece[0], m.(calls := CallsReplayed(all, n, matched))))
  {
    hide Keep, NumberedCalls;
    assert (transcript + [m])[..|transcript|] == transcript && (transcript + [m])[|transcript|] == m;
    KeepNothing(|NumberedCalls(transcript)|, matched);
    RowIdentitiesOf(m, CallsReplayed(transcript + [m], |transcript|, matched));
  }

  lemma RowIdentitiesOf(m: Message, calls: seq<Call>)
    ensures RowIdentities(m.(calls := calls)) == RowIdentities(m)
  {
  }

  lemma HistoryNext(history: seq<Message>, transcript: seq<Message>, at: seq<nat>, m: Message, row: Message,
                    matched: set<Key>)
    returns (at': seq<nat>)
    requires HistoryAt(history, transcript, at, matched) && Named(row, m)
    ensures HistoryAt(history + SiftOne(row, |NumberedCalls(transcript)|, matched), transcript + [m], at', matched)
  {
    hide CallsReplayed, Dropped, SiftOne, Named, NumberedCalls;
    SiftOneIs(transcript, m, row, matched);
    var all, n := transcript + [m], |transcript|;
    forall k | 0 <= k < n
      ensures CallsReplayed(all, k, matched) == CallsReplayed(transcript, k, matched)
      ensures Dropped(all, k, matched) == Dropped(transcript, k, matched)
    {
      DroppedBefore(transcript, m, k, matched);
    }
    if Dropped(all, n, matched) {
      at' := at;
      assert history + [] == history;
    } else {
      at' := at + [n];
      assert forall k :: k in at' <==> k in at || k == n;
    }
  }

  lemma NothingHeldAt(matched: set<Key>)
    ensures HistoryAt([], [], [], matched) && NumberedCalls([]) == []
  {
  }

  lemma SiftCounts(row: Message, m: Message, transcript: seq<Message>, matched: set<Key>)
    requires Named(row, m)
    ensures CountAfter(row, |NumberedCalls(transcript)|, matched) == |NumberedCalls(transcript + [m])|
  {
    hide NumberedCalls, Keep, NamedCalls;
    NumberedNext(transcript, m);
    KeepCountsNamed(m.calls, |NumberedCalls(transcript)|, matched);
  }

  lemma {:induction false} KeepCountsNamed(calls: seq<Call>, count: nat, matched: set<Key>)
    ensures Keep(calls, count, matched, false).count == count + |NamedCalls(calls)|
  {
    if calls != [] {
      KeepCountsNamed(calls[..|calls| - 1], count, matched);
    }
  }

  lemma {:induction false} SiftHolds(rows: seq<Message>, transcript: seq<Message>, matched: set<Key>)
    returns (at: seq<nat>)
    requires AllNamed(rows, transcript)
    ensures Sift(rows, matched).count == |NumberedCalls(transcript)|
    ensures HistoryAt(Sift(rows, matched).rows, transcript, at, matched)
  {
    hide Sift, SiftOne, CountAfter, HistoryAt, NumberedCalls, Named;
    if rows == [] {
      at := [];
      SiftStart(matched);
      NothingHeldAt(matched);
    } else {
      var n := |rows| - 1;
      var init, row, m := rows[..n], rows[n], transcript[n];
      assert rows == init + [row] && transcript == transcript[..n] + [m];
      at := SiftHolds(init, transcript[..n], matched);
      SiftStep(init, row, matched);
      SiftCounts(row, m, transcript[..n], matched);
      at := HistoryNext(Sift(init, matched).rows, transcript[..n], at, m, row, matched);
    }
  }

  /** A built history holds every message of the transcript, in order, with its text, role and
      images, except for assistants' messages without text and kept calls; an assistant's has
      the calls that have a name and a matched key; and only rows gain what their identity
      lacked. */
  lemma HistoryHolds(transcript: seq<Message>) returns (at: seq<nat>)
    ensures HistoryAt(BuildHistory(transcript), transcript, at, Reloaded(transcript).ledger.matched)
  {
    hide Sift, Match, Repair, HistoryAt, AllNamed;
    RowsNamedOnce(transcript);
    at := SiftHolds(Reloaded(transcript).rows, transcript, Reloaded(transcript).ledger.matched);
  }
}
