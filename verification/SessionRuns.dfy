/** A session over any number of turns. Each turn loads the stored transcript as a history,
    appends its own messages, and stores what turn persistence makes of all of it: no settled
    call is ever lost, and the model always sees each of them with one return. */
module SessionRuns {
  import opened Transcripts
  import opened Pairing
  import opened FirstClaims
  import opened HistoryMemory
  import opened ReloadBalance
  import opened ReloadExact
  import opened ReloadProofs
  import opened ReplayBalance
  import opened ReplayProofs
  import opened ReplayedCalls
  import opened StoredCalls
  import opened StripProofs
  import opened ToolEvidence

  // ----- loading

  /** A runtime prompt: a system message that is no summary. */
  predicate IsPrompt(m: Message) {
    m.role == System && !IsSummary(m.content)
  }

  function Pruned(messages: seq<Message>): seq<Message> {
    if messages == [] then []
    else
      var m := messages[|messages| - 1];
      Pruned(messages[..|messages| - 1]) + if IsPrompt(m) then [] else [m]
  }

  lemma PrunedNext(messages: seq<Message>, m: Message)
    ensures Pruned(messages + [m]) == Pruned(messages) + if IsPrompt(m) then [] else [m]
  {
    assert (messages + [m])[..|messages|] == messages;
  }

  /** `prune_summary_messages`. */
  method PruneSummaryMessages(messages: seq<Message>) returns (pruned: seq<Message>)
    ensures pruned == Pruned(messages)
  {
    pruned := [];
    for i := 0 to |messages|
      invariant pruned == Pruned(messages[..i])
    {
      assert messages[..i + 1] == messages[..i] + [messages[i]];
      PrunedNext(messages[..i], messages[i]);
      if messages[i].role != System || IsSummary(messages[i].content) {
        pruned := pruned + [messages[i]];
      }
    }
    assert messages[..|messages|] == messages;
  }

  function Loaded(stored: seq<Message>): seq<Message> {
    Pruned(BuildHistory(stored))
  }

  /** The model gets the same with and without the runtime prompts. */
  lemma {:induction false} PrunedSameModel(messages: seq<Message>)
    ensures ReplayAll(Pruned(messages)) == ReplayAll(messages)
    ensures ToModel(Pruned(messages)) == ToModel(messages)
  {
    if messages != [] {
      hide ClaimAll, Issue, RowIdentities, IsSummary, Pruned, ReplayAll;
      var init, m := messages[..|messages| - 1], messages[|messages| - 1];
      assert messages == init + [m];
      PrunedSameModel(init);
      PrunedNext(init, m);
      ReplayPiece(init, [m]);
      ReplayPiece(Pruned(init), if IsPrompt(m) then [] else [m]);
    }
  }

  // ----- messages that no pass hears

  /** Left out when a transcript is loaded: runtime prompts, and assistant messages with
      neither text nor calls. */
  predicate Silent(m: Message) {
    IsPrompt(m) || (IsPlain(m) && m.content == "")
  }

  function Heard(messages: seq<Message>): (r: seq<Message>)
    ensures forall m :: m in r ==> m in messages
  {
    if messages == [] then []
    else
      var m := messages[|messages| - 1];
      Heard(messages[..|messages| - 1]) + if Silent(m) then [] else [m]
  }

  lemma HeardNext(messages: seq<Message>, m: Message)
    ensures Heard(messages + [m]) == Heard(messages) + if Silent(m) then [] else [m]
  {
    assert (messages + [m])[..|messages|] == messages;
  }

  lemma HeardNothing()
    ensures Heard([]) == []
  {
  }

  lemma {:induction false} PrunedNonEmpty(messages: seq<Message>)
    ensures Pruned(NonEmpty(messages)) == Heard(messages)
  {
    if messages != [] {
      var init, m := messages[..|messages| - 1], messages[|messages| - 1];
      PrunedNonEmpty(init);
      PrunedNext(NonEmpty(init), m);
      assert NonEmpty(init) + [] == NonEmpty(init);
    }
  }

  /** A silent message of a transcript in which assistants alone carry calls has none. */
  lemma SilentRegistersNothing(l: Ledger, m: Message)
    requires Silent(m) && (m.role != Assistant ==> m.calls == [])
    ensures m.role != Tool && Issue(l, m.calls, false) == l
  {
    IssueNone(l);
  }

  lemma {:induction false} HeardRepair(messages: seq<Message>)
    requires NoForeignCalls(messages)
    ensures Repair(Heard(messages)) == Pass(Repair(messages).ledger, Heard(Repair(messages).rows))
  {
    hide Repair, Heard, Issue, Infer, Fill, Pick, Silent, NoForeignCalls;
    if messages == [] {
      HeardNothing();
      NothingYet();
    } else {
      var init, m := messages[..|messages| - 1], messages[|messages| - 1];
      assert messages == init + [m];
      NoForeignBefore(init, m);
      HeardRepair(init);
      HeardNext(init, m);
      RepairStep(init, m);
      var row := StepBuild(Repair(init), m).rows[|Repair(init).rows|];
      HeardNext(Repair(init).rows, row);
      if Silent(m) {
        SilentRegistersNothing(Repair(init).ledger, m);
        assert Heard(init) + [] == Heard(init);
      } else {
        RepairStep(Heard(init), m);
        RowsAreHeard(m, Infer(m, Issue(Repair(init).ledger, m.calls, false).pending));
      }
    }
  }

  lemma RowsAreHeard(m: Message, who: Identity)
    ensures m.role == Tool ==> !Silent(Fill(m, who))
  {
  }

  lemma {:induction false} HeardMatch(messages: seq<Message>)
    requires NoForeignCalls(messages)
    ensures Match(Heard(messages)).ledger == Match(messages).ledger
    ensures NoFallback(messages) ==> NoFallback(Heard(messages))
  {
    hide Match, Heard, Issue, Infer, Fill, PickOrOnly, Silent, NoForeignCalls, NoFallback, FallsBack;
    if messages == [] {
      HeardNothing();
    } else {
      var init, m := messages[..|messages| - 1], messages[|messages| - 1];
      assert messages == init + [m];
      NoForeignBefore(init, m);
      HeardMatch(init);
      HeardNext(init, m);
      MatchStep(init, m);
      NoFallbackNext(init, m);
      if Silent(m) {
        SilentRegistersNothing(Match(init).ledger, m);
        assert Heard(init) + [] == Heard(init);
      } else {
        MatchStep(Heard(init), m);
        NoFallbackNext(Heard(init), m);
      }
    }
  }

  lemma {:induction false} HeardNoForeign(messages: seq<Message>)
    requires NoForeignCalls(messages)
    ensures NoForeignCalls(Heard(messages)) && CallsOf(Heard(messages)) == CallsOf(messages)
  {
    hide Heard, CallsOf, NoForeignCalls;
    if messages == [] {
      HeardNothing();
      NoneWithout();
    } else {
      var init, m := messages[..|messages| - 1], messages[|messages| - 1];
      assert messages == init + [m];
      NoForeignBefore(init, m);
      NoForeignConcat(init, [m]);
      HeardNoForeign(init);
      HeardNext(init, m);
      CallsOfNext(init, m);
      NoForeignConcat(Heard(init), [m]);
      if Silent(m) {
        assert m.calls == [] && Heard(init) + [] == Heard(init) && CallsOf(init) + [] == CallsOf(init);
      } else {
        CallsOfNext(Heard(init), m);
      }
    }
  }

  // ----- what a steady transcript is loaded as

  /** In balance, with rows that are named or anonymous and assistants' calls that are named. */
  predicate Steady(stored: seq<Message>) {
    Settling(stored) && RowsNamed(stored) && forall m :: m in stored ==> Naming(m)
  }

  lemma {:induction false} RepairAgain(transcript: seq<Message>)
    ensures Repair(Repair(transcript).rows) == Repair(transcript)
  {
    hide Repair, Issue, Infer, Fill, Pick;
    if transcript == [] {
      NothingYet();
    } else {
      var init, m := transcript[..|transcript| - 1], transcript[|transcript| - 1];
      assert transcript == init + [m];
      RepairAgain(init);
      RepairStep(init, m);
      var q := Repair(init);
      var pending := Issue(q.ledger, m.calls, false).pending;
      var row := if m.role == Tool then Fill(m, Infer(m, pending)) else m;
      FillAgain(m, pending);
      FillKeeps(m, Infer(m, pending));
      RepairStep(q.rows, row);
    }
  }

  lemma QuietMatches(l: Ledger)
    requires Valid(l) && l.pending == []
    ensures AllMatched(l, l.matched)
  {
    assert forall t :: 0 <= t < |l.issued| ==> !Waiting(l, t);
  }

  /** It is loaded as its repaired rows, those that any pass hears. */
  lemma LoadedIsHeard(stored: seq<Message>)
    requires Steady(stored)
    ensures Loaded(stored) == Heard(Repair(stored).rows) && Reloaded(stored) == Repair(stored)
    ensures CallsOf(Repair(stored).rows) == CallsOf(stored)
  {
    hide Repair, Match, NoFallback, RowNamed, NoForeignCalls, BuildHistory, CallsOf, Heard, AllMatched, Naming, Valid;
    PassesAgree(stored);
    ReloadedValid(stored);
    QuietMatches(Reloaded(stored).ledger);
    KeptWholeExactly(stored);
    PrunedNonEmpty(Repair(stored).rows);
    ReloadedCarries(stored);
    SameCallsOf(Reloaded(stored).rows, stored);
  }

  lemma SameForeign(a: seq<Message>, b: seq<Message>)
    requires SameBut(a, b) && NoForeignCalls(b)
    ensures NoForeignCalls(a)
  {
  }

  lemma HeardSettles(stored: seq<Message>)
    requires Steady(stored)
    ensures Settling(Heard(Repair(stored).rows))
    ensures CallsOf(Heard(Repair(stored).rows)) == CallsOf(Repair(stored).rows)
  {
    hide Repair, Match, NoFallback, RowNamed, NoForeignCalls, CallsOf, Heard, Naming;
    var rows := Repair(stored).rows;
    RepairCarries(stored);
    SameForeign(rows, stored);
    RepairAgain(stored);
    HeardRepair(rows);
    HeardMatch(rows);
    HeardNoForeign(rows);
  }

  lemma HeardSteady(stored: seq<Message>)
    requires Steady(stored)
    ensures Steady(Heard(Repair(stored).rows))
  {
    hide Settling, RowNamed, Naming, Repair, Heard;
    var rows := Repair(stored).rows;
    HeardSettles(stored);
    RepairNamed(stored);
    RepairCarries(stored);
    SameNaming(rows, stored);
  }

  /** Loading a steady transcript loses no call, leaves it steady, and the model then sees
      calls and returns in bijection. */
  lemma SteadyLoads(stored: seq<Message>)
    requires Steady(stored)
    ensures Steady(Loaded(stored)) && CallsOf(Loaded(stored)) == CallsOf(stored)
    ensures Balanced(Flatten(ToModel(Loaded(stored))))
  {
    hide Steady, Balanced, Repair, Heard, CallsOf, BuildHistory, NoFallback, NoAlias, RowNamed;
    LoadedIsHeard(stored);
    HeardSteady(stored);
    HeardSettles(stored);
    SteadySettles(stored);
    EmptyNoAlias(Reloaded(stored).ledger);
    ReloadedIs(stored);
    ReplayBalanced(stored);
    PrunedSameModel(BuildHistory(stored));
  }

  lemma SteadySettles(stored: seq<Message>)
    requires Steady(stored)
    ensures RowsNamed(stored) && NoFallback(Repair(stored).rows) && Reloaded(stored).ledger.pending == []
  {
  }

  // ----- one turn

  /** The conditions are on the turn's own messages, whatever came before: assistants alone
      carry calls, the settled ones have names and what replay reads settles them, every row
      names a call that is pending, and no settled call shares its id with one that is not. */
  predicate GoodTurn(own: seq<Message>) {
    && Replayable(own) && Answering(own) && RowsNamed(own)
    && NoAlias(Collect(Firsts(own)))
  }

  lemma StoredNoForeign(messages: seq<Message>, turn: Turn)
    requires NoForeignCalls(messages)
    ensures NoForeignCalls(Sanitize(messages, turn))
  {
    hide Sanitize, Screen, Collect;
    var past, stored := messages[..SafeStart(turn.start, |messages|)], Sanitize(messages, turn);
    var own, texts := SanitizeParts(messages, turn);
    assert messages == past + own;
    NoForeignConcat(past, own);
    var rows := Screen(own, 0, Collect(own).matched, turn).rows;
    ScreenNoForeign(own, Collect(own).matched, turn);
    NoForeignConcat(past, rows);
    assert forall i :: 0 <= i < |texts| ==> Shape(texts[i]) == Shape((past + rows)[i]);
  }

  lemma TurnSteady(past: seq<Message>, own: seq<Message>, turn: Turn)
    requires Steady(past) && GoodTurn(own) && turn.start == |past|
    ensures Steady(Sanitize(past + own, turn))
    ensures CallsOf(Sanitize(past + own, turn)) ==
            CallsOf(past) + MatchedCalls(CallsOf(own), Collect(own).matched)
  {
    hide Sanitize, Collect, MatchedCalls, CallsOf, NoForeignCalls, SettledByFirst, NamedWith, Answering, NoAlias;
    hide Firsts, NoFallback, Repair, Reloaded, RowNamed, Naming, BuildHistory, NonEmpty;
    var messages := past + own;
    assert messages[..|past|] == past && messages[|past|..] == own;
    NoForeignConcat(past, own);
    StoredNoForeign(messages, turn);
    PersistedCallsSurvive(messages, turn);
    StoredSettles(messages, turn);
    StoredExactly(messages, turn);
  }

  // ----- all turns

  datatype Exchange = Exchange(own: seq<Message>, turn: Turn)

  function AfterTurn(stored: seq<Message>, x: Exchange): seq<Message> {
    var history := Loaded(stored);
    Sanitize(history + x.own, x.turn.(start := |history|))
  }

  /** What is stored after a run of turns. */
  function Session(run: seq<Exchange>): seq<Message> {
    if run == [] then [] else AfterTurn(Session(run[..|run| - 1]), run[|run| - 1])
  }

  /** The calls that each turn settled, in order. */
  function SettledCalls(run: seq<Exchange>): seq<Call> {
    if run == [] then []
    else
      var own := run[|run| - 1].own;
      SettledCalls(run[..|run| - 1]) + MatchedCalls(CallsOf(own), Collect(own).matched)
  }

  lemma NothingSteady()
    ensures Steady([]) && CallsOf([]) == []
  {
    NothingStored();
  }

  lemma {:induction false} SessionSteady(run: seq<Exchange>)
    requires forall i :: 0 <= i < |run| ==> GoodTurn(run[i].own)
    ensures Steady(Session(run)) && CallsOf(Session(run)) == SettledCalls(run)
  {
    hide Steady, GoodTurn, Sanitize, CallsOf, Collect, MatchedCalls, Loaded;
    if run == [] {
      NothingSteady();
    } else {
      var init, x := run[..|run| - 1], run[|run| - 1];
      SessionSteady(init);
      SteadyLoads(Session(init));
      var history := Loaded(Session(init));
      TurnSteady(history, x.own, x.turn.(start := |history|));
    }
  }

  /** After every run of such turns, the stored transcript, and the history that the next turn
      loads from it, carry exactly the calls that the turns settled, in order, and what the
      model sees of it has each call with one return behind it. */
  lemma SessionKeepsCalls(run: seq<Exchange>)
    requires forall i :: 0 <= i < |run| ==> GoodTurn(run[i].own)
    ensures CallsOf(Session(run)) == CallsOf(Loaded(Session(run))) == SettledCalls(run)
    ensures Balanced(Flatten(ToModel(Loaded(Session(run)))))
  {
    hide Steady, GoodTurn, CallsOf, Loaded, Balanced, SettledCalls, Session;
    SessionSteady(run);
    SteadyLoads(Session(run));
  }
}
