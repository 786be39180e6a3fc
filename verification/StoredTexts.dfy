/** What a turn stores, message by message: which of its messages are left out, and which text
    each of the others has. The past is stored as it was. */
module StoredTexts {
  import opened Wrappers
  import opened Transcripts
  import opened Pairing
  import opened StoredCalls
  import opened ToolEvidence

  // ----- what is left of one message

  /** An assistant's message that had calls or reads like one. */
  predicate Attempt(m: Message, turn: Turn) {
    m.role == Assistant && (m.calls != [] || turn.looksLikeCall(m.content))
  }

  /** The text of a message before narrowing, restoring and answering. */
  function TextLeft(m: Message, turn: Turn): string {
    if turn.clearPlanning && Attempt(m, turn) then "" else m.content
  }

  /** The calls that the k-th message of the turn keeps: those that are settled under their
      numbers among all calls of the turn. */
  function CallsLeft(own: seq<Message>, k: nat, matched: set<Key>): seq<Call>
    requires k < |own|
  {
    Keep(own[k].calls, |CallsOf(own[..k])|, matched, true).calls
  }

  function Left(own: seq<Message>, k: nat, matched: set<Key>, turn: Turn): Message
    requires k < |own|
  {
    own[k].(calls := CallsLeft(own, k, matched), content := TextLeft(own[k], turn))
  }

  /** An attempt that kept no call and whose text is blank then. */
  predicate LeftOut(own: seq<Message>, k: nat, matched: set<Key>, turn: Turn)
    requires k < |own|
  {
    Attempt(own[k], turn) && CallsLeft(own, k, matched) == [] && TextLeft(own[k], turn) == ""
  }

  /** The rows are what is left of the messages at `at`, in order, and these are all but the
      ones left out. */
  ghost predicate LeftAt(rows: seq<Message>, own: seq<Message>, at: seq<nat>, matched: set<Key>, turn: Turn) {
    && |rows| == |at| && Increasing(at)
    && (forall i :: 0 <= i < |at| ==> at[i] < |own| && rows[i] == Left(own, at[i], matched, turn))
    && (forall k :: 0 <= k < |own| ==> (k in at <==> !LeftOut(own, k, matched, turn)))
  }

  // ----- screening

  lemma LeftBefore(own: seq<Message>, m: Message, k: nat, matched: set<Key>, turn: Turn)
    requires k < |own|
    ensures Left(own + [m], k, matched, turn) == Left(own, k, matched, turn)
    ensures LeftOut(own + [m], k, matched, turn) == LeftOut(own, k, matched, turn)
  {
    assert (own + [m])[..k] == own[..k] && (own + [m])[k] == own[k];
  }

  /** Screening one message leaves nothing, or what is left of it. */
  lemma ScreenOneIs(own: seq<Message>, m: Message, matched: set<Key>, turn: Turn)
    ensures var all := own + [m];
            ScreenOne(m, |CallsOf(own)|, matched, turn) ==
            if LeftOut(all, |own|, matched, turn) then [] else [Left(all, |own|, matched, turn)]
  {
    hide Keep;
    assert (own + [m])[..|own|] == own && (own + [m])[|own|] == m;
    KeepNone(|CallsOf(own)|, matched);
  }

  lemma LeftNext(rows: seq<Message>, own: seq<Message>, at: seq<nat>, m: Message, matched: set<Key>, turn: Turn)
    returns (at': seq<nat>)
    requires LeftAt(rows, own, at, matched, turn)
    ensures LeftAt(rows + ScreenOne(m, |CallsOf(own)|, matched, turn), own + [m], at', matched, turn)
  {
    hide Left, LeftOut, ScreenOne;
    ScreenOneIs(own, m, matched, turn);
    var all, n := own + [m], |own|;
    forall k | 0 <= k < n
      ensures Left(all, k, matched, turn) == Left(own, k, matched, turn)
      ensures LeftOut(all, k, matched, turn) == LeftOut(own, k, matched, turn)
    {
      LeftBefore(own, m, k, matched, turn);
    }
    if LeftOut(all, n, matched, turn) {
      at' := at;
      assert rows + [] == rows;
    } else {
      at' := at + [n];
      assert forall k :: k in at' <==> k in at || k == n;
    }
  }

  lemma NothingLeft(matched: set<Key>, turn: Turn)
    ensures LeftAt([], [], [], matched, turn)
  {
  }

  lemma {:induction false} ScreenLeaves(own: seq<Message>, matched: set<Key>, turn: Turn) returns (at: seq<nat>)
    ensures LeftAt(Screen(own, 0, matched, turn).rows, own, at, matched, turn)
  {
    hide Screen, ScreenOne, LeftAt, Keep, CallsOf;
    if own == [] {
      at := [];
      NothingCounted(matched, turn);
      NothingLeft(matched, turn);
    } else {
      var init, m := own[..|own| - 1], own[|own| - 1];
      assert own == init + [m];
      at := ScreenLeaves(init, matched, turn);
      ScreenedCalls(init, matched, turn);
      ScreenStep(init, 0, matched, turn, m);
      at := LeftNext(Screen(init, 0, matched, turn).rows, init, at, m, matched, turn);
    }
  }

  // ----- the texts of the stored turn

  /** The i-th row is the first one of a user. */
  ghost predicate FirstUserRow(rows: seq<Message>, i: nat) {
    i < |rows| && rows[i].role == User && forall j :: 0 <= j < i ==> rows[j].role != User
  }

  /** The i-th row is the last one of an assistant without calls. */
  ghost predicate LastPlainRow(rows: seq<Message>, i: nat) {
    i < |rows| && IsPlain(rows[i]) && forall j :: i < j < |rows| ==> !IsPlain(rows[j])
  }

  predicate HasWords(turn: Turn) {
    turn.userMessage.Some? && (turn.userMessage.value != "" || turn.userAttachments)
  }

  /** The text that the i-th row is stored with: the answer, the user's own words, a narrowed
      content, or its own. */
  ghost function StoredText(rows: seq<Message>, i: nat, turn: Turn): string
    requires i < |rows|
  {
    if turn.finalAssistant != "" && LastPlainRow(rows, i) then turn.finalAssistant
    else if HasWords(turn) && FirstUserRow(rows, i) then turn.userMessage.value
    else if rows[i].role == Tool && turn.narrow(rows[i], rows[i + 1..]).Some?
    then turn.narrow(rows[i], rows[i + 1..]).value
    else rows[i].content
  }

  /** The rows behind the past, with their stored texts, and the answer behind them if no row
      took it. */
  ghost predicate StoredAs(stored: seq<Message>, past: seq<Message>, rows: seq<Message>, turn: Turn) {
    && |past| + |rows| <= |stored| && stored[..|past|] == past
    && (forall i :: 0 <= i < |rows| ==> stored[|past| + i] == rows[i].(content := StoredText(rows, i, turn)))
    && stored[|past| + |rows|..] ==
       if turn.finalAssistant != "" && forall i :: 0 <= i < |rows| ==> !IsPlain(rows[i])
       then [Message(Assistant, turn.finalAssistant, [], "", "", [], 0)] else []
  }

  lemma NarrowedRow(past: seq<Message>, rows: seq<Message>, i: nat, turn: Turn)
    requires i < |rows|
    ensures var m := Narrowed(past + rows, |past|, turn)[|past| + i];
            && (rows[i].role == Tool && turn.narrow(rows[i], rows[i + 1..]).Some? ==>
                  m == rows[i].(content := turn.narrow(rows[i], rows[i + 1..]).value))
            && (rows[i].role != Tool || turn.narrow(rows[i], rows[i + 1..]).None? ==> m == rows[i])
  {
    assert (past + rows)[|past| + i] == rows[i];
    assert (past + rows)[|past| + i + 1..] == rows[i + 1..];
  }

  lemma NarrowedPast(past: seq<Message>, rows: seq<Message>, turn: Turn)
    ensures var narrowed := Narrowed(past + rows, |past|, turn);
            && narrowed[..|past|] == past && SameShape(past + rows, narrowed)
  {
    NarrowedShape(past + rows, |past|, turn);
    assert (past + rows)[..|past|] == past;
  }

  /** Restoring the user's words. */
  lemma RestoredRow(before: seq<Message>, past: nat, i: nat, turn: Turn)
    requires past <= i < |before|
    ensures Restored(before, past, turn)[i] ==
            if HasWords(turn) && before[i].role == User && forall j :: past <= j < i ==> before[j].role != User
            then before[i].(content := turn.userMessage.value) else before[i]
    ensures Restored(before, past, turn)[..past] == before[..past]
  {
    var first := FirstUser(before, past);
    assert first == i <==> before[i].role == User && forall j :: past <= j < i ==> before[j].role != User;
  }

  /** Writing the answer. */
  lemma FinishedRow(before: seq<Message>, past: nat, i: nat, turn: Turn)
    requires past <= i < |before|
    ensures |Finished(before, past, turn)| >= |before|
    ensures Finished(before, past, turn)[i] ==
            if turn.finalAssistant != "" && IsPlain(before[i]) && forall j :: i < j < |before| ==> !IsPlain(before[j])
            then before[i].(content := turn.finalAssistant) else before[i]
  {
    var last := LastPlain(before, past);
    assert last == i <==> IsPlain(before[i]) && forall j :: i < j < |before| ==> !IsPlain(before[j]);
  }

  lemma FinishedFrame(before: seq<Message>, past: nat, turn: Turn)
    requires past <= |before|
    ensures var after := Finished(before, past, turn);
            && |before| <= |after| && after[..past] == before[..past]
            && after[|before|..] ==
               if turn.finalAssistant != "" && forall i :: past <= i < |before| ==> !IsPlain(before[i])
               then [Message(Assistant, turn.finalAssistant, [], "", "", [], 0)] else []
  {
    var last := LastPlain(before, past);
    assert last >= 0 ==> IsPlain(before[last]);
  }

  ghost predicate SameTail(rows: seq<Message>, before: seq<Message>, past: nat) {
    |before| == past + |rows| && forall i :: 0 <= i < |rows| ==> Shape(before[past + i]) == Shape(rows[i])
  }

  /** Texts play no part in who is first or last. */
  lemma SameRows(rows: seq<Message>, before: seq<Message>, past: nat)
    requires SameTail(rows, before, past)
    ensures forall i :: 0 <= i < |rows| ==> before[past + i].role == rows[i].role
                                            && IsPlain(before[past + i]) == IsPlain(rows[i])
    ensures (forall i :: past <= i < |before| ==> !IsPlain(before[i])) <==>
            (forall i :: 0 <= i < |rows| ==> !IsPlain(rows[i]))
  {
    forall i | 0 <= i < |rows|
      ensures before[past + i].role == rows[i].role && IsPlain(before[past + i]) == IsPlain(rows[i])
    {
      assert Shape(before[past + i]).role == Shape(rows[i]).role;
      assert Shape(before[past + i]).calls == Shape(rows[i]).calls;
    }
    if forall i :: 0 <= i < |rows| ==> !IsPlain(rows[i]) {
      forall i | past <= i < |before| ensures !IsPlain(before[i]) {
        assert IsPlain(before[past + (i - past)]) == IsPlain(rows[i - past]);
      }
    }
  }

  lemma SamePlaces(rows: seq<Message>, before: seq<Message>, past: nat, i: nat)
    requires SameTail(rows, before, past) && i < |rows|
    ensures FirstUserRow(rows, i) <==>
            before[past + i].role == User && forall j :: past <= j < past + i ==> before[j].role != User
    ensures LastPlainRow(rows, i) <==>
            IsPlain(before[past + i]) && forall j :: past + i < j < |before| ==> !IsPlain(before[j])
  {
    SameRows(rows, before, past);
    assert forall j :: past <= j < |before| ==>
                         before[j].role == rows[j - past].role && IsPlain(before[j]) == IsPlain(rows[j - past]) by {
      forall j | past <= j < |before|
        ensures before[j].role == rows[j - past].role && IsPlain(before[j]) == IsPlain(rows[j - past])
      {
        assert before[past + (j - past)].role == rows[j - past].role;
      }
    }
  }

  lemma TailShapes(past: seq<Message>, rows: seq<Message>, before: seq<Message>)
    requires SameShape(past + rows, before)
    ensures SameTail(rows, before, |past|)
  {
    assert forall i :: 0 <= i < |rows| ==> (past + rows)[|past| + i] == rows[i];
  }

  lemma ShapesChain(a: seq<Message>, b: seq<Message>, c: seq<Message>)
    requires SameShape(a, b) && SameShape(b, c)
    ensures SameShape(a, c)
  {
  }

  /** All three changes of one row. */
  lemma RowStored(past: seq<Message>, rows: seq<Message>, i: nat, turn: Turn)
    requires i < |rows|
    requires var narrowed := Narrowed(past + rows, |past|, turn);
             SameTail(rows, narrowed, |past|) && SameTail(rows, Restored(narrowed, |past|, turn), |past|)
    ensures var restored := Restored(Narrowed(past + rows, |past|, turn), |past|, turn);
            |past| + i < |Finished(restored, |past|, turn)| &&
            Finished(restored, |past|, turn)[|past| + i] == rows[i].(content := StoredText(rows, i, turn))
  {
    hide Narrowed, Restored, Finished, IsPlain, FirstUserRow, LastPlainRow, HasWords;
    var n, narrowed := |past|, Narrowed(past + rows, |past|, turn);
    var restored := Restored(narrowed, n, turn);
    NarrowedRow(past, rows, i, turn);
    SamePlaces(rows, narrowed, n, i);
    SamePlaces(rows, restored, n, i);
    RestoredRow(narrowed, n, n + i, turn);
    FinishedRow(restored, n, n + i, turn);
    assert rows[i].(content := rows[i].content) == rows[i];
  }

  lemma TailsStored(past: seq<Message>, rows: seq<Message>, turn: Turn)
    ensures var narrowed := Narrowed(past + rows, |past|, turn);
            var restored := Restored(narrowed, |past|, turn);
            && SameTail(rows, narrowed, |past|) && SameTail(rows, restored, |past|)
            && restored[..|past|] == past
  {
    hide Narrowed, Restored, SameShape, Shape, SameTail;
    var n := |past|;
    var narrowed := Narrowed(past + rows, n, turn);
    var restored := Restored(narrowed, n, turn);
    NarrowedPast(past, rows, turn);
    RestoredShape(narrowed, n, turn);
    ShapesChain(past + rows, narrowed, restored);
    TailShapes(past, rows, narrowed);
    TailShapes(past, rows, restored);
  }

  /** The past before the rows, and the answer behind them. */
  lemma FrameStored(past: seq<Message>, rows: seq<Message>, restored: seq<Message>, turn: Turn)
    requires SameTail(rows, restored, |past|) && restored[..|past|] == past
    ensures var stored := Finished(restored, |past|, turn);
            && |past| + |rows| <= |stored| && stored[..|past|] == past
            && stored[|past| + |rows|..] ==
               if turn.finalAssistant != "" && forall i :: 0 <= i < |rows| ==> !IsPlain(rows[i])
               then [Message(Assistant, turn.finalAssistant, [], "", "", [], 0)] else []
  {
    hide Finished, IsPlain, SameTail;
    TailLength(rows, restored, |past|);
    FinishedFrame(restored, |past|, turn);
    SameRows(rows, restored, |past|);
  }

  lemma TailLength(rows: seq<Message>, before: seq<Message>, past: nat)
    requires SameTail(rows, before, past)
    ensures |before| == past + |rows|
  {
  }

  lemma RestStores(past: seq<Message>, rows: seq<Message>, turn: Turn)
    ensures var narrowed := Narrowed(past + rows, |past|, turn);
            StoredAs(Finished(Restored(narrowed, |past|, turn), |past|, turn), past, rows, turn)
  {
    hide Narrowed, Restored, Finished, IsPlain, SameTail, StoredText;
    var restored := Restored(Narrowed(past + rows, |past|, turn), |past|, turn);
    var stored := Finished(restored, |past|, turn);
    TailsStored(past, rows, turn);
    FrameStored(past, rows, restored, turn);
    forall i | 0 <= i < |rows| ensures stored[|past| + i] == rows[i].(content := StoredText(rows, i, turn)) {
      RowStored(past, rows, i, turn);
    }
  }

  /** What a turn stores behind its past, for every start: in order, what is left of each of its
      messages but those left out, with its stored text, and the answer behind them if no
      assistant's row without calls could take it. Which calls are left, and which messages are
      left out, is a matter of each message, the settled keys and the turn's settings. */
  lemma StoredTurn(messages: seq<Message>, turn: Turn) returns (rows: seq<Message>, at: seq<nat>)
    ensures var start := SafeStart(turn.start, |messages|);
            var own := messages[start..];
            && LeftAt(rows, own, at, Collect(own).matched, turn)
            && StoredAs(Sanitize(messages, turn), messages[..start], rows, turn)
  {
    hide Screen, Collect, LeftAt, StoredAs;
    var start := SafeStart(turn.start, |messages|);
    var past, own := messages[..start], messages[start..];
    assert past + own == messages;
    var matched := Collect(own).matched;
    at := ScreenLeaves(own, matched, turn);
    ScreenFrom(past, own, matched, turn);
    rows := Screen(own, 0, matched, turn).rows;
    RestStores(past, rows, turn);
  }
}
