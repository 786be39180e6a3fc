/** Persisting a turn: earlier messages are untouched, and the final answer is what is read
    back. */
module PersistProofs {
  import opened Transcripts
  import opened ToolEvidence

  /** The turn's own messages begin at `start`; what came before is stored as it was. */
  lemma EarlierMessagesUnchanged(messages: seq<Message>, turn: Turn)
    ensures var start := SafeStart(turn.start, |messages|);
            start <= |Sanitize(messages, turn)| && Sanitize(messages, turn)[..start] == messages[..start]
  {
    hide Screen, Collect, NarrowRow;
    var start := SafeStart(turn.start, |messages|);
    ScreenKeepsPrefix(messages, start, Collect(messages[start..]).matched, turn);
  }

  lemma {:induction false} LatestIs(rows: seq<Message>, start: nat, i: nat)
    requires start <= i < |rows| && IsPlain(rows[i]) && rows[i].content != ""
    requires forall k :: i < k < |rows| ==> !IsPlain(rows[k])
    ensures LatestAssistant(rows, start) == rows[i].content
  {
    if i < |rows| - 1 {
      LatestIs(rows[..|rows| - 1], start, i);
    }
  }

  lemma {:induction false} LatestOfNone(rows: seq<Message>, start: nat)
    requires start <= |rows| && forall k :: start <= k < |rows| ==> !IsPlain(rows[k])
    ensures LatestAssistant(rows, start) == ""
  {
    if start < |rows| {
      LatestOfNone(rows[..|rows| - 1], start);
    }
  }

  /** A final answer is exactly what is read back from the stored turn, provided the turn
      starts inside the transcript or at its end; past the end, nothing is read back. */
  lemma FinalAnswerReadBack(messages: seq<Message>, turn: Turn)
    requires turn.finalAssistant != ""
    ensures var stored := Sanitize(messages, turn);
            LatestAssistant(stored, SafeStart(turn.start, |stored|)) == turn.finalAssistant
            <==> turn.start <= |messages|
  {
    hide Screen, Collect, NarrowRow;
    var start := SafeStart(turn.start, |messages|);
    EarlierMessagesUnchanged(messages, turn);
    var matched := Collect(messages[start..]).matched;
    var screened := Screen(messages, start, matched, turn).rows;
    ScreenKeepsPrefix(messages, start, matched, turn);
    var rows := Restored(Narrowed(screened, start, turn), start, turn);
    var stored := Sanitize(messages, turn);
    if turn.start <= |messages| {
      var i := LastPlain(rows, start);
      LatestIs(stored, start, if i < 0 then |rows| else i);
    } else {
      LatestOfNone(stored, SafeStart(turn.start, |stored|));
    }
  }

  /** What is read back: the text of the last assistant message that has no calls and is not
      blank, at or after the start; nothing if there is none. */
  lemma {:induction false} LatestExactly(messages: seq<Message>, start: nat)
    requires start <= |messages|
    ensures var text := LatestAssistant(messages, start);
            || (exists i :: LatestAt(messages, start, i) && text == messages[i].content)
            || (text == "" && forall j :: start <= j < |messages| ==> !Answer(messages[j]))
  {
    if start < |messages| {
      hide LatestAt, Answer;
      var n := |messages| - 1;
      AnswerIs(messages[n]);
      if Answer(messages[n]) {
        LatestLast(messages, start);
      } else {
        LatestExactly(messages[..n], start);
        if i :| LatestAt(messages[..n], start, i) && LatestAssistant(messages[..n], start) == messages[..n][i].content {
          LatestBefore(messages, start, i);
        }
      }
    }
  }

  lemma AnswerIs(m: Message)
    ensures Answer(m) <==> IsPlain(m) && m.content != ""
  {
  }

  lemma LatestLast(messages: seq<Message>, start: nat)
    requires start < |messages| && Answer(messages[|messages| - 1])
    ensures LatestAt(messages, start, |messages| - 1)
  {
  }

  lemma LatestBefore(messages: seq<Message>, start: nat, i: int)
    requires start < |messages| && !Answer(messages[|messages| - 1])
    requires LatestAt(messages[..|messages| - 1], start, i)
    ensures LatestAt(messages, start, i) && messages[i] == messages[..|messages| - 1][i]
  {
    hide Answer;
    assert forall j :: 0 <= j < |messages| - 1 ==> messages[..|messages| - 1][j] == messages[j];
  }

  predicate Answer(m: Message) {
    m.role == Assistant && m.calls == [] && m.content != ""
  }

  ghost predicate LatestAt(messages: seq<Message>, start: nat, i: int) {
    start <= i < |messages| && Answer(messages[i]) && forall j :: i < j < |messages| ==> !Answer(messages[j])
  }
}
