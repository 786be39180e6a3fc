/** Thinking text is emitted in small pieces, between a start and an end event; the
    assistant's text only outside. */
module ThinkingStream {
  import opened Sequences
  import opened Wrappers

  // ----- splitting

  const DELIMITERS := ['\n', '.', '!', '?', ',', ' ']

  /** `text.rfind(delimiter, from, end)`; -1 if there is none. */
  method LastIndexOf(text: string, delimiter: char, from: nat, end: nat) returns (pos: int)
    ensures pos == -1 || (from <= pos < end && pos < |text| && text[pos] == delimiter)
    ensures forall k :: (if pos < 0 then from else pos + 1) <= k < end && k < |text| ==> text[k] != delimiter
  {
    pos := if end < |text| then end else |text|;
    while pos > from
      invariant 0 <= pos <= |text| && pos <= end
      invariant forall k :: pos <= k < end && k < |text| ==> text[k] != delimiter
    {
      pos := pos - 1;
      if text[pos] == delimiter {
        return;
      }
    }
    return -1;
  }

  /** `cut` ends at the last delimiter, in the last two fifths of the window, of the first
      kind that occurs there; without one it is the target size. */
  ghost predicate IsCut(text: string, target: nat, cut: nat) {
    var from := target * 6 / 10;
    || (exists d :: 0 <= d < |DELIMITERS| && CutsAfter(text, target, d, cut))
    || (cut == target
        && forall d, k :: 0 <= d < |DELIMITERS| && from <= k <= target && k < |text| ==> text[k] != DELIMITERS[d])
  }

  ghost predicate CutsAfter(text: string, target: nat, d: nat, cut: nat)
    requires d < |DELIMITERS|
  {
    var from := target * 6 / 10;
    && from < cut <= target + 1 && cut <= |text| && text[cut - 1] == DELIMITERS[d]
    && (forall k :: cut <= k <= target && k < |text| ==> text[k] != DELIMITERS[d])
    && (forall e, k :: 0 <= e < d && from <= k <= target && k < |text| ==> text[k] != DELIMITERS[e])
  }

  method BestCut(text: string, target: nat) returns (cut: nat)
    requires target > 10 && |text| > target
    ensures IsCut(text, target, cut) && 0 < cut <= target + 1 && cut <= |text|
  {
    var from := target * 6 / 10;
    for d := 0 to |DELIMITERS|
      invariant forall e, k :: 0 <= e < d && from <= k <= target && k < |text| ==> text[k] != DELIMITERS[e]
    {
      var pos := LastIndexOf(text, DELIMITERS[d], from, target + 1);
      if pos > 0 {
        assert CutsAfter(text, target, d, pos + 1);
        return pos + 1;
      }
    }
    return target;
  }

  /** Equal slices, the last one possibly shorter. */
  method SplitEvenly(text: string, target: nat) returns (chunks: seq<string>)
    requires 1 <= target < |text|
    ensures Concat(chunks) == text && chunks != []
    ensures Even(chunks, target)
  {
    chunks := [];
    var i := 0;
    while i < |text|
      invariant 0 <= i <= |text| && Concat(chunks) == text[..i]
      invariant i < |text| ==> forall k :: 0 <= k < |chunks| ==> |chunks[k]| == target
      invariant forall k :: 0 <= k < |chunks| ==> 0 < |chunks[k]| <= target
      invariant forall k :: 0 <= k < |chunks| - 1 ==> |chunks[k]| == target
      invariant i > 0 ==> chunks != []
    {
      var end := Min(i + target, |text|);
      ConcatNext(chunks, text[i..end]);
      assert text[..i] + text[i..end] == text[..end];
      chunks := chunks + [text[i..end]];
      i := end;
    }
    assert text[..|text|] == text;
  }

  /** There is only one such cut. */
  lemma CutUnique(text: string, target: nat, a: nat, b: nat)
    requires target > 10 && |text| > target && IsCut(text, target, a) && IsCut(text, target, b)
    ensures a == b
  {
    if d :| 0 <= d < |DELIMITERS| && CutsAfter(text, target, d, a) {
      assert text[a - 1] == DELIMITERS[d];
      if e :| 0 <= e < |DELIMITERS| && CutsAfter(text, target, e, b) {
        assert text[b - 1] == DELIMITERS[e];
        assert d == e;
      }
    }
  }

  /** What is left is short, and the whole of it is the last piece; or the piece ends at
      the cut. */
  ghost predicate IsPiece(before: string, piece: string, rest: string, target: nat) {
    piece != "" && before == piece + rest && if |before| <= target then rest == "" else IsCut(before, target, |piece|)
  }

  /** Each piece is what one turn of the loop takes off what was left at that moment. */
  ghost predicate Pieces(text: string, chunks: seq<string>, rest: string, target: nat) {
    if chunks == [] then text == rest
    else
      var n := |chunks| - 1;
      var before := chunks[n] + rest;
      Pieces(text, chunks[..n], before, target) && IsPiece(before, chunks[n], rest, target)
  }

  lemma PiecesNext(text: string, chunks: seq<string>, before: string, piece: string, rest: string, target: nat)
    requires Pieces(text, chunks, before, target) && IsPiece(before, piece, rest, target)
    ensures Pieces(text, chunks + [piece], rest, target)
  {
    assert (chunks + [piece])[..|chunks|] == chunks;
  }

  lemma {:induction false} PiecesJoin(text: string, chunks: seq<string>, rest: string, target: nat)
    requires target > 10 && Pieces(text, chunks, rest, target)
    ensures Concat(chunks) + rest == text
    ensures forall i :: 0 <= i < |chunks| ==> 0 < |chunks[i]| <= target + 1
  {
    if chunks != [] {
      var n := |chunks| - 1;
      PiecesJoin(text, chunks[..n], chunks[n] + rest, target);
      assert Concat(chunks) + rest == Concat(chunks[..n]) + (chunks[n] + rest);
    }
  }

  method SplitAtDelimiters(text: string, target: nat) returns (chunks: seq<string>)
    requires 10 < target < |text|
    ensures Pieces(text, chunks, "", target) && chunks != []
  {
    chunks := [];
    var remaining := text;
    while remaining != ""
      invariant Pieces(text, chunks, remaining, target)
      invariant remaining == "" ==> chunks != []
      decreases |remaining|
    {
      hide Pieces, IsCut;
      var cut := |remaining|;
      if |remaining| > target {
        cut := BestCut(remaining, target);
      }
      assert remaining == remaining[..cut] + remaining[cut..];
      PiecesNext(text, chunks, remaining, remaining[..cut], remaining[cut..], target);
      chunks := chunks + [remaining[..cut]];
      remaining := remaining[cut..];
    }
  }

  /** A short text in one piece, else slices of the target size if that is small, else
      pieces that end at the preferred delimiters. */
  ghost predicate IsSplit(text: string, target: nat, chunks: seq<string>) {
    if |text| <= target then chunks == [text]
    else if target <= 10 then Concat(chunks) == text && Even(chunks, target)
    else Pieces(text, chunks, "", target)
  }

  predicate Even(chunks: seq<string>, target: nat) {
    && (forall i :: 0 <= i < |chunks| ==> 0 < |chunks[i]| <= target)
    && (forall i :: 0 <= i < |chunks| - 1 ==> |chunks[i]| == target)
  }

  /** The pieces give the text back, and are short. */
  method SplitThinkingChunks(text: string, target: nat) returns (chunks: seq<string>)
    requires target >= 1
    ensures Concat(chunks) == text && chunks != []
    ensures forall i :: 0 <= i < |chunks| ==> |chunks[i]| <= (if target <= 10 then target else target + 1)
    ensures text != "" ==> forall i :: 0 <= i < |chunks| ==> chunks[i] != ""
    ensures IsSplit(text, target, chunks)
  {
    if |text| <= target {
      ConcatNext([], text);
      assert [] + [text] == [text];
      return [text];
    }
    if target <= 10 {
      chunks := SplitEvenly(text, target);
    } else {
      chunks := SplitAtDelimiters(text, target);
      PiecesJoin(text, chunks, "", target);
      assert Concat(chunks) + "" == Concat(chunks);
    }
  }

  // ----- events

  datatype Event = ThinkingStart | ThinkingDelta(text: string) | ThinkingEnd | AssistantDelta(text: string)

  /** One event: a phase opens, goes on, or closes; `None` if it may not come here. */
  function ScanStep(open: Option<bool>, e: Event): Option<bool> {
    if open.None? then None
    else if e.ThinkingStart? then if open.value then None else Some(true)
    else if e.ThinkingDelta? then if open.value then Some(true) else None
    else if e.ThinkingEnd? then if open.value then Some(false) else None
    else if open.value then None else Some(false)
  }

  /** Whether a phase is open after the events; `None` if they are not well bracketed. */
  function Scan(events: seq<Event>): Option<bool> {
    if events == [] then Some(false)
    else ScanStep(Scan(events[..|events| - 1]), events[|events| - 1])
  }

  function PhaseStep(phases: seq<string>, e: Event): seq<string> {
    if e.ThinkingStart? then phases + [""] else if e.ThinkingDelta? then Appended(phases, e.text) else phases
  }

  /** The deltas of each phase, joined. */
  function Phases(events: seq<Event>): seq<string> {
    if events == [] then []
    else PhaseStep(Phases(events[..|events| - 1]), events[|events| - 1])
  }

  function Appended(phases: seq<string>, text: string): seq<string> {
    if phases == [] then [] else phases[|phases| - 1 := phases[|phases| - 1] + text]
  }

  function Said(events: seq<Event>): seq<string> {
    if events == [] then []
    else Said(events[..|events| - 1]) +
         if events[|events| - 1].AssistantDelta? then [events[|events| - 1].text] else []
  }

  lemma ScanNext(events: seq<Event>, e: Event)
    ensures Scan(events + [e]) == ScanStep(Scan(events), e)
    ensures Phases(events + [e]) == PhaseStep(Phases(events), e)
    ensures Said(events + [e]) == Said(events) + if e.AssistantDelta? then [e.text] else []
  {
    assert (events + [e])[..|events|] == events;
  }

  function Deltas(chunks: seq<string>): (d: seq<Event>)
    ensures |d| == |chunks|
  {
    seq(|chunks|, i requires 0 <= i < |chunks| => ThinkingDelta(chunks[i]))
  }

  /** In an open phase, deltas extend its text by what they join to. */
  lemma {:induction false} DeltasExtend(events: seq<Event>, chunks: seq<string>)
    requires Scan(events) == Some(true) && Phases(events) != []
    ensures Scan(events + Deltas(chunks)) == Some(true)
    ensures Phases(events + Deltas(chunks)) == Appended(Phases(events), Concat(chunks))
    ensures Said(events + Deltas(chunks)) == Said(events)
  {
    hide Scan, Phases, Said;
    if chunks == [] {
      assert events + Deltas([]) == events;
      assert Phases(events)[|Phases(events)| - 1] + "" == Phases(events)[|Phases(events)| - 1];
    } else {
      var n := |chunks| - 1;
      DeltasExtend(events, chunks[..n]);
      var before := events + Deltas(chunks[..n]);
      ScanNext(before, ThinkingDelta(chunks[n]));
      assert before + [ThinkingDelta(chunks[n])] == events + Deltas(chunks);
      var last := Phases(events)[|Phases(events)| - 1];
      assert last + Concat(chunks[..n]) + chunks[n] == last + Concat(chunks);
      assert Said(events) + [] == Said(events);
    }
  }

  // ----- the emitter

  datatype Part = Thinking(text: string) | Text(text: string)

  /** The phases so far, whether one is open, and the assistant's texts. */
  datatype Progress = Progress(phases: seq<string>, open: bool, said: seq<string>)

  /** A thinking part goes to the open phase or starts one; a text closes it. */
  function Heard(p: Progress, part: Part): Progress {
    match part
    case Thinking(text) => Progress(Appended(if p.open then p.phases else p.phases + [""], text), true, p.said)
    case Text(text) => if text == "" then p else Progress(p.phases, false, p.said + [text])
  }

  function HeardAll(p: Progress, parts: seq<Part>): Progress {
    if parts == [] then p else Heard(HeardAll(p, parts[..|parts| - 1]), parts[|parts| - 1])
  }

  class ThinkingStreamEmitter {
    const chunkSize: nat
    var thinkingStarted: bool
    var thinkingChunkCount: nat
    var assistantEmitted: bool
    var currentCycleHadThinking: bool
    ghost var events: seq<Event>

    ghost predicate Valid()
      reads this
    {
      && chunkSize >= 1
      && Scan(events) == Some(thinkingStarted)
      && (thinkingStarted ==> Phases(events) != [])
    }

    ghost function Now(): Progress
      reads this
    {
      Progress(Phases(events), thinkingStarted, Said(events))
    }

    constructor (chunkSize: nat)
      requires chunkSize >= 1
      ensures Valid() && events == [] && !thinkingStarted
    {
      this.chunkSize := chunkSize;
      thinkingStarted, thinkingChunkCount, assistantEmitted, currentCycleHadThinking := false, 0, false, false;
      events := [];
    }

    method EmitThinkingDelta(text: string) returns (out: seq<Event>)
      requires Valid()
      modifies this
      ensures Valid() && events == old(events) + out && thinkingStarted && currentCycleHadThinking
      ensures Now() == Heard(old(Now()), Thinking(text))
      ensures assistantEmitted == old(assistantEmitted)
      ensures thinkingChunkCount == if old(thinkingStarted) then old(thinkingChunkCount) + |out| else |out| - 1
      ensures var start := if old(thinkingStarted) then [] else [ThinkingStart];
              if text == "" then out == start
              else exists chunks :: IsSplit(text, chunkSize, chunks) && out == start + Deltas(chunks)
    {
      hide Scan, Phases, Said, Concat, Deltas, IsSplit;
      out := [];
      if !thinkingStarted {
        ScanNext(events, ThinkingStart);
        out := [ThinkingStart];
        thinkingStarted, thinkingChunkCount := true, 0;
      }
      currentCycleHadThinking := true;
      ghost var begun := events + out;
      assert out == [] ==> begun == events;
      if text == "" {
        events := begun;
        assert Phases(begun)[|Phases(begun)| - 1] + "" == Phases(begun)[|Phases(begun)| - 1];
        return;
      }
      var chunks := SplitThinkingChunks(text, chunkSize);
      DeltasExtend(begun, chunks);
      out := out + Deltas(chunks);
      thinkingChunkCount := thinkingChunkCount + |chunks|;
      assert begun + Deltas(chunks) == events + out;
      events := events + out;
    }

    method EmitAssistantText(content: string) returns (out: seq<Event>)
      requires Valid()
      modifies this
      ensures Valid() && events == old(events) + out && !thinkingStarted && assistantEmitted
      ensures out == (if old(thinkingStarted) then [ThinkingEnd] else []) + [AssistantDelta(content)]
      ensures Phases(events) == old(Phases(events)) && Said(events) == old(Said(events)) + [content]
      ensures currentCycleHadThinking == old(currentCycleHadThinking)
      ensures thinkingChunkCount == old(thinkingChunkCount)
    {
      hide Scan, Phases, Said;
      out := [];
      ghost var closed := events;
      if thinkingStarted {
        ScanNext(events, ThinkingEnd);
        out := [ThinkingEnd];
        closed := events + out;
        thinkingStarted := false;
      }
      assistantEmitted := true;
      ScanNext(closed, AssistantDelta(content));
      out := out + [AssistantDelta(content)];
      assert closed + [AssistantDelta(content)] == events + out;
      events := events + out;
    }

    /** Well-bracketed events whose phases carry exactly the thinking texts and whose
        assistant deltas carry exactly the other texts. */
    method EmitFromModelResponse(parts: seq<Part>) returns (out: seq<Event>)
      requires Valid()
      modifies this
      ensures Valid() && events == old(events) + out
      ensures Now() == HeardAll(old(Now()), parts)
    {
      hide Scan, Phases, Said;
      out := [];
      for i := 0 to |parts|
        invariant Valid() && events == old(events) + out
        invariant Now() == HeardAll(old(Now()), parts[..i])
      {
        assert parts[..i + 1][..i] == parts[..i];
        if parts[i].Thinking? {
          var more := EmitThinkingDelta(parts[i].text);
          out := out + more;
        } else if parts[i].text != "" {
          var more := EmitAssistantText(parts[i].text);
          out := out + more;
        }
      }
      assert parts[..|parts|] == parts;
    }

    method CloseIfActive() returns (out: seq<Event>)
      requires Valid()
      modifies this
      ensures Valid() && !thinkingStarted && events == old(events) + out
      ensures out == if old(thinkingStarted) then [ThinkingEnd] else []
      ensures Phases(events) == old(Phases(events)) && Said(events) == old(Said(events))
      ensures thinkingChunkCount == old(thinkingChunkCount) && assistantEmitted == old(assistantEmitted)
      ensures currentCycleHadThinking == old(currentCycleHadThinking)
    {
      out := [];
      if thinkingStarted {
        ScanNext(events, ThinkingEnd);
        assert Said(events) + [] == Said(events);
        out := [ThinkingEnd];
        thinkingStarted := false;
      }
      assert events + [] == events;
      events := events + out;
    }

    method ResetCycleFlags()
      requires Valid()
      modifies this`currentCycleHadThinking
      ensures Valid() && !currentCycleHadThinking
    {
      currentCycleHadThinking := false;
    }
  }
}
