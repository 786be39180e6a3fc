/** The streaming block chunker: text is cut at paragraph, line, sentence or word breaks,
    and code fences are closed and reopened when a cut inside one is forced. */
module BlockChunking {
  import opened TextBreaks
  import opened Wrappers

  /** `maxChars` is the effective `max_chars`, any channel limit already applied. */
  datatype Config = Config(minChars: nat, maxChars: nat, preference: Break)

  const SEAM := "\n``````\n"

  // ----- the break patterns

  predicate IsSpace(c: char) {
    var n := c as int;
    0x09 <= n <= 0x0d || 0x1c <= n <= 0x20 || n == 0x85 || n == 0xa0 || n == 0x1680 || 0x2000 <= n <= 0x200a
    || n == 0x2028 || n == 0x2029 || n == 0x202f || n == 0x205f || n == 0x3000
  }

  /** The end of the longest run of line feeds, or of spaces, from `i`. */
  function RunEnd(s: string, i: nat, newlines: bool): (e: nat)
    requires i <= |s|
    ensures i <= e <= |s|
    decreases |s| - i
  {
    if i < |s| && (if newlines then s[i] == '\n' else IsSpace(s[i])) then RunEnd(s, i + 1, newlines) else i
  }

  predicate MatchesAt(b: Break, s: string, i: nat) {
    i < |s| &&
    match b
    case Paragraph => i + 1 < |s| && s[i] == '\n' && s[i + 1] == '\n'
    case Newline => s[i] == '\n'
    case Sentence => EndsSentence(s[i])
    case Whitespace => IsSpace(s[i])
  }

  function MatchEnd(b: Break, s: string, i: nat): (e: nat)
    requires MatchesAt(b, s, i)
    ensures i < e <= |s|
  {
    match b
    case Paragraph => RunEnd(s, i + 2, true)
    case Newline => i + 1
    case Sentence => RunEnd(s, i + 1, false)
    case Whitespace => RunEnd(s, i + 1, false)
  }

  /** Where the first match of the pattern starts, if there is one. */
  function FirstMatch(b: Break, s: string, from: nat): (i: Option<nat>)
    requires from <= |s|
    ensures i.Some? ==> from <= i.value && MatchesAt(b, s, i.value)
    ensures forall k :: from <= k < (if i.Some? then i.value else |s|) ==> !MatchesAt(b, s, k)
    decreases |s| - from
  {
    if from == |s| then None
    else if MatchesAt(b, s, from) then Some(from)
    else FirstMatch(b, s, from + 1)
  }

  const ALL_BREAKS := [Paragraph, Newline, Sentence, Whitespace]

  function Rank(b: Break): nat {
    match b
    case Paragraph => 0
    case Newline => 1
    case Sentence => 2
    case Whitespace => 3
  }

  /** The patterns from the preferred one on, then the ones before it. */
  function Ordered(preference: Break): seq<Break> {
    ALL_BREAKS[Rank(preference)..] + ALL_BREAKS[..Rank(preference)]
  }

  function FirstBreakEnd(breaks: seq<Break>, s: string): (e: Option<nat>)
    ensures e.Some? ==> 0 < e.value <= |s|
  {
    if breaks == [] then None
    else match FirstMatch(breaks[0], s, 0)
      case Some(i) => Some(MatchEnd(breaks[0], s, i))
      case None => FirstBreakEnd(breaks[1..], s)
  }

  /** How much of `text` to cut off at a break after `minChars`, if there is one. */
  function FindBreak(text: string, config: Config): (n: Option<nat>)
    ensures n.Some? ==> config.minChars < n.value <= |text|
  {
    if |text| < config.minChars then None
    else match FirstBreakEnd(Ordered(config.preference), text[config.minChars..])
      case Some(e) => Some(config.minChars + e)
      case None => None
  }

  // ----- fences

  predicate FenceAt(s: string, i: nat) {
    i + 3 <= |s| && s[i] == '`' && s[i + 1] == '`' && s[i + 2] == '`'
  }

  predicate HasFence(s: string) {
    exists i :: 0 <= i < |s| && FenceAt(s, i)
  }

  /** The number of non-overlapping fences, from the left. */
  function CountFences(s: string): nat
    decreases |s|
  {
    if |s| < 3 then 0
    else if FenceAt(s, 0) then 1 + CountFences(s[3..])
    else CountFences(s[1..])
  }

  // ----- one turn of the loop

  datatype State = State(buffer: string, fences: int) {
    predicate InFence() {
      fences % 2 == 1
    }
  }

  /** The position Python's `s[:n]` and `s[n:]` mean; a negative `n` counts from the end. */
  function Position(s: string, n: int): (p: nat)
    ensures p <= |s|
  {
    if n < 0 then Max(0, |s| + n) else Min(n, |s|)
  }

  function Take(s: string, n: int): string {
    s[..Position(s, n)]
  }

  function Drop(s: string, n: int): string {
    s[Position(s, n)..]
  }

  /** The loop goes on: there is enough text, and an open fence is closed in it. */
  predicate Ready(s: State, config: Config) {
    |s.buffer| >= config.minChars && (s.InFence() ==> HasFence(Drop(s.buffer, config.minChars)))
  }

  datatype Emission = Emission(chunk: string, next: State, forced: bool)

  function Emit(s: State, config: Config): Emission {
    var text := Take(s.buffer, config.maxChars);
    match FindBreak(text, config)
    case Some(n) => Emission(text[..n], State(s.buffer[n..], s.fences - CountFences(text[..n])), false)
    case None =>
      if s.InFence() then
        Emission(Take(s.buffer, config.maxChars - 4) + "\n```",
                 State("```\n" + Drop(s.buffer, config.maxChars - 4), s.fences), true)
      else
        Emission(text, State(Drop(s.buffer, config.maxChars), s.fences), false)
  }

  // ----- breaks

  /** The cut is at the end of the first match, after `minChars`, of the first pattern in
      order of preference that has one; without a cut no pattern has one. */
  lemma {:induction false} BreakIsPreferred(breaks: seq<Break>, s: string)
    ensures var e := FirstBreakEnd(breaks, s);
            if e.None? then forall j, k :: 0 <= j < |breaks| && 0 <= k < |s| ==> !MatchesAt(breaks[j], s, k)
            else exists j, i: nat :: CutsAt(breaks, s, j, i, e.value)
  {
    if breaks != [] {
      match FirstMatch(breaks[0], s, 0)
      case Some(i) =>
        assert CutsAt(breaks, s, 0, i, MatchEnd(breaks[0], s, i));
      case None =>
        BreakIsPreferred(breaks[1..], s);
        assert forall j :: 0 < j < |breaks| ==> breaks[j] == breaks[1..][j - 1];
        if FirstBreakEnd(breaks[1..], s).Some? {
          var e := FirstBreakEnd(breaks[1..], s).value;
          var j, i: nat :| CutsAt(breaks[1..], s, j, i, e);
          forall l, k | 0 <= l < j + 1 && 0 <= k < |s| ensures !MatchesAt(breaks[l], s, k) {
            if l > 0 {
              assert breaks[l] == breaks[1..][l - 1];
            }
          }
          assert CutsAt(breaks, s, j + 1, i, e);
        }
    }
  }

  ghost predicate CutsAt(breaks: seq<Break>, s: string, j: int, i: nat, e: nat) {
    && 0 <= j < |breaks|
    && MatchesAt(breaks[j], s, i) && e == MatchEnd(breaks[j], s, i)
    && (forall k :: 0 <= k < i ==> !MatchesAt(breaks[j], s, k))
    && (forall l, k :: 0 <= l < j && 0 <= k < |s| ==> !MatchesAt(breaks[l], s, k))
  }

  /** What every pattern's match starts with, and a match of some pattern by itself. */
  predicate IsBreak(c: char) {
    IsSpace(c) || EndsSentence(c)
  }

  lemma OrderedHas(preference: Break, b: Break)
    ensures var j := (Rank(b) + 4 - Rank(preference)) % 4; |Ordered(preference)| == 4 && Ordered(preference)[j] == b
  {
  }

  /** There is a cut exactly when some character after `minChars` is a break, and the cut
      is past the first of them. */
  lemma FindBreakFacts(text: string, config: Config)
    ensures FindBreak(text, config).None? <==>
            forall k :: config.minChars <= k < |text| ==> !IsBreak(text[k])
    ensures FindBreak(text, config).Some? ==>
              exists k :: config.minChars <= k < FindBreak(text, config).value && IsBreak(text[k])
  {
    if |text| >= config.minChars {
      var breaks, s := Ordered(config.preference), text[config.minChars..];
      BreakIsPreferred(breaks, s);
      if FirstBreakEnd(breaks, s).None? {
        OrderedHas(config.preference, Sentence);
        OrderedHas(config.preference, Whitespace);
        forall k | config.minChars <= k < |text| ensures !IsBreak(text[k]) {
          var i := k - config.minChars;
          assert s[i] == text[k] && !MatchesAt(Sentence, s, i) && !MatchesAt(Whitespace, s, i);
        }
      } else {
        var j, i: nat :| CutsAt(breaks, s, j, i, FirstBreakEnd(breaks, s).value);
        assert IsBreak(text[config.minChars + i]);
      }
    }
  }
}
