/** What the response handler makes of texts: the order in which break classes are tried, the
    removal of the no-reply marker, and the last chunk. */
module ResponseTexts {
  import opened ResponseHandling
  import opened Sequences
  import opened TextBreaks
  import opened Wrappers

  // ----- break classes

  /** From coarse to fine. */
  function Fineness(b: Break): nat {
    match b
    case Paragraph => 0
    case Newline => 1
    case Sentence => 2
    case Whitespace => 3
  }

  /** The preferred class comes first; then the coarser ones, then the finer ones, each time
      those nearer to it before those further away. */
  predicate TriedBefore(preference: Break, a: Break, b: Break) {
    var p, x, y := Fineness(preference), Fineness(a), Fineness(b);
    && y != p
    && (x == p || x < p < y || y < x < p || p < x < y)
  }

  lemma SearchOrderIs(preference: Break)
    ensures |SearchOrder(preference)| == 4
    ensures forall i, j :: 0 <= i < j < 4 ==>
                             TriedBefore(preference, SearchOrder(preference)[i], SearchOrder(preference)[j])
  {
  }

  /** There is one such order of all four classes. */
  lemma OrderUnique(preference: Break, order: seq<Break>)
    requires |order| == 4
    requires forall i, j :: 0 <= i < j < 4 ==> TriedBefore(preference, order[i], order[j])
    ensures order == SearchOrder(preference)
  {
    assert TriedBefore(preference, order[0], order[1]) && TriedBefore(preference, order[1], order[2]);
    assert TriedBefore(preference, order[2], order[3]) && TriedBefore(preference, order[0], order[3]);
    assert TriedBefore(preference, order[0], order[2]) && TriedBefore(preference, order[1], order[3]);
  }

  // ----- the no-reply marker

  /** The first occurrence of the marker is behind `front`. */
  predicate FirstAfter(front: string, token: string, rest: string) {
    forall i :: 0 <= i < |front| ==> !(token <= (front + token + rest)[i..])
  }

  lemma {:induction false} RemovesFirst(front: string, token: string, rest: string)
    requires token != "" && FirstAfter(front, token, rest)
    ensures RemoveAll(front + token + rest, token) == front + RemoveAll(rest, token)
  {
    hide RemoveAll, FirstAfter;
    var s := front + token + rest;
    if front == "" {
      assert s == token + rest;
      RemoveHere(token, rest);
      assert "" + RemoveAll(rest, token) == RemoveAll(rest, token);
    } else {
      FirstAfterNext(front, token, rest);
      RemovesFirst(front[1..], token, rest);
      assert s == [front[0]] + (front[1..] + token + rest) && front == [front[0]] + front[1..];
      RemoveLater(front[0], front[1..] + token + rest, token);
      Regroup([front[0]], front[1..], RemoveAll(rest, token));
    }
  }

  lemma RemoveHere(token: string, rest: string)
    requires token != ""
    ensures RemoveAll(token + rest, token) == RemoveAll(rest, token)
  {
    assert (token + rest)[|token|..] == rest;
  }

  lemma RemoveLater(c: char, rest: string, token: string)
    requires token != "" && !(token <= [c] + rest) && |rest| >= |token|
    ensures RemoveAll([c] + rest, token) == [c] + RemoveAll(rest, token)
  {
    assert ([c] + rest)[1..] == rest;
  }

  lemma FirstAfterNext(front: string, token: string, rest: string)
    requires front != "" && FirstAfter(front, token, rest)
    ensures FirstAfter(front[1..], token, rest)
    ensures !(token <= [front[0]] + (front[1..] + token + rest))
  {
    var s := front + token + rest;
    assert s == [front[0]] + (front[1..] + token + rest) && s[0..] == s;
    forall i | 0 <= i < |front[1..]| ensures !(token <= (front[1..] + token + rest)[i..]) {
      assert s[i + 1..] == (front[1..] + token + rest)[i..];
    }
  }

  lemma {:induction false} RemovesNone(s: string, token: string)
    requires token != "" && !Contains(s, token)
    ensures RemoveAll(s, token) == s
  {
    if |s| >= |token| {
      assert s[0..] == s;
      forall i | 0 <= i <= |s[1..]| ensures !(token <= s[1..][i..]) {
        assert s[1..][i..] == s[i + 1..];
      }
      RemovesNone(s[1..], token);
      assert s == [s[0]] + s[1..];
    }
  }

  lemma {:induction false} FirstOccurrence(s: string, token: string, n: nat) returns (i: nat)
    requires n <= |s| && token <= s[n..]
    ensures i <= n && token <= s[i..] && forall k :: 0 <= k < i ==> !(token <= s[k..])
  {
    if k: nat :| k < n && token <= s[k..] {
      i := FirstOccurrence(s, token, k);
    } else {
      i := n;
    }
  }

  lemma ScrubIs(s: string, token: string)
    requires token != ""
    ensures Scrub(s, token) == RemoveAll(s, token)
  {
    hide RemoveAll;
    if !Contains(s, token) {
      RemovesNone(s, token);
    }
  }

  /** A text without the marker stays as it is. */
  lemma ScrubNothing(s: string, token: string)
    requires token == "" || !Contains(s, token)
    ensures Scrub(s, token) == s
  {
  }

  lemma CutAt(s: string, token: string, i: nat)
    requires i <= |s| && token <= s[i..] && forall k :: 0 <= k < i ==> !(token <= s[k..])
    ensures i + |token| <= |s| && s == s[..i] + token + s[i + |token|..]
    ensures FirstAfter(s[..i], token, s[i + |token|..])
  {
    assert s[i..] == token + s[i + |token|..];
    assert s == s[..i] + token + s[i + |token|..];
  }

  /** Else everything up to the marker's first occurrence stays, and the text behind it is
      scrubbed in turn. */
  lemma ScrubFirst(s: string, token: string) returns (front: string, rest: string)
    requires token != "" && Contains(s, token)
    ensures s == front + token + rest && FirstAfter(front, token, rest)
    ensures Scrub(s, token) == front + Scrub(rest, token)
  {
    hide RemoveAll, Scrub;
    var n :| 0 <= n <= |s| && token <= s[n..];
    var i := FirstOccurrence(s, token, n);
    front, rest := s[..i], s[i + |token|..];
    CutAt(s, token, i);
    RemovesFirst(front, token, rest);
    ScrubIs(s, token);
    ScrubIs(rest, token);
  }

  // ----- the last chunk

  /** The last chunk is the rest, behind the prefix if it is the first chunk. If that is too
      long for the channel, its beginning and three dots take exactly the channel's limit; with
      a limit below three, the slice counts from the end. */
  lemma FinalReads(tail: string, index: nat, config: Config)
    ensures var text, limit := (if index == 0 then config.prefix else "") + tail, config.chunkLimit;
            var final := FinalContent(tail, index, config);
            && (|text| <= limit ==> final == text)
            && (|text| > limit >= 3 ==>
                  |final| == limit && final[..limit - 3] == text[..limit - 3] && final[limit - 3..] == "...")
            && (|text| > limit && limit < 3 ==> final == text[..Max(0, |text| + limit - 3)] + "...")
  {
    var text := (if index == 0 then config.prefix else "") + tail;
    assert "" + tail == tail;
    assert text == if config.prefix != "" && index == 0 then config.prefix + tail else tail;
  }
}
