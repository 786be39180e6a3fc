/** The channel response handler: buffered text is cut into chunks at the rightmost break
    of the best class, and the chunks of one response are numbered. */
module ResponseHandling {
  import opened Sequences
  import opened TextBreaks
  import opened Wrappers

  datatype Config = Config(
    streaming: bool,
    minChars: nat,
    maxChars: nat,
    preference: Break,
    chunkLimit: int,
    prefix: string,
    noReplyToken: string)

  datatype Chunk = Chunk(content: string, isFinal: bool, index: nat)

  // ----- break points

  /** The length of a break of this class at `pos`; 0 if there is none. */
  function BreakLength(b: Break, s: string, pos: nat): (n: nat)
    ensures n > 0 ==> pos + n <= |s|
    ensures n <= 2 && (n == 2 ==> b == Paragraph)
  {
    if pos >= |s| then 0
    else match b
      case Paragraph => if pos + 1 < |s| && s[pos] == '\n' && s[pos + 1] == '\n' then 2 else 0
      case Newline => if s[pos] == '\n' then 1 else 0
      case Sentence =>
        if EndsSentence(s[pos]) then 1 else 0
      case Whitespace => if s[pos] == ' ' || s[pos] == '\t' then 1 else 0
  }

  function SearchOrder(preference: Break): seq<Break> {
    match preference
    case Paragraph => [Paragraph, Newline, Sentence, Whitespace]
    case Newline => [Newline, Paragraph, Sentence, Whitespace]
    case Sentence => [Sentence, Newline, Paragraph, Whitespace]
    case Whitespace => [Whitespace, Sentence, Newline, Paragraph]
  }

  predicate NoBreak(b: Break, s: string, from: nat, end: nat) {
    forall pos :: from <= pos < end ==> BreakLength(b, s, pos) == 0
  }

  /** `cut` is the end of the rightmost break, in the window, of the j-th class, and no
      earlier class has a break there. */
  predicate BestCut(s: string, from: nat, end: nat, order: seq<Break>, j: nat, pos: nat, cut: nat) {
    && j < |order| && from <= pos < end
    && BreakLength(order[j], s, pos) > 0 && cut == pos + BreakLength(order[j], s, pos)
    && NoBreak(order[j], s, pos + 1, end)
    && forall i :: 0 <= i < j ==> NoBreak(order[i], s, from, end)
  }

  /** What `_find_break_point` may return: 0 means no cut. */
  ghost predicate IsBreakPoint(s: string, config: Config, cut: nat) {
    var from, end := config.minChars, Min(|s|, config.maxChars);
    var order := SearchOrder(config.preference);
    if end < from then cut == 0
    else
      || (exists j: nat, pos: nat :: BestCut(s, from, end, order, j, pos, cut))
      || ((forall i :: 0 <= i < |order| ==> NoBreak(order[i], s, from, end))
          && cut == if end >= config.maxChars then config.maxChars else 0)
  }

  method FindBreakPoint(s: string, config: Config) returns (cut: nat)
    ensures IsBreakPoint(s, config, cut)
  {
    var from, end := config.minChars, Min(|s|, config.maxChars);
    if end < from {
      return 0;
    }
    var order := SearchOrder(config.preference);
    for j := 0 to |order|
      invariant forall i :: 0 <= i < j ==> NoBreak(order[i], s, from, end)
    {
      var pos := end;
      while pos > from
        invariant from <= pos <= end
        invariant NoBreak(order[j], s, pos, end)
      {
        pos := pos - 1;
        var n := BreakLength(order[j], s, pos);
        if n > 0 {
          assert BestCut(s, from, end, order, j, pos, pos + n);
          return pos + n;
        }
      }
    }
    return if end >= config.maxChars then config.maxChars else 0;
  }

  lemma BestCutUnique(s: string, from: nat, end: nat, order: seq<Break>, j: nat, pos: nat, a: nat, k: nat, pos': nat,
                      b: nat)
    requires BestCut(s, from, end, order, j, pos, a) && BestCut(s, from, end, order, k, pos', b)
    ensures a == b
  {
    assert BreakLength(order[j], s, pos) > 0 && BreakLength(order[k], s, pos') > 0;
    assert j <= k && k <= j;
    assert pos <= pos' && pos' <= pos;
  }

  lemma BestCutBreaks(s: string, from: nat, end: nat, order: seq<Break>, j: nat, pos: nat, cut: nat)
    requires BestCut(s, from, end, order, j, pos, cut)
    ensures !forall i :: 0 <= i < |order| ==> NoBreak(order[i], s, from, end)
  {
    assert !NoBreak(order[j], s, from, end);
  }

  /** The cut is determined by the text and the settings. */
  lemma BreakPointUnique(s: string, config: Config, a: nat, b: nat)
    requires IsBreakPoint(s, config, a) && IsBreakPoint(s, config, b)
    ensures a == b
  {
    var from, end := config.minChars, Min(|s|, config.maxChars);
    var order := SearchOrder(config.preference);
    if end >= from {
      var none := forall i :: 0 <= i < |order| ==> NoBreak(order[i], s, from, end);
      if none {
        forall j: nat, pos: nat, cut: nat ensures !BestCut(s, from, end, order, j, pos, cut) {
          if BestCut(s, from, end, order, j, pos, cut) {
            BestCutBreaks(s, from, end, order, j, pos, cut);
          }
        }
      } else {
        var j: nat, pos: nat :| BestCut(s, from, end, order, j, pos, a);
        var k: nat, pos': nat :| BestCut(s, from, end, order, k, pos', b);
        BestCutUnique(s, from, end, order, j, pos, a, k, pos', b);
      }
    }
  }

  /** A piece reaches at least `minChars` and at most one character past `maxChars`, and
      that only for a two-character paragraph break at the edge of the window. */
  lemma CutBounds(s: string, config: Config, cut: nat)
    requires IsBreakPoint(s, config, cut) && cut > 0
    ensures config.minChars <= cut <= config.maxChars + 1 && cut <= |s|
    ensures cut == config.maxChars + 1 ==> cut >= 2 && s[cut - 2] == '\n' && s[cut - 1] == '\n'
  {
  }

  /** Without a cut, a text of at least `minChars` is shorter than `maxChars` and has no
      break at or after `minChars`. */
  lemma NoCutMeans(s: string, config: Config)
    requires IsBreakPoint(s, config, 0) && 1 <= config.minChars <= config.maxChars && |s| >= config.minChars
    ensures |s| < config.maxChars
    ensures forall i :: 0 <= i < 4 ==> NoBreak(SearchOrder(config.preference)[i], s, config.minChars, |s|)
  {
  }

  // ----- splitting the buffer

  ghost predicate CutsOff(before: string, piece: string, rest: string, config: Config) {
    piece != "" && before == piece + rest && |before| >= config.minChars && IsBreakPoint(before, config, |piece|)
  }

  /** Each piece is what the break point cuts off the text left at that moment. */
  ghost predicate CutsOf(text: string, pieces: seq<string>, rest: string, config: Config) {
    if pieces == [] then text == rest
    else
      var n := |pieces| - 1;
      var before := pieces[n] + rest;
      CutsOf(text, pieces[..n], before, config) && CutsOff(before, pieces[n], rest, config)
  }

  lemma {:induction false} CutsJoin(text: string, pieces: seq<string>, rest: string, config: Config)
    requires CutsOf(text, pieces, rest, config)
    ensures text == Concat(pieces) + rest
    ensures forall piece :: piece in pieces ==> InBounds(piece, config)
  {
    if pieces != [] {
      var n := |pieces| - 1;
      var before := pieces[n] + rest;
      CutsJoin(text, pieces[..n], before, config);
      CutBounds(before, config, |pieces[n]|);
    }
  }

  predicate InBounds(piece: string, config: Config) {
    && Max(1, config.minChars) <= |piece| <= config.maxChars + 1
    && (|piece| == config.maxChars + 1 ==> |piece| >= 2 && piece[|piece| - 2..] == "\n\n")
  }

  /** The loop stops when too little text is left or the text has no break point. */
  ghost predicate Exhausted(rest: string, config: Config) {
    |rest| < config.minChars || IsBreakPoint(rest, config, 0)
  }

  // ----- the no-reply marker, the prefix and the channel limit

  predicate Contains(s: string, token: string) {
    exists i :: 0 <= i <= |s| && token <= s[i..]
  }

  function RemoveAll(s: string, token: string): string
    requires token != ""
    decreases |s|
  {
    if |s| < |token| then s
    else if token <= s then RemoveAll(s[|token|..], token)
    else [s[0]] + RemoveAll(s[1..], token)
  }

  function Scrub(s: string, token: string): string {
    if token == "" || !Contains(s, token) then s else RemoveAll(s, token)
  }

  /** `s[:n]`, where a negative `n` counts from the end. */
  function Slice(s: string, n: int): string {
    var k := if n < 0 then |s| + n else n;
    if k <= 0 then "" else if k < |s| then s[..k] else s
  }

  function FinalContent(tail: string, index: nat, config: Config): string {
    var content := if config.prefix != "" && index == 0 then config.prefix + tail else tail;
    if |content| > config.chunkLimit then Slice(content, config.chunkLimit - 3) + "..." else content
  }

  function ScrubbedAll(deltas: seq<string>, token: string): string {
    if deltas == [] then ""
    else ScrubbedAll(deltas[..|deltas| - 1], token) + Scrub(deltas[|deltas| - 1], token)
  }

  lemma ScrubbedNext(deltas: seq<string>, i: nat, token: string)
    requires i < |deltas|
    ensures ScrubbedAll(deltas[..i + 1], token) == ScrubbedAll(deltas[..i], token) + Scrub(deltas[i], token)
  {
    assert deltas[..i + 1][..i] == deltas[..i];
  }

  // ----- the chunks of one response

  function Contents(chunks: seq<Chunk>): string {
    if chunks == [] then "" else Contents(chunks[..|chunks| - 1]) + chunks[|chunks| - 1].content
  }

  /** Numbered from 0 and none of them final. */
  predicate Streamed(chunks: seq<Chunk>) {
    forall i :: 0 <= i < |chunks| ==> chunks[i].index == i && !chunks[i].isFinal
  }

  function AsChunks(pieces: seq<string>, from: nat): seq<Chunk> {
    seq(|pieces|, i requires 0 <= i < |pieces| => Chunk(pieces[i], false, from + i))
  }

  lemma {:induction false} ContentsOfPieces(chunks: seq<Chunk>, pieces: seq<string>, from: nat)
    ensures Contents(chunks + AsChunks(pieces, from)) == Contents(chunks) + Concat(pieces)
  {
    var all := chunks + AsChunks(pieces, from);
    if pieces == [] {
      assert all == chunks;
    } else {
      var n := |pieces| - 1;
      assert all[..|all| - 1] == chunks + AsChunks(pieces[..n], from);
      ContentsOfPieces(chunks, pieces[..n], from);
    }
  }

  lemma ContentsNext(chunks: seq<Chunk>, chunk: Chunk)
    ensures Contents(chunks + [chunk]) == Contents(chunks) + chunk.content
  {
    assert (chunks + [chunk])[..|chunks|] == chunks;
  }

  ghost predicate AllInBounds(chunks: seq<Chunk>, config: Config) {
    forall i :: 0 <= i < |chunks| ==> InBounds(chunks[i].content, config)
  }

  lemma MoreInBounds(before: seq<Chunk>, chunks: seq<Chunk>, config: Config)
    requires before <= chunks
    ensures AllInBounds(chunks, config) <==> AllInBounds(before, config) && AllInBounds(chunks[|before|..], config)
  {
    assert chunks == before + chunks[|before|..];
  }

  class ResponseHandler {
    const config: Config
    var buffer: string
    var chunkIndex: nat

    constructor (config: Config)
      ensures this.config == config && buffer == "" && chunkIndex == 0
    {
      this.config := config;
      buffer, chunkIndex := "", 0;
    }

    method SplitBuffer() returns (pieces: seq<string>)
      modifies this`buffer
      ensures CutsOf(old(buffer), pieces, buffer, config) && Exhausted(buffer, config)
    {
      pieces := [];
      while |buffer| >= config.minChars
        invariant CutsOf(old(buffer), pieces, buffer, config)
        decreases |buffer|
      {
        var cut := FindBreakPoint(buffer, config);
        if cut == 0 {
          return;
        }
        CutBounds(buffer, config, cut);
        var piece := buffer[..cut];
        assert buffer == piece + buffer[cut..];
        assert (pieces + [piece])[..|pieces|] == pieces;
        pieces := pieces + [piece];
        buffer := buffer[cut..];
      }
    }

    method CreateChunk(content: string, isFinal: bool) returns (chunk: Chunk)
      modifies this`chunkIndex
      ensures chunk == Chunk(content, isFinal, old(chunkIndex)) && chunkIndex == old(chunkIndex) + 1
    {
      chunk := Chunk(content, isFinal, chunkIndex);
      chunkIndex := chunkIndex + 1;
    }

    /** What one delta adds: the chunks so far and the buffer grow by its text. */
    method ProcessDelta(delta: string, idle: bool, chunks: seq<Chunk>) returns (chunks': seq<Chunk>)
      requires chunkIndex == |chunks| && Streamed(chunks)
      modifies this`buffer, this`chunkIndex
      ensures chunkIndex == |chunks'| && Streamed(chunks') && chunks <= chunks'
      ensures Contents(chunks') + buffer == Contents(chunks) + old(buffer) + delta
      ensures config.streaming ==>
                Exhausted(buffer, config) && AllInBounds(chunks'[|chunks|..], config)
      ensures !config.streaming ==> chunks' == chunks + if buffer == "" && old(buffer) + delta != ""
                                                        then [Chunk(old(buffer) + delta, false, |chunks|)] else []
      ensures !config.streaming && idle ==> buffer == ""
    {
      hide CutsOf, IsBreakPoint, Contents, InBounds, Concat;
      Regroup(Contents(chunks), buffer, delta);
      buffer := buffer + delta;
      ghost var text := buffer;
      chunks' := chunks;
      if config.streaming {
        var pieces := SplitBuffer();
        CutsJoin(text, pieces, buffer, config);
        ContentsOfPieces(chunks, pieces, |chunks|);
        ghost var rest := buffer;
        for k := 0 to |pieces|
          invariant buffer == rest
          invariant chunkIndex == |chunks| + k
          invariant chunks' == chunks + AsChunks(pieces, |chunks|)[..k]
        {
          var chunk := CreateChunk(pieces[k], false);
          chunks' := chunks' + [chunk];
        }
        assert chunks' == chunks + AsChunks(pieces, |chunks|);
        Regroup(Contents(chunks), Concat(pieces), buffer);
      } else if idle && buffer != "" {
        var chunk := CreateChunk(buffer, false);
        chunks' := chunks + [chunk];
        assert chunks'[..|chunks|] == chunks;
        ContentsNext(chunks, chunk);
        buffer := "";
        assert Contents(chunks') + "" == Contents(chunks) + text;
      }
    }

    /** `process`: `idle` says for each delta whether the coalescing time has passed. The
        streamed chunks and what stays in the buffer are the deltas without the marker;
        a non-empty rest becomes the one final chunk, after all others. */
    method Process(deltas: seq<string>, idle: seq<bool>) returns (chunks: seq<Chunk>, ghost streamed: seq<Chunk>)
      requires |idle| == |deltas|
      modifies this
      ensures Streamed(streamed)
      ensures Contents(streamed) + buffer == ScrubbedAll(deltas, config.noReplyToken)
      ensures config.streaming ==> AllInBounds(streamed, config)
      ensures chunks == streamed + if buffer == "" then []
                                   else [Chunk(FinalContent(buffer, |streamed|, config), true, |streamed|)]
    {
      buffer, chunkIndex := "", 0;
      chunks := [];
      for i := 0 to |deltas|
        invariant chunkIndex == |chunks| && Streamed(chunks)
        invariant Contents(chunks) + buffer == ScrubbedAll(deltas[..i], config.noReplyToken)
        invariant config.streaming ==> AllInBounds(chunks, config)
      {
        hide ScrubbedAll, RemoveAll, AllInBounds, Streamed, Contents, Exhausted;
        ScrubbedNext(deltas, i, config.noReplyToken);
        ghost var before, text := chunks, ScrubbedAll(deltas[..i], config.noReplyToken);
        var delta := deltas[i];
        var marked := Contains(delta, config.noReplyToken);
        if marked {
          delta := Scrub(delta, config.noReplyToken);
        }
        assert delta == Scrub(deltas[i], config.noReplyToken) && text + "" == text;
        if !(marked && delta == "") {
          chunks := ProcessDelta(delta, idle[i], chunks);
          MoreInBounds(before, chunks, config);
        }
      }
      assert deltas[..|deltas|] == deltas;
      streamed := chunks;
      if buffer != "" {
        var chunk := CreateChunk(FinalContent(buffer, chunkIndex, config), true);
        chunks := chunks + [chunk];
      }
    }
  }
}
