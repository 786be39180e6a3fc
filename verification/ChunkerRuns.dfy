/** Runs of the block chunker: what is emitted is what was fed, with a seam for every forced
    split. */
module ChunkerRuns {
  import opened BlockChunking
  import opened ChunkerReturns
  import opened Sequences
  import opened Wrappers

  datatype Drained = Drained(chunks: seq<string>, next: State, forced: nat)

  /** The loop of `feed`. */
  function Drain(s: State, config: Config): Drained
    requires Returns(config)
    decreases Size(s, config)
  {
    if !Ready(s, config) then Drained([], s, 0)
    else
      var e := Emit(s, config);
      EmitShrinks(s, config);
      var d := Drain(e.next, config);
      Drained([e.chunk] + d.chunks, d.next, d.forced + if e.forced then 1 else 0)
  }

  lemma DrainNext(s: State, config: Config)
    requires Returns(config)
    ensures if Ready(s, config) then
              var e := Emit(s, config);
              var d := Drain(e.next, config);
              Drain(s, config) == Drained([e.chunk] + d.chunks, d.next, d.forced + if e.forced then 1 else 0)
            else Drain(s, config) == Drained([], s, 0)
  {
    if Ready(s, config) {
      EmitShrinks(s, config);
    }
  }

  /** The loop stops in the state that the turns lead to. */
  lemma {:induction false} DrainStops(s: State, config: Config) returns (n: nat)
    requires Returns(config)
    ensures Drain(s, config).next == After(s, config, n) && !Ready(After(s, config, n), config)
    ensures |Drain(s, config).chunks| == n
    decreases Size(s, config)
  {
    hide Emit, Ready, Size;
    DrainNext(s, config);
    n := 0;
    if Ready(s, config) {
      EmitShrinks(s, config);
      n := DrainStops(Emit(s, config).next, config);
      AfterFirst(s, config, n);
      n := n + 1;
    }
  }

  // ----- conservation

  ghost predicate SeamAt(before: string, after: string, p: nat) {
    p <= |before| && after == before[..p] + SEAM + before[p..]
  }

  /** `after` is `before` with `k` seams inserted, one after the other. */
  ghost predicate Seamed(before: string, after: string, k: nat)
    decreases k
  {
    if k == 0 then before == after
    else exists mid: string, p: nat :: Seamed(before, mid, k - 1) && SeamAt(mid, after, p)
  }

  lemma SeamAfter(pre: string, mid: string, after: string, p: nat)
    requires SeamAt(mid, after, p)
    ensures SeamAt(pre + mid, pre + after, |pre| + p)
  {
  }

  lemma {:induction false} SeamedAfter(pre: string, before: string, after: string, k: nat)
    requires Seamed(before, after, k)
    ensures Seamed(pre + before, pre + after, k)
    decreases k
  {
    if k > 0 {
      var mid: string, p: nat :| Seamed(before, mid, k - 1) && SeamAt(mid, after, p);
      SeamedAfter(pre, before, mid, k - 1);
      SeamAfter(pre, mid, after, p);
    }
  }

  lemma {:induction false} SeamedBefore(before: string, after: string, post: string, k: nat)
    requires Seamed(before, after, k)
    ensures Seamed(before + post, after + post, k)
    decreases k
  {
    if k > 0 {
      var mid: string, p: nat :| Seamed(before, mid, k - 1) && SeamAt(mid, after, p);
      SeamedBefore(before, mid, post, k - 1);
      assert SeamAt(mid + post, after + post, p);
    }
  }

  lemma {:induction false} SeamedTrans(a: string, b: string, c: string, j: nat, k: nat)
    requires Seamed(a, b, j) && Seamed(b, c, k)
    ensures Seamed(a, c, j + k)
    decreases k
  {
    if k > 0 {
      var mid: string, p: nat :| Seamed(b, mid, k - 1) && SeamAt(mid, c, p);
      SeamedTrans(a, b, mid, j, k - 1);
    }
  }

  lemma {:induction false} SeamedLength(before: string, after: string, k: nat)
    requires Seamed(before, after, k)
    ensures |after| == |before| + 8 * k
    decreases k
  {
    if k > 0 {
      var mid: string, p: nat :| Seamed(before, mid, k - 1) && SeamAt(mid, after, p);
      SeamedLength(before, mid, k - 1);
    }
  }

  lemma JoinInner(a: string, x: string, y: string, b: string)
    ensures (a + x) + (y + b) == a + (x + y) + b
  {
  }

  /** Closing the fence before `p` and reopening it after inserts one seam there. */
  lemma CutConserves(s: string, p: nat)
    requires p <= |s|
    ensures Seamed(s, (s[..p] + "\n```") + ("```\n" + s[p..]), 1)
  {
    hide Seamed;
    var after := (s[..p] + "\n```") + ("```\n" + s[p..]);
    JoinInner(s[..p], "\n```", "```\n", s[p..]);
    assert "\n```" + "```\n" == SEAM;
    SeamedOnce(s, after, p);
  }

  lemma SeamedOnce(s: string, after: string, p: nat)
    requires SeamAt(s, after, p)
    ensures Seamed(s, after, 1)
  {
    assert Seamed(s, s, 0);
  }

  /** A turn loses nothing, for any configuration. */
  lemma EmitConserves(s: State, config: Config)
    ensures var e := Emit(s, config);
            Seamed(s.buffer, e.chunk + e.next.buffer, if e.forced then 1 else 0)
  {
    hide FindBreak, CountFences, Seamed, SeamAt;
    var e := Emit(s, config);
    if e.forced {
      CutConserves(s.buffer, Position(s.buffer, config.maxChars - 4));
    } else {
      UnforcedSplits(s, config);
      Unseamed(s.buffer);
    }
  }

  lemma Unseamed(s: string)
    ensures Seamed(s, s, 0)
  {
  }

  lemma {:induction false} DrainConserves(s: State, config: Config)
    requires Returns(config)
    ensures var d := Drain(s, config); Seamed(s.buffer, Concat(d.chunks) + d.next.buffer, d.forced)
    decreases Size(s, config)
  {
    hide Emit, Ready, Size, Drain, Seamed, Concat;
    DrainNext(s, config);
    if !Ready(s, config) {
      Unseamed(s.buffer);
      NothingEmitted(s.buffer);
    } else {
      var e := Emit(s, config);
      EmitShrinks(s, config);
      EmitConserves(s, config);
      DrainConserves(e.next, config);
      var d := Drain(e.next, config);
      SeamedAfter(e.chunk, e.next.buffer, Concat(d.chunks) + d.next.buffer, d.forced);
      SeamedTrans(s.buffer, e.chunk + e.next.buffer, e.chunk + (Concat(d.chunks) + d.next.buffer),
                  if e.forced then 1 else 0, d.forced);
      EmittedFirst(e.chunk, d.chunks, d.next.buffer);
    }
  }

  lemma NothingEmitted(rest: string)
    ensures Concat<char>([]) + rest == rest
  {
  }

  lemma EmittedFirst(chunk: string, chunks: seq<string>, rest: string)
    ensures chunk + (Concat(chunks) + rest) == Concat([chunk] + chunks) + rest
  {
    ConcatFirst([chunk] + chunks);
    assert ([chunk] + chunks)[1..] == chunks;
    Regroup(chunk, Concat(chunks), rest);
  }

  /** What one more `feed` call does to what was fed and what was emitted. */
  lemma FeedConserves(fed: string, chunks: seq<string>, s: State, forced: nat, text: string, config: Config)
    requires Returns(config) && Seamed(fed, Concat(chunks) + s.buffer, forced)
    ensures var d := Drain(Fed(s, text), config);
            Seamed(fed + text, Concat(chunks + d.chunks) + d.next.buffer, forced + d.forced)
  {
    hide Seamed, Drain, Concat;
    var d := Drain(Fed(s, text), config);
    DrainConserves(Fed(s, text), config);
    SeamedBefore(fed, Concat(chunks) + s.buffer, text, forced);
    Regroup(Concat(chunks), s.buffer, text);
    SeamedAfter(Concat(chunks), s.buffer + text, Concat(d.chunks) + d.next.buffer, d.forced);
    SeamedTrans(fed + text, Concat(chunks) + (s.buffer + text),
                Concat(chunks) + (Concat(d.chunks) + d.next.buffer), forced, d.forced);
    ConcatConcat(chunks, d.chunks);
    Regroup(Concat(chunks), Concat(d.chunks), d.next.buffer);
  }

  /** A run of `feed` calls on a new chunker. */
  function Run(texts: seq<string>, config: Config): Drained
    requires Returns(config)
  {
    if texts == [] then Drained([], INITIAL, 0)
    else
      var r := Run(texts[..|texts| - 1], config);
      var d := Drain(Fed(r.next, texts[|texts| - 1]), config);
      Drained(r.chunks + d.chunks, d.next, r.forced + d.forced)
  }

  /** Over any run of `feed` calls ended by `flush`, the output is the input with one seam
      inserted for every forced split. */
  lemma {:induction false} RunConserves(texts: seq<string>, config: Config)
    requires Returns(config)
    ensures var r := Run(texts, config);
            && Seamed(Concat(texts), Concat(r.chunks) + r.next.buffer, r.forced)
            && |Concat(r.chunks) + r.next.buffer| == |Concat(texts)| + 8 * r.forced
  {
    hide Seamed, Drain, Concat;
    var r := Run(texts, config);
    if texts == [] {
      NothingEmitted("");
      Unseamed("");
    } else {
      var init, last := texts[..|texts| - 1], texts[|texts| - 1];
      RunConserves(init, config);
      var p := Run(init, config);
      FeedConserves(Concat(init), p.chunks, p.next, p.forced, last, config);
      assert init + [last] == texts;
      ConcatNext(init, last);
    }
    SeamedLength(Concat(texts), Concat(r.chunks) + r.next.buffer, r.forced);
  }

  // ----- sizes

  /** A forced chunk keeps to the maximum exactly when that is at least 4; below, it is
      everything but a few characters of the buffer. */
  lemma ForcedChunk(s: State, config: Config)
    requires Ready(s, config) && Emit(s, config).forced
    ensures |Emit(s, config).chunk| <= config.maxChars <==> config.maxChars >= 4
    ensures config.maxChars >= 4 ==> Min(config.minChars, config.maxChars) <= |Emit(s, config).chunk|
  {
    hide FindBreak, CountFences;
    FenceNeedsThree(s, config);
  }

  /** Every emitted chunk has between min(minChars, maxChars) and maxChars characters, for a
      maximum of at least 4, and the loop stops only when too little text is left or a fence
      is still open. */
  lemma {:induction false} ChunkSizes(s: State, config: Config)
    requires Returns(config)
    ensures var d := Drain(s, config);
            && (config.maxChars >= 4 ==>
                  forall i :: 0 <= i < |d.chunks| ==>
                                Min(config.minChars, config.maxChars) <= |d.chunks[i]| <= config.maxChars)
            && (|d.next.buffer| < config.minChars
                || (d.next.InFence() && !HasFence(Drop(d.next.buffer, config.minChars))))
    decreases Size(s, config)
  {
    hide Drain, Size, FindBreak, CountFences, HasFence;
    DrainNext(s, config);
    if Ready(s, config) {
      EmitShrinks(s, config);
      ChunkSizes(Emit(s, config).next, config);
      if Emit(s, config).forced {
        ForcedChunk(s, config);
      } else if config.maxChars >= 4 {
        UnforcedChunk(s, config);
      }
    }
  }

  lemma UnforcedChunk(s: State, config: Config)
    requires config.minChars >= 1 && config.maxChars >= 1 && Ready(s, config) && !Emit(s, config).forced
    ensures Min(config.minChars, config.maxChars) <= |Emit(s, config).chunk| <= config.maxChars
  {
    UnforcedShortens(s, config);
  }

  // ----- the chunker

  /** The whole drain is what was emitted so far and the drain of what is left. */
  ghost predicate ResumesAs(whole: Drained, chunks: seq<string>, rest: Drained, splits: nat) {
    whole.chunks == chunks + rest.chunks && whole.next == rest.next && whole.forced == splits + rest.forced
  }

  class BlockChunker {
    const config: Config
    var buffer: string
    var inCodeFence: bool
    var fenceCount: int
    ghost var fed: string
    ghost var emitted: seq<string>
    ghost var forced: nat

    ghost predicate Valid()
      reads this
    {
      && (inCodeFence <==> State(buffer, fenceCount).InFence())
      && Seamed(fed, Concat(emitted) + buffer, forced)
    }

    constructor (config: Config)
      ensures Valid() && this.config == config
      ensures buffer == "" && fenceCount == 0 && fed == "" && emitted == [] && forced == 0
    {
      this.config := config;
      buffer, inCodeFence, fenceCount := "", false, 0;
      fed, emitted, forced := "", [], 0;
    }

    method UpdateFenceState(text: string, remove: bool)
      modifies this`fenceCount, this`inCodeFence
      ensures fenceCount == old(fenceCount) + if remove then -(CountFences(text) as int) else CountFences(text)
      ensures inCodeFence <==> fenceCount % 2 == 1
    {
      var count := CountFences(text);
      fenceCount := if remove then fenceCount - count else fenceCount + count;
      inCodeFence := fenceCount % 2 == 1;
    }

    method ForceSplitInFence() returns (chunk: string)
      modifies this`buffer
      ensures chunk == Take(old(buffer), config.maxChars - 4) + "\n```"
      ensures buffer == "```\n" + Drop(old(buffer), config.maxChars - 4)
      ensures Seamed(old(buffer), chunk + buffer, 1)
    {
      CutConserves(buffer, Position(buffer, config.maxChars - 4));
      chunk := Take(buffer, config.maxChars - 4) + "\n```";
      buffer := "```\n" + Drop(buffer, config.maxChars - 4);
    }

    /** One turn of the loop of `feed`. */
    method EmitChunk() returns (chunk: string, ghost split: bool)
      requires Ready(State(buffer, fenceCount), config)
      requires inCodeFence <==> State(buffer, fenceCount).InFence()
      modifies this`buffer, this`fenceCount, this`inCodeFence
      ensures Emission(chunk, State(buffer, fenceCount), split) == Emit(State(old(buffer), old(fenceCount)), config)
      ensures inCodeFence <==> State(buffer, fenceCount).InFence()
    {
      split := false;
      var n := FindBreak(Take(buffer, config.maxChars), config);
      if n.Some? {
        chunk := Take(buffer, config.maxChars)[..n.value];
        buffer := buffer[|chunk|..];
        UpdateFenceState(chunk, true);
      } else if inCodeFence {
        chunk := ForceSplitInFence();
        split := true;
      } else {
        chunk := Take(buffer, config.maxChars);
        buffer := Drop(buffer, config.maxChars);
      }
    }

    method Feed(text: string) returns (chunks: seq<string>)
      requires Valid() && Returns(config)
      modifies this
      ensures Valid()
      ensures var d := Drain(Fed(State(old(buffer), old(fenceCount)), text), config);
              && chunks == d.chunks && State(buffer, fenceCount) == d.next
              && fed == old(fed) + text && emitted == old(emitted) + chunks
              && forced == old(forced) + d.forced
    {
      hide Drain, Emit, Seamed, Concat, Size, CountFences, HasFence, Drop;
      ghost var d := Drain(Fed(State(buffer, fenceCount), text), config);
      FeedConserves(fed, emitted, State(buffer, fenceCount), forced, text, config);
      buffer := buffer + text;
      UpdateFenceState(text, false);
      chunks := [];
      ghost var splits: nat := 0;
      while |buffer| >= config.minChars
        invariant inCodeFence <==> State(buffer, fenceCount).InFence()
        invariant ResumesAs(d, chunks, Drain(State(buffer, fenceCount), config), splits)
        invariant fed == old(fed) && emitted == old(emitted) && forced == old(forced)
        decreases Size(State(buffer, fenceCount), config)
      {
        if inCodeFence && !HasFence(Drop(buffer, config.minChars)) {
          break;
        }
        EmitShrinks(State(buffer, fenceCount), config);
        DrainNext(State(buffer, fenceCount), config);
        var chunk;
        ghost var split;
        chunk, split := EmitChunk();
        Regroup(chunks, [chunk], Drain(State(buffer, fenceCount), config).chunks);
        chunks := chunks + [chunk];
        splits := splits + if split then 1 else 0;
      }
      DrainNext(State(buffer, fenceCount), config);
      assert d == Drained(chunks, State(buffer, fenceCount), splits);
      fed, emitted, forced := fed + text, emitted + chunks, forced + splits;
    }

    method Flush() returns (chunk: Option<string>)
      requires Valid()
      modifies this
      ensures Valid() && buffer == "" && fed == old(fed) && forced == old(forced)
      ensures chunk == if old(buffer) != "" then Some(old(buffer)) else None
      ensures emitted == old(emitted) + if chunk.Some? then [chunk.value] else []
      ensures Seamed(fed, Concat(emitted), forced)
      ensures chunk.Some? ==> fenceCount == 0
    {
      if buffer != "" {
        chunk := Some(buffer);
        ConcatConcat(emitted, [buffer]);
        ConcatOne(buffer);
        emitted := emitted + [buffer];
        assert Concat(emitted) + "" == Concat(emitted);
        buffer, fenceCount, inCodeFence := "", 0, false;
      } else {
        chunk := None;
        assert Concat(emitted) + "" == Concat(emitted);
      }
    }

    method Reset()
      requires Valid()
      modifies this
      ensures Valid() && buffer == "" && fenceCount == 0 && fed == "" && emitted == [] && forced == 0
    {
      buffer, inCodeFence, fenceCount := "", false, 0;
      fed, emitted, forced := "", [], 0;
    }
  }
}
