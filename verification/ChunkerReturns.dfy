/** When `feed` returns: for which configurations its loop stops, from every state and for
    every text. Forced splits add text, so this is not a matter of the buffer's length. */
module ChunkerReturns {
  import opened BlockChunking
  import opened Wrappers

  /** A minimum of at least one and, roughly, a maximum that leaves room for the eight
      characters a forced split adds, or breaks that its own line feeds provide. */
  predicate Returns(config: Config) {
    config.minChars >= 1 &&
    (|| config.maxChars >= 9
     || config.maxChars == 2 || config.maxChars == 3
     || (config.maxChars == 1 && config.minChars >= 5)
     || (4 <= config.maxChars <= 8 && config.minChars <= 3)
     || (config.maxChars == 6 && config.minChars <= 5)
     || (config.maxChars == 7 && config.minChars <= 6))
  }

  // ----- the measure

  /** The buffer starts with what a forced split writes. */
  predicate Opens(b: string) {
    |b| >= 4 && FenceAt(b, 0) && b[3] == '\n'
  }

  /** Twice, with a maximum of 6. */
  predicate OpensTwice(b: string) {
    Opens(b) && |b| >= 6 && b[4] == '`' && b[5] == '\n'
  }

  /** The number of line feeds at `i`, at most `limit`. */
  function LineFeeds(b: string, i: nat, limit: nat): (n: nat)
    requires i <= |b|
    ensures n <= limit && i + n <= |b|
    ensures forall k :: i <= k < i + n ==> b[k] == '\n'
    ensures n < limit && i + n < |b| ==> b[i + n] != '\n'
    decreases limit
  {
    if limit > 0 && i < |b| && b[i] == '\n' then 1 + LineFeeds(b, i + 1, limit - 1) else 0
  }

  /** The beginning of the buffer that earlier forced splits may have written, in turns
      that no cut has answered yet. */
  function Written(b: string, config: Config): (n: nat)
    ensures n <= |b| && (!Opens(b) ==> n == 0) && (Opens(b) ==> n >= 4)
  {
    if !Opens(b) then 0
    else if config.maxChars == 6 && config.minChars >= 4 then if OpensTwice(b) then 6 else 4
    else if config.maxChars == 7 && config.minChars >= 4 then 3 + LineFeeds(b, 3, config.minChars - 2)
    else 4
  }

  /** Orders the states between which the text not written by forced splits stays. */
  function Turn(s: State, config: Config): (n: nat)
    ensures n <= 4
  {
    if config.minChars <= 3 then
      if s.InFence() then if Opens(s.buffer) then 1 else 2 else if Opens(s.buffer) then 3 else 0
    else if !Opens(s.buffer) then 0
    else if config.maxChars == 6 then if OpensTwice(s.buffer) then 1 else 2
    else Max(1, Min(4, config.minChars + 2 - Written(s.buffer, config)))
  }

  function Size(s: State, config: Config): nat {
    if !Ready(s, config) then 0
    else if 4 <= config.maxChars <= 8 then
      1 + 5 * (|s.buffer| - Written(s.buffer, config)) + Turn(s, config)
    else 1 + |s.buffer|
  }

  // ----- one turn

  lemma NoFenceInShort(b: string, from: nat)
    requires Opens(b) && |b| <= 6 && from >= 1
    ensures !HasFence(Drop(b, from))
  {
    var rest := Drop(b, from);
    forall i | 0 <= i < |rest| ensures !FenceAt(rest, i) {
      var k := Min(from, |b|) + i;
      assert k + 3 <= |b| ==> rest[i] == b[k] && rest[i + 1] == b[k + 1] && rest[i + 2] == b[k + 2];
    }
  }

  /** What is written in front of the rest when a split is forced. */
  lemma Reopened(rest: string)
    ensures var b := "```\n" + rest; Opens(b) && |b| == 4 + |rest| && forall k :: 4 <= k < |b| ==> b[k] == rest[k - 4]
  {
  }

  lemma FenceNeedsThree(s: State, config: Config)
    requires Ready(s, config) && s.InFence()
    ensures |s.buffer| >= config.minChars + 3
  {
    var rest := Drop(s.buffer, config.minChars);
    var i :| 0 <= i < |rest| && FenceAt(rest, i);
  }

  /** A turn without a forced split cuts the buffer in two. */
  lemma UnforcedSplits(s: State, config: Config)
    requires !Emit(s, config).forced
    ensures var e := Emit(s, config);
            && |e.chunk| <= |s.buffer| && e.chunk + e.next.buffer == s.buffer
            && e.next.buffer == s.buffer[|e.chunk|..] && e.chunk == s.buffer[..|e.chunk|]
  {
    hide FindBreak, CountFences;
  }

  /** It takes at least one character off. */
  lemma UnforcedShortens(s: State, config: Config)
    requires config.minChars >= 1 && config.maxChars >= 1 && Ready(s, config) && !Emit(s, config).forced
    ensures var e := Emit(s, config);
            && |e.chunk| >= 1 && |e.next.buffer| == |s.buffer| - |e.chunk|
            && e.next.buffer == s.buffer[|e.chunk|..] && e.chunk == s.buffer[..|e.chunk|]
    ensures FindBreak(Take(s.buffer, config.maxChars), config).None? ==>
              |Emit(s, config).chunk| == Min(config.maxChars, |s.buffer|)
  {
    hide FindBreak, CountFences, HasFence;
    UnforcedSplits(s, config);
  }

  /** With a large maximum, or one below 4, the buffer shrinks until the loop stops. */
  lemma ShrinksOutside(s: State, config: Config)
    requires Returns(config) && Ready(s, config) && !(4 <= config.maxChars <= 8)
    ensures Size(Emit(s, config).next, config) < Size(s, config)
  {
    hide FindBreak, CountFences, HasFence;
    var e := Emit(s, config);
    if !e.forced {
      UnforcedShortens(s, config);
    } else {
      FenceNeedsThree(s, config);
      var rest := Drop(s.buffer, config.maxChars - 4);
      Reopened(rest);
      assert e.next.buffer == "```\n" + rest;
      if config.maxChars >= 9 && |s.buffer| >= config.maxChars - 4 {
        assert |rest| == |s.buffer| - (config.maxChars - 4);
      } else {
        if config.maxChars == 1 {
          NoFenceInThree(e.next.buffer, config.minChars);
        } else {
          NoFenceInShort(e.next.buffer, config.minChars);
        }
      }
    }
  }

  lemma NoFenceInThree(b: string, from: nat)
    requires |b| == 7 && from >= 5
    ensures !HasFence(Drop(b, from))
  {
  }

  /** The line feed of a reopened fence is a break, at or after a minimum of at most 3. */
  lemma BreakAt(b: string, config: Config, k: nat)
    requires config.minChars <= k < |b| && k < config.maxChars && IsBreak(b[k])
    ensures FindBreak(Take(b, config.maxChars), config).Some?
  {
    var text := Take(b, config.maxChars);
    FindBreakFacts(text, config);
    assert text[k] == b[k];
  }

  /** Without a break before `k`, the cut is past it. */
  lemma CutPast(b: string, config: Config, k: nat)
    requires k <= |b| && forall i :: config.minChars <= i < k ==> !IsBreak(b[i])
    requires FindBreak(Take(b, config.maxChars), config).Some?
    ensures FindBreak(Take(b, config.maxChars), config).value > k
  {
    var text := Take(b, config.maxChars);
    FindBreakFacts(text, config);
    var i :| config.minChars <= i < FindBreak(text, config).value && IsBreak(text[i]);
    assert text[i] == b[i];
  }

  lemma OneFence(b: string)
    requires Opens(b)
    ensures CountFences(b[..4]) == 1
  {
    assert FenceAt(b[..4], 0);
  }

  // ----- a maximum of 4 to 8

  /** What a forced split leaves. */
  lemma ForcedNext(s: State, config: Config)
    requires config.maxChars >= 4 && Ready(s, config) && Emit(s, config).forced
    ensures var b, cut := Emit(s, config).next.buffer, Min(config.maxChars - 4, |s.buffer|);
            && s.InFence() && FindBreak(Take(s.buffer, config.maxChars), config).None?
            && Emit(s, config).next.InFence() && |s.buffer| >= config.minChars + 3
            && Opens(b) && |b| == 4 + |s.buffer| - cut
            && forall k :: 4 <= k < |b| ==> b[k] == s.buffer[cut + k - 4]
  {
    hide FindBreak, CountFences, HasFence;
    FenceNeedsThree(s, config);
    Reopened(Drop(s.buffer, config.maxChars - 4));
  }

  lemma UnforcedWritten(s: State, config: Config)
    requires config.minChars >= 1 && config.maxChars >= 1 && Ready(s, config) && !Emit(s, config).forced
    ensures var e := Emit(s, config);
            |e.next.buffer| - Written(e.next.buffer, config) <= |s.buffer| - |e.chunk|
    ensures var b := Emit(s, config).next.buffer;
            Opens(b) ==> |b| - Written(b, config) < |s.buffer| - |Emit(s, config).chunk|
  {
    UnforcedShortens(s, config);
  }

  /** A small minimum: the line feed that a forced split writes is the next break. */
  lemma SmallMinimum(s: State, config: Config)
    requires Ready(s, config) && 4 <= config.maxChars <= 8 && 1 <= config.minChars <= 3
    ensures Size(Emit(s, config).next, config) < Size(s, config)
  {
    hide FindBreak, CountFences, HasFence, Ready;
    var b, e := s.buffer, Emit(s, config);
    if Opens(b) {
      BreakAt(b, config, 3);
      CutPast(b, config, 3);
    }
    if e.forced {
      ForcedNext(s, config);
    } else {
      UnforcedWritten(s, config);
      UnforcedShortens(s, config);
      if Opens(b) && |e.chunk| == 4 {
        OneFence(b);
        assert e.chunk == b[..4];
        FlipsFence(s, e.next);
      }
    }
  }

  lemma FlipsFence(s: State, next: State)
    requires next.fences == s.fences - 1
    ensures next.InFence() <==> !s.InFence()
  {
  }

  /** With a maximum of 6, the second forced split brings a line feed to position 5. */
  lemma MaximumOfSix(s: State, config: Config)
    requires Ready(s, config) && config.maxChars == 6 && 4 <= config.minChars <= 5
    ensures Size(Emit(s, config).next, config) < Size(s, config)
  {
    hide FindBreak, CountFences, HasFence, Ready;
    var b, e := s.buffer, Emit(s, config);
    if OpensTwice(b) {
      BreakAt(b, config, 5);
      CutPast(b, config, 5);
    }
    if e.forced {
      ForcedNext(s, config);
    } else {
      UnforcedWritten(s, config);
      UnforcedShortens(s, config);
    }
  }

  lemma OneMoreLineFeed(b: string, next: string, limit: nat)
    requires |b| >= 7 && |next| == |b| + 1 && next[3] == '\n' && limit <= 4
    requires forall k :: 4 <= k < |next| ==> next[k] == b[k - 1]
    requires LineFeeds(b, 3, limit) < limit
    ensures LineFeeds(next, 3, limit) == LineFeeds(b, 3, limit) + 1
  {
    assert forall k :: 3 <= k < |b| ==> next[k + 1] == b[k];
  }

  /** Enough line feeds at position 3 reach past the minimum, where one is a break. */
  lemma FewerLineFeeds(b: string, config: Config)
    requires config.maxChars == 7 && 4 <= config.minChars <= 6 && |b| >= 7
    ensures FindBreak(Take(b, config.maxChars), config).None? ==>
              LineFeeds(b, 3, config.minChars - 2) < config.minChars - 2
  {
    hide FindBreak;
    if LineFeeds(b, 3, config.minChars - 2) == config.minChars - 2 {
      BreakAt(b, config, config.minChars);
    }
  }

  /** With a maximum of 7, every forced split brings one more line feed to position 3. */
  lemma MaximumOfSeven(s: State, config: Config)
    requires Ready(s, config) && config.maxChars == 7 && 4 <= config.minChars <= 6
    ensures Size(Emit(s, config).next, config) < Size(s, config)
  {
    hide FindBreak, CountFences, HasFence, Ready, IsBreak, LineFeeds;
    var b, e := s.buffer, Emit(s, config);
    if e.forced {
      ForcedNext(s, config);
      if Opens(b) {
        var limit := config.minChars - 2;
        FewerLineFeeds(b, config);
        OneMoreLineFeed(b, e.next.buffer, limit);
      }
    } else {
      UnforcedWritten(s, config);
      UnforcedShortens(s, config);
    }
  }

  /** Every turn of a loop that goes on makes its state smaller. */
  lemma EmitShrinks(s: State, config: Config)
    requires Returns(config) && Ready(s, config)
    ensures Size(Emit(s, config).next, config) < Size(s, config)
  {
    if !(4 <= config.maxChars <= 8) {
      ShrinksOutside(s, config);
    } else if config.minChars <= 3 {
      SmallMinimum(s, config);
    } else if config.maxChars == 6 {
      MaximumOfSix(s, config);
    } else {
      MaximumOfSeven(s, config);
    }
  }

  // ----- runs of the loop

  /** The state after `n` turns, or at the turn that stopped the loop. */
  function After(s: State, config: Config, n: nat): State {
    if n == 0 then s
    else
      var p := After(s, config, n - 1);
      if Ready(p, config) then Emit(p, config).next else p
  }

  ghost predicate Stops(s: State, config: Config) {
    exists n: nat :: !Ready(After(s, config, n), config)
  }

  lemma {:induction false} AfterFirst(s: State, config: Config, n: nat)
    requires Ready(s, config)
    ensures After(s, config, n + 1) == After(Emit(s, config).next, config, n)
  {
    hide Emit, Ready;
    if n > 0 {
      AfterFirst(s, config, n - 1);
    }
  }

  lemma {:induction false} AlwaysStops(s: State, config: Config)
    requires Returns(config)
    ensures Stops(s, config)
    decreases Size(s, config)
  {
    hide Emit, Ready, Size;
    if !Ready(s, config) {
      assert !Ready(After(s, config, 0), config);
    } else {
      EmitShrinks(s, config);
      AlwaysStops(Emit(s, config).next, config);
      var n: nat :| !Ready(After(Emit(s, config).next, config, n), config);
      AfterFirst(s, config, n);
    }
  }

  // ----- every other configuration

  /** An open fence whose next marker ends the buffer, and no break where the loop looks. */
  predicate Trapped(s: State, config: Config) {
    var b := s.buffer;
    && s.InFence() && |b| >= config.minChars + 3 && FenceAt(b, |b| - 3)
    && (config.maxChars == 5 && config.minChars == 4 ==> !IsBreak(b[1]) && !IsBreak(b[4]))
    && (config.maxChars == 8 ==> forall k :: 4 <= k < 8 && k < |b| ==> !IsBreak(b[k]))
  }

  lemma TrappedReady(s: State, config: Config)
    requires Trapped(s, config)
    ensures Ready(s, config)
  {
    var rest := Drop(s.buffer, config.minChars);
    assert FenceAt(rest, |rest| - 3);
  }

  lemma TrappedForces(s: State, config: Config)
    requires Trapped(s, config) && !Returns(config) && config.minChars >= 1 && config.maxChars >= 1
    ensures Emit(s, config).forced
  {
    hide FindBreak, CountFences, HasFence, IsBreak;
    var text := Take(s.buffer, config.maxChars);
    FindBreakFacts(text, config);
    assert forall k :: 0 <= k < |text| ==> text[k] == s.buffer[k];
  }

  lemma TicksAreNoBreaks(c: char)
    requires c == '`' || c == 'a'
    ensures !IsBreak(c)
  {
  }

  /** The end of the buffer stays its end. */
  lemma EndStays(b: string, next: string, added: int)
    requires |b| >= 3 && |next| == |b| + added && |next| >= 3
    requires forall k :: |b| - 3 <= k < |b| ==> next[k + added] == b[k]
    ensures FenceAt(b, |b| - 3) <==> FenceAt(next, |next| - 3)
  {
    var n := |b|;
    assert next[n - 3 + added] == b[n - 3] && next[n - 2 + added] == b[n - 2] && next[n - 1 + added] == b[n - 1];
  }

  /** What a forced split does to a buffer of at least seven characters, for a maximum of
      4 to 8. */
  ghost predicate Rewritten(b: string, next: string, max: nat) {
    && |b| >= 7 && 4 <= max <= 8 && |next| == |b| + 8 - max && Opens(next)
    && forall k :: 4 <= k < |next| ==> next[k] == b[max - 4 + k - 4]
  }

  lemma RewrittenEnd(b: string, next: string, max: nat)
    requires Rewritten(b, next, max) && FenceAt(b, |b| - 3)
    ensures FenceAt(next, |next| - 3)
  {
    hide FenceAt, Opens;
    forall k | |b| - 3 <= k < |b| ensures next[k + 8 - max] == b[k] {
      assert next[k + 8 - max] == b[max - 4 + (k + 8 - max) - 4];
    }
    EndStays(b, next, 8 - max);
  }

  lemma RewrittenFive(b: string, next: string)
    requires Rewritten(b, next, 5) && !IsBreak(b[1])
    ensures !IsBreak(next[1]) && !IsBreak(next[4])
  {
    hide IsBreak;
    TicksAreNoBreaks('`');
    assert next[4] == b[1];
  }

  lemma RewrittenEight(b: string, next: string)
    requires Rewritten(b, next, 8) && forall k :: 4 <= k < 8 && k < |b| ==> !IsBreak(b[k])
    ensures forall k :: 4 <= k < 8 && k < |next| ==> !IsBreak(next[k])
  {
    hide IsBreak, Opens;
    assert forall k :: 4 <= k < |next| ==> next[k] == b[k];
  }

  lemma ForcedRewrites(s: State, config: Config)
    requires 4 <= config.maxChars <= 8 && config.minChars >= 4 && Ready(s, config) && Emit(s, config).forced
    ensures Rewritten(s.buffer, Emit(s, config).next.buffer, config.maxChars) && Emit(s, config).next.InFence()
  {
    hide Emit, FindBreak, Opens, Ready;
    ForcedNext(s, config);
  }

  lemma TrappedAbove(s: State, config: Config)
    requires Trapped(s, config) && !Returns(config) && config.minChars >= 1 && config.maxChars >= 4
    ensures Trapped(Emit(s, config).next, config)
  {
    hide FindBreak, IsBreak, Emit, FenceAt, Opens, Ready;
    var b, next := s.buffer, Emit(s, config).next.buffer;
    TrappedReady(s, config);
    TrappedForces(s, config);
    ForcedRewrites(s, config);
    RewrittenEnd(b, next, config.maxChars);
    if config.maxChars == 5 && config.minChars == 4 {
      RewrittenFive(b, next);
    } else if config.maxChars == 8 {
      RewrittenEight(b, next);
    }
  }

  /** Three characters behind a reopened fence. */
  lemma ReopenedThree(rest: string)
    requires |rest| == 3 && FenceAt(rest, 0)
    ensures |"```\n" + rest| == 7 && FenceAt("```\n" + rest, 4)
  {
    var b := "```\n" + rest;
    assert b[4] == rest[0] && b[5] == rest[1] && b[6] == rest[2];
  }

  lemma LastThree(b: string)
    requires |b| >= 3 && FenceAt(b, |b| - 3)
    ensures |Drop(b, -3)| == 3 && FenceAt(Drop(b, -3), 0)
  {
  }

  lemma TrappedBelow(s: State, config: Config)
    requires Trapped(s, config) && !Returns(config) && config.minChars >= 1 && 1 <= config.maxChars < 4
    ensures Trapped(Emit(s, config).next, config)
  {
    hide FindBreak, CountFences, HasFence, IsBreak, Ready;
    var b, next := s.buffer, Emit(s, config).next.buffer;
    TrappedForces(s, config);
    var rest := Drop(b, -3);
    LastThree(b);
    ReopenedThree(rest);
    assert next == "```\n" + rest;
  }

  lemma TrappedStays(s: State, config: Config)
    requires Trapped(s, config) && !Returns(config) && config.minChars >= 1 && config.maxChars >= 1
    ensures Trapped(Emit(s, config).next, config)
  {
    if config.maxChars >= 4 {
      TrappedAbove(s, config);
    } else {
      TrappedBelow(s, config);
    }
  }

  lemma {:induction false} TrappedForEver(s: State, config: Config, n: nat)
    requires Trapped(s, config) && !Returns(config) && config.minChars >= 1 && config.maxChars >= 1
    ensures Trapped(After(s, config, n), config)
  {
    hide Emit, Ready, Trapped;
    if n > 0 {
      TrappedForEver(s, config, n - 1);
      TrappedStays(After(s, config, n - 1), config);
    }
  }

  lemma {:induction false} StillForEver(s: State, config: Config, n: nat)
    requires Emit(s, config).next == s
    ensures After(s, config, n) == s
  {
    if n > 0 {
      StillForEver(s, config, n - 1);
    }
  }

  function Filler(n: nat): (s: string)
    ensures |s| == n && forall k :: 0 <= k < n ==> s[k] == 'a'
  {
    seq(n, _ => 'a')
  }

  lemma {:induction false} FillerFences(n: nat, tail: string)
    ensures CountFences(Filler(n) + tail) == CountFences(tail)
  {
    var s := Filler(n) + tail;
    if n == 0 {
      assert s == tail;
    } else {
      FillerFences(n - 1, tail);
      assert s[1..] == Filler(n - 1) + tail;
      assert !FenceAt(s, 0);
    }
  }

  const INITIAL := State("", 0)

  function Fed(s: State, text: string): State {
    State(s.buffer + text, s.fences + CountFences(text))
  }

  /** The text on which a configuration that `Returns` leaves out does not return: for a
      minimum of zero the empty one, for a maximum of zero any that is long enough, and else
      a long enough one that ends in a fence. */
  function Trap(config: Config): string {
    if config.minChars == 0 then ""
    else if config.maxChars == 0 then Filler(config.minChars)
    else Filler(config.minChars) + "```"
  }

  lemma TrapIsStill(config: Config)
    requires config.minChars == 0 || config.maxChars == 0
    ensures var s := Fed(INITIAL, Trap(config)); Ready(s, config) && Emit(s, config).next == s
  {
    var s, b := Fed(INITIAL, Trap(config)), Trap(config);
    assert "" + b == b;
    if config.minChars > 0 {
      FillerFences(config.minChars, "");
      assert b + "" == b;
    }
    FindBreakFacts(Take(b, config.maxChars), config);
  }

  lemma FillerThenFence(n: nat)
    ensures var b := Filler(n) + "```";
            && |b| == n + 3 && CountFences(b) == 1 && FenceAt(b, n)
            && forall k :: 0 <= k < |b| ==> !IsBreak(b[k])
  {
    hide IsBreak;
    var b := Filler(n) + "```";
    FillerFences(n, "```");
    assert CountFences("```") == 1 by {
      assert FenceAt("```", 0) && "```"[3..] == "";
    }
    forall k | 0 <= k < |b| ensures !IsBreak(b[k]) {
      TicksAreNoBreaks(b[k]);
    }
  }

  lemma TrapIsTrapped(config: Config)
    requires !Returns(config) && config.minChars >= 1 && config.maxChars >= 1
    ensures Trapped(Fed(INITIAL, Trap(config)), config)
  {
    hide IsBreak, Filler, CountFences, FenceAt;
    var b := Trap(config);
    assert "" + b == b;
    FillerThenFence(config.minChars);
  }

  lemma TrapNeverStops(config: Config)
    requires !Returns(config)
    ensures !Stops(Fed(INITIAL, Trap(config)), config)
  {
    hide Emit, Trapped;
    var s := Fed(INITIAL, Trap(config));
    forall n: nat ensures Ready(After(s, config, n), config) {
      if config.minChars == 0 || config.maxChars == 0 {
        TrapIsStill(config);
        StillForEver(s, config, n);
      } else {
        TrapIsTrapped(config);
        TrappedForEver(s, config, n);
        TrappedReady(After(s, config, n), config);
      }
    }
  }

  /** `feed` returns for every text, and from every state a chunker can be in, if and only
      if the configuration `Returns`; if it does not, there is a text that a new chunker
      does not come back from. */
  lemma FeedReturnsExactly(config: Config)
    ensures (forall text: string :: Stops(Fed(INITIAL, text), config)) <==> Returns(config)
    ensures (forall s: State :: Stops(s, config)) <==> Returns(config)
  {
    hide Stops, Returns;
    if Returns(config) {
      forall s: State ensures Stops(s, config) {
        AlwaysStops(s, config);
      }
    } else {
      TrapNeverStops(config);
    }
  }
}
