/** What determines the chunks of both splitting loops: a chunk ends exactly when the next
    message would make it too large, and for a split into shares the last part takes the rest. */
module GreedyCuts {
  import opened Compaction
  import opened Sequences
  import opened SplitProofs
  import opened Wrappers

  // ----- greedy chunks

  /** Within the cap, or a single message. */
  predicate Small(chunk: seq<Message>, scale: nat, cap: nat) {
    |chunk| == 1 || CostSum(chunk) * scale <= cap
  }

  /** The chunk would not be within the cap with the message behind it. */
  predicate Full(chunk: seq<Message>, next: Message, scale: nat, cap: nat) {
    (CostSum(chunk) + Cost(next)) * scale > cap
  }

  /** At most `parts` chunks, none empty; each but the last is full with the first message of
      the next, and each before the last possible one is small. */
  ghost predicate Greedy(chunks: seq<seq<Message>>, parts: nat, scale: nat, cap: nat) {
    && |chunks| <= parts
    && (forall j :: 0 <= j < |chunks| ==> chunks[j] != [])
    && (forall j :: 0 <= j < |chunks| - 1 ==> Full(chunks[j], chunks[j + 1][0], scale, cap))
    && (forall j :: 0 <= j < |chunks| && j < parts - 1 ==> Small(chunks[j], scale, cap))
  }

  lemma GreedyOne(m: Message, parts: nat, scale: nat, cap: nat)
    requires parts >= 1
    ensures Greedy([[m]], parts, scale, cap)
  {
  }

  lemma GreedyCut(chunks: seq<seq<Message>>, m: Message, parts: nat, scale: nat, cap: nat)
    requires Greedy(chunks, parts, scale, cap) && chunks != [] && |chunks| < parts
    requires Full(chunks[|chunks| - 1], m, scale, cap)
    ensures Greedy(chunks + [[m]], parts, scale, cap)
  {
    hide Full, CostSum, Cost;
    var next := chunks + [[m]];
    forall j | 0 <= j < |next| - 1 ensures Full(next[j], next[j + 1][0], scale, cap) {
      assert next[j] == chunks[j];
    }
  }

  lemma GreedyGrows(front: seq<seq<Message>>, last: seq<Message>, m: Message, parts: nat, scale: nat, cap: nat)
    requires Greedy(front + [last], parts, scale, cap)
    requires |front| < parts - 1 ==> Small(last + [m], scale, cap)
    ensures Greedy(front + [last + [m]], parts, scale, cap)
  {
    hide Full, Small, CostSum, Cost;
    var before, after := front + [last], front + [last + [m]];
    assert before[|front|] == last && after[|front|] == last + [m];
    assert forall j :: 0 <= j < |front| ==> after[j] == front[j] == before[j];
    assert forall j :: 0 <= j < |after| ==> after[j] != [] && after[j][0] == before[j][0];
    forall j | 0 <= j < |after| - 1 ensures Full(after[j], after[j + 1][0], scale, cap) {
      assert after[j] == before[j] && after[j + 1][0] == before[j + 1][0];
    }
    forall j | 0 <= j < |after| && j < parts - 1 ensures Small(after[j], scale, cap) {
      assert j < |front| ==> after[j] == before[j] && Small(before[j], scale, cap);
    }
  }

  lemma {:induction false} JoinedEmpty(chunks: seq<seq<Message>>)
    requires forall j :: 0 <= j < |chunks| ==> chunks[j] != []
    ensures Concat(chunks) == [] <==> chunks == []
  {
  }

  lemma NothingCovered(c: Cut, messages: seq<Message>)
    requires Covers(c, messages) && c.current == []
    ensures messages == [] && c.chunks == []
  {
    hide Concat;
    assert forall j :: 0 <= j < |c.chunks| ==> c.chunks[j] in c.chunks;
    JoinedEmpty(c.chunks);
    assert Concat(c.chunks) + [] == Concat(c.chunks);
  }

  /** One turn of either loop, which cuts when it may and the chunk is full. */
  lemma ExtendGreedy(c: Cut, messages: seq<Message>, m: Message, cut: bool, parts: nat, scale: nat, cap: nat)
    requires Covers(c, messages) && Greedy(Close(c), parts, scale, cap) && |c.chunks| < parts
    requires cut <==> |c.chunks| < parts - 1 && c.current != [] && (c.tokens + Cost(m)) * scale > cap
    ensures Greedy(Close(Extend(c, m, cut)), parts, scale, cap) && |Extend(c, m, cut).chunks| < parts
  {
    hide Concat, CostSum, Cost, Greedy;
    if c.current == [] {
      assert messages == [] && c.chunks == [] by {
        NothingCovered(c, messages);
      }
      assert [] + [m] == [m] && [] + [[m]] == [[m]];
      GreedyOne(m, parts, scale, cap);
    } else if cut {
      GreedyCut(Close(c), m, parts, scale, cap);
    } else {
      CostSumNext(c.current, m);
      GreedyGrows(c.chunks, c.current, m, parts, scale, cap);
    }
  }

  lemma NothingGreedy(parts: nat, scale: nat, cap: nat)
    ensures Greedy(Close(UNCUT), parts, scale, cap)
  {
  }

  // ----- both loops are greedy

  lemma {:induction false} ShareRunGreedy(messages: seq<Message>, parts: nat, total: nat)
    requires parts >= 1
    ensures Greedy(Close(ShareRun(messages, parts, total)), parts, parts, total)
    ensures |ShareRun(messages, parts, total).chunks| < parts
  {
    hide Greedy, Cost, Extend, Close, Covers;
    if messages == [] {
      NothingGreedy(parts, parts, total);
    } else {
      var init, m := messages[..|messages| - 1], messages[|messages| - 1];
      ShareRunGreedy(init, parts, total);
      ShareRunCovers(init, parts, total);
      var c := ShareRun(init, parts, total);
      ExtendGreedy(c, init, m, ShareCuts(c, m, parts, total), parts, parts, total);
    }
  }

  /** The split by token share into n parts of a list of T tokens: each chunk but the last is
      more than an n-th of T with the next message, and each before the n-th is a single
      message or at most an n-th of T. */
  lemma SplitIsGreedy(messages: seq<Message>, parts: int)
    requires messages != []
    ensures var n, total := NormalizeParts(parts, |messages|), Max(1, EstimateTokens(messages));
            Greedy(SplitByShare(messages, parts), n, n, total)
  {
    hide Greedy, ShareRun, EstimateTokens, CostSum;
    var n, total := NormalizeParts(parts, |messages|), Max(1, EstimateTokens(messages));
    if n <= 1 {
      WholeGreedy(messages, total);
    } else {
      ShareRunGreedy(messages, n, total);
    }
  }

  lemma WholeGreedy(messages: seq<Message>, cap: nat)
    requires messages != []
    ensures Greedy([messages], 1, 1, cap)
  {
  }

  lemma {:induction false} MaxRunGreedy(messages: seq<Message>, limit: nat, parts: nat)
    requires parts > |messages|
    ensures Greedy(Close(MaxRun(messages, limit)), parts, 1, limit)
    ensures |MaxRun(messages, limit).chunks| <= |messages|
  {
    hide Greedy, Cost, Close, Covers;
    if messages == [] {
      NothingGreedy(parts, 1, limit);
    } else {
      var init, m := messages[..|messages| - 1], messages[|messages| - 1];
      MaxRunGreedy(init, limit, parts);
      MaxRunCovers(init, limit);
      var c := MaxRun(init, limit);
      ExtendGreedy(c, init, m, c.current != [] && c.tokens + Cost(m) > limit, parts, 1, limit);
    }
  }

  /** Every chunk by maximum is small, and full with the next message. */
  lemma ChunkingIsGreedy(messages: seq<Message>, maxTokens: nat)
    ensures Greedy(ChunkByMax(messages, maxTokens), |messages| + 1, 1, EffectiveMax(maxTokens))
  {
    hide Greedy, MaxRun;
    MaxRunGreedy(messages, EffectiveMax(maxTokens), |messages| + 1);
  }

  // ----- and nothing else is

  lemma {:induction false} PrefixCosts(a: seq<Message>, b: seq<Message>)
    ensures CostSum(a) <= CostSum(a + b)
  {
    hide Cost, CostSum;
    if b == [] {
      assert a + b == a;
    } else {
      var init, m := b[..|b| - 1], b[|b| - 1];
      PrefixCosts(a, init);
      assert a + b == (a + init) + [m];
      CostSumNext(a + init, m);
    }
  }

  /** A chunk that goes further than another one's end and next message is not small. */
  lemma FurtherIsLarge(a: seq<Message>, next: Message, b: seq<Message>, scale: nat, cap: nat)
    requires a != [] && a + [next] <= b && Full(a, next, scale, cap)
    ensures !Small(b, scale, cap)
  {
    hide Cost, CostSum;
    var rest := b[|a| + 1..];
    assert b == (a + [next]) + rest;
    CostSumNext(a, next);
    PrefixCosts(a + [next], rest);
    Monotone(CostSum(a) + Cost(next), CostSum(b), scale);
  }

  lemma Monotone(a: nat, b: nat, scale: nat)
    requires a <= b
    ensures a * scale <= b * scale
  {
  }

  lemma GreedyTail(chunks: seq<seq<Message>>, parts: nat, scale: nat, cap: nat)
    requires Greedy(chunks, parts, scale, cap) && chunks != []
    ensures Greedy(chunks[1..], parts - 1, scale, cap)
  {
    hide Full, Small;
    var rest := chunks[1..];
    forall j | 0 <= j < |rest| - 1 ensures Full(rest[j], rest[j + 1][0], scale, cap) {
      assert rest[j] == chunks[j + 1] && rest[j + 1] == chunks[j + 2];
    }
    forall j | 0 <= j < |rest| && j < parts - 2 ensures Small(rest[j], scale, cap) {
      assert rest[j] == chunks[j + 1];
    }
  }

  /** The first chunks of two greedy ways of cutting one list: neither ends before the other. */
  lemma FirstNotShorter(a: seq<seq<Message>>, b: seq<seq<Message>>, parts: nat, scale: nat, cap: nat)
    requires Greedy(a, parts, scale, cap) && Greedy(b, parts, scale, cap) && Concat(a) == Concat(b)
    requires a != [] && b != []
    ensures |a[0]| >= |b[0]|
  {
    hide Concat, Full, Small, CostSum, Cost;
    ConcatFirst(a);
    ConcatFirst(b);
    if |a[0]| < |b[0]| {
      JoinedEmpty(a[1..]);
      var all := Concat(a);
      assert all[|a[0]|..] == Concat(a[1..]);
      assert |Concat(a[1..])| > 0;
      ConcatFirst(a[1..]);
      assert a[1..][0] == a[1];
      assert all[|a[0]|] == a[1][0];
      assert b[0] == all[..|b[0]|] && a[0] == all[..|a[0]|];
      assert a[0] + [a[1][0]] <= b[0];
      FurtherIsLarge(a[0], a[1][0], b[0], scale, cap);
    }
  }

  /** A list has one greedy way of being cut. */
  lemma {:induction false} GreedyUnique(a: seq<seq<Message>>, b: seq<seq<Message>>, parts: nat, scale: nat, cap: nat)
    requires Greedy(a, parts, scale, cap) && Greedy(b, parts, scale, cap) && Concat(a) == Concat(b)
    ensures a == b
    decreases parts
  {
    hide Concat, Greedy;
    JoinedEmpty(a) by { GreedyFilled(a, parts, scale, cap); }
    JoinedEmpty(b) by { GreedyFilled(b, parts, scale, cap); }
    if a != [] {
      GreedyParts(a, parts, scale, cap);
      FirstNotShorter(a, b, parts, scale, cap);
      FirstNotShorter(b, a, parts, scale, cap);
      ConcatFirst(a);
      ConcatFirst(b);
      assert a[0] == Concat(a)[..|a[0]|] == b[0];
      assert Concat(a[1..]) == Concat(a)[|a[0]|..] == Concat(b[1..]);
      GreedyTail(a, parts, scale, cap);
      GreedyTail(b, parts, scale, cap);
      GreedyUnique(a[1..], b[1..], parts - 1, scale, cap);
      assert a == [a[0]] + a[1..] && b == [b[0]] + b[1..];
    }
  }

  lemma GreedyFilled(chunks: seq<seq<Message>>, parts: nat, scale: nat, cap: nat)
    requires Greedy(chunks, parts, scale, cap)
    ensures forall j :: 0 <= j < |chunks| ==> chunks[j] != []
  {
  }

  lemma GreedyParts(chunks: seq<seq<Message>>, parts: nat, scale: nat, cap: nat)
    requires Greedy(chunks, parts, scale, cap) && chunks != []
    ensures parts >= 1
  {
  }

  /** The split by token share is the one way of cutting the list into at most n chunks in
      which each chunk but the last is more than an n-th of the total with the next message,
      and each before the n-th is a single message or at most an n-th. */
  lemma SplitExactly(messages: seq<Message>, parts: int, chunks: seq<seq<Message>>)
    requires messages != []
    ensures var n, total := NormalizeParts(parts, |messages|), Max(1, EstimateTokens(messages));
            chunks == SplitByShare(messages, parts) <==> Concat(chunks) == messages && Greedy(chunks, n, n, total)
  {
    hide Greedy, Concat, SplitByShare, EstimateTokens;
    var n, total := NormalizeParts(parts, |messages|), Max(1, EstimateTokens(messages));
    SplitIsGreedy(messages, parts);
    SplitPartitions(messages, parts);
    if Concat(chunks) == messages && Greedy(chunks, n, n, total) {
      GreedyUnique(chunks, SplitByShare(messages, parts), n, n, total);
    }
  }

  /** Chunking by maximum is the one way of cutting the list into chunks that are small and,
      but for the last, full with the next message. */
  lemma ChunkingExactly(messages: seq<Message>, maxTokens: nat, chunks: seq<seq<Message>>)
    ensures chunks == ChunkByMax(messages, maxTokens) <==>
            Concat(chunks) == messages && Greedy(chunks, |messages| + 1, 1, EffectiveMax(maxTokens))
  {
    hide Greedy, Concat, ChunkByMax;
    var limit := EffectiveMax(maxTokens);
    ChunkingIsGreedy(messages, maxTokens);
    ChunksPartition(messages, maxTokens);
    if Concat(chunks) == messages && Greedy(chunks, |messages| + 1, 1, limit) {
      GreedyUnique(chunks, ChunkByMax(messages, maxTokens), |messages| + 1, 1, limit);
    }
  }
}
