/** Chunking by maximum cost uses the fewest chunks possible, and what the 1.2 safety
    margin really bounds. */
module ChunkOptimality {
  import opened Compaction
  import opened Sequences
  import opened SplitProofs

  /** A chunk that is a single message or costs at most the limit. */
  predicate Fits(chunk: seq<Message>, limit: nat) {
    |chunk| == 1 || (chunk != [] && CostSum(chunk) <= limit)
  }

  /** A way of cutting the messages into contiguous chunks that fit. */
  ghost predicate Partition(chunks: seq<seq<Message>>, messages: seq<Message>, limit: nat) {
    Concat(chunks) == messages && forall chunk :: chunk in chunks ==> Fits(chunk, limit)
  }

  lemma {:induction false} RunFits(messages: seq<Message>, limit: nat)
    ensures var c := MaxRun(messages, limit);
            && (forall chunk :: chunk in c.chunks ==> Fits(chunk, limit))
            && (messages != [] ==> Fits(c.current, limit))
  {
    if messages != [] {
      var init := messages[..|messages| - 1];
      RunFits(init, limit);
      MaxRunCovers(init, limit);
      MaxRunCovers(messages, limit);
    }
  }

  /** The number of chunks after closing. */
  function Count(c: Cut): nat {
    |c.chunks| + if c.current == [] then 0 else 1
  }

  lemma NothingCosts(messages: seq<Message>)
    ensures CostSum(messages[|messages|..]) == 0
  {
  }

  lemma CostSumFrom(messages: seq<Message>, from: nat)
    requires from <= |messages|
    ensures CostSum(messages[from..]) <= CostSum(messages)
    decreases |messages|
  {
    hide CostSum, Cost;
    if from < |messages| {
      var init, last := messages[..|messages| - 1], messages[|messages| - 1];
      CostSumFrom(init, from);
      assert messages == init + [last] && messages[from..] == init[from..] + [last];
      CostSumNext(init[from..], last);
      CostSumNext(init, last);
    } else {
      NothingCosts(messages);
    }
  }

  /** `chunks` needs more chunks than the loop, or as many with a last chunk at least as
      long as the loop's current one. */
  ghost predicate NoBetter(chunks: seq<seq<Message>>, c: Cut) {
    || |chunks| > Count(c)
    || (|chunks| == Count(c) && (chunks != [] ==> |chunks[|chunks| - 1]| >= |c.current|))
  }

  lemma LastIsSuffix(chunks: seq<seq<Message>>, c: Cut, messages: seq<Message>)
    requires chunks != [] && Concat(chunks) == messages && Covers(c, messages)
    requires |chunks[|chunks| - 1]| >= |c.current|
    ensures CostSum(c.current) <= CostSum(chunks[|chunks| - 1])
  {
    var last := chunks[|chunks| - 1];
    var rest := Concat(chunks[..|chunks| - 1]);
    assert messages == rest + last;
    var from := |last| - |c.current|;
    assert last[from..] == messages[|messages| - |c.current|..] == c.current;
    CostSumFrom(last, from);
  }

  lemma PartsFit(front: seq<seq<Message>>, last: seq<Message>, messages: seq<Message>, limit: nat)
    ensures Partition(front + [last], messages, limit) <==>
            Concat(front) + last == messages && Fits(last, limit)
            && forall chunk :: chunk in front ==> Fits(chunk, limit)
  {
    hide Concat, Fits;
    ConcatNext(front, last);
    var chunks := front + [last];
    assert chunks[|front|] == last && forall i :: 0 <= i < |front| ==> chunks[i] == front[i];
  }

  lemma FitsWithout(chunk: seq<Message>, limit: nat)
    requires Fits(chunk, limit) && |chunk| > 1
    ensures Fits(chunk[..|chunk| - 1], limit)
  {
  }

  /** Cutting off the last message of a partition leaves a partition of the rest. */
  lemma Shorten(chunks: seq<seq<Message>>, messages: seq<Message>, limit: nat) returns (shorter: seq<seq<Message>>)
    requires Partition(chunks, messages, limit) && messages != [] && chunks != []
    ensures var n, k := |messages| - 1, |chunks| - 1;
            && Partition(shorter, messages[..n], limit)
            && (if |chunks[k]| == 1 then shorter == chunks[..k]
                else |chunks[k]| > 1 && |shorter| == |chunks| && shorter[k] == chunks[k][..|chunks[k]| - 1])
            && chunks[k] != [] && chunks[k][|chunks[k]| - 1] == messages[n]
  {
    hide Concat, CostSum;
    var k, n := |chunks| - 1, |messages| - 1;
    var front, last := chunks[..k], chunks[k];
    assert chunks == front + [last];
    PartsFit(front, last, messages, limit);
    assert last != [] && messages[..n] == Concat(front) + last[..|last| - 1];
    if |last| == 1 {
      shorter := front;
      assert Concat(front) + [] == Concat(front);
    } else {
      shorter := front + [last[..|last| - 1]];
      FitsWithout(last, limit);
      PartsFit(front, last[..|last| - 1], messages[..n], limit);
    }
  }

  /** One message more: the loop's state stays no worse than the partition. */
  lemma NoBetterNext(chunks: seq<seq<Message>>, shorter: seq<seq<Message>>, c: Cut, messages: seq<Message>, m: Message,
                     limit: nat)
    requires Covers(c, messages) && chunks != [] && NoBetter(shorter, c)
    requires var k := |chunks| - 1;
             && chunks[k] != [] && chunks[k][|chunks[k]| - 1] == m && Fits(chunks[k], limit)
             && (if |chunks[k]| == 1 then shorter == chunks[..k]
                 else |shorter| == |chunks| && shorter[k] == chunks[k][..|chunks[k]| - 1])
    requires Concat(shorter) == messages
    ensures NoBetter(chunks, Extend(c, m, c.current != [] && c.tokens + Cost(m) > limit))
  {
    hide CostSum, Cost;
    var k := |chunks| - 1;
    if |chunks[k]| > 1 && |shorter| == Count(c) {
      LastIsSuffix(shorter, c, messages);
      CostSumNext(shorter[k], m);
      assert shorter[k] + [m] == chunks[k];
    }
  }

  /** The loop stays ahead of every partition: any partition of one message more arises
      from one of the messages before it. */
  lemma {:induction false} StaysAhead(chunks: seq<seq<Message>>, messages: seq<Message>, limit: nat)
    requires Partition(chunks, messages, limit)
    ensures NoBetter(chunks, MaxRun(messages, limit))
    decreases |messages|
  {
    hide Cost, CostSum, NoBetter, Extend, Fits;
    if messages == [] {
      NothingToCut(chunks, limit);
    } else {
      var n := |messages| - 1;
      var shorter := Shorten(chunks, messages, limit);
      StaysAhead(shorter, messages[..n], limit);
      MaxRunCovers(messages[..n], limit);
      assert chunks[|chunks| - 1] in chunks;
      NoBetterNext(chunks, shorter, MaxRun(messages[..n], limit), messages[..n], messages[n], limit);
    }
  }

  lemma NothingToCut(chunks: seq<seq<Message>>, limit: nat)
    requires Partition(chunks, [], limit)
    ensures NoBetter(chunks, MaxRun([], limit))
  {
    if chunks != [] {
      assert chunks[|chunks| - 1] in chunks;
    }
  }

  /** The loop's chunks fit, and no other partition into chunks that fit has fewer. */
  lemma ChunkingOptimal(messages: seq<Message>, maxTokens: nat, other: seq<seq<Message>>)
    ensures Partition(ChunkByMax(messages, maxTokens), messages, EffectiveMax(maxTokens))
    ensures Partition(other, messages, EffectiveMax(maxTokens)) ==> |ChunkByMax(messages, maxTokens)| <= |other|
  {
    var limit := EffectiveMax(maxTokens);
    ChunksPartition(messages, maxTokens);
    RunFits(messages, limit);
    MaxRunCovers(messages, limit);
    if Partition(other, messages, limit) {
      StaysAhead(other, messages, limit);
    }
  }

  /** A chunk of several messages may be estimated at up to seven quarters of the limit,
      because each message's cost is rounded down on its own. */
  lemma ChunkEstimate(messages: seq<Message>, maxTokens: nat, chunk: seq<Message>)
    requires chunk in ChunkByMax(messages, maxTokens) && |chunk| >= 2
    ensures EstimateTokens(chunk) <= 7 * EffectiveMax(maxTokens) / 4
  {
    ChunkingOptimal(messages, maxTokens, []);
    TotalPerCost(chunk);
  }

  /** Messages of seven characters: each costs one token and is charged for nearly two. */
  function Sevens(n: nat): (s: seq<Message>)
    ensures |s| == n
  {
    seq(n, _ => Message(User, "", 7, [], "", false, false))
  }

  lemma SevensNext(n: nat)
    requires n >= 1
    ensures Sevens(n) == Sevens(n - 1) + [Message(User, "", 7, [], "", false, false)]
    ensures Sevens(n)[..n - 1] == Sevens(n - 1)
  {
  }

  lemma {:induction false} SevensRun(n: nat, limit: nat)
    requires 1 <= n <= limit
    ensures MaxRun(Sevens(n), limit) == Cut([], Sevens(n), n)
    ensures TotalChars(Sevens(n)) == 7 * n
  {
    hide MaxRun, Sevens, TotalChars;
    var m := Message(User, "", 7, [], "", false, false);
    SevensNext(n);
    MaxRunNext(Sevens(n - 1), m, limit);
    TotalNext(Sevens(n - 1), m);
    if n == 1 {
      SevensStart(limit);
    } else {
      SevensRun(n - 1, limit);
    }
  }

  lemma SevensStart(limit: nat)
    ensures MaxRun(Sevens(0), limit) == UNCUT && TotalChars(Sevens(0)) == 0
  {
  }

  /** The bound is reached for every limit of two or more. */
  lemma ChunkEstimateReached(maxTokens: nat)
    requires EffectiveMax(maxTokens) >= 2
    ensures var limit := EffectiveMax(maxTokens);
            && ChunkByMax(Sevens(limit), maxTokens) == [Sevens(limit)]
            && EstimateTokens(Sevens(limit)) == 7 * limit / 4
  {
    hide MaxRun, Sevens;
    SevensRun(EffectiveMax(maxTokens), EffectiveMax(maxTokens));
  }

  /** So a chunk of several messages can be estimated above the maximum it was asked to
      respect if and only if that maximum is at least four tokens. */
  lemma ChunkCanExceed(maxTokens: nat)
    ensures (exists messages, chunk :: ExceedingChunk(messages, chunk, maxTokens)) <==> maxTokens >= 4
  {
    hide ChunkByMax, EstimateTokens;
    if maxTokens >= 4 {
      var limit := EffectiveMax(maxTokens);
      ChunkEstimateReached(maxTokens);
      assert Sevens(limit) in ChunkByMax(Sevens(limit), maxTokens);
      assert 7 * limit / 4 > maxTokens by {
        SevenQuartersExceed(maxTokens);
      }
      assert ExceedingChunk(Sevens(limit), Sevens(limit), maxTokens);
    } else {
      forall messages, chunk ensures !ExceedingChunk(messages, chunk, maxTokens) {
        if chunk in ChunkByMax(messages, maxTokens) && |chunk| >= 2 {
          ChunkEstimate(messages, maxTokens, chunk);
          SmallMaximum(messages, maxTokens, chunk);
        }
      }
    }
  }

  /** A chunk of several messages whose estimate is above the maximum. */
  ghost predicate ExceedingChunk(messages: seq<Message>, chunk: seq<Message>, maxTokens: nat) {
    chunk in ChunkByMax(messages, maxTokens) && |chunk| >= 2 && EstimateTokens(chunk) > maxTokens
  }

  lemma SevenQuartersExceed(maxTokens: nat)
    requires maxTokens >= 4
    ensures EffectiveMax(maxTokens) >= 2 && 7 * EffectiveMax(maxTokens) / 4 > maxTokens
  {
  }

  /** A limit of one admits no chunk of several messages. */
  lemma SmallMaximum(messages: seq<Message>, maxTokens: nat, chunk: seq<Message>)
    requires maxTokens <= 3 && chunk in ChunkByMax(messages, maxTokens) && |chunk| >= 2
    ensures maxTokens == 3 && 7 * EffectiveMax(maxTokens) / 4 <= maxTokens
  {
    ChunkingOptimal(messages, maxTokens, []);
    TotalPerCost(chunk);
  }
}
