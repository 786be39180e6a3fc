/** Both splitting loops partition the list, and splitting by token share always makes
    progress: two or more messages give at least two chunks. */
module SplitProofs {
  import opened Wrappers
  import opened Compaction
  import opened Sequences

  /** The chunks cut off so far and the current one make up the messages seen. */
  ghost predicate Covers(c: Cut, messages: seq<Message>) {
    && Concat(c.chunks) + c.current == messages
    && (messages != [] ==> c.current != [])
    && (forall chunk :: chunk in c.chunks ==> chunk != [])
    && c.tokens == CostSum(c.current)
  }

  lemma CostSumNext(messages: seq<Message>, m: Message)
    ensures CostSum(messages + [m]) == CostSum(messages) + Cost(m)
  {
    assert (messages + [m])[..|messages|] == messages;
  }

  lemma TotalNext(messages: seq<Message>, m: Message)
    ensures TotalChars(messages + [m]) == TotalChars(messages) + Chars(m)
  {
    assert (messages + [m])[..|messages|] == messages;
  }

  lemma CutCovers(c: Cut, messages: seq<Message>, m: Message)
    requires Covers(c, messages) && c.current != []
    ensures Covers(Cut(c.chunks + [c.current], [m], Cost(m)), messages + [m])
  {
    hide Concat, CostSum, Cost;
    ConcatNext(c.chunks, c.current);
    CostOfOne(m);
  }

  lemma CostOfOne(m: Message)
    ensures CostSum([m]) == Cost(m)
  {
    hide Cost;
    assert [m][..0] == [];
  }

  lemma GrowCovers(c: Cut, messages: seq<Message>, m: Message)
    requires Covers(c, messages)
    ensures Covers(Cut(c.chunks, c.current + [m], c.tokens + Cost(m)), messages + [m])
  {
    CostSumNext(c.current, m);
    assert Concat(c.chunks) + (c.current + [m]) == (Concat(c.chunks) + c.current) + [m];
  }

  lemma ExtendCovers(c: Cut, messages: seq<Message>, m: Message, cut: bool)
    requires Covers(c, messages) && (cut ==> c.current != [])
    ensures Covers(Extend(c, m, cut), messages + [m])
  {
    if cut {
      CutCovers(c, messages, m);
    } else {
      GrowCovers(c, messages, m);
    }
  }

  lemma UncutCovers(limit: nat)
    ensures Covers(MaxRun([], limit), [])
  {
  }

  lemma MaxRunNext(messages: seq<Message>, m: Message, limit: nat)
    ensures var c := MaxRun(messages, limit);
            MaxRun(messages + [m], limit) == Extend(c, m, c.current != [] && c.tokens + Cost(m) > limit)
  {
    assert (messages + [m])[..|messages|] == messages;
  }

  lemma CloseCovers(c: Cut, messages: seq<Message>)
    requires Covers(c, messages)
    ensures Concat(Close(c)) == messages
    ensures forall chunk :: chunk in Close(c) ==> chunk != []
  {
    if c.current != [] {
      ConcatNext(c.chunks, c.current);
    }
  }

  lemma ShareRunStart(parts: nat, total: nat)
    ensures Covers(ShareRun([], parts, total), []) && ShareRun([], parts, total).chunks == []
  {
  }

  lemma ShareRunNext(messages: seq<Message>, m: Message, parts: nat, total: nat)
    ensures var c := ShareRun(messages, parts, total);
            ShareRun(messages + [m], parts, total) == Extend(c, m, ShareCuts(c, m, parts, total))
  {
    assert (messages + [m])[..|messages|] == messages;
  }

  lemma {:induction false} ShareRunCovers(messages: seq<Message>, parts: nat, total: nat)
    ensures Covers(ShareRun(messages, parts, total), messages)
    ensures parts >= 1 ==> |ShareRun(messages, parts, total).chunks| <= parts - 1
  {
    hide Covers, ShareRun, Cost;
    if messages == [] {
      ShareRunStart(parts, total);
    } else {
      var init, m := messages[..|messages| - 1], messages[|messages| - 1];
      assert init + [m] == messages;
      ShareRunCovers(init, parts, total);
      ShareRunNext(init, m, parts, total);
      var c := ShareRun(init, parts, total);
      ExtendCovers(c, init, m, ShareCuts(c, m, parts, total));
    }
  }

  /** Splitting by token share loses, duplicates and reorders nothing, and gives at most
      the requested number of chunks, none of them empty. */
  lemma SplitPartitions(messages: seq<Message>, parts: int)
    ensures var chunks := SplitByShare(messages, parts);
            && Concat(chunks) == messages
            && |chunks| <= NormalizeParts(parts, |messages|)
            && (forall chunk :: chunk in chunks ==> chunk != [])
  {
    hide Concat, ShareRun, Covers, EstimateTokens;
    var n, total := NormalizeParts(parts, |messages|), Max(1, EstimateTokens(messages));
    if messages == [] {
      NothingSplit();
    } else if n <= 1 {
      ConcatOne(messages);
    } else {
      ShareRunCovers(messages, n, total);
      CloseCovers(ShareRun(messages, n, total), messages);
    }
  }

  lemma NothingSplit()
    ensures Concat<Message>([]) == []
  {
  }

  /** Rounding each message down can lose at most three quarters of a token of what it
      costs, whatever its size. */
  lemma CharsPerCost(m: Message)
    ensures Chars(m) <= 7 * Cost(m)
  {
  }

  lemma {:induction false} TotalPerCost(messages: seq<Message>)
    ensures TotalChars(messages) <= 7 * CostSum(messages)
    ensures |messages| <= CostSum(messages)
  {
    if messages != [] {
      TotalPerCost(messages[..|messages| - 1]);
      CharsPerCost(messages[|messages| - 1]);
    }
  }

  /** As long as no cut was made, the cost of what was seen is within the share. */
  lemma {:induction false} UncutWithinShare(messages: seq<Message>, parts: nat, total: nat)
    requires parts >= 2 && |messages| >= 2
    ensures ShareRun(messages, parts, total).chunks == [] ==> CostSum(messages) * parts <= total
  {
    hide Covers, CostSum, Cost;
    var init, m := messages[..|messages| - 1], messages[|messages| - 1];
    var c := ShareRun(init, parts, total);
    ShareRunCovers(init, parts, total);
    if ShareRun(messages, parts, total).chunks == [] {
      assert !ShareCuts(c, m, parts, total);
      UncutTokens(c, init);
      CostSumNext(init, m);
      assert init + [m] == messages;
    }
  }

  lemma UncutTokens(c: Cut, messages: seq<Message>)
    requires Covers(c, messages) && c.chunks == [] && messages != []
    ensures c.current != [] && c.tokens == CostSum(messages)
  {
    assert Concat(c.chunks) + c.current == c.current;
  }

  lemma SplitMakesProgress(messages: seq<Message>, parts: int)
    requires |messages| >= 2 && parts >= 2
    ensures |SplitByShare(messages, parts)| >= 2
  {
    var n, total := NormalizeParts(parts, |messages|), Max(1, EstimateTokens(messages));
    ShareRunCovers(messages, n, total);
    var c := ShareRun(messages, n, total);
    if c.chunks == [] {
      UncutWithinShare(messages, n, total);
      TotalPerCost(messages);
      MultipleExceeds(CostSum(messages), n, TotalChars(messages));
      assert false;
    }
  }

  lemma MultipleExceeds(cost: nat, n: nat, chars: nat)
    requires n >= 2 && cost >= 2 && chars <= 7 * cost
    ensures cost * n > Max(1, chars / 4)
  {
    assert cost * n >= cost * 2;
  }

  lemma {:induction false} MaxRunCovers(messages: seq<Message>, limit: nat)
    ensures Covers(MaxRun(messages, limit), messages)
  {
    hide Covers, Extend, MaxRun;
    if messages == [] {
      UncutCovers(limit);
    } else {
      var init, m := messages[..|messages| - 1], messages[|messages| - 1];
      MaxRunCovers(init, limit);
      var c := MaxRun(init, limit);
      MaxRunNext(init, m, limit);
      ExtendCovers(c, init, m, c.current != [] && c.tokens + Cost(m) > limit);
      assert init + [m] == messages;
    }
  }

  lemma ChunksPartition(messages: seq<Message>, maxTokens: nat)
    ensures Concat(ChunkByMax(messages, maxTokens)) == messages
    ensures forall chunk :: chunk in ChunkByMax(messages, maxTokens) ==> chunk != []
  {
    MaxRunCovers(messages, EffectiveMax(maxTokens));
    CloseCovers(MaxRun(messages, EffectiveMax(maxTokens)), messages);
  }
}
