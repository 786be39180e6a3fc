/** Dropping the oldest chunks until the rest fits its share of the context window. */
module HistoryShare {
  import opened Wrappers
  import opened Compaction
  import opened Sequences
  import opened SplitProofs

  datatype Pruned = Pruned(kept: seq<Message>, dropped: seq<Message>, chunks: nat)

  function BudgetTokens(config: Config): int {
    var share := if config.maxHistoryShare < 0.1 then 0.1
                 else if config.maxHistoryShare > 1.0 then 1.0 else config.maxHistoryShare;
    Max(1, (config.contextWindow as real * share).Floor)
  }

  function Oldest(kept: seq<Message>, config: Config): seq<seq<Message>> {
    SplitByShare(kept, Max(2, NormalizeParts(config.stagedParts, |kept|)))
  }

  /** What dropping the oldest of several chunks leaves. */
  lemma DropOldest(kept: seq<Message>, config: Config)
    ensures var chunks := Oldest(kept, config);
            && (|kept| >= 2 ==> |chunks| >= 2)
            && (|kept| <= 1 ==> |chunks| <= 1)
            && (|chunks| >= 2 ==>
                  && chunks[0] != [] && chunks[0] + Concat(chunks[1..]) == kept
                  && 1 <= |Concat(chunks[1..])| < |kept|)
  {
    var parts := Max(2, NormalizeParts(config.stagedParts, |kept|));
    var chunks := Oldest(kept, config);
    SplitPartitions(kept, parts);
    if |kept| >= 2 {
      SplitMakesProgress(kept, parts);
      ConcatFirst(chunks);
      ConcatFirst(chunks[1..]);
      assert chunks[0] in chunks && chunks[1] in chunks;
    }
  }

  function DropToFit(p: Pruned, config: Config): Pruned
    decreases |p.kept|
  {
    if EstimateTokens(p.kept) <= BudgetTokens(config) then p
    else
      var chunks := Oldest(p.kept, config);
      if |chunks| <= 1 then p
      else
        DropOldest(p.kept, config);
        DropToFit(Pruned(Concat(chunks[1..]), p.dropped + chunks[0], p.chunks + 1), config)
  }

  /** `_prune_history_for_context_share`. */
  function PruneHistory(messages: seq<Message>, config: Config): Pruned {
    if messages == [] then Pruned([], [], 0)
    else
      var p := DropToFit(Pruned(messages, [], 0), config);
      p.(kept := RepairPairing(p.kept))
  }

  method PruneHistoryForContextShare(messages: seq<Message>, config: Config) returns (pruned: Pruned)
    ensures pruned == PruneHistory(messages, config)
  {
    if messages == [] {
      return Pruned([], [], 0);
    }
    var budget := BudgetTokens(config);
    var kept, dropped, count := messages, [], 0;
    var tokens := CountTokens(kept);
    while kept != [] && tokens > budget
      invariant kept != [] && tokens == EstimateTokens(kept)
      invariant DropToFit(Pruned(kept, dropped, count), config) == DropToFit(Pruned(messages, [], 0), config)
      decreases |kept|
    {
      var chunks := SplitMessagesByTokenShare(kept, Max(2, NormalizeParts(config.stagedParts, |kept|)));
      DropOldest(kept, config);
      if |chunks| <= 1 || chunks[0] == [] {
        break;
      }
      dropped := dropped + chunks[0];
      kept := Concat(chunks[1..]);
      count := count + 1;
      tokens := CountTokens(kept);
    }
    kept := RepairToolResultPairing(kept);
    return Pruned(kept, dropped, count);
  }

  // ----- what the loop guarantees

  lemma {:induction false} DropToFitResult(p: Pruned, config: Config)
    requires p.kept != []
    ensures var r := DropToFit(p, config);
            && r.dropped + r.kept == p.dropped + p.kept
            && r.kept != []
            && (EstimateTokens(r.kept) <= BudgetTokens(config) || |r.kept| == 1)
            && (r.dropped != p.dropped ==> EstimateTokens(p.kept) > BudgetTokens(config))
    decreases |p.kept|
  {
    hide Oldest, EstimateTokens, BudgetTokens;
    if EstimateTokens(p.kept) > BudgetTokens(config) {
      var chunks := Oldest(p.kept, config);
      DropOldest(p.kept, config);
      if |chunks| >= 2 {
        var next := Pruned(Concat(chunks[1..]), p.dropped + chunks[0], p.chunks + 1);
        DropToFitResult(next, config);
        assert next.dropped + next.kept == p.dropped + (chunks[0] + Concat(chunks[1..]));
      }
    }
  }

  // ----- repair

  lemma KnownNext(messages: seq<Message>, m: Message)
    ensures KnownIds(messages + [m]) ==
            KnownIds(messages) + if m.role == Assistant then set id | id in m.callIds && id != "" else {}
  {
    assert (messages + [m])[..|messages|] == messages;
  }

  lemma {:induction false} RepairedIds(messages: seq<Message>, known: set<string>)
    ensures KnownIds(WithoutOrphans(messages, known)) == KnownIds(messages)
  {
    if messages != [] {
      var init, m := messages[..|messages| - 1], messages[|messages| - 1];
      RepairedIds(init, known);
      var rest := WithoutOrphans(init, known);
      KnownNext(rest, m);
      assert rest + [] == rest;
    }
  }

  lemma {:induction false} OrphansGone(messages: seq<Message>, known: set<string>)
    ensures forall m :: m in WithoutOrphans(messages, known) <==> m in messages && !Orphan(m, known)
    ensures TotalChars(WithoutOrphans(messages, known)) <= TotalChars(messages)
    ensures |WithoutOrphans(messages, known)| <= |messages|
  {
    hide Chars, Orphan, TotalChars;
    if messages != [] {
      var init, m := messages[..|messages| - 1], messages[|messages| - 1];
      OrphansGone(init, known);
      var rest := WithoutOrphans(init, known);
      TotalNext(rest, m);
      TotalNext(init, m);
      assert rest + [] == rest;
      assert messages == init + [m];
      assert forall x :: x in messages <==> x in init || x == m;
      assert forall x :: x in rest + [m] <==> x in rest || x == m;
    }
  }

  lemma {:induction false} NoOrphansNoChange(messages: seq<Message>, known: set<string>)
    requires forall m :: m in messages ==> !Orphan(m, known)
    ensures WithoutOrphans(messages, known) == messages
  {
    hide Orphan;
    if messages != [] {
      var init, m := messages[..|messages| - 1], messages[|messages| - 1];
      assert messages == init + [m] && m in messages;
      NoOrphansNoChange(messages[..|messages| - 1], known);
    }
  }

  /** Repair removes exactly the results that name an unknown call; it knows the same
      calls afterwards, so repairing again changes nothing. */
  lemma RepairIdempotent(messages: seq<Message>)
    ensures var repaired := RepairPairing(messages);
            && RepairPairing(repaired) == repaired
            && KnownIds(repaired) == KnownIds(messages)
            && (forall m :: m in repaired <==>
                              m in messages && (KnownIds(messages) != {} ==> !Orphan(m, KnownIds(messages))))
  {
    var known := KnownIds(messages);
    RepairedIds(messages, known);
    OrphansGone(messages, known);
    NoOrphansNoChange(WithoutOrphans(messages, known), known);
  }

  lemma {:induction false} KnownFromAssistant(messages: seq<Message>)
    ensures KnownIds(messages) != {} ==> exists m :: m in messages && m.role == Assistant
  {
    if messages != [] {
      KnownFromAssistant(messages[..|messages| - 1]);
      assert messages[|messages| - 1] in messages;
    }
  }

  lemma RepairKeepsSome(messages: seq<Message>)
    requires messages != []
    ensures RepairPairing(messages) != [] && |RepairPairing(messages)| <= |messages|
    ensures EstimateTokens(RepairPairing(messages)) <= EstimateTokens(messages)
  {
    KnownFromAssistant(messages);
    OrphansGone(messages, KnownIds(messages));
    if KnownIds(messages) != {} {
      var m :| m in messages && m.role == Assistant;
      assert m in WithoutOrphans(messages, KnownIds(messages));
    }
  }

  /** Pruning splits a non-empty history in two: what is dropped, then what is kept
      before repair, which is never empty. What is kept fits the budget or is a single
      message, and nothing is dropped from a history that fits. */
  lemma PruningFits(messages: seq<Message>, config: Config)
    requires messages != []
    ensures var r := PruneHistory(messages, config);
            && (exists kept :: messages == r.dropped + kept && kept != [] && r.kept == RepairPairing(kept))
            && r.kept != []
            && (EstimateTokens(r.kept) <= BudgetTokens(config) || |r.kept| == 1)
            && (EstimateTokens(messages) <= BudgetTokens(config) ==> r.dropped == [])
  {
    DropToFitResult(Pruned(messages, [], 0), config);
    var p := DropToFit(Pruned(messages, [], 0), config);
    RepairKeepsSome(p.kept);
    assert messages == p.dropped + p.kept;
  }

  /** What is dropped last: the oldest chunk of a history that did not fit. */
  ghost predicate DroppedLast(dropped: seq<Message>, last: seq<Message>, kept: seq<Message>, config: Config) {
    && last != [] && |last| <= |dropped| && dropped[|dropped| - |last|..] == last
    && EstimateTokens(last + kept) > BudgetTokens(config)
    && |Oldest(last + kept, config)| >= 2 && Oldest(last + kept, config)[0] == last
  }

  lemma {:induction false} DropsOneByOne(p: Pruned, config: Config)
    ensures var r := DropToFit(p, config);
            && r.chunks >= p.chunks && (r.chunks == p.chunks ==> r == p)
            && (r.chunks > p.chunks ==> exists last :: DroppedLast(r.dropped, last, r.kept, config))
    decreases |p.kept|
  {
    hide Oldest, EstimateTokens, BudgetTokens;
    if EstimateTokens(p.kept) > BudgetTokens(config) {
      var chunks := Oldest(p.kept, config);
      DropOldest(p.kept, config);
      if |chunks| >= 2 {
        var next := Pruned(Concat(chunks[1..]), p.dropped + chunks[0], p.chunks + 1);
        DropsOneByOne(next, config);
        assert chunks[0] + next.kept == p.kept;
        assert DropToFit(next, config) == next ==> DroppedLast(next.dropped, chunks[0], next.kept, config);
      }
    }
  }

  /** Pruning stops as soon as the rest fits: with the chunk that was dropped last, the oldest
      of its split, the rest was over budget. */
  lemma DropsNoMore(messages: seq<Message>, config: Config)
    requires PruneHistory(messages, config).chunks > 0
    ensures var r := PruneHistory(messages, config);
            exists last, kept :: messages == r.dropped + kept && r.kept == RepairPairing(kept)
                                 && DroppedLast(r.dropped, last, kept, config)
  {
    hide Oldest, EstimateTokens, BudgetTokens, DroppedLast;
    DropToFitResult(Pruned(messages, [], 0), config);
    DropsOneByOne(Pruned(messages, [], 0), config);
    var p := DropToFit(Pruned(messages, [], 0), config);
    assert messages == p.dropped + p.kept;
  }

  // ----- what repair keeps

  /** An assistant of the history makes a call with this id. */
  ghost predicate CallsId(messages: seq<Message>, id: string) {
    id != "" && exists m :: m in messages && m.role == Assistant && id in m.callIds
  }

  lemma {:induction false} KnownIdsAre(messages: seq<Message>, id: string)
    ensures id in KnownIds(messages) <==> CallsId(messages, id)
  {
    if messages != [] {
      var init, m := messages[..|messages| - 1], messages[|messages| - 1];
      KnownIdsAre(init, id);
      assert messages == init + [m];
      if CallsId(messages, id) && !CallsId(init, id) {
        var x :| x in messages && x.role == Assistant && id in x.callIds;
        assert x == m;
      }
      if id in KnownIds(messages) && id !in KnownIds(init) {
        assert m in messages;
      }
    }
  }

  /** A result that names a call which nobody makes, in a history in which calls are made. */
  ghost predicate Unasked(messages: seq<Message>, m: Message) {
    && m.role == ToolResult && m.resultId != "" && !CallsId(messages, m.resultId)
    && exists id :: CallsId(messages, id)
  }

  /** Positions in increasing order. */
  predicate InOrder(at: seq<nat>) {
    forall i, j :: 0 <= i < j < |at| ==> at[i] < at[j]
  }

  ghost predicate KeptAt(repaired: seq<Message>, messages: seq<Message>, at: seq<nat>, keeps: Message -> bool) {
    && |repaired| == |at| && InOrder(at)
    && (forall i :: 0 <= i < |at| ==> at[i] < |messages| && repaired[i] == messages[at[i]])
    && forall k :: 0 <= k < |messages| ==> (k in at <==> keeps(messages[k]))
  }

  lemma {:induction false} WithoutOrphansAt(messages: seq<Message>, known: set<string>) returns (at: seq<nat>)
    ensures KeptAt(WithoutOrphans(messages, known), messages, at, m => !Orphan(m, known))
  {
    hide Orphan;
    if messages == [] {
      at := [];
    } else {
      var n := |messages| - 1;
      var init, m := messages[..n], messages[n];
      at := WithoutOrphansAt(init, known);
      var rest := WithoutOrphans(init, known);
      if Orphan(m, known) {
        assert rest + [] == rest;
      } else {
        var next := at + [n];
        assert forall k :: k in next <==> k in at || k == n;
        at := next;
      }
    }
  }

  /** Repair keeps, in order, every message but the results that nobody asked for. */
  lemma RepairKeeps(messages: seq<Message>) returns (at: seq<nat>)
    ensures var repaired := RepairPairing(messages);
            && |repaired| == |at| && InOrder(at)
            && (forall i :: 0 <= i < |at| ==> at[i] < |messages| && repaired[i] == messages[at[i]])
            && forall k :: 0 <= k < |messages| ==> (k in at <==> !Unasked(messages, messages[k]))
  {
    hide KnownIds, WithoutOrphans, CallsId;
    var known := KnownIds(messages);
    forall id ensures id in known <==> CallsId(messages, id) {
      KnownIdsAre(messages, id);
    }
    if known == {} {
      at := seq(|messages|, i => i);
      assert forall k :: 0 <= k < |messages| ==> at[k] == k;
    } else {
      var id :| id in known;
      assert CallsId(messages, id);
      at := WithoutOrphansAt(messages, known);
    }
  }
}
