/** Pairing of tool rows with pending tool calls: id first, then name, and for two
    of the three matchers a last resort to the only pending call. */
module Pairing {
  import opened Transcripts

  /** The match key "id:<id>" or "seq:<index>:<name>". */
  datatype Key = ById(id: string) | BySeq(index: nat, name: string)

  function KeyOf(call: Call, index: nat): Key {
    if call.id != "" then ById(call.id) else BySeq(index, call.name)
  }

  /** A call waiting for its row; `index` numbers the calls in the order they were issued. */
  datatype Pending = Pending(call: Call, index: nat) {
    function Who(): Identity {
      Identity(call.name, call.id)
    }

    function MatchKey(): Key {
      KeyOf(call, index)
    }
  }

  /** The bookkeeping of one pass over a transcript: the calls numbered so far, those
      still waiting, and the keys of those that a row has claimed. */
  datatype Ledger = Ledger(issued: seq<Call>, pending: seq<Pending>, matched: set<Key>)

  const EMPTY := Ledger([], [], {})

  // ----- matchers

  function FirstWithId(pending: seq<Pending>, id: string): (i: int)
    ensures -1 <= i < |pending|
    ensures i >= 0 ==> pending[i].call.id == id
    ensures forall k :: 0 <= k < (if i < 0 then |pending| else i) ==> pending[k].call.id != id
  {
    if pending == [] then -1
    else if pending[0].call.id == id then 0
    else
      var i := FirstWithId(pending[1..], id);
      if i < 0 then -1 else i + 1
  }

  function FirstWithName(pending: seq<Pending>, name: string): (i: int)
    ensures -1 <= i < |pending|
    ensures i >= 0 ==> pending[i].call.name == name
    ensures forall k :: 0 <= k < (if i < 0 then |pending| else i) ==> pending[k].call.name != name
  {
    if pending == [] then -1
    else if pending[0].call.name == name then 0
    else
      var i := FirstWithName(pending[1..], name);
      if i < 0 then -1 else i + 1
  }

  /** The pending call a row claims by id, else by name; -1 if there is none. */
  function Pick(pending: seq<Pending>, who: Identity): (i: int)
    ensures -1 <= i < |pending|
    ensures i >= 0 ==>
              || (who.id != "" && pending[i].call.id == who.id)
              || (who.name != "" && pending[i].call.name == who.name)
  {
    var byId := if who.id != "" then FirstWithId(pending, who.id) else -1;
    if byId >= 0 then byId
    else if who.name != "" then FirstWithName(pending, who.name)
    else -1
  }

  /** `i` is the first call with the row's id; only if there is none, the first with its
      name; -1 if there is neither. */
  ghost predicate IsPick(pending: seq<Pending>, who: Identity, i: int) {
    if exists k :: 0 <= k < |pending| && who.id != "" && pending[k].call.id == who.id then
      0 <= i < |pending| && pending[i].call.id == who.id && forall k :: 0 <= k < i ==> pending[k].call.id != who.id
    else if exists k :: 0 <= k < |pending| && who.name != "" && pending[k].call.name == who.name then
      0 <= i < |pending| && pending[i].call.name == who.name
      && forall k :: 0 <= k < i ==> pending[k].call.name != who.name
    else i == -1
  }

  lemma PickIsFirst(pending: seq<Pending>, who: Identity, i: int)
    ensures IsPick(pending, who, i) <==> i == Pick(pending, who)
  {
  }

  /** `Pick` with the last resort: a row that names no pending call takes the only one. */
  function PickOrOnly(pending: seq<Pending>, who: Identity): (i: int)
    ensures -1 <= i < |pending|
  {
    var i := Pick(pending, who);
    if i >= 0 then i else if |pending| == 1 then 0 else -1
  }

  function Without(pending: seq<Pending>, i: int): seq<Pending>
    requires -1 <= i < |pending|
  {
    if i < 0 then pending else pending[..i] + pending[i + 1..]
  }

  lemma WithoutFirst(pending: seq<Pending>)
    requires pending != []
    ensures Without(pending, 0) == pending[1..]
  {
  }

  /** The identity a row goes by: its own, else its first result's, else that of the
      first pending call. */
  function Infer(m: Message, pending: seq<Pending>): Identity {
    if !m.Own().Blank() then m.Own()
    else if ResultIdentities(m.results) != [] then ResultIdentities(m.results)[0]
    else FirstIdentity(pending)
  }

  function FirstIdentity(pending: seq<Pending>): (who: Identity)
    ensures who.Blank() <==> forall p :: p in pending ==> p.Who().Blank()
  {
    if pending == [] then Identity("", "")
    else if !pending[0].Who().Blank() then pending[0].Who()
    else FirstIdentity(pending[1..])
  }

  /** Writes the identity into the fields the row left empty. */
  function Fill(m: Message, who: Identity): Message {
    m.(name := if m.name == "" then who.name else m.name,
       id := if m.id == "" then who.id else m.id)
  }

  // ----- ledger updates

  /** Replay numbers only the calls that have a name; persistence numbers all of them. */
  predicate Counts(call: Call, unnamed: bool) {
    unnamed || call.name != ""
  }

  function IssueOne(l: Ledger, call: Call): Ledger {
    l.(issued := l.issued + [call], pending := l.pending + [Pending(call, |l.issued|)])
  }

  function Issue(l: Ledger, calls: seq<Call>, unnamed: bool): Ledger {
    if calls == [] then l
    else
      var l1 := Issue(l, calls[..|calls| - 1], unnamed);
      var call := calls[|calls| - 1];
      if Counts(call, unnamed) then IssueOne(l1, call) else l1
  }

  function Settle(l: Ledger, i: int): Ledger
    requires -1 <= i < |l.pending|
  {
    if i < 0 then l
    else l.(pending := Without(l.pending, i), matched := l.matched + {l.pending[i].MatchKey()})
  }

  datatype Kept = Kept(calls: seq<Call>, count: nat)

  /** The calls of one message whose key, numbered from `count`, was matched. */
  function Keep(calls: seq<Call>, count: nat, matched: set<Key>, unnamed: bool): Kept {
    if calls == [] then Kept([], count)
    else
      var k := Keep(calls[..|calls| - 1], count, matched, unnamed);
      var call := calls[|calls| - 1];
      if !Counts(call, unnamed) then k
      else if KeyOf(call, k.count) in matched then Kept(k.calls + [call], k.count + 1)
      else Kept(k.calls, k.count + 1)
  }

  // ----- what every pass keeps

  ghost predicate Ordered(pending: seq<Pending>) {
    forall i, j :: 0 <= i < j < |pending| ==> pending[i].index < pending[j].index
  }

  ghost predicate Waiting(l: Ledger, t: nat)
    requires t < |l.issued|
  {
    Pending(l.issued[t], t) in l.pending
  }

  /** Waiting calls are issued calls in issue order, and a key is matched exactly when
      some call with that key has been claimed. */
  ghost predicate Valid(l: Ledger) {
    && Ordered(l.pending)
    && (forall p :: p in l.pending ==> p.index < |l.issued| && l.issued[p.index] == p.call)
    && (forall t :: 0 <= t < |l.issued| ==> Waiting(l, t) || KeyOf(l.issued[t], t) in l.matched)
    && (forall k :: k in l.matched ==> exists t :: Claimed(l, t, k))
  }

  ghost predicate Claimed(l: Ledger, t: nat, k: Key) {
    t < |l.issued| && !Waiting(l, t) && KeyOf(l.issued[t], t) == k
  }

  lemma IssueOneValid(l: Ledger, call: Call)
    requires Valid(l)
    ensures Valid(IssueOne(l, call))
  {
    var l1 := IssueOne(l, call);
    forall k | k in l1.matched ensures exists t :: Claimed(l1, t, k) {
      var t :| Claimed(l, t, k);
      assert Claimed(l1, t, k);
    }
    forall t | 0 <= t < |l1.issued|
      ensures Waiting(l1, t) || KeyOf(l1.issued[t], t) in l1.matched
    {
      if t < |l.issued| {
        assert Waiting(l, t) || KeyOf(l.issued[t], t) in l.matched;
      } else {
        assert l1.pending[|l.pending|] == Pending(call, t);
      }
    }
  }

  lemma {:induction false} IssueValid(l: Ledger, calls: seq<Call>, unnamed: bool)
    requires Valid(l)
    ensures Valid(Issue(l, calls, unnamed))
    ensures Issue(l, calls, unnamed).matched == l.matched
    ensures l.issued <= Issue(l, calls, unnamed).issued
  {
    if calls != [] {
      IssueValid(l, calls[..|calls| - 1], unnamed);
      IssueOneValid(Issue(l, calls[..|calls| - 1], unnamed), calls[|calls| - 1]);
    }
  }

  lemma WithoutMembers(pending: seq<Pending>, i: int)
    requires Ordered(pending) && -1 <= i < |pending|
    ensures Ordered(Without(pending, i))
    ensures forall p :: p in Without(pending, i) <==> p in pending && (i < 0 || p != pending[i])
  {
    if i >= 0 {
      var rest := Without(pending, i);
      forall p ensures p in rest <==> p in pending && p != pending[i] {
        WithoutMember(pending, i, p);
      }
    }
  }

  lemma WithoutMember(pending: seq<Pending>, i: nat, p: Pending)
    requires Ordered(pending) && i < |pending|
    ensures p in Without(pending, i) <==> p in pending && p != pending[i]
  {
    var rest := Without(pending, i);
    if p in pending && p != pending[i] {
      var k :| 0 <= k < |pending| && pending[k] == p;
      assert rest[if k < i then k else k - 1] == p;
    }
    if p in rest {
      var k :| 0 <= k < |rest| && rest[k] == p;
      assert p == pending[if k < i then k else k + 1];
    }
  }

  lemma SettleValid(l: Ledger, i: int)
    requires Valid(l) && -1 <= i < |l.pending|
    ensures Valid(Settle(l, i))
  {
    WithoutMembers(l.pending, i);
    if i >= 0 {
      var l1 := Settle(l, i);
      var claimed := l.pending[i];
      forall t | 0 <= t < |l1.issued|
        ensures Waiting(l1, t) || KeyOf(l1.issued[t], t) in l1.matched
      {
        assert Waiting(l, t) || KeyOf(l.issued[t], t) in l.matched;
        if Pending(l.issued[t], t) == claimed {
          assert claimed.MatchKey() in l1.matched;
        }
      }
      forall k | k in l1.matched ensures exists t :: Claimed(l1, t, k) {
        if k in l.matched {
          var t :| Claimed(l, t, k);
          assert Claimed(l1, t, k);
        } else {
          assert Claimed(l1, claimed.index, k);
        }
      }
    }
  }

  // ----- a later pass sees fewer calls

  ghost predicate Increasing(at: seq<nat>) {
    forall i, j :: 0 <= i < j < |at| ==> at[i] < at[j]
  }

  predicate StandsFor(p: Pending, q: Pending, at: seq<nat>) {
    p.index < |at| && Pending(p.call, at[p.index]) == q
  }

  /** Every waiting call of `small` is a waiting call of `big`, whose number `at` gives. */
  ghost predicate Embeds(small: seq<Pending>, big: seq<Pending>, at: seq<nat>) {
    forall p :: p in small ==> p.index < |at| && Pending(p.call, at[p.index]) in big
  }

  /** Removing entry `b` of the larger list and `s` of the smaller one keeps the
      embedding, if `s` is the only entry that stands for `b`. */
  lemma WithoutEmbeds(small: seq<Pending>, big: seq<Pending>, at: seq<nat>, s: int, b: int)
    requires Ordered(small) && Ordered(big) && Increasing(at) && Embeds(small, big, at)
    requires -1 <= s < |small| && -1 <= b < |big|
    requires b >= 0 ==>
               forall j :: 0 <= j < |small| && StandsFor(small[j], big[b], at) ==> j == s
    ensures Embeds(Without(small, s), Without(big, b), at)
  {
    WithoutMembers(small, s);
    WithoutMembers(big, b);
    forall p | p in Without(small, s)
      ensures p.index < |at| && Pending(p.call, at[p.index]) in Without(big, b)
    {
      var j :| 0 <= j < |small| && small[j] == p;
    }
  }

  /** The order in which the larger list is searched is the order of the smaller one. */
  lemma EarlierInBig(small: seq<Pending>, big: seq<Pending>, at: seq<nat>, i: nat, j: nat, b: nat) returns (k: nat)
    requires Ordered(small) && Ordered(big) && Increasing(at) && Embeds(small, big, at)
    requires i < j < |small| && b < |big|
    requires StandsFor(small[j], big[b], at)
    ensures k < b && big[k].call == small[i].call
  {
    assert small[i] in small && small[i].index < small[j].index;
    k :| 0 <= k < |big| && big[k] == Pending(small[i].call, at[small[i].index]);
    assert big[k].index < big[b].index;
  }

  /** A matcher that claims a call in the larger list claims the same call in the
      smaller one whenever it is still waiting there. */
  lemma PickAgrees(small: seq<Pending>, big: seq<Pending>, at: seq<nat>, who: Identity, j: nat)
    requires Ordered(small) && Ordered(big) && Increasing(at) && Embeds(small, big, at)
    requires j < |small|
    requires Pick(big, who) >= 0 && StandsFor(small[j], big[Pick(big, who)], at)
    ensures Pick(small, who) == j
  {
    var b := Pick(big, who);
    forall i | 0 <= i < j
      ensures exists k :: 0 <= k < b && big[k].call == small[i].call
    {
      var k := EarlierInBig(small, big, at, i, j, b);
    }
    if who.id != "" && FirstWithId(big, who.id) < 0 {
      forall i | 0 <= i < |small| ensures small[i].call.id != who.id {
        assert small[i] in small;
        assert Pending(small[i].call, at[small[i].index]) in big;
      }
    }
  }

  lemma PickOrOnlyAgrees(small: seq<Pending>, big: seq<Pending>, at: seq<nat>, who: Identity, j: nat)
    requires Ordered(small) && Ordered(big) && Increasing(at) && Embeds(small, big, at)
    requires j < |small|
    requires PickOrOnly(big, who) >= 0 && StandsFor(small[j], big[PickOrOnly(big, who)], at)
    ensures PickOrOnly(small, who) == j
  {
    if Pick(big, who) >= 0 {
      PickAgrees(small, big, at, who, j);
    } else {
      OnlyOne(small, big, at);
      UnmatchedStays(small, big, at, who);
    }
  }

  lemma OnlyOne(small: seq<Pending>, big: seq<Pending>, at: seq<nat>)
    requires Ordered(small) && Increasing(at) && Embeds(small, big, at)
    requires |big| == 1
    ensures |small| <= 1
  {
    assert forall i :: 0 <= i < |small| ==> small[i] in small && StandsFor(small[i], big[0], at);
    assert |small| > 1 ==> small[0].index < small[1].index;
  }

  lemma UnmatchedStays(small: seq<Pending>, big: seq<Pending>, at: seq<nat>, who: Identity)
    requires Embeds(small, big, at)
    requires Pick(big, who) < 0
    ensures Pick(small, who) < 0
  {
    var s := Pick(small, who);
    if s >= 0 {
      assert small[s] in small;
      var k :| 0 <= k < |big| && big[k] == Pending(small[s].call, at[small[s].index]);
    }
  }

  // ----- two ledgers of related passes

  /** `small` is the ledger of a pass over the calls of `big` whose key is in `kept`;
      `at` gives each of its calls the number it had in `big`. */
  ghost predicate Follows(small: Ledger, big: Ledger, at: seq<nat>, kept: set<Key>) {
    && Valid(small) && Valid(big)
    && |at| == |small.issued| && Increasing(at)
    && (forall j :: 0 <= j < |at| ==> at[j] < |big.issued| && big.issued[at[j]] == small.issued[j])
    && (forall t :: 0 <= t < |big.issued| ==> (KeyOf(big.issued[t], t) in kept <==> t in at))
    && Embeds(small.pending, big.pending, at)
  }

  /** The later pass has claimed no call that still waits in the earlier one. */
  ghost predicate Tight(small: Ledger, big: Ledger, at: seq<nat>)
    requires |at| == |small.issued| && forall j :: 0 <= j < |at| ==> at[j] < |big.issued|
  {
    forall j :: 0 <= j < |at| && Waiting(big, at[j]) ==> Waiting(small, j)
  }

  lemma IssueOneEmbeds(small: Ledger, big: Ledger, at: seq<nat>, call: Call)
    requires Embeds(small.pending, big.pending, at) && |at| == |small.issued|
    ensures Embeds(IssueOne(small, call).pending, IssueOne(big, call).pending, at + [|big.issued|])
  {
    var b := IssueOne(big, call);
    assert b.pending[|big.pending|] == Pending(call, |big.issued|);
    assert forall p :: p in b.pending <==> p in big.pending || p == Pending(call, |big.issued|);
  }

  /** Numbering `call` in both passes keeps the positions right. */
  lemma KeptOneAt(small: Ledger, big: Ledger, at: seq<nat>, kept: set<Key>, call: Call)
    requires Follows(small, big, at, kept) && KeyOf(call, |big.issued|) in kept
    ensures var issued, at' := big.issued + [call], at + [|big.issued|];
            forall t :: 0 <= t < |issued| ==> (KeyOf(issued[t], t) in kept <==> t in at')
  {
    var issued, at' := big.issued + [call], at + [|big.issued|];
    assert forall t :: t in at' <==> t in at || t == |big.issued|;
    forall t | 0 <= t < |issued| ensures KeyOf(issued[t], t) in kept <==> t in at' {
      if t < |big.issued| {
        assert issued[t] == big.issued[t];
      }
    }
  }

  lemma KeptOneTight(small: Ledger, big: Ledger, at: seq<nat>, call: Call)
    requires |at| == |small.issued| && forall j :: 0 <= j < |at| ==> at[j] < |big.issued|
    requires Tight(small, big, at)
    ensures Tight(IssueOne(small, call), IssueOne(big, call), at + [|big.issued|])
  {
    var s, b, at' := IssueOne(small, call), IssueOne(big, call), at + [|big.issued|];
    forall j | 0 <= j < |at'| && Waiting(b, at'[j]) ensures Waiting(s, j) {
      if j < |at| {
        assert Waiting(big, at[j]);
        assert Waiting(small, j);
      } else {
        assert s.pending[|small.pending|] == Pending(call, j);
      }
    }
  }

  lemma KeptOneFollows(small: Ledger, big: Ledger, at: seq<nat>, kept: set<Key>, call: Call)
    requires Follows(small, big, at, kept) && KeyOf(call, |big.issued|) in kept
    ensures Follows(IssueOne(small, call), IssueOne(big, call), at + [|big.issued|], kept)
    ensures Tight(small, big, at) ==> Tight(IssueOne(small, call), IssueOne(big, call), at + [|big.issued|])
  {
    hide KeyOf, Valid, Embeds, Tight;
    IssueOneValid(small, call);
    IssueOneValid(big, call);
    IssueOneEmbeds(small, big, at, call);
    KeptOneAt(small, big, at, kept, call);
    if Tight(small, big, at) {
      KeptOneTight(small, big, at, call);
    }
  }

  lemma DroppedOneFollows(small: Ledger, big: Ledger, at: seq<nat>, kept: set<Key>, call: Call)
    requires Follows(small, big, at, kept) && KeyOf(call, |big.issued|) !in kept
    ensures Follows(small, IssueOne(big, call), at, kept)
    ensures Tight(small, big, at) ==> Tight(small, IssueOne(big, call), at)
  {
    var b := IssueOne(big, call);
    IssueOneValid(big, call);
    forall t | 0 <= t < |b.issued| ensures KeyOf(b.issued[t], t) in kept <==> t in at {
      if t < |big.issued| {
        assert b.issued[t] == big.issued[t];
      }
    }
    assert forall p :: p in b.pending <==> p in big.pending || p == Pending(call, |big.issued|);
    assert forall j :: 0 <= j < |at| && Waiting(b, at[j]) ==> Waiting(big, at[j]);
  }

  lemma {:induction false} IssueFollows(small: Ledger, big: Ledger, at: seq<nat>, kept: set<Key>,
                                        calls: seq<Call>, unnamed: bool)
    returns (at': seq<nat>)
    requires Follows(small, big, at, kept)
    ensures at <= at'
    ensures Keep(calls, |big.issued|, kept, unnamed).count == |Issue(big, calls, unnamed).issued|
    ensures Follows(Issue(small, Keep(calls, |big.issued|, kept, unnamed).calls, unnamed),
                    Issue(big, calls, unnamed), at', kept)
    ensures Tight(small, big, at) ==>
              Tight(Issue(small, Keep(calls, |big.issued|, kept, unnamed).calls, unnamed),
                Issue(big, calls, unnamed), at')
  {
    hide Follows, Tight, KeyOf;
    if calls == [] {
      at' := at;
    } else {
      var init, call := calls[..|calls| - 1], calls[|calls| - 1];
      at' := IssueFollows(small, big, at, kept, init, unnamed);
      var k := Keep(init, |big.issued|, kept, unnamed).calls;
      var b, s := Issue(big, init, unnamed), Issue(small, k, unnamed);
      if Counts(call, unnamed) {
        if KeyOf(call, |b.issued|) in kept {
          assert (k + [call])[..|k|] == k;
          KeptOneFollows(s, b, at', kept, call);
          at' := at' + [|b.issued|];
        } else {
          DroppedOneFollows(s, b, at', kept, call);
        }
      }
    }
  }

  /** Both passes let the row claim by the same rule; the later one may go on claiming. */
  lemma SettleFollows(small: Ledger, big: Ledger, at: seq<nat>, kept: set<Key>, s: int, b: int)
    requires Follows(small, big, at, kept)
    requires -1 <= s < |small.pending| && -1 <= b < |big.pending|
    requires b >= 0 ==>
               forall j :: 0 <= j < |small.pending| && StandsFor(small.pending[j], big.pending[b], at) ==> j == s
    ensures Follows(Settle(small, s), Settle(big, b), at, kept)
  {
    SettleValid(small, s);
    SettleValid(big, b);
    WithoutEmbeds(small.pending, big.pending, at, s, b);
  }

  lemma SettleTight(small: Ledger, big: Ledger, at: seq<nat>, s: int, b: int)
    requires Ordered(small.pending) && Ordered(big.pending)
    requires |at| == |small.issued|
    requires forall j :: 0 <= j < |at| ==> at[j] < |big.issued| && big.issued[at[j]] == small.issued[j]
    requires Tight(small, big, at)
    requires -1 <= s < |small.pending| && -1 <= b < |big.pending|
    requires s >= 0 ==> b >= 0 && StandsFor(small.pending[s], big.pending[b], at)
    ensures Tight(Settle(small, s), Settle(big, b), at)
  {
    hide Without, Ordered;
    WithoutMembers(small.pending, s);
    WithoutMembers(big.pending, b);
    forall j | 0 <= j < |at| && Waiting(Settle(big, b), at[j]) ensures Waiting(Settle(small, s), j) {
      assert Waiting(big, at[j]);
      assert Waiting(small, j);
    }
  }

  /** If every claim of the earlier pass is of a call that was kept, the later pass
      makes the same claims. */
  lemma PickTight(small: Ledger, big: Ledger, at: seq<nat>, kept: set<Key>, who: Identity)
    requires Follows(small, big, at, kept) && Tight(small, big, at)
    requires var b := Pick(big.pending, who); b >= 0 ==> big.pending[b].MatchKey() in kept
    ensures Tight(Settle(small, Pick(small.pending, who)), Settle(big, Pick(big.pending, who)), at)
  {
    hide Pick, Tight;
    var s, b := Pick(small.pending, who), Pick(big.pending, who);
    if b < 0 {
      UnmatchedStays(small.pending, big.pending, at, who);
    } else {
      var k := ClaimedStands(small, big, at, kept, b);
      PickAgrees(small.pending, big.pending, at, who, k);
    }
    SettleTight(small, big, at, s, b);
  }

  lemma ClaimedStands(small: Ledger, big: Ledger, at: seq<nat>, kept: set<Key>, b: nat) returns (k: nat)
    requires Follows(small, big, at, kept) && Tight(small, big, at)
    requires b < |big.pending| && big.pending[b].MatchKey() in kept
    ensures k < |small.pending| && StandsFor(small.pending[k], big.pending[b], at)
  {
    var claimed := big.pending[b];
    assert claimed in big.pending;
    var i :| 0 <= i < |at| && at[i] == claimed.index;
    assert Waiting(small, i);
    k :| 0 <= k < |small.pending| && small.pending[k] == Pending(small.issued[i], i);
  }

  /** Every call that was kept because its key was matched has its new key matched by
      the later pass, although the `BySeq` keys are numbered anew. */
  lemma KeptIsMatched(small: Ledger, big: Ledger, at: seq<nat>)
    requires Follows(small, big, at, big.matched)
    ensures forall j :: 0 <= j < |small.issued| ==> KeyOf(small.issued[j], j) in small.matched
  {
    forall j | 0 <= j < |small.issued| ensures KeyOf(small.issued[j], j) in small.matched {
      assert at[j] in at;
      var key := KeyOf(big.issued[at[j]], at[j]);
      assert key in big.matched;
      var t :| Claimed(big, t, key);
      assert t in at;
      var i :| 0 <= i < |at| && at[i] == t;
      assert !Waiting(small, i);
      assert KeyOf(small.issued[i], i) in small.matched;
      if key.BySeq? {
        assert i == j;
      }
    }
  }
}
