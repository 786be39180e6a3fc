/** A ledger seen from the end of a past in which every call was claimed: the calls issued
    since, numbered from zero. A pass that goes on after such a past claims and registers
    calls exactly as one that starts there. */
module Rebasing {
  import opened Transcripts
  import opened Pairing

  /** No call issued before the n-th is waiting. */
  ghost predicate SettledBefore(l: Ledger, n: nat) {
    n <= |l.issued| && forall i :: 0 <= i < |l.pending| ==> l.pending[i].index >= n
  }

  function Shifted(pending: seq<Pending>, n: nat): (r: seq<Pending>)
    requires forall i :: 0 <= i < |pending| ==> pending[i].index >= n
    ensures |r| == |pending|
    ensures forall i :: 0 <= i < |pending| ==> r[i] == Pending(pending[i].call, pending[i].index - n)
  {
    seq(|pending|, i requires 0 <= i < |pending| => Pending(pending[i].call, pending[i].index - n))
  }

  /** The t-th call since has been claimed, and would have this key. */
  ghost predicate ClaimedAt(l: Ledger, n: nat, t: nat, k: Key) {
    n + t < |l.issued| && !Waiting(l, n + t) && k == KeyOf(l.issued[n + t], t)
  }

  function KeySince(l: Ledger, n: nat, t: nat): Key
    requires n + t < |l.issued|
  {
    KeyOf(l.issued[n + t], t)
  }

  ghost function ClaimedSince(l: Ledger, n: nat): (keys: set<Key>)
    requires n <= |l.issued|
    ensures forall k :: k in keys <==> exists t: nat :: ClaimedAt(l, n, t, k)
  {
    var keys := set t: nat | t < |l.issued| - n && ClaimedAt(l, n, t, KeySince(l, n, t)) :: KeySince(l, n, t);
    assert forall t: nat, k :: ClaimedAt(l, n, t, k) ==> k == KeySince(l, n, t);
    keys
  }

  ghost function Rebase(l: Ledger, n: nat): Ledger
    requires SettledBefore(l, n)
  {
    Ledger(l.issued[n..], Shifted(l.pending, n), ClaimedSince(l, n))
  }

  lemma RebaseWaits(l: Ledger, n: nat, t: nat)
    requires SettledBefore(l, n) && n + t < |l.issued|
    ensures Waiting(Rebase(l, n), t) <==> Waiting(l, n + t)
  {
    hide ClaimedSince;
    var p, q := Pending(l.issued[n + t], n + t), Pending(l.issued[n + t], t);
    if p in l.pending {
      var i :| 0 <= i < |l.pending| && l.pending[i] == p;
      assert Shifted(l.pending, n)[i] == q;
    }
    if q in Shifted(l.pending, n) {
      var i :| 0 <= i < |l.pending| && Shifted(l.pending, n)[i] == q;
      assert l.pending[i] == p;
    }
  }

  // ----- the matchers look at calls only

  ghost predicate SameCalls(a: seq<Pending>, b: seq<Pending>) {
    |a| == |b| && forall i :: 0 <= i < |a| ==> a[i].call == b[i].call
  }

  lemma SameCallsPick(a: seq<Pending>, b: seq<Pending>, who: Identity)
    requires SameCalls(a, b)
    ensures Pick(a, who) == Pick(b, who) && PickOrOnly(a, who) == PickOrOnly(b, who)
  {
    hide Pick;
    assert IsPick(a, who, Pick(a, who)) by {
      PickIsFirst(a, who, Pick(a, who));
    }
    SameCallsIsPick(a, b, who, Pick(a, who));
    PickIsFirst(b, who, Pick(a, who));
  }

  lemma SameCallsIsPick(a: seq<Pending>, b: seq<Pending>, who: Identity, i: int)
    requires SameCalls(a, b) && IsPick(a, who, i)
    ensures IsPick(b, who, i)
  {
  }

  lemma {:induction false} SameCallsIdentity(a: seq<Pending>, b: seq<Pending>)
    requires SameCalls(a, b)
    ensures FirstIdentity(a) == FirstIdentity(b)
  {
    if a != [] {
      assert a[0].Who() == b[0].Who();
      SameCallsIdentity(a[1..], b[1..]);
    }
  }

  lemma RebaseInfers(l: Ledger, n: nat, m: Message)
    requires SettledBefore(l, n)
    ensures Infer(m, Rebase(l, n).pending) == Infer(m, l.pending)
  {
    SameCallsIdentity(Rebase(l, n).pending, l.pending);
  }

  lemma RebasePicks(l: Ledger, n: nat, who: Identity)
    requires SettledBefore(l, n)
    ensures Pick(Rebase(l, n).pending, who) == Pick(l.pending, who)
    ensures PickOrOnly(Rebase(l, n).pending, who) == PickOrOnly(l.pending, who)
  {
    hide Pick, PickOrOnly;
    SameCallsPick(Rebase(l, n).pending, l.pending, who);
  }

  // ----- registering and claiming

  lemma RebaseIssueOne(l: Ledger, n: nat, call: Call)
    requires SettledBefore(l, n) && Valid(l)
    ensures SettledBefore(IssueOne(l, call), n)
    ensures Rebase(IssueOne(l, call), n) == IssueOne(Rebase(l, n), call)
  {
    hide KeyOf;
    var l1 := IssueOne(l, call);
    assert l1.issued[n..] == l.issued[n..] + [call];
    assert Shifted(l1.pending, n) == Shifted(l.pending, n) + [Pending(call, |l.issued| - n)];
    assert l1.pending[|l.pending|] == Pending(call, |l.issued|);
    forall t: nat, k ensures ClaimedAt(l1, n, t, k) <==> ClaimedAt(l, n, t, k) {
      if n + t < |l.issued| {
        assert Waiting(l1, n + t) <==> Waiting(l, n + t);
      }
    }
    assert forall k :: k in ClaimedSince(l1, n) <==> k in ClaimedSince(l, n);
  }

  lemma {:induction false} RebaseIssue(l: Ledger, n: nat, calls: seq<Call>, unnamed: bool)
    requires SettledBefore(l, n) && Valid(l)
    ensures SettledBefore(Issue(l, calls, unnamed), n) && Valid(Issue(l, calls, unnamed))
    ensures Rebase(Issue(l, calls, unnamed), n) == Issue(Rebase(l, n), calls, unnamed)
  {
    hide SettledBefore, Valid, Rebase, IssueOne;
    if calls != [] {
      var init, call := calls[..|calls| - 1], calls[|calls| - 1];
      RebaseIssue(l, n, init, unnamed);
      if Counts(call, unnamed) {
        RebaseIssueOne(Issue(l, init, unnamed), n, call);
        IssueOneValid(Issue(l, init, unnamed), call);
      }
    }
  }

  lemma SettledStays(l: Ledger, n: nat, i: nat)
    requires SettledBefore(l, n) && Valid(l) && i < |l.pending|
    ensures SettledBefore(Settle(l, i), n)
    ensures l.pending[i].index < |l.issued| && l.issued[l.pending[i].index] == l.pending[i].call
    ensures forall t :: 0 <= t < |l.issued| ==>
                          (Waiting(Settle(l, i), t) <==> Waiting(l, t) && t != l.pending[i].index)
  {
    hide KeyOf, Without;
    var l1, claimed := Settle(l, i), l.pending[i];
    WithoutMembers(l.pending, i);
    assert claimed in l.pending;
    forall k | 0 <= k < |l1.pending| ensures l1.pending[k].index >= n {
      assert l1.pending[k] in l1.pending;
      var j :| 0 <= j < |l.pending| && l.pending[j] == l1.pending[k];
    }
  }

  lemma RebaseClaims(l: Ledger, n: nat, i: nat)
    requires SettledBefore(l, n) && Valid(l) && i < |l.pending|
    ensures SettledBefore(Settle(l, i), n)
    ensures ClaimedSince(Settle(l, i), n) ==
            ClaimedSince(l, n) + {KeyOf(l.pending[i].call, l.pending[i].index - n)}
  {
    hide KeyOf, Without, Valid, Waiting;
    SettledStays(l, n, i);
    var l1, claimed := Settle(l, i), l.pending[i];
    var at, key := claimed.index - n, KeyOf(claimed.call, claimed.index - n);
    forall t: nat, k ensures ClaimedAt(l1, n, t, k) <==> ClaimedAt(l, n, t, k) || (t == at && k == key) {
      if n + t < |l.issued| {
        assert Waiting(l1, n + t) <==> Waiting(l, n + t) && n + t != claimed.index;
      }
    }
    assert ClaimedAt(l1, n, at, key);
    assert forall k :: k in ClaimedSince(l1, n) <==> k in ClaimedSince(l, n) || k == key;
  }

  lemma ShiftedWithout(pending: seq<Pending>, n: nat, i: nat)
    requires i < |pending| && forall k :: 0 <= k < |pending| ==> pending[k].index >= n
    ensures Shifted(Without(pending, i), n) == Without(Shifted(pending, n), i)
  {
  }

  lemma RebaseSettle(l: Ledger, n: nat, i: int)
    requires SettledBefore(l, n) && Valid(l) && -1 <= i < |l.pending|
    ensures SettledBefore(Settle(l, i), n) && Valid(Settle(l, i))
    ensures Rebase(Settle(l, i), n) == Settle(Rebase(l, n), i)
  {
    hide KeyOf, ClaimedSince, Valid;
    SettleValid(l, i);
    if i >= 0 {
      RebaseClaims(l, n, i);
      ShiftedWithout(l.pending, n, i);
    }
  }

  /** A call claimed in the rebased ledger was claimed in the ledger itself. */
  lemma RebaseMatched(l: Ledger, n: nat, t: nat)
    requires SettledBefore(l, n) && Valid(l) && n + t < |l.issued|
    requires KeyOf(l.issued[n + t], t) in Rebase(l, n).matched
    ensures KeyOf(l.issued[n + t], n + t) in l.matched
  {
    var u: nat :| ClaimedAt(l, n, u, KeyOf(l.issued[n + t], t));
    assert KeyOf(l.issued[n + u], n + u) in l.matched;
  }

  /** Nothing waits at the start: every call of the past was claimed. */
  lemma RebaseStart(l: Ledger)
    requires Valid(l) && l.pending == []
    ensures SettledBefore(l, |l.issued|) && Rebase(l, |l.issued|) == EMPTY
    ensures forall t :: 0 <= t < |l.issued| ==> KeyOf(l.issued[t], t) in l.matched
  {
  }
}
