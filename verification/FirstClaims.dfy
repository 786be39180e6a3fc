/** What replay reads of a turn's claims: the first identity of each row of role `Tool`. It
    numbers the same calls as the turn's own claims and settles no more of them. */
module FirstClaims {
  import opened Transcripts
  import opened Pairing
  import opened StoredCalls
  import opened StripProofs
  import opened ToolEvidence

  /** The identity by which replay lets a row claim, if it carries any. */
  function FirstOf(m: Message): Identity {
    if RowIdentities(m) == [] then Identity("", "") else RowIdentities(m)[0]
  }

  /** What replay reads of a message's claims: the first identity of a row of role `Tool`,
      and nothing else; no result of another message and no other spelling of the role. */
  function FirstOnly(m: Message): Message {
    if m.role == Tool then m.(name := FirstOf(m).name, id := FirstOf(m).id, results := [])
    else m.(role := if m.role == ToolAlias then OtherRole else m.role, results := [])
  }

  function Firsts(messages: seq<Message>): (r: seq<Message>)
    ensures |r| == |messages| && forall i :: 0 <= i < |r| ==> r[i] == FirstOnly(messages[i])
  {
    seq(|messages|, i requires 0 <= i < |messages| => FirstOnly(messages[i]))
  }

  /** The claims that replay reads settle every call that the turn's claims settle. */
  predicate SettledByFirst(messages: seq<Message>) {
    Collect(Firsts(messages)).matched == Collect(messages).matched
  }

  function Registered(l: Ledger, m: Message): Ledger {
    if m.role == Assistant then Issue(l, m.calls, true) else l
  }

  /** The one claim of a row, the last resort included. */
  function FirstClaim(l: Ledger, m: Message): Ledger {
    if m.role == Tool then Settle(l, PickOrOnly(l.pending, FirstOf(m))) else l
  }

  lemma SettleSingle(l: Ledger, who: Identity)
    ensures SettleAll(l, [who]) == Settle(l, PickOrOnly(l.pending, who))
  {
    assert [who][..0] == [];
  }

  lemma OnlyPending(l: Ledger)
    requires |l.pending| == 1
    ensures SettleAll(l, [l.pending[0].Who()]) == Settle(l, 0)
  {
    SettleSingle(l, l.pending[0].Who());
  }

  lemma SettleNone(l: Ledger)
    ensures SettleAll(l, []) == l && Settle(l, -1) == l
  {
  }

  lemma FirstIdentities(m: Message, pending: seq<Pending>)
    ensures CompletedIdentities(FirstOnly(m), pending) ==
            if m.role != Tool then []
            else if !FirstOf(m).Blank() then [FirstOf(m)]
            else if |pending| == 1 then [pending[0].Who()]
            else []
  {
    assert [FirstOf(m)] + [] == [FirstOf(m)];
  }

  /** Collecting keys from what replay reads is letting it make these claims. */
  lemma FirstStep(l: Ledger, m: Message)
    ensures StepCollect(l, FirstOnly(m)) == FirstClaim(Registered(l, m), m)
  {
    hide Issue, SettleAll, CompletedIdentities, Pick;
    var l1 := Registered(l, m);
    FirstIdentities(m, l1.pending);
    SettleNone(l1);
    SettleSingle(l1, FirstOf(m));
    if |l1.pending| == 1 {
      OnlyPending(l1);
    }
    BlankPicks(l1.pending);
  }

  lemma FirstsNext(messages: seq<Message>, m: Message)
    ensures Collect(Firsts(messages + [m])) == FirstClaim(Registered(Collect(Firsts(messages)), m), m)
  {
    hide Collect, FirstOnly, FirstClaim, Registered;
    assert Firsts(messages + [m]) == Firsts(messages) + [FirstOnly(m)];
    CollectStep(Firsts(messages), FirstOnly(m));
    FirstStep(Collect(Firsts(messages)), m);
  }

  lemma ClaimIssues(l: Ledger, m: Message)
    ensures FirstClaim(Registered(l, m), m).issued == l.issued + if m.role == Assistant then m.calls else []
  {
    hide Issue, PickOrOnly;
    IssueAppends(l, m.calls);
    assert l.issued + [] == l.issued;
  }

  lemma {:induction false} FirstsIssue(messages: seq<Message>)
    ensures Collect(Firsts(messages)).issued == Collect(messages).issued
  {
    if messages == [] {
      assert Firsts(messages) == messages;
    } else {
      hide Collect, StepCollect, FirstOnly, Firsts, FirstClaim, Registered;
      var init, m := messages[..|messages| - 1], messages[|messages| - 1];
      assert messages == init + [m];
      FirstsIssue(init);
      FirstsNext(init, m);
      CollectStep(init, m);
      StepIssues(Collect(init), m);
      ClaimIssues(Collect(Firsts(init)), m);
    }
  }

  /** In a turn in which assistants alone carry calls, all its calls are numbered. */
  lemma FirstsIssueCalls(messages: seq<Message>)
    requires NoForeignCalls(messages)
    ensures Collect(Firsts(messages)).issued == CallsOf(messages)
  {
    FirstsIssue(messages);
    CollectIssues(messages);
  }

  // ----- what replay reads settles no more

  /** `small` has numbered the same calls as `big` and has left no more of them waiting. */
  ghost predicate Covers(small: Ledger, big: Ledger) {
    && Valid(small) && Valid(big) && small.issued == big.issued
    && forall p :: p in small.pending ==> p in big.pending
  }

  function Upto(n: nat): (at: seq<nat>)
    ensures |at| == n && forall i :: 0 <= i < n ==> at[i] == i
  {
    seq(n, i => i)
  }

  lemma CoversEmbeds(small: Ledger, big: Ledger)
    requires Covers(small, big)
    ensures Embeds(small.pending, big.pending, Upto(|big.issued|)) && Increasing(Upto(|big.issued|))
    ensures Ordered(small.pending) && Ordered(big.pending)
  {
  }

  /** The same claim, if it is still to be made. */
  lemma CoversClaim(small: Ledger, big: Ledger, who: Identity)
    requires Covers(small, big)
    ensures Covers(Settle(small, PickOrOnly(small.pending, who)), Settle(big, PickOrOnly(big.pending, who)))
  {
    hide PickOrOnly, Without, KeyOf;
    var s, b, at := PickOrOnly(small.pending, who), PickOrOnly(big.pending, who), Upto(|big.issued|);
    CoversEmbeds(small, big);
    SettleValid(small, s);
    SettleValid(big, b);
    WithoutMembers(small.pending, s);
    WithoutMembers(big.pending, b);
    if b >= 0 && big.pending[b] in small.pending {
      var j :| 0 <= j < |small.pending| && small.pending[j] == big.pending[b];
      assert small.pending[j] in small.pending;
      PickOrOnlyAgrees(small.pending, big.pending, at, who, j);
    }
  }

  lemma CoversMore(small: Ledger, big: Ledger, i: int)
    requires Covers(small, big) && -1 <= i < |small.pending|
    ensures Covers(Settle(small, i), big)
  {
    hide Without, KeyOf;
    SettleValid(small, i);
    WithoutMembers(small.pending, i);
  }

  lemma {:induction false} CoversAll(small: Ledger, big: Ledger, who: seq<Identity>)
    requires Covers(small, big)
    ensures Covers(SettleAll(small, who), big)
  {
    if who != [] {
      hide Covers, PickOrOnly;
      CoversAll(small, big, who[..|who| - 1]);
      var l := SettleAll(small, who[..|who| - 1]);
      CoversMore(l, big, PickOrOnly(l.pending, who[|who| - 1]));
    }
  }

  lemma {:induction false} CoversFirst(small: Ledger, big: Ledger, who: seq<Identity>)
    requires Covers(small, big) && who != []
    ensures Covers(SettleAll(small, who), Settle(big, PickOrOnly(big.pending, who[0])))
  {
    hide Covers, PickOrOnly;
    var init := who[..|who| - 1];
    if init == [] {
      SettleSingle(small, who[0]);
      assert who == [who[0]];
      CoversClaim(small, big, who[0]);
    } else {
      CoversFirst(small, big, init);
      var l := SettleAll(small, init);
      CoversMore(l, Settle(big, PickOrOnly(big.pending, who[0])), PickOrOnly(l.pending, who[|who| - 1]));
    }
  }

  /** An anonymous row: the only pending call, if there is one. */
  lemma CoversOnly(small: Ledger, big: Ledger, m: Message)
    requires Covers(small, big) && m.role == Tool && RowIdentities(m) == []
    ensures Covers(SettleAll(small, CompletedIdentities(m, small.pending)), FirstClaim(big, m))
  {
    hide KeyOf, SettleAll, Pick;
    BlankPicks(big.pending);
    SettleNone(small);
    CoversEmbeds(small, big);
    if |big.pending| == 1 {
      OnlyOne(small.pending, big.pending, Upto(|big.issued|));
      if |small.pending| == 1 {
        OnlyPending(small);
        BlankPicks(small.pending);
        CoversClaim(small, big, Identity("", ""));
      } else {
        SettleValid(big, 0);
      }
    } else if |small.pending| == 1 {
      OnlyPending(small);
      CoversMore(small, big, 0);
    }
  }

  lemma CoversStep(small: Ledger, big: Ledger, m: Message)
    requires Covers(small, big)
    ensures Covers(SettleAll(small, CompletedIdentities(m, small.pending)), FirstClaim(big, m))
  {
    hide Covers, SettleAll, PickOrOnly;
    if m.role != Tool {
      CoversAll(small, big, CompletedIdentities(m, small.pending));
    } else if RowIdentities(m) == [] {
      CoversOnly(small, big, m);
    } else {
      assert CompletedIdentities(m, small.pending) == RowIdentities(m);
      CoversFirst(small, big, RowIdentities(m));
    }
  }

  lemma CoversIssueOne(small: Ledger, big: Ledger, call: Call)
    requires Covers(small, big)
    ensures Covers(IssueOne(small, call), IssueOne(big, call))
  {
    hide KeyOf;
    IssueOneValid(small, call);
    IssueOneValid(big, call);
  }

  lemma {:induction false} CoversIssue(small: Ledger, big: Ledger, calls: seq<Call>)
    requires Covers(small, big)
    ensures Covers(Issue(small, calls, true), Issue(big, calls, true))
  {
    hide Covers;
    if calls != [] {
      var init := calls[..|calls| - 1];
      CoversIssue(small, big, init);
      CoversIssueOne(Issue(small, init, true), Issue(big, init, true), calls[|calls| - 1]);
    }
  }

  lemma {:induction false} FirstsCovered(messages: seq<Message>)
    ensures Covers(Collect(messages), Collect(Firsts(messages)))
  {
    hide Covers, Collect, FirstClaim, SettleAll, CompletedIdentities, Issue;
    if messages == [] {
      assert Firsts(messages) == messages;
      NothingCollected();
      EmptyCovers();
    } else {
      var init, m := messages[..|messages| - 1], messages[|messages| - 1];
      assert messages == init + [m];
      FirstsCovered(init);
      CollectStep(init, m);
      FirstsNext(init, m);
      CoversIssue(Collect(init), Collect(Firsts(init)), m.calls);
      CoversStep(Registered(Collect(init), m), Registered(Collect(Firsts(init)), m), m);
    }
  }

  lemma EmptyCovers()
    ensures Covers(EMPTY, EMPTY)
  {
  }

  /** What replay reads of a turn settles no call that the turn's claims leave unsettled. */
  lemma FirstsSettleFewer(messages: seq<Message>)
    ensures Collect(Firsts(messages)).matched <= Collect(messages).matched
  {
    hide Collect, KeyOf;
    FirstsCovered(messages);
    var small, big := Collect(messages), Collect(Firsts(messages));
    forall k | k in big.matched ensures k in small.matched {
      var t: nat :| Claimed(big, t, k);
      assert !Waiting(small, t);
    }
  }
}
