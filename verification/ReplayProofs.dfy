/** What the model sees after replay: every tool return answers its own, earlier tool
    call, and when calls and returns are in bijection. */
module ReplayProofs {
  import opened Transcripts
  import opened Pairing
  import opened HistoryMemory
  import opened Sequences

  function Flatten(history: seq<ModelMessage>): seq<Part> {
    if history == [] then []
    else Flatten(history[..|history| - 1]) + history[|history| - 1].parts
  }

  ghost predicate Agrees(call: Part, ret: Part) {
    && call.CallPart? && ret.ReturnPart?
    && (call.name == ret.name || (ret.id != "" && call.id == ret.id))
  }

  predicate IsReturn(parts: seq<Part>, r: nat) {
    r < |parts| && parts[r].ReturnPart?
  }

  /** `mate` gives every return part, and nothing else, a call part of its own: an
      earlier one with the same id or the same name. */
  ghost predicate Mates(parts: seq<Part>, mate: map<nat, nat>) {
    && (forall r: nat :: r in mate <==> IsReturn(parts, r))
    && (forall r :: r in mate ==> mate[r] < r && Agrees(parts[mate[r]], parts[r]))
    && (forall r, s :: r in mate && s in mate && r != s ==> mate[r] != mate[s])
  }

  ghost function CallSet(parts: seq<Part>): set<nat> {
    set c: nat | c < |parts| && parts[c].CallPart?
  }

  ghost predicate Onto(parts: seq<Part>, mate: map<nat, nat>) {
    forall c :: c in CallSet(parts) ==> c in mate.Values
  }

  /** Calls and returns are in bijection, each call before its return. */
  ghost predicate Balanced(parts: seq<Part>) {
    exists mate: map<nat, nat> :: Mates(parts, mate) && Onto(parts, mate)
  }

  // ----- the witness, built along the run

  function PartOf(call: Call): Part {
    CallPart(call.name, call.args, call.id)
  }

  /** `callAt` gives the position of the part of every issued call. */
  ghost predicate Located(parts: seq<Part>, l: Ledger, callAt: seq<nat>) {
    && |callAt| == |l.issued| && Increasing(callAt)
    && forall t :: 0 <= t < |callAt| ==> callAt[t] < |parts| && parts[callAt[t]] == PartOf(l.issued[t])
  }

  ghost predicate Sound(parts: seq<Part>, l: Ledger, callAt: seq<nat>, mate: map<nat, nat>) {
    && Valid(l) && Located(parts, l, callAt) && Mates(parts, mate)
    && forall t, r :: 0 <= t < |l.issued| && Waiting(l, t) && r in mate ==> mate[r] != callAt[t]
  }

  lemma AppendQuiet(parts: seq<Part>, l: Ledger, callAt: seq<nat>, mate: map<nat, nat>, part: Part)
    requires Sound(parts, l, callAt, mate) && !part.ReturnPart?
    ensures Sound(parts + [part], l, callAt, mate)
  {
  }

  lemma {:induction false} AppendQuietAll(parts: seq<Part>, l: Ledger, callAt: seq<nat>, mate: map<nat, nat>,
                                          more: seq<Part>)
    requires Sound(parts, l, callAt, mate) && forall p :: p in more ==> !p.ReturnPart?
    ensures Sound(parts + more, l, callAt, mate)
    decreases |more|
  {
    if more == [] {
      assert parts + more == parts;
    } else {
      AppendQuiet(parts, l, callAt, mate, more[0]);
      AppendQuietAll(parts + [more[0]], l, callAt, mate, more[1..]);
      assert parts + [more[0]] + more[1..] == parts + more;
    }
  }

  lemma AppendCall(parts: seq<Part>, l: Ledger, callAt: seq<nat>, mate: map<nat, nat>, call: Call)
    requires Sound(parts, l, callAt, mate)
    ensures Sound(parts + [PartOf(call)], IssueOne(l, call), callAt + [|parts|], mate)
  {
    IssueOneValid(l, call);
    AppendQuiet(parts, l, callAt, mate, PartOf(call));
    var l' := IssueOne(l, call);
    forall t, r | 0 <= t < |l'.issued| && Waiting(l', t) && r in mate ensures mate[r] != (callAt + [|parts|])[t] {
      if t < |l.issued| {
        assert Waiting(l, t);
      }
    }
  }

  lemma {:induction false} AppendCalls(parts: seq<Part>, l: Ledger, callAt: seq<nat>, mate: map<nat, nat>,
                                       calls: seq<Call>)
    returns (callAt': seq<nat>)
    requires Sound(parts, l, callAt, mate)
    ensures Sound(parts + CallParts(calls), Issue(l, calls, false), callAt', mate)
  {
    if calls == [] {
      callAt' := callAt;
      assert parts + CallParts(calls) == parts;
    } else {
      var init, call := calls[..|calls| - 1], calls[|calls| - 1];
      callAt' := AppendCalls(parts, l, callAt, mate, init);
      var parts1 := parts + CallParts(init);
      if call.name != "" {
        AppendCall(parts1, Issue(l, init, false), callAt', mate, call);
        callAt' := callAt' + [|parts1|];
        assert parts1 + [PartOf(call)] == parts + CallParts(calls);
      } else {
        assert parts1 == parts + CallParts(calls);
      }
    }
  }

  ghost predicate Free(l: Ledger, callAt: seq<nat>, mate: map<nat, nat>, spot: nat)
    requires |callAt| == |l.issued|
  {
    && (forall t :: 0 <= t < |l.issued| && Waiting(l, t) ==> spot != callAt[t])
    && (forall r :: r in mate ==> mate[r] != spot)
  }

  lemma AppendReturn(parts: seq<Part>, l: Ledger, callAt: seq<nat>, mate: map<nat, nat>, ret: Part, spot: nat)
    requires Sound(parts, l, callAt, mate)
    requires spot < |parts| && Agrees(parts[spot], ret) && Free(l, callAt, mate, spot)
    ensures Sound(parts + [ret], l, callAt, mate[|parts| := spot])
  {
    var parts', mate' := parts + [ret], mate[|parts| := spot];
    forall r | r in mate' ensures mate'[r] < r && Agrees(parts'[mate'[r]], parts'[r]) {
      if r != |parts| {
        assert mate[r] < r && Agrees(parts[mate[r]], parts[r]);
      }
    }
  }

  lemma {:induction false} AppendReturns(parts: seq<Part>, l: Ledger, callAt: seq<nat>, mate: map<nat, nat>,
                                         rets: seq<Part>, spots: seq<nat>)
    returns (mate': map<nat, nat>)
    requires Sound(parts, l, callAt, mate)
    requires |rets| == |spots|
    requires forall i :: 0 <= i < |spots| ==>
                           spots[i] < |parts| && Agrees(parts[spots[i]], rets[i]) && Free(l, callAt, mate, spots[i])
    requires forall i, j :: 0 <= i < j < |spots| ==> spots[i] != spots[j]
    ensures Sound(parts + rets, l, callAt, mate')
    decreases |rets|
  {
    mate' := mate;
    if rets == [] {
      assert parts + rets == parts;
    } else {
      AppendReturn(parts, l, callAt, mate, rets[0], spots[0]);
      var mate1 := mate[|parts| := spots[0]];
      forall i | 0 <= i < |spots[1..]| ensures Free(l, callAt, mate1, spots[1..][i]) {
        assert Free(l, callAt, mate, spots[i + 1]);
      }
      mate' := AppendReturns(parts + [rets[0]], l, callAt, mate1, rets[1..], spots[1..]);
      assert parts + [rets[0]] + rets[1..] == parts + rets;
    }
  }

  // ----- one tool row

  function Named(who: seq<Identity>): seq<Identity> {
    if who == [] then []
    else Named(who[..|who| - 1]) + if who[|who| - 1].name != "" then [who[|who| - 1]] else []
  }

  lemma {:induction false} NamedConcat(a: seq<Identity>, b: seq<Identity>)
    ensures Named(a + b) == Named(a) + Named(b)
  {
    if b == [] {
      assert a + b == a;
    } else {
      assert (a + b)[..|a + b| - 1] == a + b[..|b| - 1];
      NamedConcat(a, b[..|b| - 1]);
    }
  }

  predicate Answers(ret: Part, who: Identity) {
    ret.ReturnPart? && ret.name == who.name && ret.id == who.id
  }

  ghost predicate AnswerAll(rets: seq<Part>, who: seq<Identity>) {
    |rets| == |who| && forall i :: 0 <= i < |rets| ==> Answers(rets[i], who[i])
  }

  lemma NamedFirst(w: Identity, rest: seq<Identity>)
    ensures Named([w] + rest) == (if w.name != "" then [w] else []) + Named(rest)
  {
    NamedConcat([w], rest);
    assert [w][..0] == [];
    assert Named([w]) == if w.name != "" then [w] else [];
  }

  lemma NothingNamed()
    ensures Named([]) == [] && AnswerAll([], [])
  {
  }

  lemma AnswerFirst(ret: Part, rets: seq<Part>, w: Identity, who: seq<Identity>)
    requires Answers(ret, w) && AnswerAll(rets, who)
    ensures AnswerAll([ret] + rets, [w] + who)
  {
  }

  /** A result without a name returns nothing and has no named identity. */
  lemma Regrouped(r: Outcome, rest: seq<Outcome>)
    requires r.name == ""
    ensures ResultParts([r] + rest) == ResultParts(rest)
    ensures Named(ResultIdentities([r] + rest)) == Named(ResultIdentities(rest))
  {
    NamedFirst(r.Who(), ResultIdentities(rest));
    assert ([r] + rest)[1..] == rest;
  }

  lemma {:induction false} ResultPartsNamed(results: seq<Outcome>)
    ensures AnswerAll(ResultParts(results), Named(ResultIdentities(results)))
  {
    hide Named, AnswerAll;
    if results == [] {
      NothingNamed();
    } else {
      var r, rest := results[0], results[1..];
      ResultPartsNamed(rest);
      NamedFirst(r.Who(), ResultIdentities(rest));
      if r.name != "" {
        AnswerFirst(ReturnPart(r.name, r.content, r.id), ResultParts(rest), r.Who(), Named(ResultIdentities(rest)));
      } else {
        Regrouped(r, rest);
        assert [r] + rest == results;
      }
    }
  }

  /** A row's return parts are its named identities, in order. */
  lemma ReturnPartsNamed(m: Message)
    ensures AnswerAll(ReturnParts(m), Named(RowIdentities(m)))
  {
    hide Named, AnswerAll, ResultParts, ResultIdentities;
    var rets, who := ResultParts(m.results), ResultIdentities(m.results);
    ResultPartsNamed(m.results);
    NamedFirst(m.Own(), who);
    if m.name != "" {
      AnswerFirst(ReturnPart(m.name, m.content, m.id), rets, m.Own(), Named(who));
    } else {
      assert ReturnParts(m) == rets && [] + Named(who) == Named(who);
      assert m.Own().Blank() ==> RowIdentities(m) == who;
    }
  }

  lemma SettleIndex(l: Ledger, i: int)
    requires Valid(l) && 0 <= i < |l.pending|
    ensures l.pending[i].index < |l.issued|
    ensures Waiting(l, l.pending[i].index) && !Waiting(Settle(l, i), l.pending[i].index)
    ensures forall t :: 0 <= t < |l.issued| && Waiting(Settle(l, i), t) ==> Waiting(l, t)
    ensures Valid(Settle(l, i))
  {
    SettleValid(l, i);
    WithoutMembers(l.pending, i);
    assert l.pending[i] in l.pending;
  }

  /** Where the call for one named identity of a row is: a call that was waiting and no
      longer is, or the j-th synthetic part, which goes to position `base + j`. */
  ghost predicate SpotFor(before: Ledger, c: Claims, callAt: seq<nat>, base: nat, who: Identity, spot: nat)
    requires |callAt| == |before.issued| && c.ledger.issued == before.issued
  {
    if spot < base then
      exists t: nat :: TakenAt(before, c.ledger, callAt, who, spot, t)
    else
      spot < base + |c.synthetic| && c.synthetic[spot - base] == CallPart(who.name, "", who.id)
  }

  ghost predicate Taken(before: Ledger, after: Ledger, t: nat)
    requires after.issued == before.issued
  {
    t < |before.issued| && Waiting(before, t) && !Waiting(after, t)
  }

  /** The claimed call `t` is at position `spot` and agrees with the row's identity. */
  ghost predicate TakenAt(before: Ledger, after: Ledger, callAt: seq<nat>, who: Identity, spot: nat, t: nat)
    requires |callAt| == |before.issued| && after.issued == before.issued
  {
    Taken(before, after, t) && callAt[t] == spot
    && Agrees(PartOf(before.issued[t]), ReturnPart(who.name, "", who.id))
  }

  lemma ClaimedSpot(l: Ledger, c: Claims, c': Claims, callAt: seq<nat>, base: nat, w: Identity, t: nat, i: int)
    requires Valid(c.ledger) && |callAt| == |l.issued| && c.ledger.issued == l.issued
    requires forall u :: 0 <= u < |callAt| ==> callAt[u] < base
    requires i == Pick(c.ledger.pending, w) >= 0 && t == c.ledger.pending[i].index && w.name != ""
    requires forall u :: 0 <= u < |l.issued| && Waiting(c.ledger, u) ==> Waiting(l, u)
    requires c'.ledger == Settle(c.ledger, i)
    ensures t < |l.issued| && SpotFor(l, c', callAt, base, w, callAt[t])
  {
    hide Pick, Without;
    SettleIndex(c.ledger, i);
    assert c.ledger.pending[i] in c.ledger.pending;
    assert TakenAt(l, c'.ledger, callAt, w, callAt[t], t);
  }

  lemma SyntheticSpot(l: Ledger, c: Claims, callAt: seq<nat>, base: nat, w: Identity)
    requires |callAt| == |l.issued| && c.ledger.issued == l.issued
    requires c.synthetic != [] && c.synthetic[|c.synthetic| - 1] == CallPart(w.name, "", w.id)
    ensures SpotFor(l, c, callAt, base, w, base + |c.synthetic| - 1)
  {
  }

  lemma {:induction false} ClaimSpots(l: Ledger, who: seq<Identity>, callAt: seq<nat>, base: nat)
    returns (spots: seq<nat>)
    requires Valid(l) && |callAt| == |l.issued| && Increasing(callAt)
    requires forall t :: 0 <= t < |callAt| ==> callAt[t] < base
    ensures Valid(ClaimAll(l, who).ledger) && ClaimAll(l, who).ledger.issued == l.issued
    ensures forall t :: 0 <= t < |l.issued| && Waiting(ClaimAll(l, who).ledger, t) ==> Waiting(l, t)
    ensures |spots| == |Named(who)|
    ensures forall i :: 0 <= i < |spots| ==> SpotFor(l, ClaimAll(l, who), callAt, base, Named(who)[i], spots[i])
    ensures forall i, j :: 0 <= i < j < |spots| ==> spots[i] != spots[j]
  {
    hide Pick, SpotFor, TakenAt, Valid;
    spots := [];
    if who != [] {
      var init, w := who[..|who| - 1], who[|who| - 1];
      spots := ClaimSpots(l, init, callAt, base);
      var c, c' := ClaimAll(l, init), ClaimAll(l, who);
      var i := Pick(c.ledger.pending, w);
      if i >= 0 {
        SettleIndex(c.ledger, i);
        var t := c.ledger.pending[i].index;
        SpotsGrow(l, c, c', callAt, base, Named(init), spots);
        FreshSpot(l, c, callAt, base, Named(init), spots, t);
        if w.name != "" {
          ClaimedSpot(l, c, c', callAt, base, w, t, i);
          spots := spots + [callAt[t]];
        }
      } else if w.name != "" {
        SpotsGrow(l, c, c', callAt, base, Named(init), spots);
        SyntheticSpot(l, c', callAt, base, w);
        SpotsBelow(l, c, callAt, base, Named(init), spots);
        spots := spots + [base + |c.synthetic|];
      }
    }
  }

  lemma SpotsGrow(l: Ledger, c: Claims, c': Claims, callAt: seq<nat>, base: nat, who: seq<Identity>, spots: seq<nat>)
    requires |callAt| == |l.issued| && c.ledger.issued == l.issued == c'.ledger.issued && |who| == |spots|
    requires c.synthetic <= c'.synthetic
    requires forall t :: 0 <= t < |l.issued| && Waiting(c'.ledger, t) ==> Waiting(c.ledger, t)
    requires forall i :: 0 <= i < |spots| ==> SpotFor(l, c, callAt, base, who[i], spots[i])
    ensures forall i :: 0 <= i < |spots| ==> SpotFor(l, c', callAt, base, who[i], spots[i])
  {
    forall i | 0 <= i < |spots| ensures SpotFor(l, c', callAt, base, who[i], spots[i]) {
      assert SpotFor(l, c, callAt, base, who[i], spots[i]);
      if spots[i] < base {
        var t: nat :| TakenAt(l, c.ledger, callAt, who[i], spots[i], t);
        assert TakenAt(l, c'.ledger, callAt, who[i], spots[i], t);
      }
    }
  }

  lemma FreshSpot(l: Ledger, c: Claims, callAt: seq<nat>, base: nat, who: seq<Identity>, spots: seq<nat>, t: nat)
    requires |callAt| == |l.issued| && Increasing(callAt) && c.ledger.issued == l.issued && |who| == |spots|
    requires forall i :: 0 <= i < |spots| ==> SpotFor(l, c, callAt, base, who[i], spots[i])
    requires t < |l.issued| && Waiting(c.ledger, t) && callAt[t] < base
    ensures forall i :: 0 <= i < |spots| ==> spots[i] != callAt[t]
  {
    forall i | 0 <= i < |spots| ensures spots[i] != callAt[t] {
      assert SpotFor(l, c, callAt, base, who[i], spots[i]);
      if spots[i] < base {
        var u: nat :| TakenAt(l, c.ledger, callAt, who[i], spots[i], u);
        assert u < t || t < u;
      }
    }
  }

  lemma SpotsBelow(l: Ledger, c: Claims, callAt: seq<nat>, base: nat, who: seq<Identity>, spots: seq<nat>)
    requires |callAt| == |l.issued| && c.ledger.issued == l.issued && |who| == |spots|
    requires forall i :: 0 <= i < |spots| ==> SpotFor(l, c, callAt, base, who[i], spots[i])
    ensures forall i :: 0 <= i < |spots| ==> spots[i] < base + |c.synthetic|
  {
    forall i | 0 <= i < |spots| ensures spots[i] < base + |c.synthetic| {
      assert SpotFor(l, c, callAt, base, who[i], spots[i]);
    }
  }

  lemma {:induction false} SyntheticAreCalls(l: Ledger, who: seq<Identity>)
    ensures forall p :: p in ClaimAll(l, who).synthetic ==> p.CallPart?
  {
    if who != [] {
      SyntheticAreCalls(l, who[..|who| - 1]);
    }
  }

  lemma ToolRowSound(parts: seq<Part>, l: Ledger, callAt: seq<nat>, mate: map<nat, nat>, m: Message)
    returns (mate': map<nat, nat>)
    requires Sound(parts, l, callAt, mate)
    ensures var c := ClaimAll(l, RowIdentities(m));
            Sound(parts + c.synthetic + ReturnParts(m), c.ledger, callAt, mate')
  {
    var who := RowIdentities(m);
    var c := ClaimAll(l, who);
    var spots := ClaimSpots(l, who, callAt, |parts|);
    ReturnPartsNamed(m);
    SyntheticAreCalls(l, who);
    assert Sound(parts, c.ledger, callAt, mate);
    AppendQuietAll(parts, c.ledger, callAt, mate, c.synthetic);
    var parts1 := parts + c.synthetic;
    forall i | 0 <= i < |spots|
      ensures spots[i] < |parts1| && Agrees(parts1[spots[i]], ReturnParts(m)[i])
              && Free(c.ledger, callAt, mate, spots[i])
    {
      SpotIsFree(parts, l, callAt, mate, c, Named(who)[i], spots[i], ReturnParts(m)[i]);
    }
    mate' := AppendReturns(parts1, c.ledger, callAt, mate, ReturnParts(m), spots);
  }

  lemma SpotIsFree(parts: seq<Part>, l: Ledger, callAt: seq<nat>, mate: map<nat, nat>, c: Claims, who: Identity,
                   spot: nat, ret: Part)
    requires Sound(parts, l, callAt, mate) && c.ledger.issued == l.issued
    requires forall t :: 0 <= t < |l.issued| && Waiting(c.ledger, t) ==> Waiting(l, t)
    requires SpotFor(l, c, callAt, |parts|, who, spot) && Answers(ret, who)
    ensures var parts1 := parts + c.synthetic;
            spot < |parts1| && Agrees(parts1[spot], ret) && Free(c.ledger, callAt, mate, spot)
  {
    if spot < |parts| {
      var t: nat :| TakenAt(l, c.ledger, callAt, who, spot, t);
      forall u | 0 <= u < |l.issued| && Waiting(c.ledger, u) ensures spot != callAt[u] {
        assert u < t || t < u;
      }
    }
  }

  // ----- the whole run

  lemma FlattenOne(history: seq<ModelMessage>, m: ModelMessage)
    ensures Flatten(history + [m]) == Flatten(history) + m.parts
  {
    assert (history + [m])[..|history|] == history;
  }

  lemma FlattenUnless(history: seq<ModelMessage>, parts: seq<Part>, m: ModelMessage)
    requires m.parts == parts
    ensures Flatten(history + OneUnless(parts, m)) == Flatten(history) + parts
  {
    if parts == [] {
      assert history + OneUnless(parts, m) == history;
    } else {
      FlattenOne(history, m);
    }
  }

  /** The parts one message adds to the model's history. */
  function Added(r: Replay, m: Message): seq<Part> {
    match m.role
    case User => if m.content != "" || m.images > 0 then [PromptPart(m.content, m.images)] else []
    case Assistant => ResponseParts(m)
    case Tool => ClaimAll(r.ledger, RowIdentities(m)).synthetic + ReturnParts(m)
    case _ => []
  }

  lemma FlattenStep(r: Replay, m: Message)
    ensures Flatten(StepReplay(r, m).model) == Flatten(r.model) + Added(r, m)
  {
    match m.role
    case User =>
      FlattenOne(r.model, Request([PromptPart(m.content, m.images)]));
    case Assistant =>
      FlattenUnless(r.model, ResponseParts(m), Response(ResponseParts(m)));
    case Tool =>
      var c := ClaimAll(r.ledger, RowIdentities(m));
      FlattenUnless(r.model, c.synthetic, Response(c.synthetic));
      FlattenUnless(r.model + OneUnless(c.synthetic, Response(c.synthetic)), ReturnParts(m), Request(ReturnParts(m)));
    case _ =>
  }

  lemma StepSound(parts: seq<Part>, r: Replay, m: Message, callAt: seq<nat>, mate: map<nat, nat>)
    returns (callAt': seq<nat>, mate': map<nat, nat>)
    requires Sound(parts, r.ledger, callAt, mate)
    ensures Sound(parts + Added(r, m), StepReplay(r, m).ledger, callAt', mate')
  {
    hide Sound, CallParts, ClaimAll, RowIdentities, ReturnParts;
    callAt', mate' := callAt, mate;
    if m.role == Assistant {
      var text := if m.content != "" then [TextPart(m.content)] else [];
      AppendQuietAll(parts, r.ledger, callAt, mate, text);
      callAt' := AppendCalls(parts + text, r.ledger, callAt, mate, m.calls);
      assert parts + text + CallParts(m.calls) == parts + Added(r, m);
    } else if m.role == Tool {
      mate' := ToolRowSound(parts, r.ledger, callAt, mate, m);
      assert parts + ClaimAll(r.ledger, RowIdentities(m)).synthetic + ReturnParts(m) == parts + Added(r, m);
    } else {
      AppendQuietAll(parts, r.ledger, callAt, mate, Added(r, m));
    }
  }

  predicate Prompts(parts: seq<Part>) {
    forall p :: p in parts ==> p.PromptPart?
  }

  lemma StartSound(pre: seq<Part>)
    requires Prompts(pre)
    ensures Sound(pre, EMPTY, [], map[])
  {
    assert forall i :: 0 <= i < |pre| ==> pre[i] in pre;
  }

  /** The invariant of the run, its parts preceded by the context prompts. */
  lemma {:induction false} RunSound(pre: seq<Part>, messages: seq<Message>)
    returns (callAt: seq<nat>, mate: map<nat, nat>)
    requires Prompts(pre)
    ensures var r := ReplayAll(messages); Sound(pre + Flatten(r.model), r.ledger, callAt, mate)
  {
    if messages == [] {
      callAt, mate := [], map[];
      StartSound(pre);
      assert pre + Flatten([]) == pre;
    } else {
      var init, m := messages[..|messages| - 1], messages[|messages| - 1];
      callAt, mate := RunSound(pre, init);
      var r := ReplayAll(init);
      FlattenStep(r, m);
      callAt, mate := StepSound(pre + Flatten(r.model), r, m, callAt, mate);
      Regroup(pre, Flatten(r.model), Added(r, m));
    }
  }

  lemma {:induction false} ContextPrompts(messages: seq<Message>)
    ensures Prompts(Flatten(ReplayAll(messages).context))
  {
    if messages != [] {
      var init, m := messages[..|messages| - 1], messages[|messages| - 1];
      ContextPrompts(init);
      FlattenOne(ReplayAll(init).context, Request([PromptPart(m.content, 0)]));
    }
  }

  lemma {:induction false} FlattenConcat(a: seq<ModelMessage>, b: seq<ModelMessage>)
    ensures Flatten(a + b) == Flatten(a) + Flatten(b)
  {
    if b == [] {
      assert a + b == a;
    } else {
      assert (a + b)[..|a + b| - 1] == a + b[..|b| - 1];
      FlattenConcat(a, b[..|b| - 1]);
    }
  }

  /** On every history, each tool return sent to the model has a tool call of its own:
      an earlier one, real or synthetic, with the same id or the same name. */
  lemma EveryReturnHasItsCall(messages: seq<Message>)
    ensures exists mate: map<nat, nat> :: Mates(Flatten(ToModel(messages)), mate)
  {
    var r := ReplayAll(messages);
    ContextPrompts(messages);
    FlattenConcat(r.context, r.model);
    var callAt, mate := RunSound(Flatten(r.context), messages);
    assert ToModel(messages) == r.context + r.model;
    assert Mates(Flatten(ToModel(messages)), mate);
  }
}
