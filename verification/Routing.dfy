/** Routing of requests to agents by binding rules. The router keeps its rules sorted by
    specificity; going through that list is the same as looking, among the rules in the
    order they were added, for the most specific and then earliest one that matches. */
module Routing {
  import opened Wrappers
  import opened StableSorting

  /** An agent configuration; `settings` stands for everything but its id. */
  datatype Agent = Agent(id: string, settings: string)

  const DEFAULT_AGENT := Agent("main", "")

  datatype Context = Context(peerId: string, guildId: string, teamId: string, accountId: string, channel: string)

  /** A binding rule; an empty condition is an absent one. */
  datatype Rule = Rule(
    agentId: string,
    peer: string,
    guildId: string,
    teamId: string,
    accountId: string,
    channel: string,
    priority: int)
  {
    predicate Matches(ctx: Context) {
      && (peer != "" ==> peer == ctx.peerId)
      && (guildId != "" ==> guildId == ctx.guildId)
      && (teamId != "" ==> teamId == ctx.teamId)
      && (accountId != "" ==> accountId == ctx.accountId)
      && (channel != "" ==> channel == ctx.channel)
    }
  }

  function ConditionsOf(r: Rule): seq<string> {
    [r.peer, r.guildId, r.teamId, r.accountId, r.channel]
  }

  function ValuesOf(ctx: Context): seq<string> {
    [ctx.peerId, ctx.guildId, ctx.teamId, ctx.accountId, ctx.channel]
  }

  /** A rule matches a request that meets every condition it sets; what it does not set, and its
      priority and agent, play no part. */
  lemma MatchesExactly(r: Rule, ctx: Context)
    ensures r.Matches(ctx) <==>
            forall i :: 0 <= i < |ConditionsOf(r)| ==> ConditionsOf(r)[i] in ["", ValuesOf(ctx)[i]]
  {
    if forall i :: 0 <= i < |ConditionsOf(r)| ==> ConditionsOf(r)[i] in ["", ValuesOf(ctx)[i]] {
      assert ConditionsOf(r)[0] in ["", ValuesOf(ctx)[0]] && ConditionsOf(r)[1] in ["", ValuesOf(ctx)[1]];
      assert ConditionsOf(r)[2] in ["", ValuesOf(ctx)[2]] && ConditionsOf(r)[3] in ["", ValuesOf(ctx)[3]];
      assert ConditionsOf(r)[4] in ["", ValuesOf(ctx)[4]];
    }
  }

  function Specificity(r: Rule): int {
    (if r.peer != "" then 100 else 0) + (if r.guildId != "" then 50 else 0) + (if r.teamId != "" then 30 else 0)
    + (if r.accountId != "" then 20 else 0) + (if r.channel != "" then 10 else 0) + r.priority
  }

  /** How many of a rule's conditions are set, and whether a certain one alone is. */
  function Conditions(r: Rule): nat {
    (if r.peer != "" then 1 else 0) + (if r.guildId != "" then 1 else 0) + (if r.teamId != "" then 1 else 0)
    + (if r.accountId != "" then 1 else 0) + if r.channel != "" then 1 else 0
  }

  predicate Only(r: Rule, condition: string) {
    condition != "" && Conditions(r) == 1
  }

  predicate SameConditions(r: Rule, s: Rule) {
    && (r.peer == "" <==> s.peer == "") && (r.guildId == "" <==> s.guildId == "")
    && (r.teamId == "" <==> s.teamId == "") && (r.accountId == "" <==> s.accountId == "")
    && (r.channel == "" <==> s.channel == "")
  }

  /** Of two rules with one condition each and the same priority, a peer's is more specific than
      a guild's, that than a team's, that than an account's, that than a channel's, and that than
      a rule without conditions. A peer outweighs all but the four others together. */
  lemma MoreSpecific(r: Rule, s: Rule)
    requires r.priority == s.priority
    ensures Only(r, r.peer) && Only(s, s.guildId) ==> Specificity(r) > Specificity(s)
    ensures Only(r, r.guildId) && Only(s, s.teamId) ==> Specificity(r) > Specificity(s)
    ensures Only(r, r.teamId) && Only(s, s.accountId) ==> Specificity(r) > Specificity(s)
    ensures Only(r, r.accountId) && Only(s, s.channel) ==> Specificity(r) > Specificity(s)
    ensures Only(r, r.channel) && Conditions(s) == 0 ==> Specificity(r) > Specificity(s)
    ensures Only(r, r.peer) && s.peer == "" ==> (Specificity(r) >= Specificity(s) <==> Conditions(s) <= 3)
  {
  }

  /** Priorities decide between rules with the same conditions, and ten points make up for a
      channel, a hundred for a peer. */
  lemma PriorityDecides(r: Rule, s: Rule)
    ensures SameConditions(r, s) ==> (Specificity(r) > Specificity(s) <==> r.priority > s.priority)
    ensures Only(r, r.channel) && Conditions(s) == 0 ==>
              (Specificity(r) > Specificity(s) <==> r.priority + 10 > s.priority)
    ensures Only(r, r.peer) && Conditions(s) == 0 ==>
              (Specificity(r) > Specificity(s) <==> r.priority + 100 > s.priority)
  {
  }

  function MatcherOf(ctx: Context): Rule -> bool {
    (r: Rule) => r.Matches(ctx)
  }

  function BoundTo(agents: map<string, Agent>): Rule -> bool {
    (r: Rule) => r.agentId in agents
  }

  function NotOf(agentId: string): Rule -> bool {
    (r: Rule) => r.agentId != agentId
  }

  /** What a request that no rule matches gets. */
  function Fallback(agents: map<string, Agent>, order: seq<string>, defaultId: string): Agent
    requires forall id :: id in order ==> id in agents
  {
    if defaultId in agents then agents[defaultId]
    else if order != [] then agents[order[0]]
    else DEFAULT_AGENT
  }

  lemma BestIsUnique(rules: seq<Rule>, ctx: Context, i: nat, j: nat)
    requires IsBest(rules, MatcherOf(ctx), Specificity, i) && IsBest(rules, MatcherOf(ctx), Specificity, j)
    ensures i == j
  {
    assert Specificity(rules[i]) <= Specificity(rules[j]) && Specificity(rules[j]) <= Specificity(rules[i]);
  }

  lemma {:induction false} AllFilter(rules: seq<Rule>, p: Rule -> bool, keep: Rule -> bool)
    requires All(rules, p)
    ensures All(Filter(rules, keep), p)
  {
    if rules != [] {
      AllFilter(rules[1..], p, keep);
    }
  }

  lemma {:induction false} AllRemove(rules: seq<Rule>, p: Rule -> bool, rule: Rule)
    requires All(rules, p)
    ensures All(RemoveFirst(rules, rule), p)
  {
    if rules != [] {
      AllRemove(rules[1..], p, rule);
    }
  }

  function Is(id: string): string -> bool {
    (x: string) => x == id
  }

  predicate Distinct(order: seq<string>) {
    forall i, j :: 0 <= i < j < |order| ==> order[i] != order[j]
  }

  lemma FirstIndexIs(order: seq<string>, id: string)
    requires id in order && Distinct(order)
    ensures var n := FirstIndex(order, Is(id));
            && n < |order|
            && Distinct(order[..n] + order[n + 1..])
            && forall x :: x in order[..n] + order[n + 1..] <==> x in order && x != id
  {
    var n := FirstIndex(order, Is(id));
    var i :| 0 <= i < |order| && order[i] == id;
    assert Is(id)(order[i]);
    assert n <= i && Is(id)(order[n]);
    DropDistinct(order, n);
  }

  lemma DropDistinct(order: seq<string>, n: nat)
    requires Distinct(order) && n < |order|
    ensures Distinct(order[..n] + order[n + 1..])
    ensures forall x :: x in order[..n] + order[n + 1..] <==> x in order && x != order[n]
  {
    var rest := order[..n] + order[n + 1..];
    assert forall k :: 0 <= k < |rest| ==> rest[k] == order[if k < n then k else k + 1];
    forall x | x in order && x != order[n] ensures x in rest {
      var k :| 0 <= k < |order| && order[k] == x;
      assert rest[if k < n then k else k - 1] == x;
    }
  }

  /** Dropping an agent and its rules: the sorted list of what is left, all of it bound. */
  lemma RulesWithout(added: seq<Rule>, agents: map<string, Agent>, agentId: string)
    requires All(added, BoundTo(agents))
    ensures Filter(Sorted(added, Specificity), NotOf(agentId)) == Sorted(Filter(added, NotOf(agentId)), Specificity)
    ensures All(Filter(added, NotOf(agentId)), BoundTo(agents - {agentId}))
  {
    FilterSorted(added, Specificity, NotOf(agentId));
    AllFilter(added, BoundTo(agents), NotOf(agentId));
    FilterAll(added, NotOf(agentId));
  }

  /** What going through the sorted rules finds first is the best match of the added ones. */
  lemma FoundIsBest(added: seq<Rule>, agents: map<string, Agent>, ctx: Context, k: nat)
    requires All(added, BoundTo(agents)) && k < |Sorted(added, Specificity)|
    requires k == FirstIndex(Sorted(added, Specificity), MatcherOf(ctx))
    ensures var rule := Sorted(added, Specificity)[k];
            && rule.agentId in agents
            && (forall i: nat :: IsBest(added, MatcherOf(ctx), Specificity, i) ==> added[i] == rule)
            && exists i :: 0 <= i < |added| && added[i].Matches(ctx)
  {
    hide Specificity, Sorted, FirstIndex;
    var p, rule := MatcherOf(ctx), Sorted(added, Specificity)[k];
    FirstIsBest(added, Specificity, p);
    AllSorted(added, Specificity, BoundTo(agents));
    assert BoundTo(agents)(rule);
    var i: nat :| IsBest(added, p, Specificity, i) && added[i] == rule;
    assert p(added[i]);
    forall j: nat | IsBest(added, p, Specificity, j) ensures added[j] == rule {
      BestIsUnique(added, ctx, i, j);
    }
  }

  /** If it finds nothing, no added rule matches. */
  lemma NothingFound(added: seq<Rule>, ctx: Context)
    requires forall l :: 0 <= l < |Sorted(added, Specificity)| ==> !Sorted(added, Specificity)[l].Matches(ctx)
    ensures forall k :: 0 <= k < |added| ==> !added[k].Matches(ctx)
    ensures forall i: nat :: !IsBest(added, MatcherOf(ctx), Specificity, i)
  {
    hide Specificity, Sorted;
    var p := MatcherOf(ctx);
    FirstIsBest(added, Specificity, p);
    assert forall k :: 0 <= k < |added| ==> !p(added[k]) && !added[k].Matches(ctx);
  }

  /** The first rule that matches, as the scan finds it. */
  lemma ScanFinds(rules: seq<Rule>, ctx: Context, k: nat)
    requires k < |rules| && rules[k].Matches(ctx) && forall l :: 0 <= l < k ==> !rules[l].Matches(ctx)
    ensures FirstIndex(rules, MatcherOf(ctx)) == k
  {
    assert MatcherOf(ctx)(rules[k]);
  }

  lemma OrderWithout(agents: map<string, Agent>, order: seq<string>, agentId: string)
    requires Distinct(order) && (forall id :: id in order <==> id in agents) && agentId in agents
    ensures var n := FirstIndex(order, Is(agentId));
            && n < |order| && Distinct(order[..n] + order[n + 1..])
            && forall id :: id in order[..n] + order[n + 1..] <==> id in agents - {agentId}
  {
    hide Distinct, FirstIndex;
    FirstIndexIs(order, agentId);
  }

  /** Python's dictionary of agents keeps the order of insertion: `order`. `added` holds
      the rules in the order they were added, without those removed since. */
  class AgentRouter {
    var agents: map<string, Agent>
    var order: seq<string>
    var bindings: seq<Rule>
    var singleAgentMode: bool
    const defaultAgentId: string
    ghost var added: seq<Rule>

    ghost predicate Valid()
      reads this
    {
      && bindings == Sorted(added, Specificity)
      && All(added, BoundTo(agents))
      && (forall id :: id in order <==> id in agents)
      && Distinct(order)
    }

    constructor (singleAgentMode: bool, defaultAgentId: string)
      ensures Valid() && this.singleAgentMode == singleAgentMode && this.defaultAgentId == defaultAgentId
      ensures bindings == [] && added == []
      ensures agents == (if singleAgentMode then map[defaultAgentId := DEFAULT_AGENT] else map[])
    {
      this.singleAgentMode, this.defaultAgentId := singleAgentMode, defaultAgentId;
      agents := if singleAgentMode then map[defaultAgentId := DEFAULT_AGENT] else map[];
      order := if singleAgentMode then [defaultAgentId] else [];
      bindings, added := [], [];
    }

    method RegisterAgent(config: Agent)
      requires Valid()
      modifies this
      ensures Valid() && bindings == old(bindings) && added == old(added)
      ensures agents == old(agents)[config.id := config]
      ensures order == if config.id in old(agents) then old(order) else old(order) + [config.id]
      ensures singleAgentMode == (old(singleAgentMode) && |agents| <= 1)
    {
      if config.id !in agents {
        order := order + [config.id];
      }
      agents := agents[config.id := config];
      if |agents| > 1 {
        singleAgentMode := false;
      }
    }

    method UnregisterAgent(agentId: string) returns (known: bool)
      requires Valid()
      modifies this
      ensures Valid() && singleAgentMode == old(singleAgentMode)
      ensures known == (agentId in old(agents))
      ensures agents == old(agents) - {agentId}
      ensures if !known then order == old(order)
              else var n := FirstIndex(old(order), Is(agentId));
                   n < |old(order)| && order == old(order)[..n] + old(order)[n + 1..]
      ensures added == if known then Filter(old(added), NotOf(agentId)) else old(added)
    {
      known := agentId in agents;
      if known {
        hide Specificity, Sorted, Filter, Distinct, FirstIndex, All;
        RulesWithout(added, agents, agentId);
        OrderWithout(agents, order, agentId);
        bindings := Filter(bindings, NotOf(agentId));
        added := Filter(added, NotOf(agentId));
        var n := FirstIndex(order, Is(agentId));
        order := order[..n] + order[n + 1..];
        agents := agents - {agentId};
      }
    }

    /** `ValueError` for an unknown agent is the result `false`. */
    method AddBinding(rule: Rule) returns (ok: bool)
      requires Valid()
      modifies this
      ensures Valid() && agents == old(agents) && order == old(order) && singleAgentMode == old(singleAgentMode)
      ensures ok == (rule.agentId in agents)
      ensures added == if ok then old(added) + [rule] else old(added)
    {
      ok := rule.agentId in agents;
      if ok {
        hide Specificity, Sorted, Distinct;
        SortedSorts(added, Specificity);
        ResortNext(bindings, rule, Specificity);
        SortedNext(added, rule, Specificity);
        bindings := Sorted(bindings + [rule], Specificity);
        added := added + [rule];
      }
    }

    method RemoveBinding(rule: Rule) returns (found: bool)
      requires Valid()
      modifies this
      ensures Valid() && agents == old(agents) && order == old(order) && singleAgentMode == old(singleAgentMode)
      ensures found == (rule in old(added))
      ensures added == RemoveFirst(old(added), rule)
    {
      InSorted(added, Specificity, rule);
      RemoveSorted(added, Specificity, rule);
      AllRemove(added, BoundTo(agents), rule);
      found := rule in bindings;
      if found {
        bindings := RemoveFirst(bindings, rule);
      } else {
        RemoveAbsent(added, rule);
      }
      added := RemoveFirst(added, rule);
    }

    /** Routing fails (a `KeyError`) exactly in single-agent mode without its agent. */
    method Route(ctx: Context) returns (agent: Option<Agent>)
      requires Valid()
      ensures agent.None? <==> singleAgentMode && defaultAgentId !in agents
      ensures singleAgentMode && agent.Some? ==> agent.value == agents[defaultAgentId]
      ensures !singleAgentMode ==>
                && (forall i: nat :: IsBest(added, MatcherOf(ctx), Specificity, i) ==>
                                  added[i].agentId in agents && agent == Some(agents[added[i].agentId]))
                && ((forall k :: 0 <= k < |added| ==> !added[k].Matches(ctx)) ==>
                      agent == Some(Fallback(agents, order, defaultAgentId)))
    {
      if singleAgentMode {
        return if defaultAgentId in agents then Some(agents[defaultAgentId]) else None;
      }
      hide Specificity, Sorted, Distinct, All, IsBest, FirstIndex;
      for k := 0 to |bindings|
        invariant forall l :: 0 <= l < k ==> !bindings[l].Matches(ctx)
      {
        if bindings[k].Matches(ctx) {
          ScanFinds(bindings, ctx, k);
          FoundIsBest(added, agents, ctx, k);
          if bindings[k].agentId in agents {
            return Some(agents[bindings[k].agentId]);
          }
        }
      }
      NothingFound(added, ctx);
      if defaultAgentId in agents {
        return Some(agents[defaultAgentId]);
      }
      return Some(if order != [] then agents[order[0]] else DEFAULT_AGENT);
    }
  }
}
