/**
 * The role catalog of app/app.py: a constant table from each of the four roles a
 * classifier can predict to an ordered list of agents, and the recommendation that
 * looks a role up and keeps the first three agents of its list.
 */
module Catalog {
  import opened Wrappers

  /** Why a catalog lookup did not produce agents (a KeyError in the source). */
  datatype LookupError = UnknownRole(role: string)

  /**
   * The role -> agents table; list order is the recommendation order. Its roles
   * are exactly the four the classifier is trained on, each with at least five agents.
   */
  function RoleToAgents(): (catalog: map<string, seq<string>>)
    ensures catalog.Keys == {"Duelist", "Controller", "Sentinel", "Initiator"}
    ensures forall role :: role in catalog ==> |catalog[role]| >= 5
  {
    map[
      "Duelist" := Duelists,
      "Controller" := Controllers,
      "Sentinel" := Sentinels,
      "Initiator" := Initiators
    ]
  }

  const Duelists: seq<string> := ["Jett", "Reyna", "Raze", "Phoenix", "Neon", "Yoru", "Iso"]
  const Controllers: seq<string> := ["Omen", "Brimstone", "Viper", "Astra", "Harbor", "Clove"]
  const Sentinels: seq<string> := ["Sage", "Cypher", "Killjoy", "Chamber", "Deadlock"]
  const Initiators: seq<string> := ["Sova", "Breach", "Skye", "Fade", "Gekko", "KAY/O"]

  /** How many agents a recommendation lists at most. */
  const RecommendationSize: nat := 3

  function Min(a: nat, b: nat): nat {
    if a <= b then a else b
  }

  /**
   * Python's `s[:n]` for a non-negative `n`: the first `n` elements, or all of
   * `s` when it is shorter (slicing never fails on a short list).
   */
  function Take<T>(s: seq<T>, n: nat): (r: seq<T>)
    ensures |r| == Min(n, |s|)
    ensures r <= s
  {
    if n <= |s| then s[..n] else s
  }

  /**
   * `catalog[role][:3]`: the first three agents listed for `role`, or an
   * UnknownRole error when `role` is not a key of the catalog.
   */
  function Recommend(catalog: map<string, seq<string>>, role: string): (r: Result<seq<string>, LookupError>)
    ensures r.Ok? <==> role in catalog
    ensures r.Err? ==> r.error == UnknownRole(role)
    ensures r.Ok? ==> r.value <= catalog[role] && |r.value| == Min(RecommendationSize, |catalog[role]|)
  {
    if role in catalog then Ok(Take(catalog[role], RecommendationSize)) else Err(UnknownRole(role))
  }

  /** The set of roles whose list contains `agent`. */
  ghost function RolesOf(catalog: map<string, seq<string>>, agent: string): set<string> {
    set role | role in catalog && agent in catalog[role]
  }

  /** No agent is listed under two different roles. */
  ghost predicate AgentsDisjoint(catalog: map<string, seq<string>>) {
    forall r1, r2, a :: r1 in catalog && r2 in catalog && a in catalog[r1] && a in catalog[r2] ==> r1 == r2
  }

  /** Every role of the catalog yields exactly three agents, the head of its list. */
  lemma CatalogRoleYieldsThree(role: string)
    requires role in RoleToAgents()
    ensures Recommend(RoleToAgents(), role).Ok?
    ensures |Recommend(RoleToAgents(), role).value| == RecommendationSize
    ensures Recommend(RoleToAgents(), role).value == RoleToAgents()[role][..RecommendationSize]
  {
  }

  /** Disjointness of two lists, stated for each pair of role lists below. */
  predicate ListsDisjoint(l1: seq<string>, l2: seq<string>) {
    forall a :: a in l1 ==> a !in l2
  }

  lemma DuelistsApart()
    ensures ListsDisjoint(Duelists, Controllers) && ListsDisjoint(Duelists, Sentinels) && ListsDisjoint(Duelists, Initiators)
  {
  }

  lemma ControllersApart()
    ensures ListsDisjoint(Controllers, Sentinels) && ListsDisjoint(Controllers, Initiators)
  {
  }

  lemma SentinelsApart()
    ensures ListsDisjoint(Sentinels, Initiators)
  {
  }

  /** No agent is listed under two different roles of the catalog. */
  lemma CatalogAgentsDisjoint()
    ensures AgentsDisjoint(RoleToAgents())
  {
    DuelistsApart();
    ControllersApart();
    SentinelsApart();
  }

  /** Every recommended agent belongs to exactly one role: the one it was recommended for. */
  lemma RecommendedAgentHasOneRole(role: string, agent: string)
    requires Recommend(RoleToAgents(), role).Ok?
    requires agent in Recommend(RoleToAgents(), role).value
    ensures RolesOf(RoleToAgents(), agent) == {role}
  {
    CatalogAgentsDisjoint();
  }
}
