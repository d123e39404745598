/**
 * The agent registry: a two-level table from agent ID and skill ID to the
 * agent class implementing that skill, filled by the `register_agent`
 * decorator and read by `get_agent`.
 */
module AgentRegistry {
  import opened Wrappers

  /** A class handed to the decorator: its `__name__` and whether it inherits from `BaseA2AAgent`. */
  datatype AgentClass = AgentClass(name: string, isAgent: bool)

  /** `agent_id -> skill_id -> class`. */
  type Table = map<string, map<string, AgentClass>>

  /** The skill ID both `register_agent` and `get_agent` use when none is given. */
  const DefaultSkill: string := "analyze"

  /** The lookup: the class registered for that agent and skill, if any. */
  function Lookup(t: Table, agentId: string, skillId: string): (r: Option<AgentClass>)
    ensures r.None? <==> agentId !in t || skillId !in t[agentId]
  {
    if agentId in t && skillId in t[agentId] then Some(t[agentId][skillId]) else None
  }

  /**
   * The table after registering `cls` for `(agentId, skillId)`: that entry is
   * `cls`, every other entry is what it was, and the agent IDs gain `agentId`.
   */
  function Registered(t: Table, agentId: string, skillId: string, cls: AgentClass): (r: Table)
    ensures r.Keys == t.Keys + {agentId}
    ensures Lookup(r, agentId, skillId) == Some(cls)
    ensures forall a, s | a != agentId || s != skillId :: Lookup(r, a, s) == Lookup(t, a, s)
  {
    var skills := if agentId in t then t[agentId] else map[];
    t[agentId := skills[skillId := cls]]
  }

  /** The message of the `TypeError` raised for a class that is not an agent. */
  function NotAnAgent(cls: AgentClass): string {
    "Class " + cls.name + " must inherit from BaseA2AAgent"
  }

  /** The module-level `_agent_registry`. */
  class Registry {
    var agents: Table

    constructor ()
      ensures agents == map[]
    {
      agents := map[];
    }

    /** `get_agent(agent_id, skill_id)`. */
    function Get(agentId: string, skillId: string): (r: Option<AgentClass>)
      reads this
      ensures r == Lookup(agents, agentId, skillId)
    {
      Lookup(agents, agentId, skillId)
    }

    /**
     * `register_agent(agent_id, skill_id)(cls)`: a class that is not an agent
     * is refused with a `TypeError` and the table is left as it was;
     * otherwise the class is filed under that agent and skill and handed
     * back unchanged.
     */
    method Register(agentId: string, skillId: string, cls: AgentClass) returns (r: Result<AgentClass, string>)
      modifies this
      ensures !cls.isAgent ==> r == Err(NotAnAgent(cls)) && agents == old(agents)
      ensures cls.isAgent ==> r == Ok(cls) && agents == Registered(old(agents), agentId, skillId, cls)
    {
      if !cls.isAgent {
        return Err(NotAnAgent(cls));
      }
      if agentId !in agents {
        agents := agents[agentId := map[]];
      }
      agents := agents[agentId := agents[agentId][skillId := cls]];
      return Ok(cls);
    }
  }

  /** A registration followed by the lookup of the same pair finds the class; other pairs read as before. */
  lemma RegisterThenGet(t: Table, agentId: string, skillId: string, cls: AgentClass, a: string, s: string)
    ensures Lookup(Registered(t, agentId, skillId, cls), a, s) ==
      (if a == agentId && s == skillId then Some(cls) else Lookup(t, a, s))
  {
  }

  /** Registrations of different pairs commute; registering the same pair twice keeps the later class. */
  lemma {:induction false} RegisterCommutes(t: Table, a1: string, s1: string, c1: AgentClass, a2: string, s2: string, c2: AgentClass)
    ensures (a1 != a2 || s1 != s2) ==>
      Registered(Registered(t, a1, s1, c1), a2, s2, c2) == Registered(Registered(t, a2, s2, c2), a1, s1, c1)
    ensures Registered(Registered(t, a1, s1, c1), a1, s1, c2) == Registered(t, a1, s1, c2)
  {
    var left := Registered(Registered(t, a1, s1, c1), a2, s2, c2);
    var right := Registered(Registered(t, a2, s2, c2), a1, s1, c1);
    if a1 != a2 || s1 != s2 {
      TablesEqual(left, right);
    }
    TablesEqual(Registered(Registered(t, a1, s1, c1), a1, s1, c2), Registered(t, a1, s1, c2));
  }

  /** Two tables with the same agent IDs and the same lookups are the same table. */
  lemma TablesEqual(t: Table, u: Table)
    requires t.Keys == u.Keys
    requires forall a, s :: Lookup(t, a, s) == Lookup(u, a, s)
    ensures t == u
  {
    forall a | a in t
      ensures t[a] == u[a]
    {
      forall s
        ensures s in t[a] <==> s in u[a]
        ensures s in t[a] ==> t[a][s] == u[a][s]
      {
        assert Lookup(t, a, s) == Lookup(u, a, s);
      }
    }
  }
}
