/** The ordered pool of agents: suspension by deadline, freezing, and the round-robin that
    skips suspended agents. */
module AgentPools {
  import opened Options

  datatype Suspension = Suspension(until: real, reason: string)

  datatype Pool = Pool(
    agents: seq<string>,
    suspended: map<string, Suspension>,
    frozen: Option<string>,
    orchestrator: Option<string>)

  // ---- Specification of one critical section ----

  /** Suspensions whose deadline has passed are forgotten whenever availability is asked for. */
  function DropExpired(p: Pool, now: real): Pool {
    p.(suspended := map n | n in p.suspended && p.suspended[n].until > now :: p.suspended[n])
  }

  function Available(agents: seq<string>, suspended: map<string, Suspension>): seq<string> {
    if agents == [] then []
    else (if agents[0] in suspended then [] else [agents[0]]) + Available(agents[1..], suspended)
  }

  /** Position of the first occurrence. */
  function IndexOf(agents: seq<string>, name: string): (i: nat)
    requires name in agents
    ensures i < |agents| && agents[i] == name
    ensures forall j :: 0 <= j < i ==> agents[j] != name
  {
    if agents[0] == name then 0
    else
      assert name in agents[1..];
      IndexOf(agents[1..], name) + 1
  }

  /** The first agent with the smallest deadline. */
  function Earliest(agents: seq<string>, suspended: map<string, Suspension>): (name: string)
    requires agents != [] && forall a :: a in agents ==> a in suspended
    ensures name in agents
    ensures forall a :: a in agents ==> suspended[name].until <= suspended[a].until
  {
    if |agents| == 1 then agents[0]
    else
      var rest := Earliest(agents[1..], suspended);
      if suspended[agents[0]].until <= suspended[rest].until then agents[0] else rest
  }

  lemma {:induction false} AvailableMembers(agents: seq<string>, suspended: map<string, Suspension>, a: string)
    ensures a in Available(agents, suspended) <==> a in agents && a !in suspended
  {
    if agents != [] {
      AvailableMembers(agents[1..], suspended, a);
      assert a in agents <==> a == agents[0] || a in agents[1..];
    }
  }

  /** A member whose suspension, if it has one, is over. */
  predicate Free(agents: seq<string>, suspended: map<string, Suspension>, now: real, a: string) {
    a in agents && (a in suspended ==> suspended[a].until <= now)
  }

  lemma AvailableAreFree(agents: seq<string>, suspended: map<string, Suspension>, now: real)
    ensures forall a {:trigger Free(agents, suspended, now, a)} :: Free(agents, suspended, now, a) <==>
      a in Available(agents, DropExpired(Pool(agents, suspended, None, None), now).suspended)
  {
    forall a ensures Free(agents, suspended, now, a) <==>
      a in Available(agents, DropExpired(Pool(agents, suspended, None, None), now).suspended)
    {
      AvailableMembers(agents, DropExpired(Pool(agents, suspended, None, None), now).suspended, a);
    }
  }

  lemma {:induction false} AllSuspended(agents: seq<string>, suspended: map<string, Suspension>)
    requires Available(agents, suspended) == []
    ensures forall a :: a in agents ==> a in suspended
  {
    if agents != [] {
      AllSuspended(agents[1..], suspended);
      assert forall a :: a in agents ==> a == agents[0] || a in agents[1..];
    }
  }

  function FrozenNow(p: Pool): bool {
    p.frozen.Some? && p.frozen.value in Available(p.agents, p.suspended)
  }

  /** Who answers now, and whether the rotation moves past it (`p` without expired suspensions). */
  function Pick(p: Pool): (Option<string>, bool) {
    var available := Available(p.agents, p.suspended);
    if FrozenNow(p) then (p.frozen, false)
    else if available != [] then (Some(available[0]), true)
    else if p.agents == [] then (None, false)
    else
      AllSuspended(p.agents, p.suspended);
      (Some(Earliest(p.agents, p.suspended)), false)
  }

  function MoveToBack(agents: seq<string>, i: nat): seq<string>
    requires i < |agents|
  {
    agents[..i] + agents[i + 1..] + [agents[i]]
  }

  function AfterTake(p: Pool, now: real): Pool {
    var q := DropExpired(p, now);
    var (chosen, rotates) := Pick(q);
    if rotates && chosen.Some? && chosen.value in q.agents && |q.agents| > 1 then
      q.(agents := MoveToBack(q.agents, IndexOf(q.agents, chosen.value)))
    else q
  }

  function Taken(p: Pool, now: real): Option<string> { Pick(DropExpired(p, now)).0 }

  function Suspend(p: Pool, now: real, name: string, seconds: real, reason: string): Pool
    requires name in p.agents
  {
    var until := now + if seconds > 0.0 then seconds else 0.0;
    if name in p.suspended && p.suspended[name].until > until then p
    else p.(suspended := p.suspended[name := Suspension(until, reason)])
  }

  function Resume(p: Pool, name: string): Pool { p.(suspended := p.suspended - {name}) }

  function Add(p: Pool, name: string): Pool {
    if name in p.agents then p else p.(agents := p.agents + [name])
  }

  function Without(agents: seq<string>, name: string): seq<string> {
    if name in agents then agents[..IndexOf(agents, name)] + agents[IndexOf(agents, name) + 1..] else agents
  }

  predicate WithoutFirst(before: seq<string>, after: seq<string>, name: string) {
    exists i :: (0 <= i < |before| && before[i] == name && name !in before[..i] && after == before[..i] + before[i + 1..])
  }

  function Unrouted(p: Pool): Pool { p.(frozen := None, orchestrator := None) }

  function Remove(p: Pool, name: string): Pool {
    var q := p.(agents := Without(p.agents, name), suspended := p.suspended - {name});
    if name in p.agents && p.frozen == Some(name) then Unrouted(q) else q
  }

  function SetAgents(p: Pool, agents: seq<string>): Pool {
    var q := p.(agents := agents, suspended := map n | n in p.suspended && n in agents :: p.suspended[n]);
    if p.frozen.Some? && p.frozen.value !in agents then Unrouted(q) else q
  }

  function Rotate(p: Pool): Pool {
    if |p.agents| > 1 then p.(agents := p.agents[1..] + p.agents[..1]) else p
  }

  // ---- The code ----

  /** `now` is what the injected clock answers inside the critical section. A method that
      raises `ValueError` answers false and changes nothing. */
  class AgentPool {
    var agents: seq<string>
    var suspended: map<string, Suspension>
    var frozenAgent: Option<string>
    var orchestratorAgent: Option<string>

    function Model(): Pool
      reads this
    {
      Pool(agents, suspended, frozenAgent, orchestratorAgent)
    }

    constructor (agents: seq<string>)
      ensures Model() == Pool(agents, map[], None, None)
    {
      this.agents, suspended, frozenAgent, orchestratorAgent := agents, map[], None, None;
    }

    method AvailableLocked(now: real) returns (available: seq<string>)
      modifies this`suspended
      ensures Model() == DropExpired(old(Model()), now)
      ensures available == Available(agents, suspended)
    {
      suspended := map n | n in suspended && suspended[n].until > now :: suspended[n];
      available := Available(agents, suspended);
    }

    method TakePrimary(now: real) returns (chosen: Option<string>)
      modifies this`agents, this`suspended
      ensures Model() == AfterTake(old(Model()), now)
      ensures chosen == Taken(old(Model()), now)
      ensures old(frozenAgent).Some? && Free(old(agents), old(suspended), now, old(frozenAgent).value) ==>
        chosen == old(frozenAgent) && agents == old(agents)
    {
      AvailableAreFree(agents, suspended, now);
      var available := AvailableLocked(now);
      if frozenAgent.Some? && frozenAgent.value in available {
        return frozenAgent;
      }
      if available != [] {
        chosen := Some(available[0]);
        AvailableMembers(agents, suspended, available[0]);
        if |agents| > 1 {
          var index := IndexOf(agents, available[0]);
          agents := MoveToBack(agents, index);
        }
        return;
      }
      if agents == [] {
        return None;
      }
      AllSuspended(agents, suspended);
      chosen := Some(Earliest(agents, suspended));
    }

    method Primary(now: real) returns (chosen: Option<string>)
      modifies this`suspended
      ensures Model() == DropExpired(old(Model()), now)
      ensures chosen == Taken(old(Model()), now)
      ensures frozenAgent.Some? && Free(agents, old(suspended), now, frozenAgent.value) ==> chosen == frozenAgent
    {
      AvailableAreFree(agents, suspended, now);
      var available := AvailableLocked(now);
      if frozenAgent.Some? && frozenAgent.value in available {
        chosen := frozenAgent;
      } else if available != [] {
        chosen := Some(available[0]);
      } else if agents == [] {
        chosen := None;
      } else {
        AllSuspended(agents, suspended);
        chosen := Some(Earliest(agents, suspended));
      }
    }

    method SuspendAgent(now: real, name: string, seconds: real, reason: string) returns (ok: bool)
      modifies this`suspended
      ensures ok == (name in old(agents))
      ensures Model() == if ok then Suspend(old(Model()), now, name, seconds, reason) else old(Model())
      ensures forall n :: n != name || !ok ==>
        (n in suspended <==> n in old(suspended)) && (n in suspended ==> suspended[n] == old(suspended)[n])
      ensures ok ==> name in suspended
      ensures var until := now + if seconds > 0.0 then seconds else 0.0;
        var kept := name in old(suspended) && old(suspended)[name].until > until;
        ok ==> suspended[name] == if kept then old(suspended)[name] else Suspension(until, reason)
    {
      if name !in agents {
        return false;
      }
      ok := true;
      var until := now + if seconds > 0.0 then seconds else 0.0;
      if name in suspended && suspended[name].until > until {
        return;
      }
      suspended := suspended[name := Suspension(until, reason)];
    }

    method ResumeAgent(name: string) returns (was: bool)
      modifies this`suspended
      ensures Model() == Resume(old(Model()), name) && was == (name in old(suspended))
      ensures suspended == old(suspended) - {name}
    {
      was := name in suspended;
      suspended := suspended - {name};
    }

    method Freeze(name: string) returns (ok: bool)
      modifies this`frozenAgent, this`orchestratorAgent
      ensures ok == (name in agents)
      ensures Model() == if ok then old(Model()).(frozen := Some(name), orchestrator := None) else old(Model())
    {
      ok := name in agents;
      if ok {
        frozenAgent, orchestratorAgent := Some(name), None;
      }
    }

    method SetOrchestrator(name: string) returns (ok: bool)
      modifies this`frozenAgent, this`orchestratorAgent
      ensures ok == (name in agents)
      ensures Model() == if ok then old(Model()).(frozen := Some(name), orchestrator := Some(name)) else old(Model())
    {
      ok := name in agents;
      if ok {
        frozenAgent, orchestratorAgent := Some(name), Some(name);
      }
    }

    method Unfreeze()
      modifies this`frozenAgent, this`orchestratorAgent
      ensures Model() == Unrouted(old(Model()))
      ensures frozenAgent == None && orchestratorAgent == None
    {
      frozenAgent, orchestratorAgent := None, None;
    }

    method AddAgent(name: string)
      modifies this`agents
      ensures Model() == Add(old(Model()), name)
      ensures agents == if name in old(agents) then old(agents) else old(agents) + [name]
    {
      if name !in agents {
        agents := agents + [name];
      }
    }

    method RemoveAgent(name: string) returns (cleared: bool)
      modifies this
      ensures Model() == Remove(old(Model()), name)
      ensures cleared == (name in old(agents) && old(frozenAgent) == Some(name))
      ensures frozenAgent == if cleared then None else old(frozenAgent)
      ensures orchestratorAgent == if cleared then None else old(orchestratorAgent)
      ensures suspended == old(suspended) - {name}
      ensures if name in old(agents) then WithoutFirst(old(agents), agents, name) else agents == old(agents)
    {
      cleared := false;
      suspended := suspended - {name};
      if name in agents {
        var index := IndexOf(agents, name);
        assert name !in agents[..index];
        agents := agents[..index] + agents[index + 1..];
        if frozenAgent == Some(name) {
          frozenAgent, orchestratorAgent, cleared := None, None, true;
        }
      }
    }

    method SetAll(agents: seq<string>) returns (cleared: bool)
      modifies this
      ensures Model() == SetAgents(old(Model()), agents)
      ensures cleared == (old(frozenAgent).Some? && old(frozenAgent).value !in agents)
      ensures this.agents == agents
      ensures frozenAgent == if cleared then None else old(frozenAgent)
      ensures orchestratorAgent == if cleared then None else old(orchestratorAgent)
      ensures forall n :: n in suspended <==> n in old(suspended) && n in agents
      ensures forall n :: n in suspended ==> suspended[n] == old(suspended)[n]
    {
      this.agents := agents;
      suspended := map n | n in suspended && n in agents :: suspended[n];
      cleared := frozenAgent.Some? && frozenAgent.value !in agents;
      if cleared {
        frozenAgent, orchestratorAgent := None, None;
      }
    }

    method RotateAll()
      modifies this`agents
      ensures Model() == Rotate(old(Model()))
      ensures |old(agents)| > 0 ==> agents == old(agents)[1..] + [old(agents)[0]]
      ensures |old(agents)| == 0 ==> agents == []
    {
      if |agents| > 1 {
        agents := agents[1..] + agents[..1];
      }
    }
  }
}
