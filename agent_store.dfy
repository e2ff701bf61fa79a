/**
 * The mock agent store of the agent-management API slice: a module-level list
 * of agents that the `queryFn` handlers read, append to, patch in place and
 * splice. Requests become synchronous calls; the clock becomes a timestamp
 * argument.
 */
module AgentStore {
  import opened Wrappers
  import Decimal

  datatype AgentStatus = Active | Inactive | Error

  /** `Record<string, any>`, with values kept as text. */
  type Configuration = map<string, string>

  /**
   * A stored agent. `id` and `createdAt` are always present in the store;
   * the other fields may be missing, since `addAgent` stores whatever part
   * of an agent its body holds.
   */
  datatype Agent = Agent(
    id: string,
    name: Option<string>,
    description: Option<string>,
    status: Option<AgentStatus>,
    configuration: Option<Configuration>,
    createdAt: string,
    lastUsed: Option<string>)

  /** `Partial<Agent>` without its `id`: the fields a body or a patch may carry. */
  datatype AgentFields = AgentFields(
    name: Option<string>,
    description: Option<string>,
    status: Option<AgentStatus>,
    configuration: Option<Configuration>,
    createdAt: Option<string>,
    lastUsed: Option<string>)

  /** `Partial<Agent>`, the body of `addAgent`. */
  datatype PartialAgent = PartialAgent(id: Option<string>, fields: AgentFields)

  /** The `error` of a failed request. */
  datatype ApiError = ApiError(status: int, data: string)

  const NotFound: ApiError := ApiError(404, "Agent not found")

  /** The `data` of a successful delete. */
  datatype DeleteAck = DeleteAck(success: bool, id: string)

  const NoFields: AgentFields := AgentFields(None, None, None, None, None, None)

  /** The ids of the agents, in store order. */
  function Ids(s: seq<Agent>): (r: seq<string>)
    ensures |r| == |s| && forall i :: 0 <= i < |s| ==> r[i] == s[i].id
  {
    seq(|s|, i requires 0 <= i < |s| => s[i].id)
  }

  /** The index of the first agent with this id (`find` / `findIndex`). */
  function FirstIndex(s: seq<Agent>, id: string): (r: Option<nat>)
    ensures r.Some? ==> r.value < |s| && s[r.value].id == id
    ensures r.Some? ==> forall j :: 0 <= j < r.value ==> s[j].id != id
    ensures r.None? <==> forall j :: 0 <= j < |s| ==> s[j].id != id
  {
    if s == [] then None
    else if s[0].id == id then Some(0)
    else match FirstIndex(s[1..], id)
      case None => None
      case Some(k) => Some(k + 1)
  }

  /** `{ ...a, ...patch }`: each field the patch carries overwrites, the rest are kept. */
  function Merge(a: Agent, patch: AgentFields): (r: Agent)
    ensures r.id == a.id
  {
    Agent(
      a.id,
      if patch.name.Some? then patch.name else a.name,
      if patch.description.Some? then patch.description else a.description,
      if patch.status.Some? then patch.status else a.status,
      if patch.configuration.Some? then patch.configuration else a.configuration,
      if patch.createdAt.Some? then patch.createdAt.value else a.createdAt,
      if patch.lastUsed.Some? then patch.lastUsed else a.lastUsed)
  }

  /**
   * The record `addAgent` builds for a store of `count` agents:
   * `{ ...body, id: String(count + 1), createdAt: now }`.
   */
  function Created(body: PartialAgent, count: nat, now: string): (r: Agent)
    ensures r.id == Decimal.NatToString(count + 1) && r.createdAt == now
    ensures r.name == body.fields.name && r.description == body.fields.description
    ensures r.status == body.fields.status && r.configuration == body.fields.configuration
    ensures r.lastUsed == body.fields.lastUsed
  {
    var f := body.fields;
    Agent(Decimal.NatToString(count + 1), f.name, f.description, f.status, f.configuration, now, f.lastUsed)
  }

  /** `splice(i, 1)` on a list: the list without its element at `i`. */
  function Without(s: seq<Agent>, i: nat): (r: seq<Agent>)
    requires i < |s|
    ensures |r| == |s| - 1
    ensures forall j :: 0 <= j < i ==> r[j] == s[j]
    ensures forall j :: i <= j < |r| ==> r[j] == s[j + 1]
    ensures multiset(r) + multiset{s[i]} == multiset(s)
  {
    assert s == s[..i] + [s[i]] + s[i + 1..];
    s[..i] + s[i + 1..]
  }

  const AnalysisName := "Data Analysis Agent"
  const AnalysisDescription := "Specialized in processing and analyzing large datasets"
  const ServiceName := "Customer Service Bot"
  const ServiceDescription := "Handles customer inquiries and support tickets"
  const ReviewName := "Code Review Assistant"
  const ReviewDescription := "AI agent for automated code reviews and suggestions"

  /** The three agents the store starts with. */
  function InitialAgents(now: string): (r: seq<Agent>)
    ensures |r| == 3 && r[0].id == "1" && r[1].id == "2" && r[2].id == "3"
    ensures forall a :: a in r ==> a.createdAt == now && a.name.Some? && a.status.Some?
  {
    [ Agent("1", Some(AnalysisName), Some(AnalysisDescription), Some(Active), None, now, Some(now)),
      Agent("2", Some(ServiceName), Some(ServiceDescription), Some(Active), None, now, Some(now)),
      Agent("3", Some(ReviewName), Some(ReviewDescription), Some(Inactive), None, now, None) ]
  }

  /** Every agent's id is its one-based position, as long as nothing was deleted. */
  ghost predicate SequentialIds(s: seq<Agent>)
  {
    forall i :: 0 <= i < |s| ==> s[i].id == Decimal.NatToString(i + 1)
  }

  ghost predicate DistinctIds(s: seq<Agent>)
  {
    forall i, j :: 0 <= i < j < |s| ==> s[i].id != s[j].id
  }

  /** The module-level `mockAgents` list and the handlers that use it. */
  class MockAgents {
    var agents: seq<Agent>

    constructor (now: string)
      ensures agents == InitialAgents(now)
    {
      agents := InitialAgents(now);
    }

    /** `getAgents`: the current contents of the store. */
    method GetAgents() returns (data: seq<Agent>)
      ensures data == agents
    {
      data := agents;
    }

    /** `getAgentById`: the first agent with the id, or 404. */
    method GetAgentById(id: string) returns (r: Result<Agent, ApiError>)
      ensures r.Ok? <==> id in Ids(agents)
      ensures r.Ok? ==> exists i :: 0 <= i < |agents| && r.value == agents[i] && r.value.id == id
                                    && forall j :: 0 <= j < i ==> agents[j].id != id
      ensures r.Err? ==> r.error == NotFound
    {
      var index := FirstIndex(agents, id);
      if index.None? {
        return Err(NotFound);
      }
      r := Ok(agents[index.value]);
      if r.Ok? {
        assert Ids(agents)[index.value] == id;
      }
    }

    /** `addAgent`: append one record whose id is the old length plus one. */
    method AddAgent(body: PartialAgent, now: string) returns (agent: Agent)
      modifies this
      ensures agent == Created(body, |old(agents)|, now)
      ensures agents == old(agents) + [agent]
    {
      agent := Created(body, |agents|, now);
      agents := agents + [agent];
    }

    /** `updateAgent`: merge the patch into the first agent with the id, or 404. */
    method UpdateAgent(id: string, patch: AgentFields) returns (r: Result<Agent, ApiError>)
      modifies this
      ensures FirstIndex(old(agents), id).None? ==> r == Err(NotFound) && agents == old(agents)
      ensures FirstIndex(old(agents), id).Some? ==>
                var i := FirstIndex(old(agents), id).value;
                agents == old(agents)[i := Merge(old(agents)[i], patch)] && r == Ok(agents[i])
    {
      var index := FirstIndex(agents, id);
      if index.None? {
        return Err(NotFound);
      }
      var i := index.value;
      agents := agents[i := Merge(agents[i], patch)];
      r := Ok(agents[i]);
    }

    /** `deleteAgent`: splice out the first agent with the id, or 404. */
    method DeleteAgent(id: string) returns (r: Result<DeleteAck, ApiError>)
      modifies this
      ensures FirstIndex(old(agents), id).None? ==> r == Err(NotFound) && agents == old(agents)
      ensures FirstIndex(old(agents), id).Some? ==>
                agents == Without(old(agents), FirstIndex(old(agents), id).value)
                && r == Ok(DeleteAck(true, id))
    {
      var index := FirstIndex(agents, id);
      if index.None? {
        return Err(NotFound);
      }
      agents := Without(agents, index.value);
      r := Ok(DeleteAck(true, id));
    }
  }

  /** Patching the same fields twice has the effect of patching once. */
  lemma MergeIdempotent(a: Agent, patch: AgentFields)
    ensures Merge(Merge(a, patch), patch) == Merge(a, patch)
  {
  }

  /** An empty patch changes nothing. */
  lemma MergeNothing(a: Agent)
    ensures Merge(a, NoFields) == a
  {
  }

  /** A patch that carries a field sets it; one that does not keeps it. */
  lemma MergeFields(a: Agent, patch: AgentFields)
    ensures Merge(a, patch).name == (if patch.name.Some? then patch.name else a.name)
    ensures Merge(a, patch).description == (if patch.description.Some? then patch.description else a.description)
    ensures Merge(a, patch).status == (if patch.status.Some? then patch.status else a.status)
    ensures Merge(a, patch).configuration == (if patch.configuration.Some? then patch.configuration else a.configuration)
    ensures Merge(a, patch).lastUsed == (if patch.lastUsed.Some? then patch.lastUsed else a.lastUsed)
    ensures patch.createdAt.Some? ==> Merge(a, patch).createdAt == patch.createdAt.value
    ensures patch.createdAt.None? ==> Merge(a, patch).createdAt == a.createdAt
  {
  }

  /** The id and timestamp of a new record never come from the body. */
  lemma CreatedIgnoresBodyId(body: PartialAgent, count: nat, now: string, otherId: Option<string>, otherCreatedAt: Option<string>)
    ensures Created(body, count, now)
         == Created(PartialAgent(otherId, body.fields.(createdAt := otherCreatedAt)), count, now)
  {
  }

  /** Updating the first match keeps the length, every id, and every other record. */
  lemma UpdateFrame(s: seq<Agent>, id: string, patch: AgentFields)
    requires FirstIndex(s, id).Some?
    ensures var i := FirstIndex(s, id).value;
            var t := s[i := Merge(s[i], patch)];
            |t| == |s| && Ids(t) == Ids(s)
            && forall j :: 0 <= j < |s| && j != i ==> t[j] == s[j]
  {
  }

  /** With a duplicated id, an update touches the first copy and leaves the later one as it was. */
  lemma UpdateSkipsLaterDuplicate(s: seq<Agent>, id: string, patch: AgentFields, k: nat)
    requires k < |s| && s[k].id == id && FirstIndex(s, id).value != k
    ensures FirstIndex(s, id).value < k
    ensures s[FirstIndex(s, id).value := Merge(s[FirstIndex(s, id).value], patch)][k] == s[k]
  {
  }

  /** Deleting the first match of an id that occurs once leaves no agent with that id. */
  lemma DeleteRemovesUniqueId(s: seq<Agent>, id: string)
    requires DistinctIds(s) && FirstIndex(s, id).Some?
    ensures id !in Ids(Without(s, FirstIndex(s, id).value))
  {
  }

  /** With a duplicated id, a delete removes the first copy; a later copy stays, one place earlier. */
  lemma DeleteKeepsLaterDuplicate(s: seq<Agent>, id: string, k: nat)
    requires k < |s| && s[k].id == id && FirstIndex(s, id).value != k
    ensures Without(s, FirstIndex(s, id).value)[k - 1] == s[k]
    ensures id in Ids(Without(s, FirstIndex(s, id).value))
  {
    var t := Without(s, FirstIndex(s, id).value);
    assert Ids(t)[k - 1] == id;
  }

  /** The store starts with ids "1", "2", "3". */
  lemma InitialIdsSequential(now: string)
    ensures SequentialIds(InitialAgents(now))
  {
    assert Decimal.NatToString(1) == "1";
    assert Decimal.NatToString(2) == "2";
    assert Decimal.NatToString(3) == "3";
  }

  /** Appending keeps ids sequential. */
  lemma AddKeepsIdsSequential(s: seq<Agent>, body: PartialAgent, now: string)
    requires SequentialIds(s)
    ensures SequentialIds(s + [Created(body, |s|, now)])
  {
  }

  /** Updating keeps ids sequential, since a merge keeps the id. */
  lemma UpdateKeepsIdsSequential(s: seq<Agent>, i: nat, patch: AgentFields)
    requires SequentialIds(s) && i < |s|
    ensures SequentialIds(s[i := Merge(s[i], patch)])
  {
  }

  /** Sequential ids are distinct: while nothing is deleted, `String(length + 1)` is a fresh id. */
  lemma SequentialIdsDistinct(s: seq<Agent>)
    requires SequentialIds(s)
    ensures DistinctIds(s)
  {
    forall i, j | 0 <= i < j < |s|
      ensures s[i].id != s[j].id
    {
      if s[i].id == s[j].id {
        Decimal.NatToStringInjective(i + 1, j + 1);
      }
    }
  }

  /** In the initial store, deleting "1" splices out the first record and leaves "2" and "3". */
  lemma DeleteOneFromInitial(now: string)
    ensures FirstIndex(InitialAgents(now), "1") == Some(0)
    ensures var rest := Without(InitialAgents(now), 0); |rest| == 2 && rest[0].id == "2" && rest[1].id == "3"
  {
  }

  /**
   * After deleting agent "1" from the initial store, `addAgent` hands out
   * id "3" a second time.
   */
  method DuplicateIdAfterDelete(now: string, body: PartialAgent) returns (ids: seq<string>)
    ensures |ids| == 3 && ids[0] == "2" && ids[1] == "3" && ids[2] == "3"
  {
    var store := new MockAgents(now);
    DeleteOneFromInitial(now);
    var deleted := store.DeleteAgent("1");
    var added := store.AddAgent(body, now);
    assert Decimal.NatToString(3) == "3";
    ids := Ids(store.agents);
  }
}
