/**
 * The tag lists the agent endpoints declare. `getAgents` takes no argument,
 * so the `id` its tag function receives is `undefined` (`NoId`).
 */
module AgentTags {
  import opened Wrappers
  import opened Tags
  import AgentStore

  /** `getAgents.providesTags`: `[{ type: 'Agent', id }]` with the void argument as id. */
  function GetAgentsProvides(): (r: seq<Tag>)
    ensures |r| == 1 && forall t :: t in r ==> t.kind == AgentTag && t.id == NoId
  {
    [Tag(AgentTag, NoId)]
  }

  /** `getAgentById.providesTags`: exactly the tag of its argument. */
  function GetAgentByIdProvides(id: string): (r: seq<Tag>)
    ensures |r| == 1 && r[0].kind == AgentTag && r[0].id == Id(id)
  {
    [Tag(AgentTag, Id(id))]
  }

  /** `addAgent.invalidatesTags`: the LIST tag, which the list query does not provide. */
  function AddAgentInvalidates(): (r: seq<Tag>)
    ensures Tag(AgentTag, ListId) in r
    ensures !Covers(GetAgentsProvides(), r)
  {
    [Tag(AgentTag, ListId)]
  }

  /** `updateAgent.invalidatesTags`, from the argument's id. */
  function UpdateAgentInvalidates(id: string): (r: seq<Tag>)
    ensures Covers(GetAgentByIdProvides(id), r) && r != []
    ensures !Covers(GetAgentsProvides(), r)
  {
    [Tag(AgentTag, Id(id))]
  }

  /** `deleteAgent.invalidatesTags`. */
  function DeleteAgentInvalidates(id: string): (r: seq<Tag>)
    ensures Covers(GetAgentByIdProvides(id), r) && r != []
    ensures !Covers(GetAgentsProvides(), r)
  {
    [Tag(AgentTag, Id(id))]
  }

  /** No tag any agent mutation invalidates equals the tag the list query provides. */
  lemma AgentListNeverInvalidated(id: string)
    ensures forall t :: t in AddAgentInvalidates() ==> t !in GetAgentsProvides()
    ensures forall t :: t in UpdateAgentInvalidates(id) ==> t !in GetAgentsProvides()
    ensures forall t :: t in DeleteAgentInvalidates(id) ==> t !in GetAgentsProvides()
  {
  }

  /** Updating or deleting an agent invalidates exactly the tag its single-agent query provides. */
  lemma ByIdCoversItemMutations(id: string)
    ensures Covers(GetAgentByIdProvides(id), UpdateAgentInvalidates(id))
    ensures Covers(GetAgentByIdProvides(id), DeleteAgentInvalidates(id))
    ensures forall other :: other != id ==> !Covers(GetAgentByIdProvides(other), UpdateAgentInvalidates(id))
    ensures forall other :: other != id ==> !Covers(GetAgentByIdProvides(other), DeleteAgentInvalidates(id))
  {
    forall other | other != id
      ensures !Covers(GetAgentByIdProvides(other), UpdateAgentInvalidates(id))
      ensures !Covers(GetAgentByIdProvides(other), DeleteAgentInvalidates(id))
    {
      assert Tag(AgentTag, Id(id)) in UpdateAgentInvalidates(id);
      assert Tag(AgentTag, Id(id)) in DeleteAgentInvalidates(id);
    }
  }

  /**
   * The list tags `getAgents` evidently should provide, in the pattern the
   * workflow slice uses: one tag per agent and the LIST tag.
   */
  function IntendedGetAgentsProvides(result: Option<seq<AgentStore.Agent>>): seq<Tag>
  {
    match result
    case Some(agents) => ListTags(AgentTag, Some(AgentStore.Ids(agents)))
    case None => ListTags(AgentTag, None)
  }

  /**
   * With the intended list tags, adding always refreshes the list, and
   * updating or deleting a listed agent does too.
   */
  lemma IntendedListCoversMutations(result: Option<seq<AgentStore.Agent>>, id: string)
    ensures Covers(IntendedGetAgentsProvides(result), AddAgentInvalidates())
    ensures result.Some? && id in AgentStore.Ids(result.value) ==>
              Covers(IntendedGetAgentsProvides(result), UpdateAgentInvalidates(id))
              && Covers(IntendedGetAgentsProvides(result), DeleteAgentInvalidates(id))
  {
    match result
    case None =>
      ListTagAlwaysProvided(AgentTag, None);
    case Some(agents) =>
      ListTagAlwaysProvided(AgentTag, Some(AgentStore.Ids(agents)));
      IdTagProvidedIff(AgentTag, AgentStore.Ids(agents), id);
  }
}
