/**
 * The workflow API slice: what each endpoint sends (URL relative to the
 * `/api/` base, method, body) and which cache tags it provides or
 * invalidates. Everything here is a pure function of the argument.
 */
module WorkflowApi {
  import opened Wrappers
  import opened Tags

  datatype WorkflowStatus = Draft | Active | Archived

  /** A JavaScript number. */
  datatype Position = Position(x: real, y: real)

  datatype WorkflowNode = WorkflowNode(id: string, nodeType: string, position: Position, data: map<string, string>)

  datatype WorkflowEdge = WorkflowEdge(id: string, source: string, target: string, edgeType: Option<string>)

  datatype Workflow = Workflow(
    id: string,
    name: string,
    description: Option<string>,
    status: WorkflowStatus,
    nodes: seq<WorkflowNode>,
    edges: seq<WorkflowEdge>,
    createdAt: string,
    updatedAt: string)

  /** `Partial<Workflow>` without its `id`. */
  datatype WorkflowFields = WorkflowFields(
    name: Option<string>,
    description: Option<string>,
    status: Option<WorkflowStatus>,
    nodes: Option<seq<WorkflowNode>>,
    edges: Option<seq<WorkflowEdge>>,
    createdAt: Option<string>,
    updatedAt: Option<string>)

  /** `Partial<Workflow>`: a request body. */
  datatype PartialWorkflow = PartialWorkflow(id: Option<string>, fields: WorkflowFields)

  datatype HttpMethod = Post | Patch | Delete

  /**
   * What a `query` function returns: a bare path (sent as a GET), or an
   * object with url, method (`verb`) and an optional body.
   */
  datatype Request = Path(url: string) | Call(url: string, verb: HttpMethod, body: Option<PartialWorkflow>)

  const Collection := "workflows"
  const ItemPrefix := "workflows/"

  /** The path of one workflow: the id is inserted verbatim, without escaping. */
  function ItemUrl(id: string): (url: string)
    ensures |url| == |ItemPrefix| + |id| && url[..|ItemPrefix|] == ItemPrefix && url[|ItemPrefix|..] == id
  {
    ItemPrefix + id
  }

  /** The workflow id an item path names, if it is one. */
  function ItemId(url: string): Option<string>
  {
    if |url| >= |ItemPrefix| && url[..|ItemPrefix|] == ItemPrefix then Some(url[|ItemPrefix|..]) else None
  }

  /** `getWorkflows.query`: a GET of the collection path, which names no single workflow. */
  function GetWorkflowsQuery(): (r: Request)
    ensures r.Path? && r.url == Collection && ItemId(r.url).None?
  {
    Path(Collection)
  }

  /** `getWorkflowById.query`: a GET of the item path, from which the id reads back. */
  function GetWorkflowByIdQuery(id: string): (r: Request)
    ensures r.Path? && ItemId(r.url) == Some(id)
  {
    Path(ItemUrl(id))
  }

  /** `addWorkflow.query`: POST the body as given to the collection path. */
  function AddWorkflowQuery(body: PartialWorkflow): (r: Request)
    ensures r.Call? && r.verb == Post && r.url == Collection && ItemId(r.url).None?
    ensures r.body == Some(body)
  {
    Call(Collection, Post, Some(body))
  }

  /** `updateWorkflow.query`: the argument `{ id, ...patch }` becomes a PATCH of `patch` to the item path. */
  function UpdateWorkflowQuery(id: string, patch: WorkflowFields): (r: Request)
    ensures r.Call? && r.verb == Patch && ItemId(r.url) == Some(id)
    ensures r.body.Some? && r.body.value.id.None? && r.body.value.fields == patch
  {
    Call(ItemUrl(id), Patch, Some(PartialWorkflow(None, patch)))
  }

  /** `deleteWorkflow.query`: a DELETE of the item path without a body. */
  function DeleteWorkflowQuery(id: string): (r: Request)
    ensures r.Call? && r.verb == Delete && ItemId(r.url) == Some(id) && r.body.None?
  {
    Call(ItemUrl(id), Delete, None)
  }

  /** The ids of a list of workflows, in order. */
  function Ids(ws: seq<Workflow>): (r: seq<string>)
    ensures |r| == |ws| && forall i :: 0 <= i < |ws| ==> r[i] == ws[i].id
  {
    seq(|ws|, i requires 0 <= i < |ws| => ws[i].id)
  }

  /** `getWorkflows.providesTags`. */
  function GetWorkflowsProvides(result: Option<seq<Workflow>>): (r: seq<Tag>)
    ensures Tag(WorkflowTag, ListId) in r
    ensures result.None? ==> |r| == 1
    ensures result.Some? ==> |r| == |result.value| + 1
  {
    match result
    case Some(ws) => ListTags(WorkflowTag, Some(Ids(ws)))
    case None => ListTags(WorkflowTag, None)
  }

  /** `getWorkflowById.providesTags`: exactly the tag of its argument. */
  function GetWorkflowByIdProvides(id: string): (r: seq<Tag>)
    ensures |r| == 1 && r[0].kind == WorkflowTag && r[0].id == Id(id)
  {
    [Tag(WorkflowTag, Id(id))]
  }

  /** `addWorkflow.invalidatesTags`: the LIST tag, which every list query provides. */
  function AddWorkflowInvalidates(): (r: seq<Tag>)
    ensures forall result :: Covers(GetWorkflowsProvides(result), r)
  {
    [Tag(WorkflowTag, ListId)]
  }

  /** `updateWorkflow.invalidatesTags`: the tag the single-workflow query of that id provides. */
  function UpdateWorkflowInvalidates(id: string): (r: seq<Tag>)
    ensures r == GetWorkflowByIdProvides(id)
  {
    [Tag(WorkflowTag, Id(id))]
  }

  /** `deleteWorkflow.invalidatesTags`: the tag the single-workflow query of that id provides. */
  function DeleteWorkflowInvalidates(id: string): (r: seq<Tag>)
    ensures r == GetWorkflowByIdProvides(id)
  {
    [Tag(WorkflowTag, Id(id))]
  }

  /** A fetched list provides one tag per workflow in list order, then the LIST tag. */
  lemma ProvidesForList(ws: seq<Workflow>)
    ensures |GetWorkflowsProvides(Some(ws))| == |ws| + 1
    ensures forall i :: 0 <= i < |ws| ==> GetWorkflowsProvides(Some(ws))[i] == Tag(WorkflowTag, Id(ws[i].id))
    ensures GetWorkflowsProvides(Some(ws))[|ws|] == Tag(WorkflowTag, ListId)
  {
    ListTagsPresent(WorkflowTag, Ids(ws));
  }

  /** Without a result the list query provides the LIST tag alone. */
  lemma ProvidesWithoutResult()
    ensures GetWorkflowsProvides(None) == [Tag(WorkflowTag, ListId)]
  {
  }

  /** Adding a workflow always refreshes the list query. */
  lemma AddAlwaysCovered(result: Option<seq<Workflow>>)
    ensures Covers(GetWorkflowsProvides(result), AddWorkflowInvalidates())
  {
    match result
    case None =>
    case Some(ws) => ListTagAlwaysProvided(WorkflowTag, Some(Ids(ws)));
  }

  /**
   * Updating or deleting `id` refreshes a fetched list exactly when the list
   * holds a workflow with that id, or when the id is the LIST sentinel itself.
   */
  lemma ItemMutationCoveredIff(ws: seq<Workflow>, id: string)
    ensures Covers(GetWorkflowsProvides(Some(ws)), UpdateWorkflowInvalidates(id))
        <==> (exists w :: w in ws && w.id == id) || id == "LIST"
    ensures Covers(GetWorkflowsProvides(Some(ws)), DeleteWorkflowInvalidates(id))
        == Covers(GetWorkflowsProvides(Some(ws)), UpdateWorkflowInvalidates(id))
  {
    IdTagProvidedIff(WorkflowTag, Ids(ws), id);
    if id in Ids(ws) {
      var i :| 0 <= i < |ws| && Ids(ws)[i] == id;
      assert ws[i] in ws;
    }
    if w :| w in ws && w.id == id {
      var i :| 0 <= i < |ws| && ws[i] == w;
      assert Ids(ws)[i] == id;
    }
  }

  /** For every workflow of a fetched list, its update and delete tags are among the list's tags. */
  lemma ListedWorkflowCovered(ws: seq<Workflow>, w: Workflow)
    requires w in ws
    ensures Covers(GetWorkflowsProvides(Some(ws)), UpdateWorkflowInvalidates(w.id))
    ensures Covers(GetWorkflowsProvides(Some(ws)), DeleteWorkflowInvalidates(w.id))
  {
    ItemMutationCoveredIff(ws, w.id);
  }

  /** The single-workflow query provides exactly the tag its update and delete invalidate. */
  lemma ByIdProvidesItemTag(id: string)
    ensures GetWorkflowByIdProvides(id) == UpdateWorkflowInvalidates(id) == DeleteWorkflowInvalidates(id)
    ensures GetWorkflowByIdProvides(id) == [Tag(WorkflowTag, Id(id))]
  {
  }

  /** The item path gives back the id it was built from: ids reach the URL unchanged. */
  lemma ItemUrlRoundTrip(id: string)
    ensures ItemId(ItemUrl(id)) == Some(id)
  {
  }

  /** Different ids give different item paths, and no item path is the collection path. */
  lemma ItemUrlInjective(a: string, b: string)
    ensures ItemUrl(a) == ItemUrl(b) ==> a == b
    ensures ItemUrl(a) != Collection
  {
    ItemUrlRoundTrip(a);
    ItemUrlRoundTrip(b);
  }

  /** The read queries: the collection path, and the item path of the id. */
  lemma ReadRequests(id: string)
    ensures GetWorkflowsQuery() == Path("workflows")
    ensures GetWorkflowByIdQuery(id).Path? && ItemId(GetWorkflowByIdQuery(id).url) == Some(id)
  {
  }

  /** A POST of the body, unchanged, to the collection path. */
  lemma AddRequest(body: PartialWorkflow)
    ensures AddWorkflowQuery(body) == Call("workflows", Post, Some(body))
  {
  }

  /**
   * The PATCH request carries everything the argument held: the id in the
   * path and every other field in the body, which holds no id.
   */
  lemma UpdateRequestRoundTrip(id: string, patch: WorkflowFields)
    ensures var r := UpdateWorkflowQuery(id, patch);
            r.Call? && r.verb == Patch && r.body.Some? && r.body.value.id.None?
            && ItemId(r.url) == Some(id) && r.body.value.fields == patch
  {
    ItemUrlRoundTrip(id);
  }

  /** The DELETE request names the id in its path and has no body. */
  lemma DeleteRequest(id: string)
    ensures var r := DeleteWorkflowQuery(id);
            r.Call? && r.verb == Delete && r.body.None? && ItemId(r.url) == Some(id)
  {
    ItemUrlRoundTrip(id);
  }
}
