/**
 * Cache tags as the API slices declare them. The caching library matches an
 * invalidated tag against provided tags by equal (type, id); that matching is
 * the assumption `Covers` writes down.
 */
module Tags {
  import opened Wrappers

  /** The `tagTypes` of the two slices. */
  datatype TagType = AgentTag | WorkflowTag

  /**
   * The `id` of a tag: a string, or `NoId` when the tag function received the
   * `undefined` argument of a query that takes none.
   */
  datatype TagId = Id(value: string) | NoId

  datatype Tag = Tag(kind: TagType, id: TagId)

  /** The sentinel id the slices use for "the whole list". */
  const ListId: TagId := Id("LIST")

  /** Every tag in `invalidated` equals some tag in `provided`. */
  predicate Covers(provided: seq<Tag>, invalidated: seq<Tag>)
  {
    forall t :: t in invalidated ==> t in provided
  }

  /** One `{type: kind, id}` tag per id, in order (the `result.map(...)` of a list query). */
  function IdTags(kind: TagType, ids: seq<string>): (r: seq<Tag>)
    ensures |r| == |ids|
    ensures forall i :: 0 <= i < |ids| ==> r[i] == Tag(kind, Id(ids[i]))
  {
    if ids == [] then [] else [Tag(kind, Id(ids[0]))] + IdTags(kind, ids[1..])
  }

  /**
   * The tags a list query provides: one per element followed by the LIST tag,
   * or the LIST tag alone when there is no result.
   */
  function ListTags(kind: TagType, ids: Option<seq<string>>): (r: seq<Tag>)
    ensures Tag(kind, ListId) in r && r[|r| - 1] == Tag(kind, ListId)
    ensures ids.None? ==> |r| == 1
    ensures ids.Some? ==> |r| == |ids.value| + 1
                          && forall i :: 0 <= i < |ids.value| ==> r[i] == Tag(kind, Id(ids.value[i]))
  {
    match ids
    case Some(xs) => IdTags(kind, xs) + [Tag(kind, ListId)]
    case None => [Tag(kind, ListId)]
  }

  /** The shape of `ListTags` for a present result. */
  lemma ListTagsPresent(kind: TagType, xs: seq<string>)
    ensures |ListTags(kind, Some(xs))| == |xs| + 1
    ensures forall i :: 0 <= i < |xs| ==> ListTags(kind, Some(xs))[i] == Tag(kind, Id(xs[i]))
    ensures ListTags(kind, Some(xs))[|xs|] == Tag(kind, ListId)
  {
  }

  /** The LIST tag is provided whatever the result. */
  lemma ListTagAlwaysProvided(kind: TagType, ids: Option<seq<string>>)
    ensures Tag(kind, ListId) in ListTags(kind, ids)
  {
    if ids.Some? {
      ListTagsPresent(kind, ids.value);
    }
  }

  /** A tag `{kind, id}` with a string id is provided exactly when the id is listed or is the LIST sentinel. */
  lemma {:induction false} IdTagProvidedIff(kind: TagType, xs: seq<string>, x: string)
    ensures Tag(kind, Id(x)) in ListTags(kind, Some(xs)) <==> x in xs || x == "LIST"
  {
    var r := ListTags(kind, Some(xs));
    ListTagsPresent(kind, xs);
    if x in xs {
      var i :| 0 <= i < |xs| && xs[i] == x;
      assert r[i] == Tag(kind, Id(x));
    }
    if Tag(kind, Id(x)) in r {
      var j :| 0 <= j < |r| && r[j] == Tag(kind, Id(x));
      if j < |xs| {
        assert xs[j] == x;
      }
    }
  }
}
