/**
 * The workflow index page (components/workflows-list.tsx): pinning
 * workflows, pruning stale pins after a fetch, the category label, and the
 * split of the list into pinned workflows (in pin order) and the rest
 * (in fetch order). The `localStorage` entry `pco-pinned-workflows` is
 * the field `stored`; its JSON encoding is not modelled.
 */
module WorkflowsList {
  import opened Wrappers
  import opened Js
  import opened Seqs
  import opened Fetch
  import opened PcoTypes

  /** The pin list after `togglePin(id)`: every copy of `id` removed when it was pinned, `id` appended otherwise. */
  function TogglePinned(ids: seq<string>, id: string): (r: seq<string>)
    ensures id in r <==> id !in ids
    ensures id !in ids ==> r == ids + [id]
    ensures id in ids ==> |r| < |ids| && forall i :: 0 <= i < |r| ==> r[i] in ids
  {
    if id in ids then
      var p := (x: string) => x != id;
      FilterKeepsAll(ids, p);
      Filter(ids, p)
    else ids + [id]
  }

  /** Pinning an id and unpinning it again restores the pin list. */
  lemma PinThenUnpin(ids: seq<string>, id: string)
    requires id !in ids
    ensures TogglePinned(TogglePinned(ids, id), id) == ids
  {
    var p := (x: string) => x != id;
    FilterAppend(ids, [id], p);
    FilterKeepsAll(ids, p);
  }

  /** Toggling one id leaves whether any other id is pinned unchanged. */
  lemma ToggleKeepsOthers(ids: seq<string>, id: string, other: string)
    requires other != id
    ensures other in TogglePinned(ids, id) <==> other in ids
  {
    if id in ids {
      if other in ids {
        var i :| 0 <= i < |ids| && ids[i] == other;
      }
    }
  }

  /** Unpinning keeps the remaining pins in their pinning order. */
  lemma UnpinKeepsOrder(before: seq<string>, id: string, after: seq<string>)
    requires id !in before && id !in after
    ensures TogglePinned(before + [id] + after, id) == before + after
  {
    var p := (x: string) => x != id;
    FilterAppend(before + [id], after, p);
    FilterAppend(before, [id], p);
    FilterKeepsAll(before, p);
    FilterKeepsAll(after, p);
  }

  /** The ids of the fetched workflows. */
  function WorkflowIds(workflows: seq<Workflow>): set<string> {
    set w | w in workflows :: w.id
  }

  /** The stored pins that still name a fetched workflow, in their stored order. */
  function Prune(stored: seq<string>, workflows: seq<Workflow>): (r: seq<string>)
    ensures forall i :: 0 <= i < |r| ==> r[i] in stored && r[i] in WorkflowIds(workflows)
    ensures forall i :: 0 <= i < |stored| && stored[i] in WorkflowIds(workflows) ==> stored[i] in r
  {
    Filter(stored, (id: string) => id in WorkflowIds(workflows))
  }

  /** The pruned list differs in length from the stored one exactly when a stored pin is stale; otherwise it is the stored list. */
  lemma PruneChangesIffStale(stored: seq<string>, workflows: seq<Workflow>)
    ensures |Prune(stored, workflows)| != |stored| <==> exists i :: 0 <= i < |stored| && stored[i] !in WorkflowIds(workflows)
    ensures |Prune(stored, workflows)| == |stored| ==> Prune(stored, workflows) == stored
  {
    FilterKeepsAll(stored, (id: string) => id in WorkflowIds(workflows));
  }

  /** `getCategoryName`: the name of the first category with the id, or nothing for a missing id, a missing category or an empty name. */
  function CategoryName(categories: seq<WorkflowCategory>, categoryId: Option<string>): (r: Option<string>)
    ensures !Truthy(categoryId) ==> r.None?
    ensures r.Some? ==> r.value != "" && exists i :: (0 <= i < |categories| && categories[i].id == categoryId.value
      && categories[i].name == r.value && forall j :: 0 <= j < i ==> categories[j].id != categoryId.value)
    ensures Truthy(categoryId) && (forall i :: 0 <= i < |categories| ==> categories[i].id != categoryId.value) ==> r.None?
  {
    if !Truthy(categoryId) then None
    else
      match Find(categories, (c: WorkflowCategory) => c.id == categoryId.value)
      case None => None
      case Some(c) => if c.name != "" then Some(c.name) else None
  }

  /** The first category carrying the id decides the name: its own name, or nothing when that name is empty. */
  lemma CategoryNameFound(categories: seq<WorkflowCategory>, categoryId: Option<string>, i: nat)
    requires Truthy(categoryId) && i < |categories| && categories[i].id == categoryId.value
    requires forall j :: 0 <= j < i ==> categories[j].id != categoryId.value
    ensures CategoryName(categories, categoryId)
      == (if categories[i].name != "" then Some(categories[i].name) else None)
  {
    var p := (c: WorkflowCategory) => c.id == categoryId.value;
    var k := FindIndex(categories, p);
    assert p(categories[i]);
    assert k == i;
  }

  /** A workflow is pinned when its id is in the pin list. */
  function IsPinned(pinnedIds: seq<string>): Workflow -> bool {
    (w: Workflow) => w.id in pinnedIds
  }

  function IsUnpinned(pinnedIds: seq<string>): Workflow -> bool {
    (w: Workflow) => w.id !in pinnedIds
  }

  /** The sort key of a pinned workflow: its position in the pin list. */
  function PinRank(pinnedIds: seq<string>): Workflow -> int {
    (w: Workflow) => IndexOf(pinnedIds, w.id)
  }

  /** What the two `fetch` calls of `fetchData` settle to: a rejection (with its message) or two replies. */
  datatype ListFetch =
    | Rejected(message: string)
    | Replied(workflows: Reply<seq<Workflow>>, categories: Reply<seq<WorkflowCategory>>)

  class WorkflowsListState {
    var workflows: seq<Workflow>
    var categories: seq<WorkflowCategory>
    var pinnedIds: seq<string>
    /** The `pco-pinned-workflows` entry of `localStorage`. */
    var stored: seq<string>
    var loading: bool
    var error: Option<string>

    /** Mounting: the pins are read back from storage before any fetch settles. */
    constructor (stored: seq<string>)
      ensures this.stored == stored && pinnedIds == stored
      ensures workflows == [] && categories == [] && loading && error == None
    {
      this.stored := stored;
      pinnedIds := stored;
      workflows := [];
      categories := [];
      loading := true;
      error := None;
    }

    /**
     * `fetchData`. A failed workflows reply is an error; a failed categories
     * reply only empties the categories. After a successful fetch the stored
     * pins are pruned, and written back only when some pin was stale.
     */
    method FetchData(result: ListFetch)
      modifies this`workflows, this`categories, this`pinnedIds, this`stored, this`loading, this`error
      ensures !loading
      ensures result.Rejected? ==> error == Some(result.message)
      ensures result.Replied? && !result.workflows.ok ==> error == Some("Failed to fetch workflows")
      ensures result.Rejected? || !result.workflows.ok ==>
        workflows == old(workflows) && categories == old(categories) && pinnedIds == old(pinnedIds) && stored == old(stored)
      ensures result.Replied? && result.workflows.ok ==>
        && error == old(error)
        && workflows == result.workflows.data.GetOr([])
        && categories == (if result.categories.ok then result.categories.data.GetOr([]) else [])
        && var valid := Prune(old(stored), workflows);
           if |valid| != |old(stored)| then stored == valid && pinnedIds == valid
           else stored == old(stored) && pinnedIds == old(pinnedIds)
    {
      match result {
        case Rejected(message) =>
          error := Some(message);
        case Replied(workflowsReply, categoriesReply) =>
          if !workflowsReply.ok {
            error := Some("Failed to fetch workflows");
          } else {
            workflows := workflowsReply.data.GetOr([]);
            categories := if categoriesReply.ok then categoriesReply.data.GetOr([]) else [];
            var valid := Prune(stored, workflows);
            if |valid| != |stored| {
              stored := valid;
              pinnedIds := valid;
            }
          }
      }
      loading := false;
    }

    /** `togglePin`: the state and the storage entry both take the toggled list. */
    method TogglePin(workflowId: string)
      modifies this`pinnedIds, this`stored
      ensures pinnedIds == TogglePinned(old(pinnedIds), workflowId)
      ensures stored == pinnedIds
    {
      pinnedIds := TogglePinned(pinnedIds, workflowId);
      stored := pinnedIds;
    }

    /**
     * The memo that splits the list: each workflow goes to exactly one side,
     * the unpinned ones keep their fetch order, and the pinned ones are
     * sorted by their position in the pin list.
     */
    method Partition() returns (pinned: seq<Workflow>, unpinned: seq<Workflow>)
      ensures unpinned == Filter(workflows, IsUnpinned(pinnedIds))
      ensures multiset(pinned) == multiset(Filter(workflows, IsPinned(pinnedIds)))
      ensures multiset(pinned) + multiset(unpinned) == multiset(workflows)
      ensures forall i :: 0 <= i < |pinned| ==> pinned[i].id in pinnedIds
      ensures SortedBy(pinned, PinRank(pinnedIds))
    {
      var kept: seq<Workflow> := [];
      unpinned := [];
      for i := 0 to |workflows|
        invariant kept == Filter(workflows[..i], IsPinned(pinnedIds))
        invariant unpinned == Filter(workflows[..i], IsUnpinned(pinnedIds))
      {
        var w := workflows[i];
        PartitionStep(workflows, pinnedIds, i);
        if w.id in pinnedIds {
          kept := kept + [w];
        } else {
          unpinned := unpinned + [w];
        }
      }
      assert workflows[..|workflows|] == workflows;
      pinned := SortBy(kept, PinRank(pinnedIds));
      PinnedSide(workflows, pinnedIds, kept, pinned);
    }
  }

  /** Extending the scanned prefix by one workflow extends exactly one side of the split. */
  lemma PartitionStep(workflows: seq<Workflow>, pinnedIds: seq<string>, i: nat)
    requires i < |workflows|
    ensures var w := workflows[i];
      && Filter(workflows[..i + 1], IsPinned(pinnedIds))
         == Filter(workflows[..i], IsPinned(pinnedIds)) + (if w.id in pinnedIds then [w] else [])
      && Filter(workflows[..i + 1], IsUnpinned(pinnedIds))
         == Filter(workflows[..i], IsUnpinned(pinnedIds)) + (if w.id in pinnedIds then [] else [w])
  {
    var w := workflows[i];
    assert workflows[..i + 1] == workflows[..i] + [w];
    FilterAppend(workflows[..i], [w], IsPinned(pinnedIds));
    FilterAppend(workflows[..i], [w], IsUnpinned(pinnedIds));
  }

  /** Facts about the two sides of the split that do not depend on the loop. */
  lemma PinnedSide(workflows: seq<Workflow>, pinnedIds: seq<string>, kept: seq<Workflow>, pinned: seq<Workflow>)
    requires kept == Filter(workflows, IsPinned(pinnedIds))
    requires multiset(pinned) == multiset(kept)
    ensures multiset(pinned) + multiset(Filter(workflows, IsUnpinned(pinnedIds))) == multiset(workflows)
    ensures forall i :: 0 <= i < |pinned| ==> pinned[i].id in pinnedIds
  {
    FilterMultiset(workflows, IsPinned(pinnedIds), IsUnpinned(pinnedIds));
    forall i | 0 <= i < |pinned| ensures pinned[i].id in pinnedIds {
      assert pinned[i] in multiset(kept);
      var k :| 0 <= k < |kept| && kept[k] == pinned[i];
      assert IsPinned(pinnedIds)(kept[k]);
    }
  }
}
