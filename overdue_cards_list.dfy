/**
 * The overdue page (components/overdue-cards-list.tsx): grouping each
 * workflow's overdue cards by step, the step summary shown on a card, the
 * expand/collapse set, and the total count. The data is the route's reply.
 */
module OverdueCardsList {
  import opened Wrappers
  import opened Js
  import opened Seqs
  import opened Fetch
  import opened PcoTypes
  import OverdueRoute

  /** `card.currentStepId || card.relationships?.current_step?.data?.id`. */
  function StepIdOf(card: Card): Option<string> {
    Or(card.currentStepId, card.relationships.currentStepRef)
  }

  /** The card's step id is set and equals `k`. */
  predicate HasStepId(card: Card, k: string) {
    Truthy(StepIdOf(card)) && StepIdOf(card).value == k
  }

  function KeyIs(k: string): Card -> bool {
    (c: Card) => HasStepId(c, k)
  }

  /** `GroupedCards`. */
  datatype Group = Group(step: Step, cards: seq<Card>)

  /** An entry of `stepMap`, in insertion order. */
  datatype Entry = Entry(key: string, group: Group)

  /** `stepMap.get(k)`, as the index of the entry. */
  function KeyIndex(entries: seq<Entry>, k: string): (i: int)
    ensures -1 <= i < |entries|
    ensures i == -1 <==> forall j :: 0 <= j < |entries| ==> entries[j].key != k
    ensures 0 <= i ==> entries[i].key == k && forall j :: 0 <= j < i ==> entries[j].key != k
  {
    FindIndex(entries, (e: Entry) => e.key == k)
  }

  /** The keys of the entries, in insertion order. */
  function Keys(entries: seq<Entry>): (r: seq<string>)
    ensures |r| == |entries| && forall i :: 0 <= i < |r| ==> r[i] == entries[i].key
  {
    seq(|entries|, i requires 0 <= i < |entries| => entries[i].key)
  }

  /** Lookups depend only on the keys. */
  lemma KeyIndexByKeys(a: seq<Entry>, b: seq<Entry>, k: string)
    requires Keys(a) == Keys(b)
    ensures KeyIndex(a, k) == KeyIndex(b, k)
  {
    var i, j := KeyIndex(a, k), KeyIndex(b, k);
    assert forall n :: 0 <= n < |a| ==> a[n].key == Keys(a)[n] == b[n].key;
    if i >= 0 && j >= 0 {
      assert !(i < j) && !(j < i);
    }
  }

  /** A lookup after appending an entry finds the old entry first. */
  lemma KeyIndexAppend(a: seq<Entry>, x: Entry, k: string)
    ensures KeyIndex(a + [x], k) == if KeyIndex(a, k) >= 0 then KeyIndex(a, k) else if x.key == k then |a| else -1
  {
    var b := a + [x];
    assert forall n :: 0 <= n < |a| ==> b[n] == a[n];
    var i := KeyIndex(a, k);
    if i >= 0 {
      assert b[i].key == k;
    } else if x.key == k {
      assert b[|a|].key == k;
    }
  }

  /** The step of the listing with id `k`, else the step embedded in the card. */
  function ResolveStep(steps: seq<Step>, card: Card, k: string): Option<Step> {
    match Find(steps, (s: Step) => s.id == k)
    case Some(s) => Some(s)
    case None => card.currentStep
  }

  /** `if (!stepMap.has(k))`: create an empty group for `k` when its step resolves. */
  function Ensure(entries: seq<Entry>, steps: seq<Step>, card: Card, k: string): (r: seq<Entry>)
    ensures r == entries || (ResolveStep(steps, card, k).Some? && r == entries + [Entry(k, Group(ResolveStep(steps, card, k).value, []))])
    ensures r != entries <==> KeyIndex(entries, k) < 0 && ResolveStep(steps, card, k).Some?
  {
    if KeyIndex(entries, k) >= 0 then entries
    else
      match ResolveStep(steps, card, k)
      case None => entries
      case Some(step) => entries + [Entry(k, Group(step, []))]
  }

  /** `stepMap.get(k)?.cards.push(card)`. */
  function Push(entries: seq<Entry>, k: string, card: Card): (r: seq<Entry>)
    ensures Keys(r) == Keys(entries)
    ensures forall i :: 0 <= i < |r| && i != KeyIndex(entries, k) ==> r[i] == entries[i]
    ensures KeyIndex(entries, k) >= 0 ==>
      r[KeyIndex(entries, k)] == Entry(k, Group(entries[KeyIndex(entries, k)].group.step, entries[KeyIndex(entries, k)].group.cards + [card]))
  {
    var i := KeyIndex(entries, k);
    if i >= 0 then entries[i := Entry(k, Group(entries[i].group.step, entries[i].group.cards + [card]))]
    else entries
  }

  /** One pass of the loop: a card with a step id gets its group created if needed, then is pushed into it. */
  function AddCard(entries: seq<Entry>, steps: seq<Step>, card: Card): seq<Entry> {
    var key := StepIdOf(card);
    if !Truthy(key) then entries
    else Push(Ensure(entries, steps, card, key.value), key.value, card)
  }

  /** `stepMap` after the loop has visited every card. */
  function GroupAll(steps: seq<Step>, cards: seq<Card>): seq<Entry>
    decreases |cards|
  {
    if cards == [] then []
    else AddCard(GroupAll(steps, cards[..|cards| - 1]), steps, cards[|cards| - 1])
  }

  /** No key occurs twice. */
  ghost predicate DistinctKeys(entries: seq<Entry>) {
    forall i, j :: 0 <= i < j < |entries| ==> entries[i].key != entries[j].key
  }

  /** Keys are non-empty and distinct, and every grouped card carries its group's key. */
  ghost predicate WellGrouped(entries: seq<Entry>, cards: seq<Card>) {
    && DistinctKeys(entries)
    && (forall i :: 0 <= i < |entries| ==> entries[i].key != "")
    && (forall i, m :: 0 <= i < |entries| && 0 <= m < |entries[i].group.cards| ==>
         entries[i].group.cards[m] in cards && HasStepId(entries[i].group.cards[m], entries[i].key))
  }

  lemma EnsureWellGrouped(entries: seq<Entry>, steps: seq<Step>, card: Card, k: string, cards: seq<Card>)
    requires WellGrouped(entries, cards) && k != ""
    ensures WellGrouped(Ensure(entries, steps, card, k), cards)
  {
    var r := Ensure(entries, steps, card, k);
    if r != entries {
      assert forall i :: 0 <= i < |entries| ==> r[i] == entries[i];
    }
  }

  lemma PushWellGrouped(entries: seq<Entry>, k: string, card: Card, prefix: seq<Card>)
    requires WellGrouped(entries, prefix) && HasStepId(card, k)
    ensures WellGrouped(Push(entries, k, card), prefix + [card])
  {
    var r, cards := Push(entries, k, card), prefix + [card];
    forall i, j | 0 <= i < j < |r| ensures r[i].key != r[j].key {
      assert r[i].key == Keys(r)[i] == Keys(entries)[i];
      assert r[j].key == Keys(r)[j] == Keys(entries)[j];
    }
    forall i | 0 <= i < |r| ensures r[i].key != "" {
      assert r[i].key == Keys(r)[i] == Keys(entries)[i];
    }
    forall i, m | 0 <= i < |r| && 0 <= m < |r[i].group.cards|
      ensures r[i].group.cards[m] in cards && HasStepId(r[i].group.cards[m], r[i].key)
    {
      if i == KeyIndex(entries, k) && m == |entries[i].group.cards| {
        assert r[i].group.cards[m] == card;
      } else {
        assert r[i].group.cards[m] == entries[i].group.cards[m] && r[i].key == entries[i].key;
        assert entries[i].group.cards[m] in prefix;
      }
    }
  }

  lemma AddCardWellGrouped(entries: seq<Entry>, steps: seq<Step>, prefix: seq<Card>, card: Card)
    requires WellGrouped(entries, prefix)
    ensures WellGrouped(AddCard(entries, steps, card), prefix + [card])
  {
    var key := StepIdOf(card);
    if Truthy(key) {
      EnsureWellGrouped(entries, steps, card, key.value, prefix);
      PushWellGrouped(Ensure(entries, steps, card, key.value), key.value, card, prefix);
    } else {
      forall i, m | 0 <= i < |entries| && 0 <= m < |entries[i].group.cards|
        ensures entries[i].group.cards[m] in prefix + [card]
      {
        assert entries[i].group.cards[m] in prefix;
      }
    }
  }

  /** Each step id yields at most one group, and a group holds only cards of the workflow with that step id. */
  lemma {:induction false} GroupAllWellGrouped(steps: seq<Step>, cards: seq<Card>)
    ensures WellGrouped(GroupAll(steps, cards), cards)
    decreases |cards|
  {
    if cards != [] {
      var n := |cards| - 1;
      GroupAllWellGrouped(steps, cards[..n]);
      AddCardWellGrouped(GroupAll(steps, cards[..n]), steps, cards[..n], cards[n]);
      assert cards[..n] + [cards[n]] == cards;
    }
  }

  /** Adding a card with another step id leaves whether `k` has a group, and that group, as they were. */
  lemma AddCardOtherKey(entries: seq<Entry>, steps: seq<Step>, card: Card, k: string)
    requires !HasStepId(card, k)
    ensures var e' := AddCard(entries, steps, card);
      && (KeyIndex(e', k) >= 0 <==> KeyIndex(entries, k) >= 0)
      && (KeyIndex(entries, k) >= 0 ==> e'[KeyIndex(e', k)] == entries[KeyIndex(entries, k)])
  {
    var key := StepIdOf(card);
    if Truthy(key) {
      var created := Ensure(entries, steps, card, key.value);
      if created != entries {
        KeyIndexAppend(entries, Entry(key.value, Group(ResolveStep(steps, card, key.value).value, [])), k);
        assert forall i :: 0 <= i < |entries| ==> created[i] == entries[i];
      }
      KeyIndexByKeys(Push(created, key.value, card), created, k);
    }
  }

  /**
   * Adding a card whose step id `k` is in the listing: afterwards `k` has a
   * group, which is the old group with the card pushed, or a new group of
   * the first listed step holding just the card.
   */
  lemma AddCardListedKey(entries: seq<Entry>, steps: seq<Step>, card: Card, k: string)
    requires HasStepId(card, k) && exists s :: 0 <= s < |steps| && steps[s].id == k
    ensures var e' := AddCard(entries, steps, card);
      && KeyIndex(e', k) >= 0
      && (KeyIndex(entries, k) >= 0 ==>
            e'[KeyIndex(e', k)] == Entry(k, Group(entries[KeyIndex(entries, k)].group.step, entries[KeyIndex(entries, k)].group.cards + [card])))
      && (KeyIndex(entries, k) < 0 ==>
            e'[KeyIndex(e', k)] == Entry(k, Group(ListedStep(steps, k).value, [card])))
  {
    var created := Ensure(entries, steps, card, k);
    if created != entries {
      KeyIndexAppend(entries, Entry(k, Group(ResolveStep(steps, card, k).value, [])), k);
    }
    KeyIndexByKeys(Push(created, k, card), created, k);
  }

  /** The first listed step with id `k`. */
  function ListedStep(steps: seq<Step>, k: string): Option<Step> {
    Find(steps, (s: Step) => s.id == k)
  }

  /**
   * The group of a listed step id after visiting `cards`: present exactly
   * when it would hold a card, holding every card with the id in input
   * order, under the first listed step with the id.
   */
  ghost predicate ListedGroup(steps: seq<Step>, cards: seq<Card>, k: string) {
    var e := GroupAll(steps, cards);
    && (KeyIndex(e, k) >= 0 <==> Filter(cards, KeyIs(k)) != [])
    && (KeyIndex(e, k) >= 0 ==>
         (&& e[KeyIndex(e, k)].group.cards == Filter(cards, KeyIs(k))
          && Some(e[KeyIndex(e, k)].group.step) == ListedStep(steps, k)))
  }

  lemma ListedGroupSameKey(steps: seq<Step>, prefix: seq<Card>, card: Card, k: string)
    requires exists s :: 0 <= s < |steps| && steps[s].id == k
    requires ListedGroup(steps, prefix, k) && HasStepId(card, k)
    ensures ListedGroup(steps, prefix + [card], k)
  {
    var cards := prefix + [card];
    var e0, e1 := GroupAll(steps, prefix), GroupAll(steps, cards);
    assert cards[..|prefix|] == prefix;
    assert e1 == AddCard(e0, steps, card);
    AddCardListedKey(e0, steps, card, k);
    FilterAppend(prefix, [card], KeyIs(k));
    FilterSingle(card, KeyIs(k));
    assert KeyIs(k)(card);
  }

  lemma ListedGroupOtherKey(steps: seq<Step>, prefix: seq<Card>, card: Card, k: string)
    requires ListedGroup(steps, prefix, k) && !HasStepId(card, k)
    ensures ListedGroup(steps, prefix + [card], k)
  {
    var cards := prefix + [card];
    var e0, e1 := GroupAll(steps, prefix), GroupAll(steps, cards);
    assert cards[..|prefix|] == prefix;
    assert e1 == AddCard(e0, steps, card);
    AddCardOtherKey(e0, steps, card, k);
    FilterAppend(prefix, [card], KeyIs(k));
    FilterSingle(card, KeyIs(k));
    assert !KeyIs(k)(card);
  }

  lemma {:induction false} ListedGroupHolds(steps: seq<Step>, cards: seq<Card>, k: string)
    requires exists s :: 0 <= s < |steps| && steps[s].id == k
    ensures ListedGroup(steps, cards, k)
    decreases |cards|
  {
    if cards != [] {
      var n := |cards| - 1;
      assert cards == cards[..n] + [cards[n]];
      ListedGroupHolds(steps, cards[..n], k);
      if HasStepId(cards[n], k) {
        ListedGroupSameKey(steps, cards[..n], cards[n], k);
      } else {
        ListedGroupOtherKey(steps, cards[..n], cards[n], k);
      }
    }
  }

  /**
   * For a step id that the steps listing contains, there is a group exactly
   * when some card has that step id; the group holds every such card, in
   * input order, under the first listed step with the id.
   */
  lemma ListedStepGroup(steps: seq<Step>, cards: seq<Card>, k: string)
    requires exists s :: 0 <= s < |steps| && steps[s].id == k
    ensures var e := GroupAll(steps, cards);
      && (KeyIndex(e, k) >= 0 <==> exists j :: 0 <= j < |cards| && HasStepId(cards[j], k))
      && (KeyIndex(e, k) >= 0 ==>
           (&& e[KeyIndex(e, k)].group.cards == Filter(cards, KeyIs(k))
            && Some(e[KeyIndex(e, k)].group.step) == ListedStep(steps, k)))
  {
    ListedGroupHolds(steps, cards, k);
    FilterNonEmpty(cards, KeyIs(k));
    assert (exists j :: 0 <= j < |cards| && KeyIs(k)(cards[j])) <==> (exists j :: 0 <= j < |cards| && HasStepId(cards[j], k));
  }

  /** A step id found neither in the listing nor in any of its cards' embedded steps gets no group: those cards are dropped. */
  lemma {:induction false} UnresolvedStepDropped(steps: seq<Step>, cards: seq<Card>, k: string)
    requires forall s :: 0 <= s < |steps| ==> steps[s].id != k
    requires forall j :: 0 <= j < |cards| && HasStepId(cards[j], k) ==> cards[j].currentStep.None?
    ensures KeyIndex(GroupAll(steps, cards), k) == -1
    decreases |cards|
  {
    if cards != [] {
      var n := |cards| - 1;
      UnresolvedStepDropped(steps, cards[..n], k);
      GroupAllWellGrouped(steps, cards[..n]);
      if !HasStepId(cards[n], k) {
        AddCardOtherKey(GroupAll(steps, cards[..n]), steps, cards[n], k);
      }
    }
  }

  function Groups(entries: seq<Entry>): (r: seq<Group>)
    ensures |r| == |entries| && forall i :: 0 <= i < |r| ==> r[i] == entries[i].group
  {
    seq(|entries|, i requires 0 <= i < |entries| => entries[i].group)
  }

  /** The sort key of a group: its step's `sequence`. */
  function Sequence(): Group -> int {
    (g: Group) => g.step.sequence
  }

  /** `groupCardsByStep`: the map filled by the loop over the cards, its groups sorted by step sequence. */
  method GroupCardsByStep(workflowData: OverdueRoute.OverdueWorkflow) returns (groups: seq<Group>)
    ensures groups == SortBy(Groups(GroupAll(workflowData.steps, workflowData.cards)), Sequence())
    ensures multiset(groups) == multiset(Groups(GroupAll(workflowData.steps, workflowData.cards)))
    ensures SortedBy(groups, Sequence())
  {
    var steps, cards := workflowData.steps, workflowData.cards;
    var stepMap: seq<Entry> := [];
    for n := 0 to |cards|
      invariant stepMap == GroupAll(steps, cards[..n])
    {
      assert cards[..n + 1][..n] == cards[..n];
      var card := cards[n];
      var stepId := StepIdOf(card);
      if !Truthy(stepId) {
        continue;
      }
      var k := stepId.value;
      ghost var before := stepMap;
      if KeyIndex(stepMap, k) < 0 {
        var step := ResolveStep(steps, card, k);
        if step.Some? {
          stepMap := stepMap + [Entry(k, Group(step.value, []))];
        }
      }
      assert stepMap == Ensure(before, steps, card, k);
      var i := KeyIndex(stepMap, k);
      if i >= 0 {
        stepMap := stepMap[i := Entry(k, Group(stepMap[i].group.step, stepMap[i].group.cards + [card]))];
      }
    }
    assert cards[..|cards|] == cards;
    groups := SortBy(Groups(stepMap), Sequence());
  }

  /** What a card shows about its step. */
  datatype StepInfo = StepInfo(
    currentStepId: Option<string>,
    currentStepName: string,
    nextStepName: Option<string>,
    isFirstStep: bool,
    isLastStep: bool)

  /** `getStepInfo`: the index lookup is not guarded, so index -1 reads `steps[-1]` (nothing) and `steps[0]`. */
  function GetStepInfo(card: Card, steps: seq<Step>): (r: StepInfo)
    ensures r.currentStepId == StepIdOf(card)
    ensures var i := FindIndex(steps, (s: Step) => Some(s.id) == StepIdOf(card));
      && (r.isFirstStep <==> i == 0)
      && (r.isLastStep <==> i == |steps| - 1)
      && (0 <= i ==> r.currentStepName == (if steps[i].name != "" then steps[i].name else card.attributes.stage))
      && (r.nextStepName.Some? <==> i + 1 < |steps|)
      && (r.nextStepName.Some? ==> r.nextStepName.value == steps[i + 1].name)
  {
    var stepId := StepIdOf(card);
    var i := FindIndex(steps, (s: Step) => Some(s.id) == stepId);
    var current := if 0 <= i then Some(steps[i]) else None;
    var next := if i + 1 < |steps| then Some(steps[i + 1]) else None;
    StepInfo(
      stepId,
      if current.Some? && current.value.name != "" then current.value.name else card.attributes.stage,
      if next.Some? then Some(next.value.name) else None,
      i == 0,
      i == |steps| - 1)
  }

  /** A card whose step is not in the listing shows its stage, is never first, is last only when there are no steps, and names the first step as next. */
  lemma UnknownStepInfo(card: Card, steps: seq<Step>)
    requires forall j :: 0 <= j < |steps| ==> Some(steps[j].id) != StepIdOf(card)
    ensures var r := GetStepInfo(card, steps);
      && r.currentStepName == card.attributes.stage
      && !r.isFirstStep
      && (r.isLastStep <==> |steps| == 0)
      && r.nextStepName == (if |steps| > 0 then Some(steps[0].name) else None)
  {
    var i := FindIndex(steps, (s: Step) => Some(s.id) == StepIdOf(card));
    assert i == -1;
  }

  /** The expanded set after `toggleWorkflow(id)`. */
  function Toggle(expanded: set<string>, id: string): (r: set<string>)
    ensures id in r <==> id !in expanded
    ensures forall x :: x != id ==> (x in r <==> x in expanded)
  {
    if id in expanded then expanded - {id} else expanded + {id}
  }

  /** Toggling twice restores the set. */
  lemma ToggleTwice(expanded: set<string>, id: string)
    ensures Toggle(Toggle(expanded, id), id) == expanded
  {
  }

  /** `data.reduce((acc, w) => acc + w.cards.length, 0)`. */
  function TotalCards(data: seq<OverdueRoute.OverdueWorkflow>): (r: nat)
    decreases |data|
  {
    if data == [] then 0 else TotalCards(data[..|data| - 1]) + |data[|data| - 1].cards|
  }

  /** All the cards of the data, workflow after workflow. */
  function AllCards(data: seq<OverdueRoute.OverdueWorkflow>): seq<Card>
    decreases |data|
  {
    if data == [] then [] else AllCards(data[..|data| - 1]) + data[|data| - 1].cards
  }

  /** The total counts every card of every workflow once. */
  lemma {:induction false} TotalCountsAll(data: seq<OverdueRoute.OverdueWorkflow>)
    ensures TotalCards(data) == |AllCards(data)|
    decreases |data|
  {
    if data != [] {
      TotalCountsAll(data[..|data| - 1]);
    }
  }

  /** The total of two lists is the sum of their totals. */
  lemma {:induction false} TotalAppend(a: seq<OverdueRoute.OverdueWorkflow>, b: seq<OverdueRoute.OverdueWorkflow>)
    ensures TotalCards(a + b) == TotalCards(a) + TotalCards(b)
    decreases |b|
  {
    if b != [] {
      var n := |b| - 1;
      var ab := a + b;
      assert ab[..|ab| - 1] == a + b[..n];
      assert ab[|ab| - 1] == b[n];
      assert TotalCards(ab) == TotalCards(a + b[..n]) + |b[n].cards|;
      assert TotalCards(b) == TotalCards(b[..n]) + |b[n].cards|;
      TotalAppend(a, b[..n]);
    } else {
      assert a + b == a;
    }
  }

  function WorkflowIds(data: seq<OverdueRoute.OverdueWorkflow>): set<string> {
    set w | w in data :: w.workflow.id
  }

  /** How the page's fetch of the route settles. */
  datatype OverdueFetch = FetchRejected(message: string) | FetchReplied(reply: Reply<seq<OverdueRoute.OverdueWorkflow>>)

  class OverduePage {
    var data: seq<OverdueRoute.OverdueWorkflow>
    var loading: bool
    var error: Option<string>
    var expanded: set<string>

    constructor ()
      ensures data == [] && loading && error == None && expanded == {}
    {
      data := [];
      loading := true;
      error := None;
      expanded := {};
    }

    /** `fetchOverdueCards`: on success the data is shown with every workflow expanded. */
    method FetchOverdueCards(result: OverdueFetch)
      modifies this`data, this`loading, this`error, this`expanded
      ensures !loading
      ensures result.FetchRejected? ==> error == Some(result.message)
      ensures result.FetchReplied? && !result.reply.ok ==> error == Some("Failed to fetch overdue cards")
      ensures result.FetchRejected? || !result.reply.ok ==> data == old(data) && expanded == old(expanded)
      ensures result.FetchReplied? && result.reply.ok ==>
        && data == result.reply.data.GetOr([])
        && expanded == WorkflowIds(data)
        && error == old(error)
    {
      match result {
        case FetchRejected(message) =>
          error := Some(message);
        case FetchReplied(reply) =>
          if !reply.ok {
            error := Some("Failed to fetch overdue cards");
          } else {
            data := reply.data.GetOr([]);
            expanded := WorkflowIds(data);
          }
      }
      loading := false;
    }

    /** `toggleWorkflow`. */
    method ToggleWorkflow(workflowId: string)
      modifies this`expanded
      ensures expanded == Toggle(old(expanded), workflowId)
    {
      var next := expanded;
      if workflowId in next {
        next := next - {workflowId};
      } else {
        next := next + {workflowId};
      }
      expanded := next;
    }
  }
}
