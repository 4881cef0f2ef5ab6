/**
 * The server route that gathers overdue cards (app/api/overdue-cards/route.ts).
 * For each workflow it fetches the steps and the overdue cards (with their
 * people and steps included), builds lookup maps from the included records,
 * drops removed cards, attaches person, assignee and step to each card, and
 * keeps only the workflows with a card left. Upstream calls are inputs:
 * the workflow listing, and `pages(i)` for the i-th workflow's pair of calls.
 */
module OverdueRoute {
  import opened Wrappers
  import opened Js
  import opened Seqs
  import opened PcoTypes
  import opened PcoClient

  /** An upstream call that either rejects or returns a value. */
  datatype Upstream<T> = Failed | Returned(value: T)

  /** A record of the `included` array: a person, a workflow step or some other type. */
  datatype IncludedItem = IncludedItem(typ: string, id: string, firstName: string, lastName: string, sequence: int, name: string)
  {
    function AsPerson(): Person {
      Person(typ, id, firstName, lastName)
    }

    function AsStep(): Step {
      Step(typ, id, sequence, name)
    }
  }

  /** The replies for one workflow: the steps listing and the card listing (whose `data` and `included` are optional). */
  datatype WorkflowPage = WorkflowPage(steps: Option<seq<Step>>, cards: Option<seq<Card>>, included: Option<seq<IncludedItem>>)

  /** One entry of the response's `data`. */
  datatype OverdueWorkflow = OverdueWorkflow(workflow: Workflow, steps: seq<Step>, cards: seq<Card>)

  /** The route's reply: 401, 500 with its message, or 200 with the data. */
  datatype Response = Unauthorized | ServerError(message: string) | OverdueData(data: seq<OverdueWorkflow>)
  {
    function Status(): int {
      match this
      case Unauthorized => 401
      case ServerError(_) => 500
      case OverdueData(_) => 200
    }
  }

  const FailureMessage := "Failed to fetch overdue cards"

  /** `for (x of xs) m.set(key(x), x)`, as a function of the prefix processed so far. */
  function SetAll<T>(m: map<string, T>, xs: seq<T>, key: T -> string): map<string, T>
    decreases |xs|
  {
    if xs == [] then m
    else SetAll(m, xs[..|xs| - 1], key)[key(xs[|xs| - 1]) := xs[|xs| - 1]]
  }

  /** The map holds a key iff it held it before or some element has it; the last such element wins. */
  lemma {:induction false} SetAllLookup<T>(m: map<string, T>, xs: seq<T>, key: T -> string, k: string)
    ensures k in SetAll(m, xs, key) <==> k in m || exists i :: 0 <= i < |xs| && key(xs[i]) == k
    ensures (forall i :: 0 <= i < |xs| ==> key(xs[i]) != k) && k in m ==> SetAll(m, xs, key)[k] == m[k]
    ensures forall i ::
      (0 <= i < |xs| && key(xs[i]) == k && forall j :: i < j < |xs| ==> key(xs[j]) != k) ==>
      k in SetAll(m, xs, key) && SetAll(m, xs, key)[k] == xs[i]
    decreases |xs|
  {
    if xs != [] {
      var n := |xs| - 1;
      SetAllLookup(m, xs[..n], key, k);
      assert forall i :: 0 <= i < n ==> xs[..n][i] == xs[i];
    }
  }

  /** The entries the loop over `included` puts in the map for one `type`, converted by `conv`. */
  function Collect<V>(items: seq<IncludedItem>, typ: string, conv: IncludedItem -> V): map<string, V>
    decreases |items|
  {
    if items == [] then map[]
    else
      var m := Collect(items[..|items| - 1], typ, conv);
      var last := items[|items| - 1];
      if last.typ == typ then m[last.id := conv(last)] else m
  }

  /** An id is in the collected map iff some item of the type has it, and it maps to the last such item. */
  lemma {:induction false} CollectLookup<V>(items: seq<IncludedItem>, typ: string, conv: IncludedItem -> V, k: string)
    ensures k in Collect(items, typ, conv) <==> exists i :: 0 <= i < |items| && items[i].typ == typ && items[i].id == k
    ensures forall i ::
      (0 <= i < |items| && items[i].typ == typ && items[i].id == k
       && forall j :: i < j < |items| ==> !(items[j].typ == typ && items[j].id == k)) ==>
      k in Collect(items, typ, conv) && Collect(items, typ, conv)[k] == conv(items[i])
    decreases |items|
  {
    if items != [] {
      var n := |items| - 1;
      CollectLookup(items[..n], typ, conv, k);
      assert forall i :: 0 <= i < n ==> items[..n][i] == items[i];
    }
  }

  function PersonOf(): IncludedItem -> Person {
    (item: IncludedItem) => item.AsPerson()
  }

  function StepOf(): IncludedItem -> Step {
    (item: IncludedItem) => item.AsStep()
  }

  function StepKey(): Step -> string {
    (s: Step) => s.id
  }

  /** `peopleMap`: the included records of type "Person", by id. */
  function PeopleOf(items: seq<IncludedItem>): map<string, Person> {
    Collect(items, "Person", PersonOf())
  }

  /** `stepsMap`: the included records of type "WorkflowStep", then every listed step on top. */
  function StepsMapOf(steps: seq<Step>, items: seq<IncludedItem>): map<string, Step> {
    SetAll(Collect(items, "WorkflowStep", StepOf()), steps, StepKey())
  }

  /** Only "Person" records reach the people map; any other type, "WorkflowStep" included, is ignored there. */
  lemma PeopleOfLookup(items: seq<IncludedItem>, id: string)
    ensures id in PeopleOf(items) <==> exists i :: 0 <= i < |items| && items[i].typ == "Person" && items[i].id == id
    ensures id in PeopleOf(items) ==> exists i :: 0 <= i < |items| && items[i].typ == "Person" && PeopleOf(items)[id] == items[i].AsPerson()
  {
    CollectLookup(items, "Person", PersonOf(), id);
    if id in PeopleOf(items) {
      var i := LastWith(items, "Person", id);
    }
  }

  /** The last index whose item has the type and the id. */
  ghost function LastWith(items: seq<IncludedItem>, typ: string, id: string): (i: nat)
    requires exists i :: 0 <= i < |items| && items[i].typ == typ && items[i].id == id
    ensures i < |items| && items[i].typ == typ && items[i].id == id
    ensures forall j :: i < j < |items| ==> !(items[j].typ == typ && items[j].id == id)
    decreases |items|
  {
    var n := |items| - 1;
    if items[n].typ == typ && items[n].id == id then n
    else
      var k :| 0 <= k < |items| && items[k].typ == typ && items[k].id == id;
      assert items[..n][k] == items[k];
      LastWith(items[..n], typ, id)
  }

  /** A step of the steps listing overrides an included step with the same id. */
  lemma ListedStepWins(steps: seq<Step>, items: seq<IncludedItem>, i: nat)
    requires i < |steps| && forall j :: i < j < |steps| ==> steps[j].id != steps[i].id
    ensures steps[i].id in StepsMapOf(steps, items) && StepsMapOf(steps, items)[steps[i].id] == steps[i]
  {
    SetAllLookup(Collect(items, "WorkflowStep", StepOf()), steps, StepKey(), steps[i].id);
  }

  /** An id no listed step has maps to the included "WorkflowStep" record, if there is one. */
  lemma IncludedStepLookup(steps: seq<Step>, items: seq<IncludedItem>, id: string)
    requires forall j :: 0 <= j < |steps| ==> steps[j].id != id
    ensures id in StepsMapOf(steps, items) <==> exists i :: 0 <= i < |items| && items[i].typ == "WorkflowStep" && items[i].id == id
    ensures id in StepsMapOf(steps, items) ==> exists i :: 0 <= i < |items| && items[i].typ == "WorkflowStep" && StepsMapOf(steps, items)[id] == items[i].AsStep()
  {
    var included := Collect(items, "WorkflowStep", StepOf());
    SetAllLookup(included, steps, StepKey(), id);
    CollectLookup(items, "WorkflowStep", StepOf(), id);
    if id in included {
      var i := LastWith(items, "WorkflowStep", id);
    }
  }

  /** `id ? m.get(id) || null : null`. */
  function Lookup<V>(m: map<string, V>, id: Option<string>): (r: Option<V>)
    ensures r.Some? <==> Truthy(id) && id.value in m
    ensures r.Some? ==> r.value == m[id.value]
  {
    if Truthy(id) && id.value in m then Some(m[id.value]) else None
  }

  /** A card is kept unless its `removed_at` is set and non-empty. */
  predicate NotRemoved(c: Card) {
    !Truthy(c.attributes.removedAt)
  }

  function IsLive(): Card -> bool {
    (c: Card) => NotRemoved(c)
  }

  /** The card with its person, assignee and current step looked up and its step relationship id copied out. */
  function AttachDetails(card: Card, people: map<string, Person>, stepsMap: map<string, Step>): (r: Card)
    ensures r.id == card.id && r.attributes == card.attributes && r.relationships == card.relationships
    ensures r.currentStepId == card.relationships.currentStepRef
    ensures r.person.Some? <==> Truthy(card.relationships.personId) && card.relationships.personId.value in people
    ensures r.person.Some? ==> r.person.value == people[card.relationships.personId.value]
    ensures r.assignee.Some? <==> Truthy(card.relationships.assigneeId) && card.relationships.assigneeId.value in people
    ensures r.assignee.Some? ==> r.assignee.value == people[card.relationships.assigneeId.value]
    ensures r.currentStep.Some? <==> Truthy(card.relationships.currentStepRef) && card.relationships.currentStepRef.value in stepsMap
    ensures r.currentStep.Some? ==> r.currentStep.value == stepsMap[card.relationships.currentStepRef.value]
  {
    card.(
      person := Lookup(people, card.relationships.personId),
      assignee := Lookup(people, card.relationships.assigneeId),
      currentStep := Lookup(stepsMap, card.relationships.currentStepRef),
      currentStepId := card.relationships.currentStepRef)
  }

  /** `cards.filter(not removed).map(attach)`. */
  function Detailed(cards: seq<Card>, people: map<string, Person>, stepsMap: map<string, Step>): (r: seq<Card>)
    ensures |r| == |Filter(cards, IsLive())|
    ensures forall i :: 0 <= i < |r| ==> r[i] == AttachDetails(Filter(cards, IsLive())[i], people, stepsMap)
  {
    var live := Filter(cards, IsLive());
    seq(|live|, i requires 0 <= i < |live| => AttachDetails(live[i], people, stepsMap))
  }

  /** The kept cards: some card survives iff a card is not removed, and every survivor is a card of the page. */
  lemma LiveCards(cards: seq<Card>)
    ensures |Filter(cards, IsLive())| > 0 <==> exists i :: 0 <= i < |cards| && NotRemoved(cards[i])
    ensures forall i :: 0 <= i < |Filter(cards, IsLive())| ==>
      NotRemoved(Filter(cards, IsLive())[i]) && Filter(cards, IsLive())[i].id in CardIds(cards)
  {
    var live := Filter(cards, IsLive());
    if exists i :: 0 <= i < |cards| && NotRemoved(cards[i]) {
      var i :| 0 <= i < |cards| && NotRemoved(cards[i]);
      assert IsLive()(cards[i]);
      assert cards[i] in live;
    }
    if |live| > 0 {
      assert IsLive()(live[0]);
      var j :| 0 <= j < |cards| && cards[j] == live[0];
    }
    forall i | 0 <= i < |live| ensures NotRemoved(live[i]) && live[i].id in CardIds(cards) {
      assert IsLive()(live[i]);
    }
  }

  /** Every card of the detailed list is a kept card of the page; the list is empty iff every card was removed. */
  lemma DetailedCardsAreLive(cards: seq<Card>, people: map<string, Person>, stepsMap: map<string, Step>)
    ensures |Detailed(cards, people, stepsMap)| > 0 <==> exists i :: 0 <= i < |cards| && NotRemoved(cards[i])
    ensures forall i :: 0 <= i < |Detailed(cards, people, stepsMap)| ==>
      NotRemoved(Detailed(cards, people, stepsMap)[i]) && Detailed(cards, people, stepsMap)[i].id in CardIds(cards)
  {
    LiveCards(cards);
  }

  function CardIds(cards: seq<Card>): set<string> {
    set c | c in cards :: c.id
  }

  /** What the body of the loop does with one workflow. */
  datatype Joined = Skip | Keep(entry: OverdueWorkflow) | Throws

  /**
   * One workflow: a rejected call throws; missing or empty card data skips
   * the workflow; a missing steps listing throws when the loop over it runs;
   * otherwise the workflow is kept when a card survives the filter.
   */
  function JoinWorkflow(w: Workflow, page: Upstream<WorkflowPage>): Joined {
    match page
    case Failed => Throws
    case Returned(p) =>
      if p.cards.None? || |p.cards.value| == 0 then Skip
      else if p.steps.None? then Throws
      else
        var items := p.included.GetOr([]);
        var cards := Detailed(p.cards.value, PeopleOf(items), StepsMapOf(p.steps.value, items));
        if |cards| > 0 then Keep(OverdueWorkflow(w, p.steps.value, cards)) else Skip
  }

  /** The first `n` workflows joined in order, or `None` once one of them throws. */
  function JoinAll(ws: seq<Workflow>, pages: nat -> Upstream<WorkflowPage>, n: nat): Option<seq<OverdueWorkflow>>
    requires n <= |ws|
  {
    if n == 0 then Some([])
    else
      match JoinAll(ws, pages, n - 1)
      case None => None
      case Some(acc) =>
        match JoinWorkflow(ws[n - 1], pages(n - 1))
        case Throws => None
        case Skip => Some(acc)
        case Keep(entry) => Some(acc + [entry])
  }

  /** The route's reply for the session cookies and the upstream replies. */
  function Respond(tokens: Tokens, listing: Upstream<Option<seq<Workflow>>>, pages: nat -> Upstream<WorkflowPage>): Response {
    if GetPCOClient(tokens).None? then Unauthorized
    else if listing.Failed? || listing.value.None? then ServerError(FailureMessage)
    else
      match JoinAll(listing.value.value, pages, |listing.value.value|)
      case None => ServerError(FailureMessage)
      case Some(data) => OverdueData(data)
  }

  /**
   * 401 exactly without an access token; otherwise 500 with the fixed message
   * exactly when the workflow listing fails or some workflow's calls throw;
   * otherwise 200.
   */
  lemma RespondStatus(tokens: Tokens, listing: Upstream<Option<seq<Workflow>>>, pages: nat -> Upstream<WorkflowPage>)
    ensures var r := Respond(tokens, listing, pages);
      && (r.Status() == 401 <==> !Truthy(tokens.accessToken))
      && (r.ServerError? ==> r.message == FailureMessage)
      && (r.Status() == 500 <==>
            && Truthy(tokens.accessToken)
            && (|| listing.Failed? || listing.value.None?
                || exists i :: 0 <= i < |listing.value.value| && JoinWorkflow(listing.value.value[i], pages(i)).Throws?))
  {
    if listing.Returned? && listing.value.Some? {
      JoinAllThrowsIff(listing.value.value, pages, |listing.value.value|);
    }
  }

  /** The page of a workflow that appears in the reply: the call succeeded and some card survived. */
  predicate HasLiveCards(page: Upstream<WorkflowPage>) {
    && page.Returned?
    && page.value.cards.Some?
    && exists i :: 0 <= i < |page.value.cards.value| && NotRemoved(page.value.cards.value[i])
  }

  /** The join throws iff some workflow's calls throw (or its steps listing is missing when needed). */
  lemma {:induction false} JoinAllThrowsIff(ws: seq<Workflow>, pages: nat -> Upstream<WorkflowPage>, n: nat)
    requires n <= |ws|
    ensures JoinAll(ws, pages, n).None? <==> exists i :: 0 <= i < n && JoinWorkflow(ws[i], pages(i)).Throws?
  {
    if n > 0 {
      JoinAllThrowsIff(ws, pages, n - 1);
    }
  }

  /** The indices below `n` whose workflow is kept, in increasing order. */
  function KeptIndices(ws: seq<Workflow>, pages: nat -> Upstream<WorkflowPage>, n: nat): (r: seq<nat>)
    requires n <= |ws|
    ensures forall k :: 0 <= k < |r| ==> r[k] < n && HasLiveCards(pages(r[k]))
    ensures forall k, l :: 0 <= k < l < |r| ==> r[k] < r[l]
    ensures forall i :: 0 <= i < n && HasLiveCards(pages(i)) ==> i in r
  {
    if n == 0 then []
    else
      var prev := KeptIndices(ws, pages, n - 1);
      if HasLiveCards(pages(n - 1)) then prev + [n - 1] else prev
  }

  /**
   * When nothing throws, the reply lists exactly the workflows with a
   * non-removed overdue card, in the order of the workflow listing,
   * each with its page's steps and only non-empty card lists.
   */
  lemma {:induction false} JoinAllKeeps(ws: seq<Workflow>, pages: nat -> Upstream<WorkflowPage>, n: nat)
    requires n <= |ws| && JoinAll(ws, pages, n).Some?
    ensures var out, idx := JoinAll(ws, pages, n).value, KeptIndices(ws, pages, n);
      && |out| == |idx|
      && forall k :: 0 <= k < |out| ==>
        && out[k].workflow == ws[idx[k]]
        && pages(idx[k]).value.steps == Some(out[k].steps)
        && |out[k].cards| > 0
        && var p := pages(idx[k]).value;
           var items := p.included.GetOr([]);
           out[k].cards == Detailed(p.cards.value, PeopleOf(items), StepsMapOf(p.steps.value, items))
  {
    if n > 0 {
      JoinAllKeeps(ws, pages, n - 1);
      var page := pages(n - 1);
      match page {
        case Failed =>
        case Returned(p) =>
          if p.cards.Some? && |p.cards.value| > 0 && p.steps.Some? {
            var items := p.included.GetOr([]);
            DetailedCardsAreLive(p.cards.value, PeopleOf(items), StepsMapOf(p.steps.value, items));
          } else if p.cards.Some? {
            assert !HasLiveCards(page);
          }
      }
    }
  }

  /** Fills the two lookup maps with the loops of the route. */
  method BuildMaps(steps: seq<Step>, included: Option<seq<IncludedItem>>) returns (people: map<string, Person>, stepsMap: map<string, Step>)
    ensures people == PeopleOf(included.GetOr([]))
    ensures stepsMap == StepsMapOf(steps, included.GetOr([]))
  {
    people := map[];
    stepsMap := map[];
    var items := included.GetOr([]);
    if included.Some? {
      for i := 0 to |items|
        invariant people == Collect(items[..i], "Person", PersonOf())
        invariant stepsMap == Collect(items[..i], "WorkflowStep", StepOf())
      {
        assert items[..i + 1][..i] == items[..i];
        var item := items[i];
        if item.typ == "Person" {
          people := people[item.id := item.AsPerson()];
        } else if item.typ == "WorkflowStep" {
          stepsMap := stepsMap[item.id := item.AsStep()];
        }
      }
      assert items[..|items|] == items;
    }
    var included := stepsMap;
    for i := 0 to |steps|
      invariant stepsMap == SetAll(included, steps[..i], StepKey())
    {
      assert steps[..i + 1][..i] == steps[..i];
      stepsMap := stepsMap[steps[i].id := steps[i]];
    }
    assert steps[..|steps|] == steps;
  }

  /** `GET`: the route as the loop over the workflows that the source runs. */
  method Get(tokens: Tokens, listing: Upstream<Option<seq<Workflow>>>, pages: nat -> Upstream<WorkflowPage>) returns (resp: Response)
    ensures resp == Respond(tokens, listing, pages)
  {
    var client := GetPCOClient(tokens);
    if client.None? {
      return Unauthorized;
    }
    if listing.Failed? || listing.value.None? {
      return ServerError(FailureMessage);
    }
    var ws := listing.value.value;
    var out: seq<OverdueWorkflow> := [];
    for i := 0 to |ws|
      invariant JoinAll(ws, pages, i) == Some(out)
    {
      var page := pages(i);
      if page.Failed? {
        JoinAllThrowsIff(ws, pages, |ws|);
        return ServerError(FailureMessage);
      }
      var p := page.value;
      if p.cards.None? || |p.cards.value| == 0 {
        continue;
      }
      if p.steps.None? {
        JoinAllThrowsIff(ws, pages, |ws|);
        return ServerError(FailureMessage);
      }
      var people, stepsMap := BuildMaps(p.steps.value, p.included);
      var cards := Detailed(p.cards.value, people, stepsMap);
      if |cards| > 0 {
        out := out + [OverdueWorkflow(ws[i], p.steps.value, cards)];
      }
    }
    return OverdueData(out);
  }
}
