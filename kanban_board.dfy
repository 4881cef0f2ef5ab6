/**
 * The drag-and-drop board of one workflow (components/kanban-board.tsx).
 *
 * The upstream API only moves a card one step at a time ("promote" forward,
 * "go-back" backward). Dropping a card on another column therefore turns into
 * `target - current` sequential calls, after an optimistic local update that
 * is undone if one of the calls throws.
 *
 * The outcome of the k-th call of a drag (k = 0, 1, ...) is the parameter
 * `outcomes(k)`; `fetch` rejects only on network failure, and the code never
 * reads `response.ok`, so a non-2xx answer counts as success.
 */
module KanbanBoard {
  import opened Wrappers
  import opened Js
  import opened Seqs
  import opened Fetch
  import opened PcoTypes

  /** `getStepIndex`: the position of the first step with this id, -1 when there is none. */
  function StepIndex(steps: seq<Step>, stepId: string): (i: int)
    ensures -1 <= i < |steps|
    ensures i == -1 <==> forall j :: 0 <= j < |steps| ==> steps[j].id != stepId
    ensures 0 <= i ==> steps[i].id == stepId && forall j :: 0 <= j < i ==> steps[j].id != stepId
  {
    FindIndex(steps, (s: Step) => s.id == stepId)
  }

  /** `getCardsByStep`: the cards of one column. */
  function CardsByStep(cards: seq<Card>, stepId: string): (r: seq<Card>)
    ensures forall i :: 0 <= i < |r| ==> r[i] in cards && r[i].currentStepId == Some(stepId)
    ensures forall i :: 0 <= i < |cards| && cards[i].currentStepId == Some(stepId) ==> cards[i] in r
  {
    Filter(cards, (c: Card) => c.currentStepId == Some(stepId))
  }

  /** A column lists its cards in board order: the column of a concatenation is the concatenation of the columns. */
  lemma CardsByStepKeepsOrder(a: seq<Card>, b: seq<Card>, stepId: string)
    ensures CardsByStep(a + b, stepId) == CardsByStep(a, stepId) + CardsByStep(b, stepId)
  {
    FilterAppend(a, b, (c: Card) => c.currentStepId == Some(stepId));
  }

  /** `cards.find((c) => c.id === cardId)`, as an index (-1: not found). */
  function CardIndex(cards: seq<Card>, cardId: string): int {
    FindIndex(cards, (c: Card) => c.id == cardId)
  }

  datatype Direction = Promote | GoBack

  /** One POST to `/api/workflows/{workflowId}/cards/{cardId}/promote` or `/go-back` with body `{ personId }`. */
  datatype Call = Call(direction: Direction, workflowId: string, cardId: string, personId: string)

  /** `cards.map((c) => c.id === cardId ? { ...c, currentStepId: stepId } : c)`. */
  function SetStepId(cards: seq<Card>, cardId: string, stepId: Option<string>): (r: seq<Card>)
    ensures |r| == |cards|
    ensures forall k :: 0 <= k < |cards| && cards[k].id != cardId ==> r[k] == cards[k]
    ensures forall k :: 0 <= k < |cards| && cards[k].id == cardId ==> r[k] == cards[k].(currentStepId := stepId)
  {
    seq(|cards|, k requires 0 <= k < |cards| => if cards[k].id == cardId then cards[k].(currentStepId := stepId) else cards[k])
  }

  /** Setting back the step id every card with that id had before undoes an update of it. */
  lemma SetStepIdUndo(cards: seq<Card>, cardId: string, stepId: Option<string>, was: Option<string>)
    requires forall k :: 0 <= k < |cards| && cards[k].id == cardId ==> cards[k].currentStepId == was
    ensures SetStepId(SetStepId(cards, cardId, stepId), cardId, was) == cards
  {
    var r := SetStepId(SetStepId(cards, cardId, stepId), cardId, was);
    assert forall k :: 0 <= k < |cards| ==> r[k] == cards[k];
  }

  /** `n` copies of the same call. */
  function Repeat(call: Call, n: nat): (r: seq<Call>)
    ensures |r| == n && forall j :: 0 <= j < n ==> r[j] == call
  {
    seq(n, _ => call)
  }

  /** The position of the first of `n` sequential calls that throws, or `n` when none does. */
  function FirstThrow(outcomes: nat -> Outcome, n: nat): (k: nat)
    ensures k <= n
    ensures forall j :: 0 <= j < k ==> !outcomes(j).Threw?
    ensures k < n ==> outcomes(k).Threw?
  {
    if n == 0 then 0
    else
      var k := FirstThrow(outcomes, n - 1);
      if k < n - 1 then k else if outcomes(n - 1).Threw? then n - 1 else n
  }

  /** How many of `n` awaited calls are issued: all of them, or those up to and including the first that throws. */
  function Issued(outcomes: nat -> Outcome, n: nat): nat {
    var k := FirstThrow(outcomes, n);
    if k < n then k + 1 else n
  }

  /** The early returns of `handleDragEnd`: nothing is moved and nothing is sent. */
  predicate Ignored(steps: seq<Step>, cards: seq<Card>, activeId: string, over: Option<string>) {
    var i := CardIndex(cards, activeId);
    || over.None?
    || i == -1
    || !Truthy(cards[i].currentStepId)
    || StepIndex(steps, cards[i].currentStepId.value) == StepIndex(steps, over.value)
    || !Truthy(cards[i].relationships.personId)
  }

  /** The state of the board and the calls issued once `handleDragEnd` has settled. */
  datatype DragResult = DragResult(cards: seq<Card>, calls: seq<Call>)

  /** What `handleDragEnd` does to the cards and which calls it issues, given the outcome of each call. */
  function DragEnd(
    workflowId: string, steps: seq<Step>, cards: seq<Card>,
    activeId: string, over: Option<string>, outcomes: nat -> Outcome): DragResult
  {
    if Ignored(steps, cards, activeId, over) then DragResult(cards, [])
    else
      var card := cards[CardIndex(cards, activeId)];
      var delta := StepIndex(steps, over.value) - StepIndex(steps, card.currentStepId.value);
      var call := Call(if delta > 0 then Promote else GoBack, workflowId, activeId, card.relationships.personId.value);
      Move(cards, activeId, card.currentStepId, over, call, if delta > 0 then delta else -delta, outcomes)
  }

  /**
   * The optimistic update of card `cardId` from step `from` to step `to`,
   * then `n` sequential copies of `call`, and the rollback if one throws.
   */
  function Move(
    cards: seq<Card>, cardId: string, from: Option<string>, to: Option<string>,
    call: Call, n: nat, outcomes: nat -> Outcome): DragResult
  {
    var moved := SetStepId(cards, cardId, to);
    var calls := Repeat(call, Issued(outcomes, n));
    if FirstThrow(outcomes, n) < n then DragResult(SetStepId(moved, cardId, from), calls)
    else DragResult(moved, calls)
  }

  /** A drag changes nothing and sends nothing exactly in the early-return cases; otherwise at least one call goes out. */
  lemma DragEndIgnoredIff(
    workflowId: string, steps: seq<Step>, cards: seq<Card>,
    activeId: string, over: Option<string>, outcomes: nat -> Outcome)
    ensures var r := DragEnd(workflowId, steps, cards, activeId, over, outcomes);
      r.calls == [] <==> Ignored(steps, cards, activeId, over)
    ensures Ignored(steps, cards, activeId, over) ==> DragEnd(workflowId, steps, cards, activeId, over, outcomes).cards == cards
  {
  }

  /**
   * The calls of an accepted drag: all promotes when the target column is to
   * the right, all go-backs when it is to the left, each carrying the card id
   * and its person's id; `|target - current|` of them unless one throws, in
   * which case the calls stop right after it.
   */
  lemma DragEndCalls(
    workflowId: string, steps: seq<Step>, cards: seq<Card>,
    activeId: string, over: Option<string>, outcomes: nat -> Outcome)
    requires !Ignored(steps, cards, activeId, over)
    ensures var card := cards[CardIndex(cards, activeId)];
      var current, target := StepIndex(steps, card.currentStepId.value), StepIndex(steps, over.value);
      var n := if target > current then target - current else current - target;
      var calls := DragEnd(workflowId, steps, cards, activeId, over, outcomes).calls;
      && (forall j :: 0 <= j < |calls| ==>
            && calls[j].direction == (if target > current then Promote else GoBack)
            && calls[j].workflowId == workflowId
            && calls[j].cardId == activeId && card.id == activeId
            && Some(calls[j].personId) == card.relationships.personId)
      && 1 <= |calls| <= n
      && (forall j :: 0 <= j < |calls| - 1 ==> !outcomes(j).Threw?)
      && (|calls| == n <==> forall j :: 0 <= j < n - 1 ==> !outcomes(j).Threw?)
      && (|calls| < n ==> outcomes(|calls| - 1).Threw?)
  {
  }

  /**
   * When no call throws (whatever HTTP status comes back), the dragged card
   * ends in the target column and nothing else on the board changes.
   */
  lemma DragEndSettles(
    workflowId: string, steps: seq<Step>, cards: seq<Card>,
    activeId: string, over: Option<string>, outcomes: nat -> Outcome)
    requires !Ignored(steps, cards, activeId, over)
    requires var card := cards[CardIndex(cards, activeId)];
      var current, target := StepIndex(steps, card.currentStepId.value), StepIndex(steps, over.value);
      forall j :: 0 <= j < (if target > current then target - current else current - target) ==> outcomes(j).Responded?
    ensures var r := DragEnd(workflowId, steps, cards, activeId, over, outcomes);
      && |r.cards| == |cards|
      && (forall k :: 0 <= k < |cards| && cards[k].id != activeId ==> r.cards[k] == cards[k])
      && (forall k :: 0 <= k < |cards| && cards[k].id == activeId ==> r.cards[k] == cards[k].(currentStepId := over))
  {
    var card := cards[CardIndex(cards, activeId)];
    var current, target := StepIndex(steps, card.currentStepId.value), StepIndex(steps, over.value);
    var n: nat := if target > current then target - current else current - target;
    assert FirstThrow(outcomes, n) == n;
  }

  /**
   * When a call throws, the dragged card gets its pre-drag step back; if its
   * id is unique on the board, the board is exactly as before the drag.
   */
  lemma DragEndRollsBack(
    workflowId: string, steps: seq<Step>, cards: seq<Card>,
    activeId: string, over: Option<string>, outcomes: nat -> Outcome)
    requires !Ignored(steps, cards, activeId, over)
    requires var card := cards[CardIndex(cards, activeId)];
      var n := StepIndex(steps, over.value) - StepIndex(steps, card.currentStepId.value);
      FirstThrow(outcomes, if n > 0 then n else -n) < (if n > 0 then n else -n)
    ensures var r := DragEnd(workflowId, steps, cards, activeId, over, outcomes);
      var i := CardIndex(cards, activeId);
      && |r.cards| == |cards|
      && r.cards[i] == cards[i]
      && (forall k :: 0 <= k < |cards| && cards[k].id != activeId ==> r.cards[k] == cards[k])
      && ((forall k :: 0 <= k < |cards| && cards[k].id == activeId ==> k == i) ==> r.cards == cards)
  {
    var i := CardIndex(cards, activeId);
    if forall k :: 0 <= k < |cards| && cards[k].id == activeId ==> k == i {
      SetStepIdUndo(cards, activeId, over, cards[i].currentStepId);
    }
  }

  /**
   * Neither index is checked against -1: a card whose step is not among the
   * workflow's steps, dropped on the column at index `t`, is promoted `t + 1`
   * times.
   */
  lemma UnknownCurrentStepStillMoves(
    workflowId: string, steps: seq<Step>, cards: seq<Card>, activeId: string, t: nat, outcomes: nat -> Outcome)
    requires t < |steps|
    requires forall j :: 0 <= j < t ==> steps[j].id != steps[t].id
    requires var i := CardIndex(cards, activeId);
      && i != -1 && Truthy(cards[i].currentStepId) && Truthy(cards[i].relationships.personId)
      && StepIndex(steps, cards[i].currentStepId.value) == -1
    requires forall j :: 0 <= j <= t ==> outcomes(j).Responded?
    ensures var calls := DragEnd(workflowId, steps, cards, activeId, Some(steps[t].id), outcomes).calls;
      |calls| == t + 1 && forall j :: 0 <= j < |calls| ==> calls[j].direction == Promote
  {
    assert StepIndex(steps, steps[t].id) == t;
    assert FirstThrow(outcomes, t + 1) == t + 1;
  }

  /** Steps A, B, C, D; a card at B dropped on D: two promotes, and on success it settles at D. */
  lemma ScenarioForwardTwo(outcomes: nat -> Outcome)
    requires outcomes(0).Responded? && outcomes(1).Responded?
    ensures var steps := [Step("WorkflowStep", "A", 1, "A"), Step("WorkflowStep", "B", 2, "B"),
                          Step("WorkflowStep", "C", 3, "C"), Step("WorkflowStep", "D", 4, "D")];
      var card := Card("c1", CardAttributes("B", false, None), Relationships(Some("p1"), None, Some("B")),
                       None, None, None, Some("B"));
      DragEnd("w1", steps, [card], "c1", Some("D"), outcomes)
        == DragResult([card.(currentStepId := Some("D"))], [Call(Promote, "w1", "c1", "p1"), Call(Promote, "w1", "c1", "p1")])
  {
    var steps := [Step("WorkflowStep", "A", 1, "A"), Step("WorkflowStep", "B", 2, "B"),
                  Step("WorkflowStep", "C", 3, "C"), Step("WorkflowStep", "D", 4, "D")];
    assert StepIndex(steps, "B") == 1;
    assert StepIndex(steps, "D") == 3;
    assert FirstThrow(outcomes, 2) == 2;
  }

  /** Steps A, B, C, D; a card at C dropped on A: two go-backs. */
  lemma ScenarioBackTwo(outcomes: nat -> Outcome)
    requires outcomes(0).Responded? && outcomes(1).Responded?
    ensures var steps := [Step("WorkflowStep", "A", 1, "A"), Step("WorkflowStep", "B", 2, "B"),
                          Step("WorkflowStep", "C", 3, "C"), Step("WorkflowStep", "D", 4, "D")];
      var card := Card("c1", CardAttributes("C", false, None), Relationships(Some("p1"), None, Some("C")),
                       None, None, None, Some("C"));
      DragEnd("w1", steps, [card], "c1", Some("A"), outcomes).calls
        == [Call(GoBack, "w1", "c1", "p1"), Call(GoBack, "w1", "c1", "p1")]
  {
    var steps := [Step("WorkflowStep", "A", 1, "A"), Step("WorkflowStep", "B", 2, "B"),
                  Step("WorkflowStep", "C", 3, "C"), Step("WorkflowStep", "D", 4, "D")];
    assert StepIndex(steps, "C") == 2;
    assert StepIndex(steps, "A") == 0;
    assert FirstThrow(outcomes, 2) == 2;
  }

  /** The board component: its React state slots, and the log of upstream calls it has issued. */
  class Board {
    const workflowId: string
    var steps: seq<Step>
    var cards: seq<Card>
    var activeCard: Option<Card>
    var issued: seq<Call>

    /** The board once `fetchData` has loaded the workflow's steps and cards. */
    constructor (workflowId: string, steps: seq<Step>, cards: seq<Card>)
      ensures this.workflowId == workflowId && this.steps == steps && this.cards == cards
      ensures activeCard == None && issued == []
    {
      this.workflowId := workflowId;
      this.steps := steps;
      this.cards := cards;
      activeCard := None;
      issued := [];
    }

    /** `handleDragStart`: remembers the picked card, if it is on the board. */
    method HandleDragStart(activeId: string)
      modifies this`activeCard
      ensures var i := CardIndex(cards, activeId);
        activeCard == if i == -1 then old(activeCard) else Some(cards[i])
    {
      var i := CardIndex(cards, activeId);
      if i != -1 {
        activeCard := Some(cards[i]);
      }
    }

    /** `handleDragEnd`: the drop of card `activeId` on the column `over`. */
    method HandleDragEnd(activeId: string, over: Option<string>, outcomes: nat -> Outcome)
      modifies this`cards, this`activeCard, this`issued
      ensures activeCard == None
      ensures var r := DragEnd(workflowId, steps, old(cards), activeId, over, outcomes);
        cards == r.cards && issued == old(issued) + r.calls
    {
      activeCard := None;
      if over.None? {
        return;
      }
      var overStepId := over.value;
      var i := CardIndex(cards, activeId);
      if i == -1 || !Truthy(cards[i].currentStepId) {
        return;
      }
      var card := cards[i];
      var currentStepIndex := StepIndex(steps, card.currentStepId.value);
      var targetStepIndex := StepIndex(steps, overStepId);
      if currentStepIndex == targetStepIndex {
        return;
      }
      var personId := card.relationships.personId;
      if !Truthy(personId) {
        return;
      }
      var stepsToMove := targetStepIndex - currentStepIndex;
      var direction := if stepsToMove > 0 then Promote else GoBack;
      var n: nat := if stepsToMove > 0 then stepsToMove else -stepsToMove;
      var call := Call(direction, workflowId, activeId, personId.value);
      assert DragEnd(workflowId, steps, cards, activeId, over, outcomes)
        == Move(cards, activeId, card.currentStepId, over, call, n, outcomes);
      MoveCard(activeId, card.currentStepId, overStepId, call, n, outcomes);
    }

    /** The optimistic update, the `n` awaited calls, and the rollback when one of them throws. */
    method MoveCard(cardId: string, from: Option<string>, to: string, call: Call, n: nat, outcomes: nat -> Outcome)
      modifies this`cards, this`issued
      ensures var r := Move(old(cards), cardId, from, Some(to), call, n, outcomes);
        cards == r.cards && issued == old(issued) + r.calls
    {
      // Optimistic update
      cards := SetStepId(cards, cardId, Some(to));

      var threw := SendInOrder(call, n, outcomes);
      if threw {
        // Revert the optimistic update
        cards := SetStepId(cards, cardId, from);
      }
    }

    /** Issues `n` copies of `call`, awaiting each before the next; stops at the first that throws. */
    method SendInOrder(call: Call, n: nat, outcomes: nat -> Outcome) returns (threw: bool)
      modifies this`issued
      ensures threw <==> FirstThrow(outcomes, n) < n
      ensures issued == old(issued) + Repeat(call, Issued(outcomes, n))
    {
      var i := 0;
      while i < n
        invariant 0 <= i <= n
        invariant forall j :: 0 <= j < i ==> !outcomes(j).Threw?
        invariant issued == old(issued) + Repeat(call, i)
      {
        issued := issued + [call];
        assert Repeat(call, i) + [call] == Repeat(call, i + 1);
        if outcomes(i).Threw? {
          return true;
        }
        i := i + 1;
      }
      return false;
    }
  }
}
