/**
 * The dialog that adds a person to a workflow
 * (components/add-to-workflow-modal.tsx): initials, the people search
 * guard, the resets on close and on selection, the step choice, and the
 * request that adds the person. The debounce timer is the field
 * `scheduled`, the query it will search for when it fires.
 */
module AddToWorkflowModal {
  import opened Wrappers
  import opened Js
  import opened Fetch
  import opened PcoTypes
  import CardDetailModal

  /** `firstName?.[0] || ""`: the first character, or "" for a missing or empty name. */
  function Initial(name: Option<string>): (r: string)
    ensures |r| <= 1
    ensures r != "" <==> Truthy(name)
    ensures r != "" ==> r == [name.value[0]]
  {
    if Truthy(name) then [name.value[0]] else ""
  }

  /** `getInitials(firstName, lastName)`. */
  function GetInitials(firstName: Option<string>, lastName: Option<string>): (r: string)
    ensures |r| <= 2
    ensures forall i :: 0 <= i < |r| ==> !IsLowerAscii(r[i])
    ensures r == Upper(Initial(firstName)) + Upper(Initial(lastName))
  {
    UpperAppend(Initial(firstName), Initial(lastName));
    Upper(Initial(firstName) + Initial(lastName))
  }

  /** For names without spaces, these initials agree with those the card dialog derives from the full name. */
  lemma InitialsAgree(first: string, last: string)
    requires first != "" && last != "" && ' ' !in first && ' ' !in last
    ensures GetInitials(Some(first), Some(last)) == CardDetailModal.GetInitials(first + " " + last)
  {
    CardDetailModal.InitialsOfFullName(first, last);
  }

  /** The search runs only for a query of at least two characters. */
  predicate Searchable(query: string) {
    query != "" && |query| >= 2
  }

  /** The option values of the step select: `index.toString()` for every step. */
  function StepOptions(steps: seq<Step>): (r: seq<string>)
    ensures |r| == |steps| && forall i :: 0 <= i < |r| ==> r[i] == Decimal(i)
  {
    seq(|steps|, i requires 0 <= i < |steps| => Decimal(i))
  }

  /** Every option value parses back to its step's index. */
  lemma OptionIndex(steps: seq<Step>, value: string)
    requires value in StepOptions(steps)
    ensures ParseInt(value, Ten).Some? && 0 <= ParseInt(value, Ten).value < |steps|
  {
    var i :| 0 <= i < |steps| && StepOptions(steps)[i] == value;
    ParseDecimal(i, Ten);
  }

  /** The step value the select holds: its initial "0" or one of its options. */
  predicate StepChosen(steps: seq<Step>, value: string) {
    value == "0" || value in StepOptions(steps)
  }

  /** A chosen step value always parses, to 0 or to the index of an existing step. */
  lemma ChosenIndex(steps: seq<Step>, value: string)
    requires StepChosen(steps, value)
    ensures ParseInt(value, Ten).Some?
    ensures ParseInt(value, Ten).value == 0 || 0 <= ParseInt(value, Ten).value < |steps|
  {
    if value == "0" {
      ParseDecimal(0, Ten);
      assert Decimal(0) == "0";
    } else {
      OptionIndex(steps, value);
    }
  }

  /** The body of the POST that adds the person; `NaN` is sent as `null`, here `None`. */
  datatype AddRequest = AddRequest(path: string, personId: string, targetStepIndex: Option<int>)

  /** The POST to `/api/workflows/{workflowId}/cards` for a person and the select's value. */
  function AddRequestFor(workflowId: string, personId: string, stepValue: string): (r: AddRequest)
    ensures r.personId == personId && r.targetStepIndex == ParseInt(stepValue, Ten)
  {
    AddRequest("/api/workflows/" + workflowId + "/cards", personId, ParseInt(stepValue, Ten))
  }

  class AddDialog {
    const workflowId: string
    const steps: seq<Step>
    var open: bool
    var searchQuery: string
    var searchResults: seq<Person>
    /** The query of the pending debounced search, if one is scheduled. */
    var scheduled: Option<string>
    var searching: bool
    var selectedPerson: Option<Person>
    var selectedStepIndex: string
    var adding: bool
    var personAdded: nat
    /** The values passed to `onOpenChange`, in order. */
    var openChanges: seq<bool>
    var searches: seq<string>
    var requests: seq<AddRequest>

    /** The step select holds its initial "0" or one of its option values. */
    predicate Valid()
      reads this
    {
      StepChosen(steps, selectedStepIndex)
    }

    constructor (workflowId: string, steps: seq<Step>, open: bool)
      ensures this.workflowId == workflowId && this.steps == steps && this.open == open
      ensures searchQuery == "" && searchResults == [] && scheduled == None && !searching
      ensures selectedPerson == None && selectedStepIndex == "0" && !adding
      ensures personAdded == 0 && openChanges == [] && searches == [] && requests == []
      ensures Valid()
    {
      this.workflowId := workflowId;
      this.steps := steps;
      this.open := open;
      searchQuery := "";
      searchResults := [];
      scheduled := None;
      searching := false;
      selectedPerson := None;
      selectedStepIndex := "0";
      adding := false;
      personAdded := 0;
      openChanges := [];
      searches := [];
      requests := [];
    }

    /** Typing into the search box: a short query clears the results and cancels any pending search. */
    method SetSearchQuery(query: string)
      modifies this`searchQuery, this`searchResults, this`scheduled
      ensures searchQuery == query
      ensures !Searchable(query) ==> searchResults == [] && scheduled == None
      ensures Searchable(query) ==> searchResults == old(searchResults) && scheduled == Some(query)
    {
      searchQuery := query;
      if query == "" || |query| < 2 {
        searchResults := [];
        scheduled := None;
        return;
      }
      scheduled := Some(query);
    }

    /**
     * The debounce timer fires: the pending query is searched (`reply` is
     * `None` when the fetch throws); an ok reply replaces the results.
     */
    method SearchFires(reply: Option<Reply<seq<Person>>>)
      modifies this`searchResults, this`scheduled, this`searches, this`searching
      ensures scheduled == None
      ensures old(scheduled).Some? ==> !searching
      ensures old(scheduled).None? ==> searching == old(searching)
      ensures old(scheduled).None? ==> searches == old(searches) && searchResults == old(searchResults)
      ensures old(scheduled).Some? ==> searches == old(searches) + [old(scheduled).value]
      ensures old(scheduled).Some? && reply.Some? && reply.value.ok ==> searchResults == reply.value.data.GetOr([])
      ensures old(scheduled).Some? && (reply.None? || !reply.value.ok) ==> searchResults == old(searchResults)
    {
      if scheduled.Some? {
        searching := true;
        searches := searches + [scheduled.value];
        if reply.Some? && reply.value.ok {
          searchResults := reply.value.data.GetOr([]);
        }
        searching := false;
      }
      scheduled := None;
    }

    /** The `open` prop changes; closing resets the query, the results, the person and the step. */
    method SetOpen(isOpen: bool)
      requires Valid()
      modifies this`open, this`searchQuery, this`searchResults, this`scheduled, this`selectedPerson, this`selectedStepIndex
      ensures open == isOpen && Valid()
      ensures !isOpen ==>
        && searchQuery == "" && searchResults == [] && scheduled == None
        && selectedPerson == None && selectedStepIndex == "0"
      ensures isOpen ==>
        && searchQuery == old(searchQuery) && searchResults == old(searchResults) && scheduled == old(scheduled)
        && selectedPerson == old(selectedPerson) && selectedStepIndex == old(selectedStepIndex)
    {
      open := isOpen;
      if !isOpen {
        SetSearchQuery("");
        selectedPerson := None;
        selectedStepIndex := "0";
      }
    }

    /** `handleSelectPerson`: the person is recorded and the search is cleared. */
    method HandleSelectPerson(person: Person)
      modifies this`selectedPerson, this`searchQuery, this`searchResults, this`scheduled
      ensures selectedPerson == Some(person)
      ensures searchQuery == "" && searchResults == [] && scheduled == None
    {
      selectedPerson := Some(person);
      SetSearchQuery("");
    }

    /** Choosing a step in the select, among the offered options. */
    method SelectStep(value: string)
      requires value in StepOptions(steps)
      modifies this`selectedStepIndex
      ensures selectedStepIndex == value && Valid()
    {
      selectedStepIndex := value;
    }

    /**
     * `handleAddToWorkflow`: nothing without a selected person; otherwise one
     * request with the person's id and the parsed step index, which is 0 or
     * the index of an existing step. An ok reply notifies the parent and asks
     * it to close the dialog.
     */
    method HandleAddToWorkflow(outcome: Outcome)
      requires Valid()
      modifies this`adding, this`requests, this`personAdded, this`openChanges
      ensures old(selectedPerson).None? ==>
        requests == old(requests) && personAdded == old(personAdded) && openChanges == old(openChanges) && adding == old(adding)
      ensures old(selectedPerson).Some? ==>
        && !adding
        && requests == old(requests) + [AddRequestFor(workflowId, selectedPerson.value.id, selectedStepIndex)]
        && personAdded == old(personAdded) + (if Succeeded(outcome) then 1 else 0)
        && openChanges == old(openChanges) + (if Succeeded(outcome) then [false] else [])
      ensures old(selectedPerson).Some? ==>
        var sent := requests[|requests| - 1].targetStepIndex;
        sent.Some? && (sent.value == 0 || 0 <= sent.value < |steps|)
    {
      if selectedPerson.None? {
        return;
      }
      adding := true;
      var request := AddRequestFor(workflowId, selectedPerson.value.id, selectedStepIndex);
      ChosenIndex(steps, selectedStepIndex);
      requests := requests + [request];
      if Succeeded(outcome) {
        personAdded := personAdded + 1;
        openChanges := openChanges + [false];
      }
      adding := false;
    }
  }
}
