/**
 * The card dialog (components/card-detail-modal.tsx): relative time labels,
 * initials, and the handlers that post a note, send an email, or move,
 * remove or delete the card. The clock reading is passed in as the
 * millisecond difference `now - date`; each request's outcome is an input.
 */
module CardDetailModal {
  import opened Wrappers
  import opened Js
  import opened Seqs
  import opened Fetch
  import opened PcoTypes

  const MinuteMs := 60000
  const HourMs := 3600000
  const DayMs := 86400000

  /** `${count} ${unit}${count === 1 ? "" : "s"} ago`. */
  function Ago(count: nat, unit: string): string {
    Decimal(count) + " " + unit + (if count == 1 then "" else "s") + " ago"
  }

  /**
   * `formatDate`, on the elapsed milliseconds: "just now" under a minute
   * (future instants included), then minutes, hours and days, each
   * floored; from seven days on the locale date, left abstract as `None`.
   */
  function FormatDate(diffMs: int): (r: Option<string>)
    ensures r == Some("just now") <==> diffMs < MinuteMs
    ensures r.None? <==> diffMs >= 7 * DayMs
  {
    var minutes := diffMs / MinuteMs;
    var hours := diffMs / HourMs;
    var days := diffMs / DayMs;
    if minutes < 1 then Some("just now")
    else if minutes < 60 then Some(Ago(minutes, "minute"))
    else if hours < 24 then Some(Ago(hours, "hour"))
    else if days < 7 then Some(Ago(days, "day"))
    else None
  }

  /** The bucket boundaries in milliseconds, and the count each bucket shows. */
  lemma FormatDateBuckets(diffMs: int)
    ensures MinuteMs <= diffMs < HourMs ==>
      FormatDate(diffMs) == Some(Ago(diffMs / MinuteMs, "minute")) && 1 <= diffMs / MinuteMs < 60
    ensures HourMs <= diffMs < DayMs ==>
      FormatDate(diffMs) == Some(Ago(diffMs / HourMs, "hour")) && 1 <= diffMs / HourMs < 24
    ensures DayMs <= diffMs < 7 * DayMs ==>
      FormatDate(diffMs) == Some(Ago(diffMs / DayMs, "day")) && 1 <= diffMs / DayMs < 7
  {
  }

  predicate EndsWith(s: string, suffix: string) {
    |suffix| <= |s| && s[|s| - |suffix|..] == suffix
  }

  /** The unit is plural exactly when the count is not one. */
  lemma AgoPluralIff(count: nat, unit: string)
    requires unit != "" && unit[|unit| - 1] != 's'
    ensures EndsWith(Ago(count, unit), "s ago") <==> count != 1
  {
    var prefix := Decimal(count) + " " + unit;
    var s := Ago(count, unit);
    if count == 1 {
      assert s == prefix + " ago";
      assert s[|s| - 5] == unit[|unit| - 1];
    } else {
      assert s == prefix + "s ago";
    }
  }

  /** The number in a label reads back as its count. */
  lemma AgoShowsCount(count: nat, unit: string)
    ensures ParseInt(Ago(count, unit), Ten) == Some(count)
  {
    var rest := " " + unit + (if count == 1 then "" else "s") + " ago";
    assert Ago(count, unit) == Decimal(count) + rest;
    ParseDecimalThen(count, rest, Ten);
  }

  /** `n[0]` of a word; an empty word gives `undefined`, which `join` renders as "". */
  function FirstChar(w: string): (r: string)
    ensures |r| <= 1 && (w != "" ==> r == [w[0]])
  {
    if w == "" then "" else [w[0]]
  }

  /** `words.map((n) => n[0]).join("")`. */
  function FirstChars(words: seq<string>): (r: string)
    ensures |r| <= |words|
    decreases |words|
  {
    if words == [] then "" else FirstChar(words[0]) + FirstChars(words[1..])
  }

  function NonEmpty(): string -> bool {
    (w: string) => w != ""
  }

  /** Empty words (from repeated, leading or trailing spaces) contribute nothing. */
  lemma {:induction false} EmptyWordsIgnored(words: seq<string>)
    ensures FirstChars(words) == FirstChars(Filter(words, NonEmpty()))
    decreases |words|
  {
    if words != [] {
      var rest := words[1..];
      EmptyWordsIgnored(rest);
      var kept := Filter(rest, NonEmpty());
      assert FirstChars(words) == FirstChar(words[0]) + FirstChars(rest);
      if words[0] != "" {
        var f := [words[0]] + kept;
        assert Filter(words, NonEmpty()) == f;
        assert f[0] == words[0] && f[1..] == kept;
        assert FirstChars(f) == FirstChar(words[0]) + FirstChars(kept);
      } else {
        assert Filter(words, NonEmpty()) == kept;
        assert FirstChar(words[0]) + FirstChars(rest) == FirstChars(rest);
      }
    }
  }

  /** Of words that are all non-empty, `FirstChars` is exactly their first characters. */
  lemma {:induction false} FirstCharsOfWords(ws: seq<string>)
    requires forall i :: 0 <= i < |ws| ==> ws[i] != ""
    ensures |FirstChars(ws)| == |ws|
    ensures forall i :: 0 <= i < |ws| ==> FirstChars(ws)[i] == ws[i][0]
    decreases |ws|
  {
    if ws != [] {
      FirstCharsOfWords(ws[1..]);
      assert FirstChars(ws) == [ws[0][0]] + FirstChars(ws[1..]);
    }
  }

  /**
   * `getInitials(name)`: the upper-cased first letters of the first two
   * non-empty space-separated words of the name.
   */
  function GetInitials(name: string): (r: string)
    ensures var ws := Filter(Split(name), NonEmpty());
      && |r| == (if |ws| < 2 then |ws| else 2)
      && forall i :: 0 <= i < |r| ==> r[i] == UpperChar(ws[i][0]) && !IsLowerAscii(r[i])
  {
    var u := Upper(FirstChars(Split(name)));
    EmptyWordsIgnored(Split(name));
    FirstCharsOfWords(Filter(Split(name), NonEmpty()));
    if |u| <= 2 then u else u[..2]
  }

  /** A first and last name without spaces give their two upper-cased first letters. */
  lemma InitialsOfFullName(first: string, last: string)
    requires first != "" && last != "" && ' ' !in first && ' ' !in last
    ensures GetInitials(first + " " + last) == [UpperChar(first[0]), UpperChar(last[0])]
  {
    assert Join([first, last]) == first + " " + Join([last]);
    SplitJoin([first, last]);
    assert [first, last][1..] == [last];
    assert FirstChars([first, last]) == [first[0], last[0]];
  }

  datatype Verb = Get | Post | Delete

  /** The JSON body of a request. */
  datatype Body =
    | PersonOnly(personId: string)
    | NoteBody(personId: string, note: string)
    | EmailBody(personId: string, subject: string, body: string)

  datatype Request = Request(verb: Verb, path: string, body: Option<Body>)

  /** The buttons of the dialog that act on the card. */
  datatype Action = CompleteStep | GoBack | SkipStep | RemoveFromWorkflow | DeleteCard

  function CardPath(workflowId: string, cardId: string): string {
    "/api/workflows/" + workflowId + "/cards/" + cardId
  }

  /** The activity reload that follows a saved note or a sent email. */
  function ActivitiesRequest(workflowId: string, cardId: string, personId: string): Request {
    Request(Get, CardPath(workflowId, cardId) + "/activities?personId=" + personId, None)
  }

  /** The request an action sends: a POST to its route, or a DELETE of the card; the body names the person. */
  function ActionRequest(action: Action, workflowId: string, cardId: string, personId: string): (r: Request)
    ensures r.body == Some(PersonOnly(personId))
    ensures r.verb == Delete <==> action == DeleteCard
  {
    var base := CardPath(workflowId, cardId);
    var body := Some(PersonOnly(personId));
    match action
    case CompleteStep => Request(Post, base + "/promote", body)
    case GoBack => Request(Post, base + "/go-back", body)
    case SkipStep => Request(Post, base + "/skip-step", body)
    case RemoveFromWorkflow => Request(Post, base + "/remove", body)
    case DeleteCard => Request(Delete, base, body)
  }

  /** The POST of `handleSaveNote`, with the trimmed note. */
  function NoteRequest(workflowId: string, cardId: string, personId: string, note: string): Request {
    Request(Post, CardPath(workflowId, cardId) + "/notes", Some(NoteBody(personId, Trim(note))))
  }

  /** The POST of `handleSendEmail`, with the trimmed subject and body. */
  function EmailRequest(workflowId: string, cardId: string, personId: string, subject: string, body: string): Request {
    Request(Post, CardPath(workflowId, cardId) + "/send-email", Some(EmailBody(personId, Trim(subject), Trim(body))))
  }

  /** What is sent for a non-blank note or email: trimmed, hence non-empty and without surrounding whitespace. */
  lemma TrimmedText(s: string)
    requires !Blank(s)
    ensures Trim(s) != "" && !IsWhitespace(Trim(s)[0]) && !IsWhitespace(Trim(s)[|Trim(s)| - 1])
  {
    TrimEmptyIffBlank(s);
    TrimSlice(s);
  }

  class CardDialog {
    const workflowId: string
    const card: Option<Card>
    var open: bool
    var note: string
    var savingNote: bool
    var emailSubject: string
    var emailBody: string
    var sendingEmail: bool
    var completing: bool
    var removeDialogOpen: bool
    var deleteDialogOpen: bool
    /** How many times `onCardUpdated` was called. */
    var cardUpdates: nat
    /** Every request sent, in order. */
    var requests: seq<Request>

    constructor (workflowId: string, card: Option<Card>, open: bool)
      ensures this.workflowId == workflowId && this.card == card && this.open == open
      ensures note == "" && emailSubject == "" && emailBody == ""
      ensures !savingNote && !sendingEmail && !completing && !removeDialogOpen && !deleteDialogOpen
      ensures cardUpdates == 0 && requests == []
    {
      this.workflowId := workflowId;
      this.card := card;
      this.open := open;
      note := "";
      savingNote := false;
      emailSubject := "";
      emailBody := "";
      sendingEmail := false;
      completing := false;
      removeDialogOpen := false;
      deleteDialogOpen := false;
      cardUpdates := 0;
      requests := [];
    }

    /** `card?.relationships?.person?.data?.id`. */
    function PersonId(): Option<string> {
      if card.Some? then card.value.relationships.personId else None
    }

    /** The guard every handler starts with: a card and a person id. */
    predicate CanAct() {
      card.Some? && Truthy(PersonId())
    }

    /** `handleSaveNote`: nothing is sent unless the note has a non-whitespace character; the trimmed note is sent and cleared only on an ok reply. */
    method HandleSaveNote(outcome: Outcome)
      modifies this`note, this`savingNote, this`requests
      ensures !CanAct() || Blank(old(note)) ==>
        note == old(note) && savingNote == old(savingNote) && requests == old(requests)
      ensures CanAct() && !Blank(old(note)) ==>
        && !savingNote
        && requests == old(requests)
             + [NoteRequest(workflowId, card.value.id, PersonId().value, old(note))]
             + (if Succeeded(outcome) then [ActivitiesRequest(workflowId, card.value.id, PersonId().value)] else [])
        && note == (if Succeeded(outcome) then "" else old(note))
    {
      var text := note;
      TrimEmptyIffBlank(text);
      if card.None? || !Truthy(PersonId()) || Trim(text) == "" {
        return;
      }
      var cardId, personId := card.value.id, PersonId().value;
      savingNote := true;
      var sent := [NoteRequest(workflowId, cardId, personId, text)];
      if Succeeded(outcome) {
        note := "";
        sent := sent + [ActivitiesRequest(workflowId, cardId, personId)];
      }
      requests := requests + sent;
      savingNote := false;
    }

    /** `handleSendEmail`: subject and body must both have a non-whitespace character; both are sent trimmed and cleared only on an ok reply. */
    method HandleSendEmail(outcome: Outcome)
      modifies this`emailSubject, this`emailBody, this`sendingEmail, this`requests
      ensures !CanAct() || Blank(old(emailSubject)) || Blank(old(emailBody)) ==>
        && emailSubject == old(emailSubject) && emailBody == old(emailBody)
        && sendingEmail == old(sendingEmail) && requests == old(requests)
      ensures CanAct() && !Blank(old(emailSubject)) && !Blank(old(emailBody)) ==>
        && !sendingEmail
        && requests == old(requests)
             + [EmailRequest(workflowId, card.value.id, PersonId().value, old(emailSubject), old(emailBody))]
             + (if Succeeded(outcome) then [ActivitiesRequest(workflowId, card.value.id, PersonId().value)] else [])
        && emailSubject == (if Succeeded(outcome) then "" else old(emailSubject))
        && emailBody == (if Succeeded(outcome) then "" else old(emailBody))
    {
      var subject, body := emailSubject, emailBody;
      TrimEmptyIffBlank(subject);
      TrimEmptyIffBlank(body);
      if card.None? || !Truthy(PersonId()) || Trim(subject) == "" || Trim(body) == "" {
        return;
      }
      var cardId, personId := card.value.id, PersonId().value;
      sendingEmail := true;
      var sent := [EmailRequest(workflowId, cardId, personId, subject, body)];
      if Succeeded(outcome) {
        emailSubject := "";
        emailBody := "";
        sent := sent + [ActivitiesRequest(workflowId, cardId, personId)];
      }
      requests := requests + sent;
      sendingEmail := false;
    }

    /**
     * The five card actions. Without a card and a person id nothing happens.
     * Otherwise one request is sent; an ok reply notifies the parent and
     * closes the dialog. Completing clears its busy flag, and removing or
     * deleting closes its confirmation, whatever the outcome.
     */
    method HandleAction(action: Action, outcome: Outcome)
      modifies this`completing, this`removeDialogOpen, this`deleteDialogOpen, this`requests, this`open, this`cardUpdates
      ensures !CanAct() ==>
        && requests == old(requests) && open == old(open) && cardUpdates == old(cardUpdates)
        && completing == old(completing) && removeDialogOpen == old(removeDialogOpen) && deleteDialogOpen == old(deleteDialogOpen)
      ensures CanAct() ==>
        && requests == old(requests) + [ActionRequest(action, workflowId, card.value.id, PersonId().value)]
        && open == (if Succeeded(outcome) then false else old(open))
        && cardUpdates == old(cardUpdates) + (if Succeeded(outcome) then 1 else 0)
        && completing == (if action == CompleteStep then false else old(completing))
        && removeDialogOpen == (if action == RemoveFromWorkflow then false else old(removeDialogOpen))
        && deleteDialogOpen == (if action == DeleteCard then false else old(deleteDialogOpen))
    {
      if card.None? || !Truthy(PersonId()) {
        return;
      }
      if action == CompleteStep {
        completing := true;
      }
      requests := requests + [ActionRequest(action, workflowId, card.value.id, PersonId().value)];
      if Succeeded(outcome) {
        cardUpdates := cardUpdates + 1;
        open := false;
      }
      match action {
        case CompleteStep => completing := false;
        case RemoveFromWorkflow => removeDialogOpen := false;
        case DeleteCard => deleteDialogOpen := false;
        case GoBack =>
        case SkipStep =>
      }
    }
  }
}
