# Planning Center workflows board, modelled in Dafny

This project models the client-side logic of a small web front end over the
Planning Center "People → Workflows" API. It covers:

- the session check behind every server route (`lib/pco-client.ts`);
- the drag-and-drop kanban board of one workflow. The upstream API moves a
  card only one step at a time, so the board turns a drop into a run of
  "promote" or "go-back" calls. It updates the board optimistically and
  undoes the update when a call throws;
- the workflows list, with its pins in browser storage. Stale pins are
  pruned, and the pinned workflows come first, in pin order;
- the overdue-cards route, which joins every workflow's overdue cards with
  the people and steps included in the reply;
- the overdue-cards page, which groups cards by step, reports step
  positions, expands or collapses workflows and counts the cards;
- the card dialog: relative dates, initials, notes, emails and the five
  card actions;
- the dialog that adds a person to a workflow: initials, the search guard,
  the resets, the step choice and the add request.

Each source file becomes one module:

| module | file | form |
|---|---|---|
| `PcoClient` | `pco_client.dfy` | functions |
| `KanbanBoard` | `kanban_board.dfy` | functions, plus the class `Board` with loops |
| `WorkflowsList` | `workflows_list.dfy` | functions, plus the class `WorkflowsListState` |
| `OverdueRoute` | `overdue_route.dfy` | functions, plus the methods `BuildMaps` and `Get` with loops |
| `OverdueCardsList` | `overdue_cards_list.dfy` | functions, the method `GroupCardsByStep`, and the class `OverduePage` |
| `CardDetailModal` | `card_detail_modal.dfy` | functions, plus the class `CardDialog` |
| `AddToWorkflowModal` | `add_to_workflow_modal.dfy` | functions, plus the class `AddDialog` |

Shared modules:

- `Wrappers`: `Option`.
- `Fetch`: how a `fetch` settles.
- `Js`: the JavaScript semantics the code relies on: truthiness, `||`,
  `trim`, `split`/`join`, `toUpperCase`, `toString` and `parseInt`.
- `Seqs`: `filter`, `findIndex`/`find`/`indexOf` and `sort`.
- `PcoTypes`: the API records of `lib/types.ts`.

How the program's effects appear in the model:

- Each React component with state is a class. Its `useState` slots are the
  class's fields, and each handler is a method that changes them.
- The requests a component sends are appended to a log field.
- How each request settles is a parameter. `Outcome` is either `Responded(ok)`
  or `Threw`. `fetch` rejects only on a network failure, so a non-2xx answer
  is `Responded(false)`.
- The clock is a parameter: `now` in milliseconds, or the elapsed milliseconds
  for `formatDate`.
- Cookies are the `Tokens` record.
- The pins' storage entry is the field `stored`.
- The `onOpenChange` and `onPersonAdded` callbacks appear as a log or a
  counter, or (in the card dialog) as the `open` field the parent then sets.

Two behaviours of the code are kept as written:

- The kanban board never reads `response.ok`. Only a thrown `fetch` stops
  the run of calls and rolls the card back.
- Neither step index is checked against -1. A card whose step is not among
  the workflow's steps is still moved; see `UnknownCurrentStepStillMoves`.

## Model

| member | source | states |
|---|---|---|
| PcoClient.GetPCOClient | lib/pco-client.ts:4-18 | A client exists exactly when the access-token cookie is present and non-empty. It carries that token as its bearer token. |
| PcoClient.GetAuthStatus | lib/pco-client.ts:22-36 | "authenticated" iff there is an access token, there is an expiry, and now is before the expiry parsed as an integer. Otherwise "needs_refresh" iff there is a refresh token. Otherwise "unauthenticated". |
| PcoClient.CookieSessionStatus | lib/pco-client.ts:26 | With an expiry cookie holding a millisecond instant in decimal, the session is authenticated exactly while now is before that instant. After that it needs a refresh, or is unauthenticated without a refresh token. |
| PcoClient.BlankExpiryNeverAuthenticated | lib/pco-client.ts:26 | A blank expiry parses to NaN, and the session is never authenticated, whatever the clock says. |
| PcoClient.AuthenticatedHasClient | lib/pco-client.ts:4-36 | Every authenticated session yields a client. |
| PcoClient.ClientIgnoresExpiry | lib/pco-client.ts:4-18 | The client does not depend on the expiry cookie, so an expired token still yields one. |
| KanbanBoard.StepIndex | components/kanban-board.tsx:71-76 | The index of the first step with the id, or -1 exactly when no step has it. |
| KanbanBoard.CardsByStep | components/kanban-board.tsx:64-69 | A column holds exactly the board's cards whose current step id is the column's id. |
| KanbanBoard.CardsByStepKeepsOrder | components/kanban-board.tsx:64-69 | A column keeps board order: the column of a concatenation is the concatenation of the columns. |
| KanbanBoard.SetStepId | components/kanban-board.tsx:107-111 | Only the cards with the dragged id change, and only their step id. Length and every other card are unchanged. |
| KanbanBoard.SetStepIdUndo | components/kanban-board.tsx:138-143 | Setting back the previous step id undoes the optimistic update. |
| KanbanBoard.FirstThrow | components/kanban-board.tsx:116-136 | The position of the first of `n` awaited calls that throws, or `n` when none throws. |
| KanbanBoard.DragEndIgnoredIff | components/kanban-board.tsx:86-104 | A drop sends nothing exactly in the early-return cases, and in those cases the board is unchanged. These cases are: no target, an unknown card, a card without a step id, equal indices, or no person id. |
| KanbanBoard.DragEndCalls | components/kanban-board.tsx:113-135 | An accepted drop sends only promotes when the target is to the right and only go-backs when it is to the left. Each call carries the workflow's id, the card's id and its person's id. It sends between one and abs(target - current) calls. Every call but the last did not throw. All of them are sent exactly when none of the first abs(target - current) - 1 throws; when fewer are sent, the last one sent threw. |
| KanbanBoard.DragEndSettles | components/kanban-board.tsx:106-135 | When none of the abs(target - current) calls sent throws, whatever the HTTP status, the dragged card ends in the target column and no other card changes. |
| KanbanBoard.DragEndRollsBack | components/kanban-board.tsx:136-144 | When a call throws, the dragged card gets its previous step back. If its id is unique, the board is exactly as before the drag. |
| KanbanBoard.UnknownCurrentStepStillMoves | components/kanban-board.tsx:98-125 | A card whose step is not in the listing, dropped on the column at index t, is promoted t + 1 times. |
| KanbanBoard.ScenarioForwardTwo | components/kanban-board.tsx:86-125 | With steps A to D, a card at B dropped on D: two promotes, and the card settles at D. |
| KanbanBoard.ScenarioBackTwo | components/kanban-board.tsx:126-135 | With steps A to D, a card at C dropped on A: two go-backs. |
| KanbanBoard.Board.HandleDragStart | components/kanban-board.tsx:78-84 | The picked card becomes the active card when it is on the board. Otherwise the active card is unchanged. |
| KanbanBoard.Board.HandleDragEnd | components/kanban-board.tsx:86-145 | Clears the active card. The new cards and the issued calls are those of `DragEnd`, whose properties are the lemmas above. |
| KanbanBoard.Board.MoveCard | components/kanban-board.tsx:106-144 | Optimistic update, the sequential calls, then a rollback when one throws. |
| KanbanBoard.Board.SendInOrder | components/kanban-board.tsx:116-135 | Issues the calls one after another and stops after the first that throws. It reports whether one threw. |
| WorkflowsList.TogglePinned | components/workflows-list.tsx:94-96 | The id is pinned afterwards iff it was not pinned before. A new pin goes last. Unpinning shortens the list and adds nothing. |
| WorkflowsList.PinThenUnpin | components/workflows-list.tsx:94-96 | Pinning and then unpinning an id restores the list. |
| WorkflowsList.ToggleKeepsOthers | components/workflows-list.tsx:94-96 | Every other id keeps its pinned status. |
| WorkflowsList.UnpinKeepsOrder | components/workflows-list.tsx:94-96 | Unpinning removes the id and keeps the others in order. |
| WorkflowsList.Prune | components/workflows-list.tsx:71-75 | Keeps exactly the stored pins that name a fetched workflow. |
| WorkflowsList.PruneChangesIffStale | components/workflows-list.tsx:74-79 | Pruning changes the length iff some pin is stale. When no pin is stale, the list is unchanged. |
| WorkflowsList.CategoryName | components/workflows-list.tsx:102-106 | No name for a missing or empty id, or for an unknown category. Otherwise it is the non-empty name of the first category with that id. |
| WorkflowsList.CategoryNameFound | components/workflows-list.tsx:102-106 | When the i-th category is the first with the id, the name is that category's name, or nothing when that name is empty. |
| WorkflowsList.WorkflowsListState.constructor | components/workflows-list.tsx:39-47 | On mount, the pins are read from storage. |
| WorkflowsList.WorkflowsListState.FetchData | components/workflows-list.tsx:49-88 | A thrown fetch or a failed workflows reply sets the error and changes nothing else. A failed categories reply empties the categories. On success the stored pins are pruned, and written back to storage and state only when one was stale. |
| WorkflowsList.WorkflowsListState.TogglePin | components/workflows-list.tsx:90-100 | State and storage both take the toggled list. |
| WorkflowsList.WorkflowsListState.Partition | components/workflows-list.tsx:108-123 | The unpinned workflows in list order. The pinned ones are a permutation of the pinned workflows, sorted by pin position. Together the two sides are a permutation of all workflows. |
| WorkflowsList.PartitionStep | components/workflows-list.tsx:112-118 | Each workflow goes to exactly one side. |
| OverdueRoute.SetAllLookup | app/api/overdue-cards/route.ts:114-116 | After the `set` loop, a key is present iff it was already present or some item has it. The last item with that key wins. |
| OverdueRoute.CollectLookup | app/api/overdue-cards/route.ts:102-111 | The map of included items of one type holds exactly the ids of that type. Each id maps to its last item. |
| OverdueRoute.PeopleOfLookup | app/api/overdue-cards/route.ts:99-111 | The people map holds exactly the ids of the included people. |
| OverdueRoute.ListedStepWins | app/api/overdue-cards/route.ts:113-116 | A step from the steps listing overrides an included step with the same id. |
| OverdueRoute.IncludedStepLookup | app/api/overdue-cards/route.ts:100-116 | An id that is not listed is in the steps map iff some included step has it. |
| OverdueRoute.Lookup | app/api/overdue-cards/route.ts:128-130 | A value exactly when the id is present, non-empty and in the map; then it is the map's entry for that id. |
| OverdueRoute.AttachDetails | app/api/overdue-cards/route.ts:121-133 | The card keeps its fields. `currentStepId` is the relationship's id. The person, assignee and current step are found by their relationship ids, or are null. |
| OverdueRoute.Detailed | app/api/overdue-cards/route.ts:119-133 | The non-removed cards, in order, with their details attached. |
| OverdueRoute.LiveCards | app/api/overdue-cards/route.ts:120 | Some card survives the filter iff some card has no `removed_at`. |
| OverdueRoute.DetailedCardsAreLive | app/api/overdue-cards/route.ts:119-135 | The detailed list is non-empty iff some card is not removed. Every detailed card is a non-removed card of the input. |
| OverdueRoute.JoinAllThrowsIff | app/api/overdue-cards/route.ts:76-142 | The loop fails iff some workflow's upstream call throws, or its steps listing is missing when it is needed. |
| OverdueRoute.JoinAllKeeps | app/api/overdue-cards/route.ts:76-142 | Without a failure, the reply lists exactly the workflows with a non-removed card, in listing order. Each comes with its page's steps. Its cards are the page's non-removed cards, in order, each with its person and step from the lookup maps, and there is at least one. |
| OverdueRoute.RespondStatus | app/api/overdue-cards/route.ts:53-152 | 401 iff there is no access token. Otherwise 500 with "Failed to fetch overdue cards" iff the listing or some workflow's call fails. Otherwise 200. |
| OverdueRoute.BuildMaps | app/api/overdue-cards/route.ts:98-116 | The two loops build the people map and the steps map. |
| OverdueRoute.Get | app/api/overdue-cards/route.ts:53-152 | The route's loop gives the reply `Respond`, whose status and data are the lemmas above. |
| OverdueCardsList.Ensure | components/overdue-cards-list.tsx:67-73 | A group is created only for a new key whose step resolves, from the listing first and then from the card. |
| OverdueCardsList.Push | components/overdue-cards-list.tsx:75-78 | The card is appended to its key's group only. Keys and the other groups are unchanged. |
| OverdueCardsList.AddCardWellGrouped | components/overdue-cards-list.tsx:63-79 | One loop step keeps the keys distinct and non-empty. Every grouped card has its group's key. |
| OverdueCardsList.GroupAllWellGrouped | components/overdue-cards-list.tsx:59-79 | The whole loop keeps these invariants. |
| OverdueCardsList.AddCardOtherKey | components/overdue-cards-list.tsx:63-79 | A card with another step id leaves a key's group as it was. |
| OverdueCardsList.AddCardListedKey | components/overdue-cards-list.tsx:63-79 | A card of a listed step joins its existing group, or starts a new group of the first listed step. |
| OverdueCardsList.ListedStepGroup | components/overdue-cards-list.tsx:59-79 | For a listed step id, a group exists iff some card has that id. It holds exactly those cards, in input order, under the first listed step with the id. |
| OverdueCardsList.UnresolvedStepDropped | components/overdue-cards-list.tsx:64-73 | A step id found neither in the listing nor in its cards gets no group, so those cards are not shown. |
| OverdueCardsList.GroupCardsByStep | components/overdue-cards-list.tsx:59-85 | The loop's groups sorted by step sequence: a permutation of the groups, in ascending sequence. |
| OverdueCardsList.GetStepInfo | components/overdue-cards-list.tsx:87-100 | Relative to the first index i of the card's step: first iff i = 0, last iff i = length - 1, and the next step exists iff i + 1 is in range. The current name is the step's name, or the stage when the name is empty or the step is unknown. |
| OverdueCardsList.UnknownStepInfo | components/overdue-cards-list.tsx:89-98 | With an unlisted step: the stage is shown, it is never first, it is last only when there are no steps, and the first step is offered as next. |
| OverdueCardsList.Toggle | components/overdue-cards-list.tsx:47-57 | Flips membership of the id only. |
| OverdueCardsList.ToggleTwice | components/overdue-cards-list.tsx:47-57 | Toggling twice restores the set. |
| OverdueCardsList.TotalCountsAll | components/overdue-cards-list.tsx:102 | The reduce counts every card of every workflow once. |
| OverdueCardsList.TotalAppend | components/overdue-cards-list.tsx:102 | The total is additive over concatenation. |
| OverdueCardsList.OverduePage.FetchOverdueCards | components/overdue-cards-list.tsx:29-45 | A thrown fetch or a failed reply sets the error and keeps the data. Success shows the data with every workflow expanded. |
| OverdueCardsList.OverduePage.ToggleWorkflow | components/overdue-cards-list.tsx:47-57 | The expanded set becomes its toggle. |
| CardDetailModal.FormatDate | components/card-detail-modal.tsx:59-72 | "just now" iff less than a minute has elapsed, which includes future instants. The locale date (left abstract) appears iff at least seven days have elapsed. |
| CardDetailModal.FormatDateBuckets | components/card-detail-modal.tsx:62-70 | Minutes, hours and days are floored. Each bucket shows a count within its bounds: 1-59, 1-23 and 1-6. |
| CardDetailModal.AgoPluralIff | components/card-detail-modal.tsx:68-70 | The unit takes an "s" exactly when the count is not 1. |
| CardDetailModal.AgoShowsCount | components/card-detail-modal.tsx:68-70 | The label starts with its count in decimal; `parseInt` reads it back. |
| CardDetailModal.EmptyWordsIgnored | components/card-detail-modal.tsx:74-81 | Empty words from repeated or outer spaces add nothing to the initials. |
| CardDetailModal.FirstCharsOfWords | components/card-detail-modal.tsx:74-81 | Of non-empty words, the joined first characters are exactly one character per word, the word's first. |
| CardDetailModal.GetInitials | components/card-detail-modal.tsx:74-81 | The upper-cased first characters of the first two non-empty space-separated words of the name, in order; fewer when the name has fewer such words. None is a lower-case ASCII letter. |
| CardDetailModal.InitialsOfFullName | components/card-detail-modal.tsx:74-81 | "First Last" gives the two upper-cased first letters. |
| CardDetailModal.ActionRequest | components/card-detail-modal.tsx:208-323 | Each action sends `{ personId }`. Only deleting uses DELETE. |
| CardDetailModal.TrimmedText | components/card-detail-modal.tsx:163 | A non-blank note, subject or body is sent non-empty, with no surrounding whitespace. |
| CardDetailModal.CardDialog.HandleSaveNote | components/card-detail-modal.tsx:153-176 | Nothing happens without a card, a person id, or a non-whitespace note. Otherwise the trimmed note is posted. An ok reply clears the note and reloads the activities. The busy flag ends cleared. |
| CardDetailModal.CardDialog.HandleSendEmail | components/card-detail-modal.tsx:178-206 | The same, for a subject and a body that must both be non-blank and are both sent trimmed. |
| CardDetailModal.CardDialog.HandleAction | components/card-detail-modal.tsx:208-323 | One request per action when there is a card and a person. An ok reply notifies the parent and closes the dialog. Completing clears its busy flag. Remove and delete close their confirmations whatever the outcome. |
| AddToWorkflowModal.Initial | components/add-to-workflow-modal.tsx:39 | The first character, or "" for a missing or empty name. |
| AddToWorkflowModal.GetInitials | components/add-to-workflow-modal.tsx:38-40 | At most two characters, upper-cased: the upper-cased initial of the first name followed by that of the last name. |
| AddToWorkflowModal.InitialsAgree | components/add-to-workflow-modal.tsx:38-40 | For space-free names, these initials equal the card dialog's initials of "First Last". |
| AddToWorkflowModal.StepOptions | components/add-to-workflow-modal.tsx:219-221 | One option per step, whose value is the step's index in decimal. |
| AddToWorkflowModal.OptionIndex | components/add-to-workflow-modal.tsx:219-221 | Every option value parses back to a valid step index. |
| AddToWorkflowModal.ChosenIndex | components/add-to-workflow-modal.tsx:110 | The select's value, its initial "0" or an option, always parses, to 0 or to an existing step's index. |
| AddToWorkflowModal.AddRequestFor | components/add-to-workflow-modal.tsx:105-111 | The request carries the person's id and `parseInt(selectedStepIndex, 10)`. |
| AddToWorkflowModal.AddDialog.SetSearchQuery | components/add-to-workflow-modal.tsx:58-62 | A query that is empty or shorter than two characters clears the results and cancels any pending search. A longer query schedules a search for itself. |
| AddToWorkflowModal.AddDialog.SearchFires | components/add-to-workflow-modal.tsx:64-81 | A pending search is sent. Only an ok reply replaces the results, with `data` or []. The flag ends cleared. |
| AddToWorkflowModal.AddDialog.SetOpen | components/add-to-workflow-modal.tsx:85-92 | Closing resets the query, the results, the person and the step to "0". Opening changes nothing else. |
| AddToWorkflowModal.AddDialog.HandleSelectPerson | components/add-to-workflow-modal.tsx:94-98 | The person is selected, and the query and results are cleared. |
| AddToWorkflowModal.AddDialog.SelectStep | components/add-to-workflow-modal.tsx:211-223 | Choosing an offered option keeps the select's invariant. |
| AddToWorkflowModal.AddDialog.HandleAddToWorkflow | components/add-to-workflow-modal.tsx:100-123 | Nothing without a selected person. Otherwise one POST, whose step index is always a number: 0 or an existing step's index. An ok reply notifies the parent and asks it to close. The busy flag ends cleared. |
| Js.TrimEmptyIffBlank | components/card-detail-modal.tsx:154 | `s.trim()` is empty exactly when every character is whitespace. |
| Js.TrimSlice | components/card-detail-modal.tsx:163 | `trim` returns the slice between the leading and the trailing whitespace, and that slice neither starts nor ends with whitespace. |
| Js.JoinSplit | components/card-detail-modal.tsx:75-78 | Joining the pieces of `split(" ")` with spaces gives back the string. |
| Js.SplitJoin | components/card-detail-modal.tsx:75-78 | Splitting a space-join of space-free pieces gives back the pieces. |
| Js.ParseDecimal | components/add-to-workflow-modal.tsx:110 | `parseInt` of a number's decimal text gives the number, with or without radix 10. |
| Js.ParseBlank | lib/pco-client.ts:26 | A blank string parses to NaN. |
| Seqs.FilterAppend | components/kanban-board.tsx:66 | `filter` distributes over concatenation. |
| Seqs.FilterMultiset | components/workflows-list.tsx:112-118 | Filtering by a predicate and by its complement splits the list, counted with multiplicity. |
| Seqs.FindIndex | components/kanban-board.tsx:73 | The first index whose element passes, and -1 exactly when none does. |
| Seqs.SortBy | components/workflows-list.tsx:120 | A permutation of the input in ascending key order. |

## Left out

- The login, callback, refresh and logout routes and `lib/auth.ts` are not modelled. Cookie I/O and the OAuth exchange are outside the model; the cookies enter as the `Tokens` record.
- The proxy routes under `app/api` other than the overdue-cards route are not modelled. This includes the promote, go-back, notes, send-email, remove, search and card routes. What they do upstream is abstract: each call is only the outcome it settles with.
- The board's initial `fetchData` (kanban-board.tsx:43-62) is not modelled. The `Board` constructor starts from the loaded steps and cards.
- The dnd-kit sensors and collision detection are not modelled. A drop is the active card's id and the optional id of the column under it.
- `Promise.all` is not modelled as concurrency. Each workflow's two listings enter as one settled page, and the two fetches of the workflows list enter as one settled result.
- The 300 ms debounce is modelled as the `scheduled` slot, which a new query replaces or cancels. A search already in flight when the query changes can still overwrite the results in the program; the model does not capture that race.
- `encodeURIComponent` is not applied. The search log records the raw query.
- `localStorage` and `JSON` are not modelled. The pins' storage entry is the field `stored`. A corrupt entry, which `getPinnedWorkflows` reads as [], is not modelled.
- CardDetailModal.FormatDate: `new Date` and the locale date are not modelled. The function takes the elapsed milliseconds and returns `None` for the locale date. An unparsable date, for which every comparison with NaN is false, is not modelled.
- The card dialog's activity list, its loading flags and the remaining render-only state are not modelled. A reload after a note or an email appears only as the logged GET.
- Js.Upper: maps only the ASCII letters, while `toUpperCase` follows full Unicode case mapping.
- Js.ParseInt: is exact on unbounded integers. JavaScript numbers lose precision above 2^53.
- A string is a sequence of Unicode characters, while JavaScript counts UTF-16 code units. `length < 2`, `name[0]` and `n[0]` therefore differ only for characters outside the Basic Multilingual Plane.
- Seqs.SortBy: is a stable insertion sort. Its contract states that the result is sorted and a permutation of the input, but not that it is stable.
- KanbanBoard.Board.HandleDragEnd, KanbanBoard.Board.MoveCard, CardDetailModal.CardDialog.HandleSaveNote, CardDetailModal.CardDialog.HandleSendEmail, CardDetailModal.CardDialog.HandleAction, AddToWorkflowModal.AddDialog.SearchFires and AddToWorkflowModal.AddDialog.HandleAddToWorkflow: each runs as one uninterrupted step, with the outcomes of its awaited calls given up front. Other handlers that run at an `await` are not modelled. For example, a second drag while the first drag's calls are in flight changes the board in the program, and the first drag's rollback then overwrites it.
- The JSX rendering of every component is not modelled, and neither are `list-view.tsx`, `kanban-card.tsx`, `kanban-column.tsx` and the pages.
