# canvas-trello-sync, modelled in Dafny

canvas-trello-sync copies the assignments of Canvas courses onto a Trello board, one card
per assignment. A configuration lists mappings; each mapping pairs a course with a board label.
A run fetches the board once and looks up two things on it: the custom field named
`Canvas URL` and the list that receives new cards. It then walks the mappings in order. For
each mapping it asks the course's GraphQL endpoint for the assignment list and reconciles
every assignment against the board snapshot:

- its tracking key is its URL with the scheme set to `https`;
- the cards whose first `Canvas URL` item holds that key are the assignment's cards;
- each such card whose due time, completion flag, or generated description is out of date
  gets one update call;
- when no card matched, a card is created in the target list with the course's label, and
  then its `Canvas URL` field is set to the key.

Four counters (assignments, created, updated, up to date) make up the closing summary. The
first error ends the run, after each level wraps it in its own context.

The model is split into these modules:

- `Wrappers`: `Option`, `Result`, `Outcome`, and the error reports. `Error` models the
  `eyre` reports: a root message under layers of context, or a panic that no caller wraps.
  `Reply` models what one HTTP exchange yields.
- `Strings`: `join`, `{:?}` on strings, and `bool::to_string`.
- `Seqs`: `Iterator::find` and `filter`.
- `Time` and `Urls`: timestamps, and the part of the `url` crate the program uses.
- `Config`: the configuration records.
- `Trello`: the board records and `CustomFieldItem::as_str`, plus the requests the client
  builds (the update patch map and the create query) and how each call's reply becomes a
  result.
- `Canvas`: the assignment record, the interpretation of a GraphQL response, and
  `get_assignments`.
- `Reconcile`: the per-assignment decisions of `sync_assignment`, as functions over the
  board snapshot.
- `Sync`: the run as a class `Context`. The class keeps the counters and the log of calls
  made to the board service. Its methods follow `main`, `sync_mapping` and
  `sync_assignment` loop by loop. Each method is proved equal to a specification function
  over `Progress` (the counters and the calls made).
- `SyncProperties`: what the run promises, proved about those specification functions:
  - which calls are made for an assignment, in which order, and when the run stops;
  - that a card is created exactly when none matched;
  - that the summary accounts for the calls (two per created card, one per updated card).
- `Idempotence`: syncing an assignment again, over the board its own successful sync left
  behind, makes no call. This assumes the board service stores the fields each call carries.
  It is proved per assignment, not for a whole run (see below).

Several things the program does not define are inputs to the model:

- the board service's answers, by the number of the call and the call made;
- the course service's answers, by course id;
- three foreign functions: the HTML-to-Markdown converter, RFC 3339 formatting, and
  `Assignment::submitted`.

What the code does at points where one might expect otherwise:

- The label for a mapping is looked up once per assignment, not once per mapping. The lookup
  happens after the tracking key is formed. A missing label therefore fails on the first
  assignment, after the assignment counter was bumped. A mapping without assignments never
  looks it up.
- The update call sends the completion flag under `dueComplete`. The create call sends it
  under `due_complete`. Both keys are modelled as written (`Trello.CreateCardQueryKeys`).
- Only a failure to send a request is an error for the three board calls. An HTTP error
  status still counts as a response. `create_card` also fails when the body does not decode
  as a card.
- The description is compared only on cards whose description opens with the program's
  header. The header literal is the UTF-8 encoding of an emoji read back as Windows-1252,
  so that is what `Reconcile.Header` holds.
- A card whose description lacks the header is never updated because of its description.
  But every update sends the full patch. So when such a card's due time or completion flag
  is stale, its hand-written description is replaced with the generated one
  (`Reconcile.ForeignDescriptionReplaced`).
- The run reads the board once, before any mapping. Cards it creates are not matched later
  in the same run. Two assignments whose URLs differ only in the scheme share a tracking key
  (`Reconcile.SameKeyIffSameRest`). In one run, each of them finds no card and each creates
  one. A later run then matches both cards for each assignment. For this reason the
  idempotence lemmas speak of one assignment, not of a whole run.

## Model

| member | source | states |
|---|---|---|
| Seqs.Find | src/bin/canvas_trello_sync.rs:81-89 | the position found is the first whose element satisfies the predicate, or the length when none does |
| Seqs.Filter | src/bin/canvas_trello_sync.rs:206-217 | the kept elements are exactly those of the input satisfying the predicate, never more than the input |
| Seqs.FilterConcat | src/bin/canvas_trello_sync.rs:206-217 | filtering a concatenation is filtering each part in turn, so order is kept |
| Strings.Join | src/canvas.rs:67-72 | `join`: the parts in order with the separator between neighbours, the empty string for no parts and the part itself for one; its order property is `Strings.JoinConcat` |
| Strings.Debug | src/bin/canvas_trello_sync.rs:99 | `{:?}` on a string, as every error context that quotes a name uses it: the text in double quotes with quotes, backslashes and common control characters escaped |
| Strings.BoolString | src/bin/canvas_trello_sync.rs:249 | `bool::to_string`: `"true"` or `"false"` |
| Wrappers.WrapErr | src/bin/canvas_trello_sync.rs:156-160 | `wrap_err`: one layer of context around a report; a panic is not a report and passes through |
| Strings.JoinConcat | src/canvas.rs:67-72 | joining a concatenation of two non-empty lists puts exactly one separator between the two joined halves |
| Urls.SetScheme | src/bin/canvas_trello_sync.rs:180-181 | the scheme change is refused exactly when it moves between a special and a non-special scheme; otherwise only the scheme changes |
| Trello.AsStr | src/trello.rs:176-183 | an item yields text exactly when its value is a text value, and then that text |
| Trello.CollectPatch | src/trello.rs:68-72 | the map's keys are exactly the keys of the pairs, and each key maps to the value of one of its pairs |
| Trello.CollectPatchLastWins | src/trello.rs:68 | when a key does not reappear later, the map holds the value of its last pair |
| Trello.CreateCardQuery | src/trello.rs:86-93 | the six query pairs of `create_card`, in the source's order and with its keys; what they carry is `Trello.CreateCardQueryCarries` and `Trello.CreateCardQueryKeys` |
| Trello.CreateCardQueryCarries | src/trello.rs:86-93 | the create query carries list id, name, description, formatted due time, completion flag and comma-joined label ids, each under its own key |
| Trello.CreateCardQueryKeys | src/trello.rs:91-92 | the create query has no `dueComplete` key, and a single label id is sent unchanged |
| Trello.UpdateCardOutcome | src/trello.rs:73-79 | the update fails exactly when the request cannot be sent, with the context naming the card id |
| Trello.CreateCardOutcome | src/trello.rs:82-103 | the create yields a card exactly when the response decodes, and that card; a send failure names the card, a decode failure says the body did not parse |
| Trello.SetCustomFieldOutcome | src/trello.rs:106-122 | setting the field fails exactly when the request cannot be sent, with the context naming the card id |
| Canvas.Messages | src/canvas.rs:67-71 | one message per GraphQL error, in order |
| Canvas.InterpretResponse | src/canvas.rs:62-81 | data is returned exactly when there are no errors and data is present; any error gives the messages joined by `"; "`; no data gives its own message |
| Canvas.ErrorsWinOverData | src/canvas.rs:66-74 | with errors present the result is an error, and the same whatever data the response carries |
| Canvas.ErrorMessagesInOrder | src/canvas.rs:67-73 | the combined message lists the errors in the order received |
| Canvas.GetAssignments | src/canvas.rs:36-118 | the assignment list is returned exactly when the request is sent, the response parses, has no errors, has data, and the data decodes; GraphQL errors come back under the course's context |
| Reconcile.LookupId | src/bin/canvas_trello_sync.rs:81-101 | lookup fails exactly when no entity has the name, with the given report; otherwise it yields the id of the first entity so named |
| Reconcile.FirstNameWins | src/bin/canvas_trello_sync.rs:185-193 | among several entities sharing the name, the earliest one's id is used |
| Reconcile.FindCanvasUrlField | src/bin/canvas_trello_sync.rs:81-89 | fails exactly when no custom field is named `Canvas URL`, with that report; otherwise an id of a field so named (the first, by `Reconcile.LookupId`) |
| Reconcile.FindList | src/bin/canvas_trello_sync.rs:93-101 | fails exactly when no list has the configured name, with the report quoting it; otherwise an id of a list so named |
| Reconcile.FindLabel | src/bin/canvas_trello_sync.rs:185-193 | fails exactly when no label has the mapping's name, with the report quoting it; otherwise an id of a label so named |
| Reconcile.CanvasUrl | src/bin/canvas_trello_sync.rs:180-182 | a key exists exactly when the URL's scheme is special, and is then `https:` followed by the rest; otherwise the program panics with the `unwrap` message |
| Reconcile.SameKeyIffSameRest | src/bin/canvas_trello_sync.rs:180-181 | two convertible URLs share a key exactly when they agree after the scheme |
| Reconcile.RenderDescription | src/bin/canvas_trello_sync.rs:195-203 | the description always opens with the header; it is the header alone exactly when there is no description, and otherwise the header, the rule, then the converted text |
| Reconcile.TrackedUrl | src/bin/canvas_trello_sync.rs:210-215 | the text of the card's first item for the field, when it holds text; what decides it is `Reconcile.TrackedByFirstItem` |
| Reconcile.TrackedByFirstItem | src/bin/canvas_trello_sync.rs:210-215 | only the card's first item for the field decides: the card is tracked under a key exactly when that item is the text value of the key |
| Reconcile.UntrackedWithoutItem | src/bin/canvas_trello_sync.rs:211-214 | a card with no item for the field is tracked under no key |
| Reconcile.CardsWithUrl | src/bin/canvas_trello_sync.rs:205-217 | the matched cards are exactly the board's cards tracked under the key |
| Reconcile.MatchesInBoardOrder | src/bin/canvas_trello_sync.rs:206-217 | matching a concatenation is matching each part in turn; a single card matches exactly when it is tracked under the key |
| Reconcile.CardWithoutItemsNeverMatched | src/trello.rs:150-151 | a card decoded without custom-field items is never matched |
| Reconcile.Mismatches | src/bin/canvas_trello_sync.rs:221-224 | the three mismatch flags: due time, completion, and a changed description on a card this program wrote; characterised by `Reconcile.UpToDateIff` |
| Reconcile.NeedsUpdate | src/bin/canvas_trello_sync.rs:226 | a card is stale when any of the three flags is set; characterised by `Reconcile.UpToDateIff` |
| Reconcile.UpToDateIff | src/bin/canvas_trello_sync.rs:221-228 | a matched card is left alone exactly when due time and completion agree and its description is either unchanged or not one this program wrote |
| Reconcile.ForeignDescriptionReplaced | src/bin/canvas_trello_sync.rs:221-251 | a card without the header is stale exactly when its due time or completion is, and then the patch replaces its description with the generated one |
| Reconcile.UpdatePatch | src/bin/canvas_trello_sync.rs:247-251 | the three patch pairs, in the source's order; the collected map is `Reconcile.UpdatePatchIsFull` |
| Reconcile.UpdatePatchIsFull | src/bin/canvas_trello_sync.rs:247-251 | every update sets exactly the due time, the completion flag and the description |
| Reconcile.NewCardFields | src/bin/canvas_trello_sync.rs:264-270 | the new card's fields: the assignment's name and due time, the new description, the completion flag and the course's label alone; the query they give is `Reconcile.NewCardQuery` |
| Reconcile.NewCardQuery | src/bin/canvas_trello_sync.rs:264-273 | a new card is created in the target list with the assignment's name, the new description, its due time, its completion and the course's label alone |
| Sync.Context.constructor | src/bin/canvas_trello_sync.rs:103-117 | the context holds the snapshot and the two looked-up ids, with all counters at zero and no call made |
| Sync.UpdateExisting | src/bin/canvas_trello_sync.rs:220-257 | the loop over matched cards as a function of the progress; its properties are the `SyncProperties` lemmas on it |
| Sync.CreateNew | src/bin/canvas_trello_sync.rs:260-287 | the create branch as a function of the progress; see `SyncProperties.CreateThenTrack` and `SyncProperties.CreateAccounted` |
| Sync.SyncAssignmentSpec | src/bin/canvas_trello_sync.rs:173-290 | one assignment as a function of the progress; see `SyncProperties.AssignmentBranches` and `SyncProperties.CreateIffNoMatch` |
| Sync.SyncAssignmentsSpec | src/bin/canvas_trello_sync.rs:162-168 | the loop over a course's assignments; see `SyncProperties.AssignmentsInOrder` and `SyncProperties.AssignmentsAccounted` |
| Sync.SyncMappingSpec | src/bin/canvas_trello_sync.rs:154-171 | one mapping: fetch its assignments, then the loop; see `SyncProperties.MappingAccounted` |
| Sync.SyncMappingsSpec | src/bin/canvas_trello_sync.rs:119-124 | the loop over the mappings; see `SyncProperties.MappingsInOrder` |
| Sync.RunSpec | src/bin/canvas_trello_sync.rs:80-124 | the run from the fetched board on; see `SyncProperties.RunSummary` and `SyncProperties.RunNeedsFieldAndList` |
| Sync.Context.Send | src/bin/canvas_trello_sync.rs:252-255 | one call is appended to the calls made, and its reply is the service's answer for that call |
| Sync.Context.UpdateMatched | src/bin/canvas_trello_sync.rs:219-257 | the loop over matched cards ends in the state and outcome `UpdateExisting` gives |
| Sync.Context.CreateTracked | src/bin/canvas_trello_sync.rs:259-287 | the create branch ends in the state and outcome `CreateNew` gives |
| Sync.Context.SyncAssignment | src/bin/canvas_trello_sync.rs:173-290 | syncing one assignment ends in the state and outcome `SyncAssignmentSpec` gives |
| Sync.Context.SyncMapping | src/bin/canvas_trello_sync.rs:153-171 | syncing one mapping ends in the state and outcome `SyncMappingSpec` gives |
| Sync.Context.SyncMappings | src/bin/canvas_trello_sync.rs:119-124 | the loop over the mappings ends in the state and outcome `SyncMappingsSpec` gives |
| Sync.Run | src/bin/canvas_trello_sync.rs:80-135 | the run's counters, calls and outcome are those `RunSpec` gives |
| SyncProperties.PlannedUpdates | src/bin/canvas_trello_sync.rs:220-257 | the planned calls are update calls, at most one per matched card |
| SyncProperties.UpdatesFollowPlan | src/bin/canvas_trello_sync.rs:220-257 | the loop sends a prefix of the planned updates in board order (it stops at the first update that cannot be sent, by `SyncProperties.FailsOnSendFailure`); when it completes, it sent the whole plan, and it bumped updated once per stale card and up to date once per other card |
| SyncProperties.FailsOnSendFailure | src/bin/canvas_trello_sync.rs:252-255 | the update loop fails only on an update that could not be sent, and that update is the last call it made |
| SyncProperties.DeliveredBeforeStop | src/bin/canvas_trello_sync.rs:252-256 | every update sent before the loop stopped got a response: all of them when it completed, all but the last when it failed |
| SyncProperties.DeliveredPlanPasses | src/bin/canvas_trello_sync.rs:220-257 | when every planned update gets a response, the loop completes |
| SyncProperties.NoCallBeforeLookups | src/bin/canvas_trello_sync.rs:179-193 | a URL that cannot be converted, or a missing label, ends the assignment with an error before any call or counter change |
| SyncProperties.AssignmentBranches | src/bin/canvas_trello_sync.rs:205-287 | once key and label are found, the assignment is the update loop when any card matched and the create branch when none did |
| SyncProperties.CreateIffNoMatch | src/bin/canvas_trello_sync.rs:259-287 | a create call is among the assignment's calls exactly when no card matched its key |
| SyncProperties.CreateThenTrack | src/bin/canvas_trello_sync.rs:263-286 | with no match, the first call creates the card with the assignment's fields; success means the card came back, its tracking field was set to the key, two calls were made and only created grew; both replies arriving means success |
| SyncProperties.UpdatesAccounted | src/bin/canvas_trello_sync.rs:228-256 | the update loop leaves the assignment and created counters alone, and when it completes one call per update and one decision per card are accounted for |
| SyncProperties.UpdateCountersGrow | src/bin/canvas_trello_sync.rs:231-256 | the update loop never lowers the updated and up-to-date counters, even when it fails |
| SyncProperties.CreateAccounted | src/bin/canvas_trello_sync.rs:271-286 | the create branch bumps created exactly when it made its two calls, and touches no other counter |
| SyncProperties.AssignmentAccounted | src/bin/canvas_trello_sync.rs:173-290 | syncing one assignment never touches the assignment counter or lowers another; on success it took at least one decision and its calls are accounted for |
| SyncProperties.AssignmentsAccounted | src/bin/canvas_trello_sync.rs:162-168 | each assignment is counted before it is synced: a completed pass counts them all, a failed pass counts at least one and at most all |
| SyncProperties.AssignmentsInOrder | src/bin/canvas_trello_sync.rs:163-168 | assignments are synced in order and the first error stops the loop |
| SyncProperties.MappingAccounted | src/bin/canvas_trello_sync.rs:154-170 | a mapping only appends calls, and on success its counters account for them |
| SyncProperties.MappingsAccounted | src/bin/canvas_trello_sync.rs:120-124 | a completed pass over the mappings keeps the counters accounted for |
| SyncProperties.MappingsInOrder | src/bin/canvas_trello_sync.rs:120-124 | mappings are synced in order and an error in one means no later mapping is touched |
| SyncProperties.RunSummary | src/bin/canvas_trello_sync.rs:126-133 | after a run without error, the calls number twice the created cards plus the updated ones, and created, updated and up to date together are at least the assignments counted |
| SyncProperties.RunNeedsFieldAndList | src/bin/canvas_trello_sync.rs:80-101 | a board without the tracking field or the target list ends the run with an error before any counter or call |
| Idempotence.StampedIsFresh | src/bin/canvas_trello_sync.rs:221-251 | a card holding what an update sets is up to date |
| Idempotence.MatchesAfterRefresh | src/bin/canvas_trello_sync.rs:206-217 | updating the matched cards leaves the same cards matched, in the same order |
| Idempotence.FreshCardsSendNothing | src/bin/canvas_trello_sync.rs:228-233 | when every matched card is up to date, the loop sends nothing and counts each as up to date |
| Idempotence.AllFreshSendsNothing | src/bin/canvas_trello_sync.rs:205-260 | an assignment whose matched cards are all up to date is synced with no call, counting each matched card up to date and creating nothing |
| Idempotence.RefreshedAreFresh | src/bin/canvas_trello_sync.rs:220-256 | once updated, every matched card is up to date |
| Idempotence.StoredIsTrackedAndFresh | src/bin/canvas_trello_sync.rs:264-284 | the card created and tagged for an assignment is tracked under its key and up to date |
| Idempotence.SecondRunAfterUpdates | src/bin/canvas_trello_sync.rs:205-257 | after the matched cards were updated, syncing the assignment again sends no call and counts each matched card up to date |
| Idempotence.OnlyMatchAfterCreate | src/bin/canvas_trello_sync.rs:206-217 | a tracked card added to a board on which nothing matched is the only match |
| Idempotence.SecondRunWithTrackedCard | src/bin/canvas_trello_sync.rs:205-287 | a fresh card tracked under the key, added where nothing matched, makes the next sync send no call and count it up to date |
| Idempotence.SecondRunAfterCreate | src/bin/canvas_trello_sync.rs:259-287 | after the assignment's card was created and tagged, syncing it again creates no second card, sends no call, and counts that card up to date |

## Left out

- Every HTTP exchange, async execution, the authorisation headers, and the request URLs.
  Each call is the `Call` it carries, and its reply comes from an input function.
- Fetching the board (`get_board_contents`) and its errors: the model starts from the fetched
  board.
- Loading the configuration, the command-line arguments, and the logging. This includes the
  per-error log lines in the GraphQL response handling and the summary log line; the summary's
  counters are returned instead.
- The GraphQL query text, its variables, and the JSON path to the assignment nodes. The
  response's data is the decode result of the assignment list it holds.
- JSON decoding of the board records, and the untagged decoding of custom-field values. A
  non-text value is kept as an opaque payload.
- HTML-to-Markdown conversion, RFC 3339 formatting, and `Assignment::submitted` are inputs of
  the model. The last is not defined in any of the files modelled.
- Urls.SetScheme: only the special/non-special rule of the URL standard is modelled. The refusals
  for `file` URLs with an empty host or with credentials, the dropping of a port that becomes the
  default, and URL parsing are not.
- Strings.Debug: escapes only quotes, backslashes, newline, carriage return, tab and NUL, not the
  other control or non-printable characters that Rust's `{:?}` escapes.
- The counters are atomic in the source. The run is sequential, so they are plain fields here.
- A panic unwinds the whole program in the source. In the model it is an error value that no
  context wraps and that ends the run like any other error.
- Timestamps are whole instants (`int`). chrono's representation and sub-second precision are not
  modelled.
