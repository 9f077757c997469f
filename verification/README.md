# The client's portfolio consistency protocol, in Dafny

The web client keeps one list of portfolios and one selection, and several pages load data for
that selection. Everything is asynchronous: list refreshes overlap, answers come back in any
order or not at all, users switch, create and delete portfolios meanwhile. This project models
that code and proves what it guarantees over every schedule, and where it does not hold.

How the model is built:

- A piece of code between two `await`s is one atomic step; an event handler together with the
  effects it triggers is one step. Each such piece is a function on the component's state
  (`Store`, `Core`, `Fields`, …). The components whose code updates fields are classes
  (`PortfolioProvider`, `TabResource`, `AddInstrumentModal`, `DashboardLoader`, `Gate`) whose
  methods perform the same pieces by assignment. Each class has a driver, `Drive`, which puts
  one object through any run and is proved to end in the state `Run` computes, so the theorems
  about runs are about the objects.
- Updates of the selection are queued until the next render, because one of them, the updater
  of an applied list, writes localStorage when it runs: after the handlers that awaited the
  refresh. `Rendered` is an event of its own; `Showing` is what the next render will show.
- A protocol module adds the environment: requests in flight, timers, abort flags, and for the
  store the server's whole history of list snapshots. A list request is answered with the
  snapshot of any moment between its issue and its answer, or fails. `Next` is total (an event
  that is not enabled changes nothing), so a statement about every sequence of events is a
  statement about every run. `Inv(w)` as a hypothesis means "in every reachable state": see
  `StoreProtocol.ReachableInv`.
- Assumptions about the environment: a render runs every update that waits, in order (React may
  render urgent ones first, but ends in the same selection and storage); localStorage is
  writable and not changed by another tab; the server never reuses a portfolio id and never lists one twice; a request rejects with
  `AbortError` only after its signal was aborted; a timer may fire late but not early.

| file | content |
|---|---|
| `JsText.dfy`, `JsNumber.dfy` | `trim`, `includes`, `Number(text)`, `String(id)` and their round trip |
| `PortfolioContext.dfy` | the provider's steps and class; one settlement; confluence |
| `StoreProtocol.dfy`, `StoreTheorems.dfy` | the store against network and server: invariant, durability, deletion, refinement |
| `TabResource.dfy`, `PageKeys.dfy`, `MyPortfolioPage.dfy` | keyed resources, their string keys, the portfolio page with routing and decision capture |
| `CreateJourney.dfy` | store and page together: a created portfolio is shown |
| `AddInstrumentModal.dfy`, `DashboardPage.dfy`, `HubValuations.dfy` | the other loaders |
| `ClientErrorGate.dfy`, `ClientErrors.dfy` | the error reporter's gate; the error texts shown to users |

Properties that turned out false of the code, each with an input and the exact condition:

- Storage does not always mirror the selection. When a selection is made behind a list answer
  that waits for its render, the updater runs last and stores what it picks. The list page's
  create does this: the new portfolio is selected, the old one stored
  (`HubCreateStoresThePick`; exact condition over all runs: `StorageMirrorsSelectionIff`; every
  schedule in which renders come first is safe: `StorageMirrorsWhenRendersComeFirst`).
- The portfolio list page's create can strand the new portfolio, selected but not listed: not
  only when its follow-up request fails, also when that succeeds but is superseded
  (`HubCreateStrandedBySecondRefresh`; condition: `HubCreateListedIffAnswerApplied`). The
  provider's own create cannot (`CreatedStaysListed`).
- Two overlapping deletes can end with a portfolio selected that is deleted and no longer listed
  (`OverlappingDeletesReselectDeleted`). A delete handler ends on a deleted portfolio exactly when
  the server stopped listing the head of its answer since (`DeleteHandlerEndsDeletedIff`), and on
  an unlisted one exactly as `DeleteHandlerEndsUnlistedIff` says. While the other delete's refresh
  is still to come this heals, at the first answer applied to a request issued after the deletion
  (`DeletedSelectionHeals`); when that answer was applied already, as in the run above, it lasts.
- A decision asked for before a mutation and answered after it is offered for capture
  (`LateCallIsOffered`; condition: `OfferPredatesMutationIff`; a check of the data version in
  the callback is exactly what is missing: `VersionCheckIsExact`).
- The dashboard does not clear a manual retry's answer when the selection goes
  (`RetryOutlivesSelection`; condition: `DroppedSelectionShowsOtherIff`). With an empty list the
  onboarding page hides it, and the provider reports nothing selected beside a list that is not
  empty only after somebody emptied the selection (`ScreenIsForSelection`,
  `UnselectedMeansEmptyList`). The one caller that does is a delete handler that was handed no
  items, which leaves for another page in the same step; so users do not see it today.
- The comment on `extractBackendErrorMessage` promises it never returns `[object Object]`. It does
  exactly when the text it reads already contains it, or a validation error is for a field named
  `__proto__`, because the label table is an ordinary object (`ProtoFieldBecomesObjectText`;
  condition on any JSON payload: `ExtractShowsObjectTextIff`). The model follows the code;
  `errorMessage` itself is safe for every `ApiError`.

## Model

| member | source | states |
|---|---|---|
| StoreProtocol.Drive | frontend/src/portfolio/PortfolioContext.tsx:53-122 | the provider object, driven through any run by the methods for each of its pieces, ends in the state the run computes |
| PortfolioContext.PortfolioProvider.Rerender | frontend/src/portfolio/PortfolioContext.tsx:69-82 | a render runs the waiting selection updates in order, storage writes included |
| PortfolioContext.StorageRoundTrip | frontend/src/portfolio/PortfolioContext.tsx:32-50 | what `writeStoredId` writes, `readStoredId` reads back |
| StoreTheorems.EmptyCellIsNoId | frontend/src/portfolio/PortfolioContext.tsx:35-37 | an empty cell stores no id, although `Number("")` is 0 |
| PortfolioContext.ReconciliationSelectsListed | frontend/src/portfolio/PortfolioContext.tsx:66-82 | after an applied list the selection is null iff the list is empty, otherwise listed, and stays exactly when still listed |
| PortfolioContext.UpdaterTwice | frontend/src/portfolio/PortfolioContext.tsx:69-82 | StrictMode's second run of the updater from the same `prev` chooses and stores the same |
| PortfolioContext.RenderedStorageAgreesIff | frontend/src/portfolio/PortfolioContext.tsx:69-101 | after a render that had updates to run, storage reads back as the selection iff no selection waited behind a list answer that picks another id |
| PortfolioContext.NewestOutcomeDecides | frontend/src/portfolio/PortfolioContext.tsx:61-90 | any sequence of settlements acts as the newest request's outcome alone |
| PortfolioContext.SettlementsCommute | frontend/src/portfolio/PortfolioContext.tsx:61-90 | any two orders of the same deliveries and failures end in the same list, selection, storage, loading and error |
| StoreProtocol.ReachableInv | frontend/src/portfolio/PortfolioContext.tsx:52-122 | every reachable state satisfies the store invariant, whatever the seed, the server and the schedule |
| StoreProtocol.NextInv | frontend/src/portfolio/PortfolioContext.tsx:52-122 | every step of network, server, user and handlers keeps the invariant |
| StoreTheorems.LoadingAndErrorAccurate | frontend/src/portfolio/PortfolioContext.tsx:61-90 | in every reachable state loading iff no refresh was issued yet or the newest is in flight; error is exactly the newest request's failure |
| StoreTheorems.ListAtRestIsSnapshot | frontend/src/portfolio/PortfolioContext.tsx:60-92 | in every reachable state, once mounted, with neither loading nor an error, the newest request is the one applied last and the list is exactly the snapshot it was answered with |
| StoreTheorems.StorageMirrorsSelectionIff | frontend/src/portfolio/PortfolioContext.tsx:32-101 | over all runs, with nothing left to render, the parsed stored id equals the selection iff the last batch of updates held no such overruled selection |
| StoreTheorems.StorageMirrorsWhenRendersComeFirst | frontend/src/portfolio/PortfolioContext.tsx:32-101 | over every run in which no selection is made while a list answer waits for its render, storage reads back as the selection whenever nothing is left to render |
| StoreTheorems.HubCreateStoresThePick | frontend/src/pages/PortfolioPage.tsx:248-249 | after the list page's create the new id is selected and storage holds what the updater picked; they agree iff it picked the new id |
| StoreTheorems.AppliedAnswersMoveForward | frontend/src/portfolio/PortfolioContext.tsx:61-68 | applied refreshes strictly increase in number and never go back in server time; no card is listed twice |
| StoreTheorems.AppliedIffNothingIssuedSince | frontend/src/portfolio/PortfolioContext.tsx:61-67 | an answer is applied exactly when no refresh and no create continuation came after its request; otherwise the store is unchanged |
| StoreTheorems.CreateShowsSummary | frontend/src/portfolio/PortfolioContext.tsx:103-122 | a returned create puts a card with the summary's fields, lifecycle DRAFT by default, before the list unless its id is listed, selects and stores it, and starts a refresh two numbers up |
| StoreTheorems.CreatedStaysListed | frontend/src/portfolio/PortfolioContext.tsx:103-122 | once the POST returned, the portfolio is listed in every later state, for every interleaving, while the server keeps it |
| StoreTheorems.HubCreateListedIffAnswerApplied | frontend/src/pages/PortfolioPage.tsx:239-258 | over every run after the list page's POST, while the server keeps the portfolio, it is listed iff it was, an answer has been applied since, or a create added it; the handler ends with it selected |
| StoreTheorems.HubCreateStrandedBySecondRefresh | frontend/src/pages/PortfolioPage.tsx:248-249 | a second refresh is enough: the follow-up request succeeds and the new portfolio ends selected but unlisted |
| StoreTheorems.DeletedStaysUnselected | frontend/src/pages/PortfolioPage.tsx:271-289 | a deleted selected portfolio is not selected when the handler ends nor later, whether its refresh was applied, superseded or failed, unless explicitly chosen |
| StoreTheorems.DeletingAnotherChangesNothing | frontend/src/pages/PortfolioPage.tsx:280-285 | over every run: the handler of a portfolio that was not selected at the click changes neither selection nor storage when it runs on |
| StoreTheorems.DeleteHandlerEndsUnlistedIff | frontend/src/pages/PortfolioPage.tsx:279-285 | over every run: the handler of a deleted selected portfolio ends on the head of its own answer; that is unlisted iff it is neither in the answer applied last nor created since, which takes a superseded refresh |
| StoreTheorems.DeleteHandlerEndsDeletedIff | frontend/src/pages/PortfolioPage.tsx:279-285 | over every run: such a handler ends on a deleted portfolio iff the server stopped listing the head of its answer since |
| StoreTheorems.DeletedSelectionHeals | frontend/src/portfolio/PortfolioContext.tsx:60-83 | over every run: once an answer has been applied to a request issued after a deletion, the deleted portfolio is not shown as selected, whatever was selected before, unless chosen again |
| StoreTheorems.OverlappingDeletesReselectDeleted | frontend/src/pages/PortfolioPage.tsx:279-285 | a run with two overlapping deletes that ends with a deleted, unlisted portfolio selected |
| StoreTheorems.UnselectedMeansEmptyList | frontend/src/portfolio/PortfolioContext.tsx:66-101 | over every run in which nobody empties the selection, nothing is shown as selected only when nothing is listed |
| StoreTheorems.RunRefines | frontend/src/portfolio/PortfolioContext.tsx:60-122 | every run refines the atomic specification: replace by a snapshot no older than the last one used and reconcile, prepend created, choose; all else stutters |
| StoreTheorems.StepRefines | frontend/src/portfolio/PortfolioContext.tsx:60-122 | each step is the one named action of the specification, and that action is allowed |
| StoreTheorems.StoredIsSelected | frontend/src/portfolio/PortfolioContext.tsx:69-71 | `prev ?? readStoredId()` is `prev` at every applied answer, unless a selection was overruled in storage |
| CreateJourney.CreatedPortfolioIsShown | frontend/src/portfolio/PortfolioSwitcher.tsx:88-97 | the page opened after the switcher's create works on the new portfolio in every later state |
| CreateJourney.HubCreatedIsShownIffAnswerApplied | frontend/src/pages/PortfolioPage.tsx:239-252 | after the list page's create it does so at any later time iff the portfolio was listed, an answer has been applied since, or a create added it |
| TabResource.Drive | frontend/src/pages/MyPortfolioPage.tsx:88-116 | the hook object, driven through any run, ends in the state the run computes |
| TabResource.LatestKeyWins | frontend/src/pages/MyPortfolioPage.tsx:83-117 | over all runs: data is shown iff the newest load was answered, and is its own, for the current key; an error iff it failed, with that failure's text; while mounted, loading iff it is in flight, and an active hook shows exactly one of the three, an inactive none; superseded loads are aborted |
| PageKeys.KeysInjective | frontend/src/pages/MyPortfolioPage.tsx:495-537 | a resource's key string determines its portfolio, version and, for the summary, role |
| MyPortfolioPage.RouteNames | frontend/src/pages/MyPortfolioPage.tsx:388-392 | a non-empty segment names the positive integer it reads as, if any |
| MyPortfolioPage.ShownIdIff | frontend/src/pages/MyPortfolioPage.tsx:393-405 | the page works on the listed portfolio its route names, or without a segment, once the list is ready, on the selected one if listed |
| MyPortfolioPage.RoutingStep | frontend/src/pages/MyPortfolioPage.tsx:407-418 | after every event: a segment stays, and a listed portfolio it names becomes the selection; without one, once the list is ready, the page navigates to a segment that reads back as the selection |
| MyPortfolioPage.RouteIsSelection | frontend/src/pages/MyPortfolioPage.tsx:407-418 | in every settled state a route naming a listed portfolio has it selected, and a selection beside a ready list has a route |
| MyPortfolioPage.InputsTakeEffect | frontend/src/pages/MyPortfolioPage.tsx:375-392 | an opened route is read and stays; a reported list is the page's |
| MyPortfolioPage.RoutingEffectsExclusive | frontend/src/pages/MyPortfolioPage.tsx:407-418 | the two routing effects are never both enabled |
| MyPortfolioPage.RoutingSettlesAtOnce | frontend/src/pages/MyPortfolioPage.tsx:388-418 | one firing settles routing: the navigated segment reads back as the selection |
| MyPortfolioPage.RoutingKeepsShownPortfolio | frontend/src/pages/MyPortfolioPage.tsx:388-418 | routing never changes the portfolio shown, ids being positive |
| MyPortfolioPage.ShownIsListed | frontend/src/pages/MyPortfolioPage.tsx:393-410 | the shown portfolio and whatever the route effect selects are in the loaded list |
| MyPortfolioPage.RequestsNameListedPortfolios | frontend/src/pages/MyPortfolioPage.tsx:495-531 | every request a commit issues names a portfolio in the list at that moment |
| MyPortfolioPage.CommitSettles | frontend/src/pages/MyPortfolioPage.tsx:93-114 | after every commit each hook is mounted under its current key and activity, and routing is settled |
| MyPortfolioPage.OpenTabIsLoaded | frontend/src/pages/MyPortfolioPage.tsx:495-537 | in every settled state each resource wanted by tab and portfolio shows exactly one of spinner, data and error, any other nothing |
| MyPortfolioPage.MutationReloads | frontend/src/pages/MyPortfolioPage.tsx:464-537 | a reported mutation raises the version by one, and every wanted resource is back to its spinner |
| MyPortfolioPage.RoleChangeReloads | frontend/src/pages/MyPortfolioPage.tsx:495-499 | a change of role takes effect and reloads a wanted summary |
| MyPortfolioPage.PickedTabLoads | frontend/src/pages/MyPortfolioPage.tsx:487-537 | a picked tab is open, and what it newly wants starts loading |
| MyPortfolioPage.ShownDataIsFresh | frontend/src/pages/MyPortfolioPage.tsx:464-537 | in every settled state each resource's data answers a request for the current portfolio, role and version, issued after the last reported mutation |
| MyPortfolioPage.OfferIsLastCall | frontend/src/pages/MyPortfolioPage.tsx:443-462 | in every reachable state what is offered is decided by the last call since the snapshot was dropped: offered iff it has a fingerprint and is for the shown portfolio with the tab open; fingerprint and cash are both that call's, the fingerprint trimmed and not blank, the cash its number if positive and else null |
| MyPortfolioPage.ChangeDropsCapture | frontend/src/pages/MyPortfolioPage.tsx:445-453 | a change of portfolio or version, or leaving the tab, drops the snapshot |
| MyPortfolioPage.CaptureStays | frontend/src/pages/MyPortfolioPage.tsx:445-453 | and nothing else does: while portfolio, version and tab stay, the snapshot stays until the next call |
| MyPortfolioPage.OfferPredatesMutationIff | frontend/src/pages/MyPortfolioPage.tsx:795-818 | in every reachable state an offer was asked for before the last mutation iff its call carries an older data version than the page |
| MyPortfolioPage.LateCallIsOffered | frontend/src/pages/MyPortfolioPage.tsx:795-818 | a calculation asked for, overtaken by a mutation, then answered is offered |
| MyPortfolioPage.VersionCheckIsExact | frontend/src/pages/MyPortfolioPage.tsx:795-818 | with a check of the data version in the callback no offer predates a mutation in any run, and it drops exactly the calls asked for before one |
| AddInstrumentModal.Drive | frontend/src/pages/MyPortfolioPage.tsx:150-262 | the dialog object, driven through any run of typing, picks, timers, searches and submits, ends in the state the run computes |
| AddInstrumentModal.SubmitSendsWhatTheQueryNames | frontend/src/pages/MyPortfolioPage.tsx:139-262 | in every settled state a pick is named by the query with no hits beside it; hits were only painted for the trimmed query; only named instruments were sent, in amounts above zero; once the debounce has caught up, the query's search is under way or its answer listed |
| AddInstrumentModal.TypingBecomesQuery | frontend/src/pages/MyPortfolioPage.tsx:198-211 | typed text becomes the query and is due for the debounce; a pick, its hits and the debounced term are dropped |
| AddInstrumentModal.DebounceCatchesUp | frontend/src/pages/MyPortfolioPage.tsx:162-165 | when the timer fires the debounced term is the trimmed query |
| AddInstrumentModal.AnswerIsListed | frontend/src/pages/MyPortfolioPage.tsx:180-192 | a live search's items are listed, an aborted one's change nothing |
| AddInstrumentModal.PickIsSelected | frontend/src/pages/MyPortfolioPage.tsx:213-219 | a listed hit that is picked is selected and named by the query |
| AddInstrumentModal.SubmitSendsIff | frontend/src/pages/MyPortfolioPage.tsx:221-239 | a click sends the pick and the number iff there is a pick and the units read as a number above zero; else nothing is sent and the error says what is missing |
| AddInstrumentModal.SubmitEnds | frontend/src/pages/MyPortfolioPage.tsx:247-261 | a success closes and empties the dialog, a failure keeps it open with its error |
| AddInstrumentModal.NoOldHitsBeforeDebounce | frontend/src/pages/MyPortfolioPage.tsx:198-211 | after typing over a pick no hits are listed, whatever answers arrive, until the debounce fires |
| AddInstrumentModal.NothingFoundIsAnswered | frontend/src/pages/MyPortfolioPage.tsx:181-192 | "nothing found", with the debounce caught up, is the empty answer for the visible query |
| DashboardPage.Drive | frontend/src/pages/DashboardPage.tsx:93-193 | the loader object, driven through any run, ends in the state the run computes |
| DashboardPage.CockpitIsForSelection | frontend/src/pages/DashboardPage.tsx:106-193 | with the list ready and a portfolio selected, the page shows exactly one of spinner, data and error: the spinner iff the newest load can still arrive, the error iff it failed, with its text, else that load's data, made for the selected portfolio, retries included |
| DashboardPage.ReloadingListKeepsPage | frontend/src/pages/DashboardPage.tsx:182-193 | while the list reloads the page keeps what it shows, and only the effect's load is aborted |
| DashboardPage.DroppedSelectionShowsOtherIff | frontend/src/pages/DashboardPage.tsx:182-287 | after the selection is dropped, over every run in which the provider goes on reporting nothing selected beside a ready list, empty or not: the page holds another portfolio's cockpit iff the newest load, asked for a portfolio and so a retry's, has been answered since; on screen iff the list is not empty |
| DashboardPage.DeselectedScreen | frontend/src/pages/DashboardPage.tsx:244-287 | with nothing selected beside a list that is not empty: a spinner while a retry made since is under way, else the cockpit if there is one, else the failure page with its retry button |
| DashboardPage.RetryOutlivesSelection | frontend/src/pages/DashboardPage.tsx:244-287 | a run from the failure page, where the retry button is, that ends so; with an empty list it ends on the onboarding page |
| DashboardPage.ScreenIsForSelection | frontend/src/pages/DashboardPage.tsx:244-287 | with a provider that reports nothing selected only with an empty list, every cockpit on screen is the selected portfolio's once the list is ready |
| HubValuations.CardsWhileLoading | frontend/src/pages/PortfolioPage.tsx:204-210 | exactly the listed cards; valued ones are kept, all others load |
| HubValuations.CardsFromAnswer | frontend/src/pages/PortfolioPage.tsx:215-222 | each card gets its own portfolio's last item, or says there is no data |
| HubValuations.CardsTruthful | frontend/src/pages/PortfolioPage.tsx:196-237 | over every run with superseded, failed and aborted batches: every listed portfolio has a card; once the newest batch has settled it tells its outcome, the last own item, that there is none, or the failure; a valued card is always its own and of the answer shown last; a card loads only while the newest batch is under way |
| HubValuations.NewListKeepsValued | frontend/src/pages/PortfolioPage.tsx:204-210 | a new list has exactly its own cards; valued ones stay as they are, all others load |
| HubValuations.StaleBatchesIgnored | frontend/src/pages/PortfolioPage.tsx:213-226 | a superseded batch changes no card, nor does an aborted one's failure |
| HubValuations.ValuedStays | frontend/src/pages/PortfolioPage.tsx:196-237 | a valued card stays through any list changes and late answers until a newest batch settles |
| ClientErrorGate.Drive | frontend/src/api/system.ts:126-159 | the gate object, driven through any run, sends exactly the reports the run counts and sets exactly its timers |
| ClientErrorGate.ReportRateBounded | frontend/src/api/system.ts:126-159 | one report in flight, starts 2000 ms apart and 2000 ms after the settlement before, at most W / 2000 + 1 starts in any window of W ms |
| ClientErrorGate.ReportedIffIdle | frontend/src/api/system.ts:137-140 | in every reachable state an error is reported iff no report is in flight and no timer pending |
| ClientErrorGate.GateReopens | frontend/src/api/system.ts:152-158 | the gate never sticks: a closed idle gate reopens within 2000 ms once its timer fires |
| ClientErrors.ApiErrorShows | frontend/src/api/client.ts:156-169 | what is shown for an API error that mentions nothing retired: the extracted text, else its own message, else the status line |
| ClientErrors.OtherErrorShows | frontend/src/api/client.ts:170-170 | other errors show their message unless it mentions something retired; other values a fixed text |
| ClientErrors.RetiredNamesAreMentioned | frontend/src/api/client.ts:128-149 | each of the six retired names is recognised in any case and inside any text |
| ClientErrors.ShownTextNeverMentionsRetired | frontend/src/api/client.ts:128-171 | for every error value the text shown matches no retired pattern |
| ClientErrors.RetiredAnywhereIsReplaced | frontend/src/api/client.ts:137-160 | an API error mentioning a retired endpoint in its message, or in any string or key at any depth of its details, shows the reload text |
| ClientErrors.ApiErrorNeverShowsObjectText | frontend/src/api/client.ts:156-169 | for every API error the text shown does not contain "[object Object]" |
| ClientErrors.PlainErrorShowsObjectTextIff | frontend/src/api/client.ts:170-170 | for other errors it does exactly when the message does and is not replaced |
| ClientErrors.ExtractNeverEmpty | frontend/src/api/client.ts:50-86 | on every JSON payload and status the extracted text is not empty |
| ClientErrors.TextIsExtracted | frontend/src/api/client.ts:50-68 | a text payload, or an object whose `detail` is a text, gives that text trimmed, or the status line if blank |
| ClientErrors.ObjectIsRead | frontend/src/api/client.ts:62-83 | an object, as payload without `detail` or as `detail`, gives its `message`, else its `code`, else the status line |
| ClientErrors.NothingIsRead | frontend/src/api/client.ts:50-86 | anything else, and an array without a message, gives the status line |
| ClientErrors.SingleValidationError | frontend/src/api/client.ts:16-44 | a validation error reads as what its field is called and its message: the Russian name, what the label table inherits, or the field's own name; one for the body as its message alone |
| ClientErrors.EveryValidationMessageIsShown | frontend/src/api/client.ts:37-76 | each validation message of an array, be it the payload or its `detail`, appears in the text |
| ClientErrors.ValidationErrorsInOrder | frontend/src/api/client.ts:70-75 | validation errors come in the order of the array, separated by "; " |
| ClientErrors.ExtractShowsObjectTextIff | frontend/src/api/client.ts:46-86 | on any JSON payload the extracted text contains "[object Object]" iff the part it reads does, or a validation message is for a field named `__proto__` |
| ClientErrors.ProtoFieldBecomesObjectText | frontend/src/api/client.ts:30-44 | a field named `__proto__` is labelled "[object Object]" |
| JsNumber.RoundTrip | frontend/src/portfolio/PortfolioContext.tsx:36-46 | `Number(String(id))` is `id`, for every safe integer |
| JsNumber.ReadsProper | frontend/src/portfolio/PortfolioContext.tsx:32-41 | whatever text storage holds, the number read from it is in normal form |
| JsNumber.NumTextReads | frontend/src/pages/MyPortfolioPage.tsx:388-417 | what `String` writes for any number, integer, decimal or scientific, `Number` reads back |

## Left out

- Rendering, formatting, help texts, navigation labels, and the URL's `tab` and `focus` parameters: no state worth proving; a tab change is one event.
- MyPortfolioPage: the page around its hooks (routing, role, version, decision snapshot) is modelled on values, not as a class; a commit is the composition of its effects, so the order of effects inside one commit is fixed to the order of the source.
- The dialog's units, price, cost and lot fields: only whether a submit is sent and for which instrument.
- Delete and create handlers of the pages are modelled on values as tasks that wait for one refresh and then run on, so their local variables and form state are not captured. The flag of a delete task is the one its handler read at the click; the portfolio page's own delete (frontend/src/pages/MyPortfolioPage.tsx:581-595) always reselects, so its flag is true.
- `onRenamePortfolio`: data of before the rename stays visible until its list refresh settles and the version rises; freshness is stated from that reported mutation on.
- Cards of the portfolio list page after the list became empty: their set is not exact then, and none of them is shown.
- The seven requests inside one dashboard load count as one answer; the relations preview and the asset-class hints are not modelled.
- JsNumber.NumTextReads: numbers are exact decimals; rounding to binary64, overflow to infinity and ids beyond the safe integers are not modelled.
- Strings are sequences of Unicode scalar values, so lone surrogates are not modelled; JSON numbers are kept as rendered text, and where a result names a field of a JSON object its keys are distinct, as `JSON.parse` leaves them.
- localStorage failures and other tabs, `fetch`, `AbortController`, timers and React's scheduler are represented only by the assumptions above.
- The typed API wrappers, `apiRequest`, `queryString`, and the backend: thin calls, or code that delegates to modules outside this model.
- `DailyDecisionPanel` and `DecisionMemoryPanel` are arbitrary callers here: a calculation may be asked for at any time and reported at any later time, any number of times.
