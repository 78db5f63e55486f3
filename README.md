# MattermostMeetingStatus: status sync and login, modelled in Dafny

MattermostMeetingStatus is a macOS menu app. It checks one calendar on a timer. While an event is
running it sets the user's Mattermost presence to `dnd`; otherwise it sets it to `online`. It also
has a login sheet that trades a user name and password for a user id and an auth token.

This project models the logic in `ContentView.swift` and `LoginView.swift`:

- **Server URL normalisation** (`server_url.dfy`, module `Endpoints`). `getServerUrl` is a method
  that adjusts a local string step by step. It is proved equal to `ServerUrl`, a function that
  states the shape of the result. The status endpoint and the login endpoint are built on that base.
- **Current-event selection** (`calendar_events.dfy`, module `CalendarEvents`). This is the
  filter/sort/first chain of `getCurrentEvent`. It is proved against a reference definition of
  "the earliest timed event".
- **The sync state machine** (`sync_spec.dfy`, module `StatusSync`, and `content_view.dfy`, module
  `ContentViews`). `StatusSync` holds one function per user action or callback, over a value
  `ViewState`. These are the Start/Stop button, the timer tick, the reply to a status request, the
  alert's Stop button and the interval stepper. Lemmas over event traces state what the loop does.
  Class `ContentView` holds the view's `@State` and `@AppStorage` fields that the sync logic reads
  or writes. It also holds `showLoginSheet`, which the sync logic never touches: the sheet button
  sets it, and the login sheet clears it through its binding. Each of the class's methods is
  proved to perform the matching `StatusSync` step in place. It leaves out four fields:
  `calendarAccessGranted`, which is declared and never read or written; `calendars`, which only
  feeds the picker; and `username` and `password`, which the sync logic never reads. It adds
  `sent`, the status requests handed to the network so far.
- **The login sheet** (`login_spec.dfy`, module `LoginFlow`, and `login_view.dfy`, module
  `LoginViews`). `LoginFlow.Completions` classifies a server response into the completions the
  handler fires. Other functions state what `loginUser`'s closure, `cancel` and `cancelRequest` do.
  Class `LoginView` holds a `host` reference to the `ContentView` it was opened from. This is how
  its `@Binding`s write into the main view's stored credentials, its sheet flag and its error alert.

Foreign inputs become parameters:
- the calendar store's answer (`CalendarAnswer`: access granted, the events returned, now);
- whether the JSON payload could be encoded;
- the outcome of a status request (`StatusOutcome`);
- the already-classified login response (`LoginResponse`).

Requests handed to the network are appended to `sent` (status PUTs). For the login POST, the
request is stored in `currentDataTask`.

## Behaviour as written

The model follows the code, including these behaviours, each stated by a lemma:

- Stop sends `online` every time, even when `dnd` was never sent (`StopAlwaysSendsOnline`).
- Stop does not clear `setStatusIsRunning`.
- A tick always sends the status it computes. There is no "only when changed" rule and no
  special first tick.
- The re-entrancy flag `setStatusIsRunning` is cleared only by a 200 reply or the alert's Stop.
  After a failed update, later ticks do nothing until then. The failed transition is not retried
  (`NoUpdatesUntilCleared`).
- A running event without a title sets the flag, and that tick sends no request. The flag stays
  set until a 200 arrives for some other outstanding request, or until the alert's Stop. Every tick
  until then is skipped (`UntitledEventStallsTicks`).
- A reply that is not an HTTP response also leaves the flag set.
- Only the earliest-starting timed event is examined. An earlier event that has ended hides a
  running one (`EndedEventHidesRunningOne`). That cannot happen with what the store returns: the
  store's query window starts now (`CurrentEventComplete`).
- Only `https://` counts as a scheme, in any letter case. `http://host` becomes
  `https://http://host/` (`HttpSettingGetsHttpsPrepended`).
- The interval has no validation step. Its range [10, 3600] comes only from the stepper's guards
  and the step of 5.
- When the token header is missing, the login completion runs twice. First comes a failure, which
  toggles the login alert and cancels the data task. Then comes a success that stores the id and an
  empty token (`MissingTokenCompletesTwice`).
- With no server set, login raises the main view's alert and leaves the spinner on
  (`EmptyServerStartsNoRequest`).

## Model

| member | source | states |
|---|---|---|
| Endpoints.ServerUrl | MattermostMeetingStatus/ContentView.swift:245-262 | no URL exactly for the empty setting; otherwise the result passes the case-insensitive `https://` test and ends in `/` |
| Endpoints.Lowercased | MattermostMeetingStatus/ContentView.swift:253 | same length, each character lower-cased, and no upper-case ASCII letter left in the result |
| Endpoints.LowercasedIdempotent | MattermostMeetingStatus/ContentView.swift:253 | lower-casing an already lower-cased string changes nothing |
| Endpoints.UpperSchemeKept | MattermostMeetingStatus/ContentView.swift:253 | the scheme test ignores case: `HTTPS://host/` comes back unchanged, with no second scheme |
| Endpoints.GetServerUrl | MattermostMeetingStatus/ContentView.swift:245-262 | the step-by-step normalisation returns exactly `ServerUrl` of the setting |
| Endpoints.ServerUrlIdempotent | MattermostMeetingStatus/ContentView.swift:250-259 | normalising a normalised URL gives it back unchanged |
| Endpoints.ServerUrlFixedPoints | MattermostMeetingStatus/ContentView.swift:250-259 | a setting comes back unchanged iff it is non-empty, starts with `https://` in any case and ends in `/` |
| Endpoints.ServerUrlKeepsInput | MattermostMeetingStatus/ContentView.swift:252-259 | the setting is kept whole; `https://` goes in front only when the test fails, `/` at the end only when missing |
| Endpoints.HttpSettingGetsHttpsPrepended | MattermostMeetingStatus/ContentView.swift:253-255 | an `http://` setting still gets `https://` in front |
| Endpoints.StatusUrl | MattermostMeetingStatus/ContentView.swift:264-267 | no URL for the empty setting; otherwise the base URL followed by `api/v4/users/me/status` |
| Endpoints.StatusUrlSingleJoin | MattermostMeetingStatus/ContentView.swift:264-267 | the status URL ends in `/api/v4/users/me/status`, and the only `/` at the join is the one ending the base |
| Endpoints.BareHostAndFullUrlAgree | MattermostMeetingStatus/ContentView.swift:250-267 | a bare host becomes `https://host/`, and writing that URL out in full gives the same status endpoint |
| Endpoints.LoginUrl | MattermostMeetingStatus/LoginView.swift:111 | no URL for the empty setting; otherwise the base URL followed by `api/v4/users/login` |
| CalendarEvents.NonAllDay | MattermostMeetingStatus/ContentView.swift:319 | keeps exactly the events that are not all-day, each as many times as it occurs in the input |
| CalendarEvents.InsertByStartSorted | MattermostMeetingStatus/ContentView.swift:322 | inserting into a start-ordered list keeps it ordered; the new head is the earlier of the event and the old head, the event on a tie |
| CalendarEvents.InsertByStartAdds | MattermostMeetingStatus/ContentView.swift:322 | inserting adds exactly the one event |
| CalendarEvents.SortByStart | MattermostMeetingStatus/ContentView.swift:322 | the result is ordered by start time and is a permutation of the input |
| CalendarEvents.CurrentEvent | MattermostMeetingStatus/ContentView.swift:306-336 | a selected event was returned by the store, is not all-day, is running now, and starts no later than any timed event; nothing without calendar access |
| CalendarEvents.Earliest | MattermostMeetingStatus/ContentView.swift:322-324 | reference definition: an event of the list whose start is minimal, and no event before it in the list starts as early |
| CalendarEvents.SortedHeadIsEarliest | MattermostMeetingStatus/ContentView.swift:322-324 | the first event after sorting is the first of the earliest-starting events |
| CalendarEvents.CurrentEventIsEarliest | MattermostMeetingStatus/ContentView.swift:312-334 | the answer is the earliest timed event if it is running, and nothing otherwise |
| CalendarEvents.CurrentEventComplete | MattermostMeetingStatus/ContentView.swift:316-330 | when no returned event has ended before now, an event is selected iff some timed event is running |
| CalendarEvents.EndedEventHidesRunningOne | MattermostMeetingStatus/ContentView.swift:322-330 | an earlier, ended event makes the answer nothing even though a later one is running |
| CalendarEvents.AllDayEventIgnored | MattermostMeetingStatus/ContentView.swift:319 | an all-day event is passed over even when it starts earlier |
| StatusSync.Initial | MattermostMeetingStatus/ContentView.swift:27-43 | the initial view is valid, stopped, with the flag clear and nothing sent |
| StatusSync.StepKeepsValid | MattermostMeetingStatus/ContentView.swift:64-119 | every action keeps: interval a multiple of 5 in [10, 3600], timer exactly while running, alert exactly while an error is recorded |
| StatusSync.RunKeepsValid | MattermostMeetingStatus/ContentView.swift:64-119 | the invariant holds after any sequence of actions |
| StatusSync.FlagClearedOnlyBySuccessOrAlertStop | MattermostMeetingStatus/ContentView.swift:229-234 | a set flag stays set after an action iff that action is neither a 200 reply nor the alert's Stop |
| StatusSync.TickSkippedWhileBusy | MattermostMeetingStatus/ContentView.swift:75-77 | a tick while the flag is set changes nothing |
| StatusSync.TicksSkippedWhileBusy | MattermostMeetingStatus/ContentView.swift:75-77 | any number of ticks while the flag is set change nothing |
| StatusSync.NoUpdatesUntilCleared | MattermostMeetingStatus/ContentView.swift:211-228 | with the flag set, ticks and failed replies send nothing, keep the flag, the title and the run state |
| StatusSync.TickOutcome | MattermostMeetingStatus/ContentView.swift:75-90 | with a server set and a payload that encodes, a tick with the flag clear sets it; no event: title `""` and `online` sent; titled event: title shown and `dnd` sent; untitled event: nothing else |
| StatusSync.TickLocalFailure | MattermostMeetingStatus/ContentView.swift:188-206 | a tick that reaches `setMattermostStatus` with no server set, or with a payload that cannot be encoded, sends nothing, leaves the flag set and shows the `serverUrl` or `createJson` alert |
| StatusSync.TickWithoutAccessSendsOnline | MattermostMeetingStatus/ContentView.swift:331-334 | without calendar access a tick sends `online` |
| StatusSync.UntitledEventStallsTicks | MattermostMeetingStatus/ContentView.swift:78-84 | whatever the calendar answered, if the selected event has no title the tick only sets the flag, and all later ticks change nothing |
| StatusSync.StartNeedsCalendar | MattermostMeetingStatus/ContentView.swift:72 | Start with no selected calendar changes nothing |
| StatusSync.StartFiresImmediately | MattermostMeetingStatus/ContentView.swift:72-93 | Start schedules the timer with the current interval and calendar and ticks at once: a running titled event is shown and `dnd` sent |
| StatusSync.StopAlwaysSendsOnline | MattermostMeetingStatus/ContentView.swift:65-70 | Stop clears the timer, the run state and the title, leaves the flag, and sends exactly one `online` whatever was sent before |
| StatusSync.EmptyServerSendsNothing | MattermostMeetingStatus/ContentView.swift:238-241 | with no server set, no request is sent and the `serverUrl` alert is shown |
| StatusSync.NeverAway | MattermostMeetingStatus/ContentView.swift:12-16 | over any sequence of actions, requests are only appended, and none asks for `away` |
| StatusSync.ReplyOutcome | MattermostMeetingStatus/ContentView.swift:210-236 | transport error: `urlRequest` and alert; non-200: `httpResponse` and alert; both keep the flag; 200: error, alert and flag cleared; not HTTP: no change |
| StatusSync.AlertStopResets | MattermostMeetingStatus/ContentView.swift:169-176 | the alert's Stop leaves the view stopped, flag clear, title empty, no error and no alert |
| StatusSync.StepUpReaches | MattermostMeetingStatus/ContentView.swift:111-114 | k presses of + from a valid interval give min(interval + 5k, 3600) |
| StatusSync.StepDownReaches | MattermostMeetingStatus/ContentView.swift:115-118 | k presses of - from a valid interval give max(interval - 5k, 10) |
| StatusSync.OffGridOvershoots | MattermostMeetingStatus/ContentView.swift:112-113 | from 3599, which is not a multiple of 5, + gives 3604: the multiple-of-5 part of the invariant is needed |
| StatusSync.WireValuesDistinct | MattermostMeetingStatus/ContentView.swift:12-24 | distinct statuses have distinct wire values, which is what a request's `status` member records, and distinct errors have distinct alert texts |
| ContentViews.ContentView.constructor | MattermostMeetingStatus/ContentView.swift:27-43 | the fields start at the view's initial values |
| ContentViews.ContentView.SetMattermostStatus | MattermostMeetingStatus/ContentView.swift:187-209 | performs `StatusSync.SetStatus`: the `serverUrl` or `createJson` alert, or one PUT appended to `sent` |
| ContentViews.ContentView.StatusReplied | MattermostMeetingStatus/ContentView.swift:210-236 | performs `StatusSync.StatusReplied` in place and keeps the invariant |
| ContentViews.ContentView.Tick | MattermostMeetingStatus/ContentView.swift:74-91 | performs `StatusSync.Tick` in place and keeps the invariant |
| ContentViews.ContentView.StartStopPressed | MattermostMeetingStatus/ContentView.swift:64-95 | performs `StatusSync.StartStopPressed` in place and keeps the invariant |
| ContentViews.ContentView.AlertStop | MattermostMeetingStatus/ContentView.swift:169-176 | performs `StatusSync.AlertStop` in place |
| ContentViews.ContentView.Increment | MattermostMeetingStatus/ContentView.swift:111-114 | performs `StatusSync.StepUp` in place and keeps the interval in range |
| ContentViews.ContentView.Decrement | MattermostMeetingStatus/ContentView.swift:115-118 | performs `StatusSync.StepDown` in place and keeps the interval in range |
| LoginFlow.CompletionCount | MattermostMeetingStatus/LoginView.swift:131-166 | no completion iff the response is not HTTP, has no data, or has neither `message` nor `id`; two iff `id` comes without a token; never more |
| LoginFlow.TransportErrorFailsOnce | MattermostMeetingStatus/LoginView.swift:132-135 | a transport error fires exactly one failure, with that error |
| LoginFlow.MessageTakesPrecedence | MattermostMeetingStatus/LoginView.swift:147-149 | a `message` string yields one failure with that message, whatever `id` and the token are |
| LoginFlow.SilentResponseChangesNothing | MattermostMeetingStatus/LoginView.swift:137-165 | a response that fires no completion leaves the whole state unchanged |
| LoginFlow.TokenLogsIn | MattermostMeetingStatus/LoginView.swift:150-160 | `id` with a token stores both, stops the spinner, closes the sheet, raises no alert |
| LoginFlow.MissingTokenCompletesTwice | MattermostMeetingStatus/LoginView.swift:154-160 | `id` without a token toggles the alert with the missing-token error, cancels the data task, then stores the id and an empty token and closes the sheet |
| LoginFlow.MessageRejectsLogin | MattermostMeetingStatus/LoginView.swift:147-149 | a rejected login keeps the credentials and the sheet, stops the spinner and toggles the alert with the message |
| LoginFlow.FailureAlertUnlessCancelled | MattermostMeetingStatus/LoginView.swift:86-96 | a failure stops the spinner; the alert toggles and the error is recorded iff the code is not -999 |
| LoginFlow.SuccessStoresCredentials | MattermostMeetingStatus/LoginView.swift:81-85 | a success stores the token and the id, `""` for a missing one, stops the spinner and closes the sheet |
| LoginFlow.CancelClosesSheet | MattermostMeetingStatus/LoginView.swift:100-108 | cancel stops the spinner, closes the sheet and cancels a running task; the main view keeps its credentials and every other field |
| LoginFlow.EmptyServerStartsNoRequest | MattermostMeetingStatus/LoginView.swift:111-115 | with no server set, login shows the `serverUrl` alert, starts no task and leaves the spinner on |
| LoginFlow.LoginPostsToLoginEndpoint | MattermostMeetingStatus/LoginView.swift:111-131 | with a server set, login starts a task to the base URL plus `api/v4/users/login` carrying the user name and password |
| LoginFlow.LoginKeepsHostValid | MattermostMeetingStatus/LoginView.swift:77-167 | the sheet's actions keep the main view's invariant |
| LoginViews.LoginView.constructor | MattermostMeetingStatus/LoginView.swift:10-23 | the sheet opens over its host with empty fields, no task and no alert |
| LoginViews.LoginView.CancelRequest | MattermostMeetingStatus/LoginView.swift:105-108 | performs `LoginFlow.CancelRequest` in place |
| LoginViews.LoginView.Cancel | MattermostMeetingStatus/LoginView.swift:100-103 | performs `LoginFlow.Cancel` in place, writing the host's sheet flag |
| LoginViews.LoginView.Complete | MattermostMeetingStatus/LoginView.swift:79-97 | performs `LoginFlow.Complete` in place, writing the host's credentials |
| LoginViews.LoginView.LoginUser | MattermostMeetingStatus/LoginView.swift:77-79 | performs `LoginFlow.LoginUser` in place |
| LoginViews.LoginView.GetMattermostAuthToken | MattermostMeetingStatus/LoginView.swift:110-131 | performs `LoginFlow.RequestToken` in place |
| LoginViews.LoginView.ResponseArrived | MattermostMeetingStatus/LoginView.swift:131-167 | fires the completions of `LoginFlow.Completions` in order, as `LoginFlow.ResponseArrived` states |

## Left out

- SwiftUI view bodies, layout, pickers, text fields, the Help button, the button that opens the login
  sheet, and how alerts and sheets are drawn. `.disabled(isRunning)` is not modelled, so the
  stepper methods run in any state; the invariant holds either way.
- EventKit is not modelled: `requestAccess`, the one-year query window, `events(matching:)`,
  `getAllCalendars` and `getDefaultCalendar`. The events the store returns are an input, with
  integer times. The calendar the picker starts on is a constructor argument.
- Concurrency. The calendar query's completion is treated as part of the tick that started it, so
  a Stop between a tick and its calendar answer is not modelled. `DispatchQueue.main.async`
  updates are applied at once. Replies to status requests are not matched to the request they
  answer: the environment may deliver any reply at any time.
- `Timer` is modelled as `Option<Timer>`: scheduled or not. Firing is a `Tick` call, and a tick on
  an invalidated timer does nothing. Firing times and intervals elapsing are not modelled.
- Endpoints.ServerUrl: returns a URL for every non-empty setting. `URL(string:)` rejecting a
  malformed string is Foundation's parser and is not modelled, so `serverUrl` arises only from an
  empty setting.
- Endpoints.Lowercased: lower-cases ASCII letters only, where `String.lowercased()` covers all of
  Unicode. For the `https://` test this loses nothing: no non-ASCII character lower-cases to one of
  `h`, `t`, `p`, `s`, `:` or `/`.
- Endpoints.HasHttpsPrefix: compares Unicode scalars, where Swift's `hasPrefix` and `hasSuffix`
  compare Characters, which are grapheme clusters. `https://` followed by a combining mark such as
  U+0301 passes the test here. Swift's test fails on it and prepends a second `https://`.
- Endpoints.StatusUrl: appends the path to the whole string, where `appendingPathComponent`
  appends it to the URL's path, before any query or fragment. For the setting `host/?a=b`, Swift
  builds `https://host/api/v4/users/me/status?a=b/`, and the model builds
  `https://host/?a=b/api/v4/users/me/status`. Endpoints.LoginUrl is built the same way and differs
  in the same way.
- CalendarEvents.SortByStart: ties keep input order. Swift's `sorted` behaves that way but does
  not promise it.
- `URLSession`, `JSONSerialization` and the HTTP header lookup are not modelled. A login response
  arrives already classified. JSON encoding failure is a parameter.
- `@AppStorage` persistence, `print` logging, and `Date`/`TimeInterval` as floating point. Times
  are integers.
- The login alert's Ok button and the alert message text (`loginError?.localizedDescription`) are
  presentation.
- MattermostMeetingStatusApp.swift is app bootstrap and is not part of this model.
