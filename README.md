# Work-time recorder: a verified model of its core

This project models the core of a VS Code extension that records working time, and proves properties of that model in Dafny. The extension, its webview and a shared core package talk to each other over a typed message protocol. The model covers these parts:

- **The IPC protocol layer** (`Protocol`, `Uuid`, `Transport`, `MessageHandling`, `Notifications`, `Ipc`, `IpcScenarios`).
  - It covers the message type guards, `isValidUUID`, `validateMessage`, `createErrorResponse`, `getResponseType` and `isResponseFor`.
  - `MessageHandler` is a table of pending requests with timeouts. Timers and promises are numbered tickets. A timeout is an explicit `FireTimeout` event. Each promise's settlement is recorded in a map.
  - `NotificationDispatcher` keeps per-type subscriber lists. `IPCManager` routes inbound messages and disposes.
- **Field validators** (`Validators`, `EntityValidators`, `ValidatorUtils`, `Enums`).
  - These cover the primitive checks, every entity and request validator, `validateArray`, `createValidator`, and the enum guards.
  - Each entity validator is a table of field rules in the order the source pushes its errors.
- **Debounce and throttle** (`Debounce`). These are state machines over an explicit clock.
- **Activity batching** in `EventMapper` (`Events`).
- **The tracking service** (`TimeTracking`). This covers the session start/stop state machine, idle and activity handling, daily and weekly stats, and the export filter.
- **The status-bar clock** `formatTime` (`TimeFormat`). The model proves it can be read back.
- **The webview store** (`WebviewStore`). This covers its reducers, `sendMessage`, and the inbound message listener.

Untyped JavaScript values are the datatype `Js.JsValue`. Numbers are integers plus a NaN case. `new Date(string)` and `new URL(string)` are host functions passed in as parameters.

Where the source changes state, the model has the same shape throughout:

- A class holds the source's fields.
- Each method ensures `State() == Step(old(State()))`, where `Step` is a pure function over a state datatype.
- The lemmas about the step functions state what the source promises.

## Model

| member | source | states |
|---|---|---|
| Protocol.ResponseTypesFollowRequestTypes | packages/core/src/contracts/validation-snippets.ts:614-676 | Both lists hold 22 types. Position by position, each success-response type is its request type with "Response" appended. |
| Protocol.ResponseTypesEndInResponse | packages/core/src/contracts/validation-snippets.ts:645-676 | Every listed success-response type ends in "Response". |
| Protocol.RequestTypesDoNotEndInResponse | packages/core/src/contracts/validation-snippets.ts:614-643 | No request type ends in "Response", and none is "error". |
| Protocol.NotificationTypesAreDistinct | packages/core/src/contracts/validation-snippets.ts:678-695 | No notification type is a request type, a success-response type or "error". |
| Protocol.ClassificationIsExclusive | packages/core/src/contracts/validation-snippets.ts:593-695 | No value is two of: request, response (errors included), notification. |
| Protocol.IsValidUUID | packages/core/src/contracts/validation-snippets.ts:706-709 | True exactly for strings shaped 8-4-4-4-12 in hex digits of either case. There is no version or variant constraint. |
| Protocol.ValidateMessageAccepts | packages/core/src/contracts/validation-snippets.ts:712-762 | A message is valid iff it is an object with a string type, and either that type is a notification type or every later rule passes. |
| Protocol.ValidateMessageFirstFailure | packages/core/src/contracts/validation-snippets.ts:712-762 | Each failure reason is returned iff every earlier check in source order passed and its own check failed. The order is: object, type, notification exemption, id, UUID, timestamp, payload, error object. |
| Protocol.NotificationsNeedNoId | packages/core/src/contracts/validation-snippets.ts:723-725 | An object whose type is a notification type is valid without an id, a timestamp or a payload. |
| Protocol.ValidMessagesHaveUuids | packages/core/src/contracts/validation-snippets.ts:728-734 | Every accepted message that is not a notification has a truthy, UUID-shaped id. |
| Protocol.ValidateMessageExamples | packages/core/src/contracts/validation-snippets.ts:712-762 | A request without an id fails on the id. An id "not-a-uuid" fails the UUID check. A notification without an id is valid. |
| Protocol.ErrorResponseFields | packages/core/src/contracts/validation-snippets.ts:786-801 | A built error response has type "error", the given id, no timestamp and no payload, and an error object with the given code and message. |
| Protocol.CreateErrorResponseIsErrorResponse | packages/core/src/contracts/validation-snippets.ts:786-801 | A built error response passes `isErrorResponse` and `isResponseMessage`, and carries the request id. |
| Protocol.CreateErrorResponseValidates | packages/core/src/contracts/validation-snippets.ts:786-801 | A built error response passes `validateMessage` exactly when its id is a non-empty, UUID-shaped string. |
| Protocol.GetResponseType | packages/core/src/contracts/validation-snippets.ts:803-805 | Starts with the request type, ends in "Response", and is 8 characters longer. |
| Protocol.GetResponseTypeInjective | packages/core/src/contracts/validation-snippets.ts:803-805 | Different request types never give the same response type. |
| Protocol.GetResponseTypeIsListed | packages/core/src/contracts/validation-snippets.ts:803-805 | Every listed request type maps to a listed success-response type. |
| Protocol.IsResponseForIff | packages/core/src/contracts/validation-snippets.ts:807-817 | True iff the ids are equal, and the response is an error or its type is `getResponseType` of the request's type. |
| Protocol.ErrorResponseAnswersItsRequest | packages/core/src/contracts/validation-snippets.ts:807-817 | An error response built from a request's id answers that request. |
| Protocol.ErrorResponseIgnoresOtherIds | packages/core/src/contracts/validation-snippets.ts:807-817 | An error response never answers a request whose id differs from its own. |
| Uuid.LengthOfMatch | packages/core/src/contracts/validation-snippets.ts:706-709 | Any string matching either UUID pattern is 36 characters long. |
| Uuid.LooseIsShape | packages/core/src/contracts/validation-snippets.ts:706-709 | The protocol's pattern accepts exactly the 8-4-4-4-12 hex shape. |
| Uuid.StrictIsShapePlusVersion | packages/core/src/types/validators.ts:87-98 | The validators' pattern is that shape, plus a version digit 1-5 and a variant digit 8, 9, a or b. |
| Uuid.StrictIsStricter | packages/core/src/types/validators.ts:87-98 | Every strict match is a loose match. The nil UUID is a loose match but not a strict one. |
| Transport.Bridge.constructor | packages/core/src/contracts/validation-snippets.ts:933-936 | A bridge starts with nothing sent and no callback attached. |
| Transport.Bridge.Send | packages/core/src/contracts/validation-snippets.ts:933-936 | `send` appends the message to the sent log and changes nothing else. |
| Transport.Bridge.OnMessage | packages/core/src/contracts/validation-snippets.ts:933-936 | `onMessage` attaches the callback and changes nothing else. |
| Transport.Bridge.Unsubscribe | packages/core/src/contracts/validation-snippets.ts:933-936 | The returned unsubscribe detaches the callback and counts one more call. |
| MessageHandling.ResponseOutcome | packages/core/src/contracts/validation-snippets.ts:848-854 | A promise is rejected exactly for an error response. Otherwise it resolves with the response itself. |
| MessageHandling.Settle | packages/core/src/contracts/validation-snippets.ts:848-854 | The first settlement of a promise wins. Every earlier outcome is kept, and nothing else is added. |
| MessageHandling.InitialIsValid | packages/core/src/contracts/validation-snippets.ts:832-834 | A new handler satisfies the invariant: every entry has its timer, and every live timer has an unsettled promise of its own. |
| MessageHandling.RegisterPreserves | packages/core/src/contracts/validation-snippets.ts:836-862 | Sending keeps the invariant and every earlier outcome. With a fresh id, no timer is left without an entry. |
| MessageHandling.RespondPreserves | packages/core/src/contracts/validation-snippets.ts:864-875 | Handling a response keeps the invariant, tidiness and every earlier outcome. |
| MessageHandling.TimeoutPreserves | packages/core/src/contracts/validation-snippets.ts:841-844 | A timer firing keeps the invariant and every earlier outcome. A tidy tracker, whose timers are exactly its entries' timers, stays tidy. |
| MessageHandling.TimeoutKeepsTidy | packages/core/src/contracts/validation-snippets.ts:841-844 | When a timer fires in a tidy tracker, the entry it removes is the one that owns that timer, so the tracker stays tidy. |
| MessageHandling.ClearPreserves | packages/core/src/contracts/validation-snippets.ts:877-883 | Clearing keeps the invariant. A tidy handler is left with no timer scheduled. |
| MessageHandling.RespondMatchesById | packages/core/src/contracts/validation-snippets.ts:864-875 | A response is handled iff its id is a non-empty string with a pending entry. If so, the entry and its timer go and the promise settles; otherwise nothing changes. |
| MessageHandling.RespondAtMostOnce | packages/core/src/contracts/validation-snippets.ts:864-875 | A second delivery of the same response returns false and changes nothing. |
| MessageHandling.RoundTrip | packages/core/src/contracts/validation-snippets.ts:836-875 | A success response to a just-sent request resolves that request's promise with the response. It removes the entry and releases the timer. |
| MessageHandling.ErrorResponseRejects | packages/core/src/contracts/validation-snippets.ts:848-854 | An error response rejects the pending promise with "code: message". |
| MessageHandling.TimeoutThenLateResponse | packages/core/src/contracts/validation-snippets.ts:841-844 | On timeout the entry is deleted and the promise is rejected with the "Request <type> timed out after <ms>ms" text. A later response is then ignored. |
| MessageHandling.ClearRejectsEveryPending | packages/core/src/contracts/validation-snippets.ts:877-883 | Clearing empties the table, releases every entry's timer, and rejects every pending promise with "Request cancelled - handler cleared". |
| MessageHandling.ReusedIdLeavesTimer | packages/core/src/contracts/validation-snippets.ts:846-858 | Sending a second request with a pending id overwrites the entry. The first timer survives clearing and later rejects the first caller with a timeout. |
| MessageHandling.RegisterBeforeSend | packages/core/src/contracts/validation-snippets.ts:846-860 | Because the entry is inserted before `sendFn` runs, a reply delivered from inside `sendFn` finds it. The same reply before insertion would be lost. |
| MessageHandling.ClearStep | packages/core/src/contracts/validation-snippets.ts:877-883 | Clearing one entry by hand and then the rest equals clearing all at once, so the loop's order does not matter. |
| MessageHandling.ClearEmpty | packages/core/src/contracts/validation-snippets.ts:877-883 | With nothing pending, clearing changes nothing. |
| MessageHandling.MessageHandler.constructor | packages/core/src/contracts/validation-snippets.ts:832-834 | An empty table with the given timeout. |
| MessageHandling.MessageHandler.SendRequest | packages/core/src/contracts/validation-snippets.ts:836-862 | Registers the request, then sends it over the bridge. Any synchronous reply is handled against the registered state. Returns a fresh, unsettled promise. |
| MessageHandling.MessageHandler.HandleResponse | packages/core/src/contracts/validation-snippets.ts:864-875 | The new state and the result are those of the `Respond` step. |
| MessageHandling.MessageHandler.FireTimeout | packages/core/src/contracts/validation-snippets.ts:841-844 | The new state is that of the `Timeout` step with the handler's timeout. A tidy handler stays tidy. |
| MessageHandling.MessageHandler.ClearPendingRequests | packages/core/src/contracts/validation-snippets.ts:877-883 | The loop over the entries ends in the `Clear` step's state. |
| Notifications.IndexOf | packages/core/src/contracts/validation-snippets.ts:903-911 | Returns -1 iff the handler is absent. Otherwise returns its first position. |
| Notifications.RemoveFirstRemovesOne | packages/core/src/contracts/validation-snippets.ts:903-911 | Unsubscribing removes exactly one occurrence when there is one (as a multiset difference). An absent handler changes nothing. |
| Notifications.RemoveFirstKeepsOrder | packages/core/src/contracts/validation-snippets.ts:903-911 | The remaining handlers keep their relative order. |
| Notifications.UnsubscribeTwiceIsOnce | packages/core/src/contracts/validation-snippets.ts:903-911 | After one unsubscribe, a handler subscribed once is gone, and a second unsubscribe changes nothing. |
| Notifications.SubscribeThenUnsubscribe | packages/core/src/contracts/validation-snippets.ts:892-912 | Subscribing a new handler and unsubscribing it restores the list. |
| Notifications.UnsubscribeMiddle | packages/core/src/contracts/validation-snippets.ts:903-911 | Unsubscribing B from [A, B, C] leaves [A, C]. |
| Notifications.InvocationsCallEveryone | packages/core/src/contracts/validation-snippets.ts:914-929 | Every subscriber is called once, in subscription order. Exactly the throwing ones are marked as having thrown, and the rest still run. |
| Notifications.NotificationDispatcher.constructor | packages/core/src/contracts/validation-snippets.ts:889-890 | No handlers. |
| Notifications.NotificationDispatcher.Subscribe | packages/core/src/contracts/validation-snippets.ts:892-912 | Appends the handler to the end of the type's list, creating the list if needed. Returns the unsubscribe function for that type and handler. |
| Notifications.NotificationDispatcher.Unsubscribe | packages/core/src/contracts/validation-snippets.ts:903-911 | Removes the first identical handler from the type's list, if that list exists. |
| Notifications.NotificationDispatcher.Dispatch | packages/core/src/contracts/validation-snippets.ts:914-929 | Returns true iff the value is a notification with a non-empty list. In that case it calls every handler in order, past throwing ones. Otherwise it calls none. |
| Ipc.DestinationOf | packages/core/src/contracts/validation-snippets.ts:949-955 | A message is dropped iff it is neither a response nor a notification. |
| Ipc.DestinationOfKinds | packages/core/src/contracts/validation-snippets.ts:949-955 | Error responses go to the handler, notifications go to the dispatcher, and requests are dropped. |
| Ipc.IPCManager.constructor | packages/core/src/contracts/validation-snippets.ts:944-956 | Creates a fresh handler and dispatcher and attaches to the bridge. Nothing is sent. |
| Ipc.IPCManager.Deliver | packages/core/src/contracts/validation-snippets.ts:949-955 | While attached, a response is handled, a notification is dispatched, and anything else is dropped. After dispose every message is dropped. The handler's state changes only for a response. |
| Ipc.IPCManager.SendRequest | packages/core/src/contracts/validation-snippets.ts:958-962 | Registers the request and appends it to the bridge's sent log. |
| Ipc.IPCManager.SubscribeToNotification | packages/core/src/contracts/validation-snippets.ts:964-969 | Performs the dispatcher's subscribe. |
| Ipc.IPCManager.Dispose | packages/core/src/contracts/validation-snippets.ts:971-977 | Unsubscribes from the bridge only if still attached, then clears the pending requests. |
| Ipc.DisposeTwice | packages/core/src/contracts/validation-snippets.ts:971-977 | Disposing twice unsubscribes from the bridge exactly once and leaves nothing pending. |
| IpcScenarios.IdleDetectedIsNotification | packages/core/src/contracts/validation-snippets.ts:678-695 | An `idleDetected` message is a notification, so fan-out scenarios like `FanOut` can be called. |
| IpcScenarios.RoundTripOnce | packages/core/src/contracts/validation-snippets.ts:944-962 | Through a fresh manager, for any request with a non-empty id and any non-error response with the same id: the first delivery is handled, the second is not, and the caller's promise is resolved with that response. |
| IpcScenarios.ErrorReply | packages/core/src/contracts/validation-snippets.ts:848-851 | A reply built by `createErrorResponse` for a sent request is handled and rejects the caller with "code: message". |
| IpcScenarios.TimeoutThenLateReply | packages/core/src/contracts/validation-snippets.ts:841-844 | A request whose timer fires is rejected with "Request <type> timed out after <ms>ms", and a later reply to it is not handled. |
| IpcScenarios.DisposeCancels | packages/core/src/contracts/validation-snippets.ts:971-977 | Disposing with a request pending rejects it with "Request cancelled - handler cleared". A second dispose does not unsubscribe again, and replies delivered afterwards are dropped. |
| IpcScenarios.FanOut | packages/core/src/contracts/validation-snippets.ts:892-929 | With three subscribers of which the middle one throws, dispatch calls all three in order. After the middle one unsubscribes only the other two are called, and a second unsubscribe changes nothing. |
| IpcScenarios.StartSessionIsRequest | packages/core/src/contracts/validation-snippets.ts:614-643 | The scenario's `startSession` message is a request carrying its id. |
| IpcScenarios.StartSessionResponseIsResponse | packages/core/src/contracts/validation-snippets.ts:645-676 | Its `startSessionResponse` is a non-error response with the same id. |
| Enums.SessionStatusGuard | types/index.ts:799-801 | True exactly for the wire strings of `SessionStatus`: "active", "paused", "completed", "interrupted". |
| Enums.PomodoroStatusGuard | types/index.ts:806-808 | True exactly for "active", "completed" and "interrupted". |
| Enums.SettingTypeGuard | types/index.ts:813-815 | True exactly for "string", "number", "boolean" and "json". |
| Enums.PomodoroStatusIsSessionStatus | types/index.ts:21-43 | Every pomodoro status is a session status. "paused" is the only session status that is not a pomodoro status. |
| Enums.GuardsRejectNonStrings | types/index.ts:799-815 | No guard accepts a value that is not a string. |
| Validators.Finish | packages/core/src/types/validators.ts:228-229 | The result is a success, carrying the data, exactly when the error list is empty. Otherwise it is a failure carrying those errors. |
| Validators.IsNonEmptyString | packages/core/src/types/validators.ts:72-82 | No error iff the value is a string that is not blank. A non-string gets one "must be a string" error, and a blank string one "cannot be empty" error. |
| Validators.IsUUID | packages/core/src/types/validators.ts:87-98 | No error iff the value is a strict UUID. Otherwise exactly one error, "must be a string" or "must be a valid UUID". |
| Validators.IsISOTimestamp | packages/core/src/types/validators.ts:103-116 | No error iff the value is a string the host date parser accepts. Otherwise exactly one error. |
| Validators.IsNumberInRange | packages/core/src/types/validators.ts:121-143 | No error iff the value is a number inside the inclusive bounds. A non-number or NaN gets only "must be a number". Otherwise there is one error per bound crossed, the lower one first. |
| Validators.IsHexColor | packages/core/src/types/validators.ts:148-161 | No error iff the value is null, undefined, or `#` followed by six hex digits of either case. |
| Validators.IsURL | packages/core/src/types/validators.ts:166-182 | No error iff the value is null, undefined, or a string the host URL parser accepts. |
| Validators.IsBoolean | packages/core/src/types/validators.ts:242-243 | No error iff the value is a boolean. Otherwise one "must be a boolean" error. |
| Validators.IsOneOf | packages/core/src/types/validators.ts:198 | No error iff the value is one of the allowed strings. Otherwise one error with the given message. |
| Validators.IsDateFormat | packages/core/src/types/validators.ts:354-355 | No error iff `String(value)` is shaped YYYY-MM-DD. |
| Validators.UuidArrayErrors | packages/core/src/types/validators.ts:603-621 | No error iff the value is an array of strict UUIDs. |
| Validators.CollectUuidErrors | packages/core/src/types/validators.ts:607-609 | The `forEach` loop collects, in order, each item's UUID errors under its indexed field name. |
| Validators.FlagErrors | packages/core/src/types/validators.ts:664-670 | A key raises no error iff it is an allowed key with a boolean value. |
| Validators.FlagsErrors | packages/core/src/types/validators.ts:660-671 | No error iff the value is an object whose keys are all allowed flags with boolean values. |
| Validators.CollectFlagErrors | packages/core/src/types/validators.ts:664-670 | The `forEach` over the keys collects each key's errors in key order. |
| Validators.RuleErrors | packages/core/src/types/validators.ts:191-230 | A field's checks report nothing iff the field passes its rule. A rule about the field itself names that field in every error. |
| Validators.RulesOkCons | packages/core/src/types/validators.ts:191-230 | A rule table passes iff its first rule and the rest of it pass. |
| Validators.ErrorsEmptyIff | packages/core/src/types/validators.ts:191-230 | No error is reported iff every field passes its rule. |
| Validators.FailingFieldReported | packages/core/src/types/validators.ts:191-230 | Every failing field contributes at least one error, and a field-level rule's error names that field. Errors accumulate rather than stopping at the first. |
| Validators.ErrorsComeFromFailingFields | packages/core/src/types/validators.ts:191-230 | Every reported error comes from a field that fails its rule. |
| Validators.ValidateWithIff | packages/core/src/types/validators.ts:191-230 | A rule-table validator throws exactly on null and undefined. It succeeds with the data unchanged exactly when every field passes, and its failure lists exactly the collected errors. |
| EntityValidators.ValidateSession | packages/core/src/types/validators.ts:191-230 | Throws iff the data is null or undefined. Succeeds with the data iff every session field passes. |
| EntityValidators.ValidateProject | packages/core/src/types/validators.ts:235-263 | The same, for the project fields. |
| EntityValidators.ValidateTag | packages/core/src/types/validators.ts:268-283 | The same, for the tag fields. |
| EntityValidators.ValidatePomodoro | packages/core/src/types/validators.ts:288-314 | The same, for the pomodoro fields; the status must be a pomodoro status. |
| EntityValidators.ValidateBreak | packages/core/src/types/validators.ts:319-345 | The same, for the break fields. |
| EntityValidators.ValidateDailyStats | packages/core/src/types/validators.ts:350-374 | The same, for the daily stats fields; the date must be shaped YYYY-MM-DD. |
| EntityValidators.ValidateSetting | packages/core/src/types/validators.ts:379-394 | The same, for the setting fields; the type must be a setting type. |
| EntityValidators.ValidateCreateSessionRequest | packages/core/src/types/validators.ts:403-418 | The same, for a create-session request. |
| EntityValidators.ValidateUpdateSessionRequest | packages/core/src/types/validators.ts:423-449 | The same, for an update-session request; fields that are undefined are skipped. |
| EntityValidators.ValidateCreateProjectRequest | packages/core/src/types/validators.ts:454-472 | The same, for a create-project request. |
| EntityValidators.ValidateUpdateProjectRequest | packages/core/src/types/validators.ts:477-501 | The same, for an update-project request. |
| EntityValidators.ValidateCreateTagRequest | packages/core/src/types/validators.ts:506-520 | The same, for a create-tag request. |
| EntityValidators.ValidateUpdateTagRequest | packages/core/src/types/validators.ts:525-539 | The same, for an update-tag request. |
| EntityValidators.ValidateCreatePomodoroRequest | packages/core/src/types/validators.ts:544-558 | The same, for a create-pomodoro request. |
| EntityValidators.SessionRulesMeaning | packages/core/src/types/validators.ts:191-226 | The session rule table passes iff each of the eleven session fields meets its own condition. |
| EntityValidators.MissingNullableFieldIsChecked | packages/core/src/types/validators.ts:191-226 | A missing `endTime` reads as undefined, which is not `null`, so it is still checked and reported. |
| EntityValidators.SessionFailuresAreComplete | packages/core/src/types/validators.ts:191-230 | A failed session validation names every failing field and only failing fields. |
| EntityValidators.BadSessionReportsEveryField | packages/core/src/types/validators.ts:191-230 | A session with six bad fields fails, and its errors name all six. |
| EntityValidators.OrderErrors | packages/core/src/types/validators.ts:576-583 | The ordering error is raised iff both dates are well shaped and the start is later than the end. The error is on `startDate`. |
| EntityValidators.ValidateTimeRange | packages/core/src/types/validators.ts:563-588 | Throws iff the data is nullish. Succeeds iff both dates are well shaped and the start is not later. A failure lists the format errors followed by the ordering error. |
| EntityValidators.SameDayRangeIsValid | packages/core/src/types/validators.ts:563-588 | Equal start and end dates succeed. |
| EntityValidators.BackwardsRangeFails | packages/core/src/types/validators.ts:563-588 | A start later than the end fails with the ordering error alone. |
| EntityValidators.WithTimeRange | packages/core/src/types/validators.ts:593-600 | Throws iff the data or its range is nullish. Otherwise the error list is the nested range's errors followed by the outer fields' errors. Success iff both pass. |
| EntityValidators.ValidateAnalyticsQuery | packages/core/src/types/validators.ts:593-639 | Throws iff the data or its time range is nullish. Succeeds iff the range and every query field pass. Otherwise the errors are the range's, then the query fields'. |
| EntityValidators.ValidateExportRequest | packages/core/src/types/validators.ts:644-682 | The same, for an export request: throws iff the data or its range is nullish, succeeds iff both pass, and otherwise lists the range's errors, then the export fields'. |
| EntityValidators.AnalyticsQueryRulesMeaning | packages/core/src/types/validators.ts:603-635 | The query's fields pass iff each id list is absent or an array of UUIDs, `groupBy` is absent or listed, and `includeBreakdown` is absent or a boolean. |
| EntityValidators.ExportRequestRulesMeaning | packages/core/src/types/validators.ts:655-676 | The export's fields pass iff the format is listed, `include` is an object whose keys are all known flags with boolean values, and `includeInsights` is absent or a boolean. |
| ValidatorUtils.Renamed | packages/core/src/types/validators.ts:711-714 | Each item error keeps its message and value, and its field becomes `name[index].field`. |
| ValidatorUtils.ValidateArray | packages/core/src/types/validators.ts:691-721 | The loop's result equals the specification `ArrayResult` of the input. |
| ValidatorUtils.WalkStopsAfterThrow | packages/core/src/types/validators.ts:706-716 | Once an item's validator throws, the whole walk throws that error. |
| ValidatorUtils.NonArrayIsOneError | packages/core/src/types/validators.ts:694-703 | A non-array gets exactly one "must be an array" error. |
| ValidatorUtils.ArraySucceedsWhenAllPass | packages/core/src/types/validators.ts:706-721 | When every item passes, the result is a success holding each item's validated data, in input order. |
| ValidatorUtils.WalkWhenAllPass | packages/core/src/types/validators.ts:706-716 | When every item passes, the walk keeps each item's data in order and collects no error. |
| ValidatorUtils.WalkCollectsItemErrors | packages/core/src/types/validators.ts:706-716 | The collected errors are the failing items' errors, renamed, in item order. |
| ValidatorUtils.ArrayThrowsWithItem | packages/core/src/types/validators.ts:706-716 | The first throwing item makes `validateArray` throw its error. |
| ValidatorUtils.CreateValidator | packages/core/src/types/validators.ts:726-739 | Returns the data iff the wrapped validator succeeds. It throws that validator's exception when it throws, and otherwise throws the failure message. |
| ValidatorUtils.FailureMessage | packages/core/src/types/validators.ts:733-735 | The message starts "Validation failed: ". No errors give only that prefix. A single error gives exactly "Validation failed: field: message". |
| ValidatorUtils.ErrorParts | packages/core/src/types/validators.ts:734 | One `field: message` part per error, in the errors' order. |
| ValidatorUtils.FailureMessageSnoc | packages/core/src/types/validators.ts:733-735 | One more error appends ", field: message" for it. With the one-error case, this fixes the message for every list: each error once, in order, separated by ", ". |
| Js.JoinSnoc | packages/core/src/types/validators.ts:734 | `join` of a non-empty list plus one part is the old join, the separator, and that part. |
| Debounce.Debouncer.constructor | packages/core/src/utils/debounce.ts:36-48 | No timer, no arguments, `lastCallTime` 0, with the given options. |
| Debounce.Debouncer.Execute | packages/core/src/utils/debounce.ts:63-74 | Always clears the timer. With arguments pending, it runs the function once with them and the context, clears them, and sets `lastCallTime`. Otherwise it runs nothing. |
| Debounce.Debouncer.Call | packages/core/src/utils/debounce.ts:79-107 | Stores the call's arguments and clears any timer. It runs at once when `immediate` is set and no timer was pending, or when `maxWait` has elapsed. Otherwise it schedules one timer. |
| Debounce.Debouncer.Fire | packages/core/src/utils/debounce.ts:104-106 | The timer runs the function with the most recent call's arguments, at least `wait` after that call. |
| Debounce.Debouncer.Cancel | packages/core/src/utils/debounce.ts:112-115 | Clears the timer and the pending arguments without running anything. |
| Debounce.Debouncer.Flush | packages/core/src/utils/debounce.ts:120-126 | Returns undefined and leaves every field unchanged when no arguments are pending. Otherwise it runs them and returns the result. |
| Debounce.TrailingRunUsesLastArguments | packages/core/src/utils/debounce.ts:79-107 | A burst of three calls runs once, `wait` after the last call, with the last call's arguments. |
| Debounce.ImmediateRunsEveryCall | packages/core/src/utils/debounce.ts:86-95 | With `immediate`, two calls 1 ms apart both run. |
| Debounce.LeadingDebouncer.constructor | packages/core/src/utils/debounce.ts:86-95 | There is no quiet period and nothing has run. |
| Debounce.LeadingDebouncer.Call | packages/core/src/utils/debounce.ts:86-95 | A call outside a quiet period runs at once. A call inside one does not run. Every call restarts the quiet period. |
| Debounce.LeadingDebouncer.Fire | packages/core/src/utils/debounce.ts:86-95 | The quiet period ends without running anything. |
| Debounce.LeadingCallsWithinWaitRunOnce | packages/core/src/utils/debounce.ts:86-95 | Two calls within one quiet period run once, with the first call's arguments. |
| Debounce.Throttler.constructor | packages/core/src/utils/debounce.ts:134-141 | No timer, no arguments, `lastCallTime` 0. |
| Debounce.Throttler.Execute | packages/core/src/utils/debounce.ts:143-154 | Clears the timer. With arguments pending, runs them once and sets `lastCallTime`. Spacing between runs is kept. |
| Debounce.Throttler.Call | packages/core/src/utils/debounce.ts:156-170 | Runs at once iff `wait` has passed since the last run. Otherwise it schedules a timer only when none is pending, due `wait` after the last run. |
| Debounce.Throttler.Fire | packages/core/src/utils/debounce.ts:166-168 | The timer runs the most recent arguments. |
| Debounce.Throttler.Cancel | packages/core/src/utils/debounce.ts:172-178 | Clears the timer and the arguments without running anything. |
| Events.Merge | packages/extension/src/extension/EventMapper.ts:94-96 | Every option that was given wins, and every other option keeps its default. |
| Events.DebounceWait | packages/extension/src/extension/EventMapper.ts:99-102 | The debounce time, or 800 ms when it is missing or 0. |
| Events.DefaultsResolve | packages/extension/src/extension/EventMapper.ts:48-54 | With no options the mapper batches, the threshold is 5, the batch limit is 10, and the debounce time is 800 ms. |
| Events.SendEmpties | packages/extension/src/extension/EventMapper.ts:186-207 | After any send the score is 0 and the batch is empty. |
| Events.SendMessages | packages/extension/src/extension/EventMapper.ts:186-207 | An empty batch with a zero score sends nothing. A batch goes out whole, in order, with its total score. Otherwise the score goes out alone. |
| Events.InvalidActivityIsIgnored | packages/extension/src/extension/EventMapper.ts:151-156 | An activity that fails validation changes neither the score nor the batch, and sends nothing. |
| Events.BatchModeRecord | packages/extension/src/extension/EventMapper.ts:158-169 | In batch mode a valid activity joins the batch and adds its score. The batch is sent at once iff it reaches the threshold or the size limit; otherwise the debounced send is set. |
| Events.ScoreModeRecord | packages/extension/src/extension/EventMapper.ts:170-174 | Outside batch mode a valid activity adds its score. The score is sent alone iff it reaches the threshold. |
| Events.StepsPreserveInv | packages/extension/src/extension/EventMapper.ts:151-224 | Every step keeps the invariant: no batch outside batch mode, and in batch mode the score is the batch's total. |
| Events.EventMapper.constructor | packages/extension/src/extension/EventMapper.ts:94-103 | The merged options, an empty batch, a zero score, and nothing sent. |
| Events.EventMapper.SendActivity | packages/extension/src/extension/EventMapper.ts:186-207 | The new state is that of the `Send` step. |
| Events.EventMapper.DebouncedSend | packages/extension/src/extension/EventMapper.ts:99-102 | Any pending debounced send is replaced by one set now. |
| Events.EventMapper.DebounceFires | packages/extension/src/extension/EventMapper.ts:99-102 | The debounced send runs `sendActivity`. |
| Events.EventMapper.RecordActivity | packages/extension/src/extension/EventMapper.ts:151-175 | The new state is that of the `Record` step. |
| Events.EventMapper.ClearCache | packages/extension/src/extension/EventMapper.ts:212-217 | Empties the batch and the project cache, zeroes the score, and forgets the last document. |
| Events.EventMapper.FlushActivities | packages/extension/src/extension/EventMapper.ts:222-224 | The same as `sendActivity`. |
| Events.TwoSmallActivitiesWait | packages/extension/src/extension/EventMapper.ts:151-175 | Under the defaults, two cursor moves wait for the debounced send. |
| Events.ThresholdSendsBatch | packages/extension/src/extension/EventMapper.ts:151-207 | A text selection that brings the total to 5 sends all three activities at once. The later timer then sends nothing. |
| TimeTracking.DayWindow | packages/extension/src/services/TimeTrackingService.ts:194-196 | A session's day key is d exactly when its start lies in the half-open window of that day. |
| TimeTracking.FocusTimeBounds | packages/extension/src/services/TimeTrackingService.ts:131-137 | The focus time is never negative and never exceeds the elapsed seconds. Together with the idle time it covers the elapsed time. |
| TimeTracking.StartWhileTrackingIsNoOp | packages/extension/src/services/TimeTrackingService.ts:75-78 | Starting while tracking changes nothing. |
| TimeTracking.StartOpensSession | packages/extension/src/services/TimeTrackingService.ts:82-103 | Opens an active session with zero focus and idle time and no activities, and sets the tracking flag. The stored sessions are kept, and the webview is told. |
| TimeTracking.StopWithoutSessionIsNoOp | packages/extension/src/services/TimeTrackingService.ts:119-122 | Stopping when not tracking, or with no current session, changes nothing. |
| TimeTracking.StopStoresSession | packages/extension/src/services/TimeTrackingService.ts:131-151 | Appends the open session, finished at `now`, inactive, with focus `max(0, floor(ms/1000) - idle)`. Then it clears the current session and the tracking flag. |
| TimeTracking.IdleWithoutSessionIsNoOp | packages/extension/src/services/TimeTrackingService.ts:292-304 | An idle change with no current session changes nothing. |
| TimeTracking.IdleAddsWholeSeconds | packages/extension/src/services/TimeTrackingService.ts:292-304 | Going idle adds `floor(idleMs/1000)` to the idle time, and nothing else in the session changes. |
| TimeTracking.ActivityIsRecorded | packages/extension/src/services/TimeTrackingService.ts:280-289 | An activity is appended to the open session with its arrival time. With no session nothing changes. |
| TimeTracking.ResetClearsEverything | packages/extension/src/services/TimeTrackingService.ts:255-276 | Leaves no sessions and no open session, and is not tracking. |
| TimeTracking.InitialIsValid | packages/extension/src/services/TimeTrackingService.ts:41-43 | The empty service satisfies the invariant. |
| TimeTracking.StepsPreserveInv | packages/extension/src/services/TimeTrackingService.ts:74-304 | Every step keeps the invariant. The tracking flag holds iff a session is open. The open session is active and unfinished. Stored sessions are inactive and finished. |
| TimeTracking.TenMinutesWithOneIdle | packages/extension/src/services/TimeTrackingService.ts:118-165 | Ten minutes with one idle minute store a session with 540 s of focus and 60 s of idle time. |
| TimeTracking.OnDay | packages/extension/src/services/TimeTrackingService.ts:194-196 | Keeps exactly the sessions that started on the day. |
| TimeTracking.OnDayAppend | packages/extension/src/services/TimeTrackingService.ts:194-196 | Selecting a day distributes over concatenation. |
| TimeTracking.TotalFocusAppend | packages/extension/src/services/TimeTrackingService.ts:198 | The focus total of two lists is the sum of their totals. |
| TimeTracking.ProjectNames | packages/extension/src/services/TimeTrackingService.ts:199 | The sessions' project names, position by position. |
| TimeTracking.Distinct | packages/extension/src/services/TimeTrackingService.ts:199 | `[...new Set(xs)]` has no duplicates and exactly the values of xs. |
| TimeTracking.FirstIndex | packages/extension/src/services/TimeTrackingService.ts:199 | The position of a value's first occurrence: it holds the value, and no earlier position does. |
| TimeTracking.FirstIndexUnique | packages/extension/src/services/TimeTrackingService.ts:199 | An occurrence with no earlier one is the first occurrence. |
| TimeTracking.FirstIndexSnoc | packages/extension/src/services/TimeTrackingService.ts:199 | Appending an element does not move the first occurrence of a value already present. |
| TimeTracking.DistinctFirstAppearanceOrder | packages/extension/src/services/TimeTrackingService.ts:199 | `[...new Set(xs)]` lists the values in the order of their first appearance in xs. |
| TimeTracking.StatsOn | packages/extension/src/services/TimeTrackingService.ts:190-211 | Counts exactly the day's sessions. The focus time is their sum. The projects are their project names without duplicates. The average is `floor(sum/count)`, or 0 on an empty day. |
| TimeTracking.FloorAverage | packages/extension/src/services/TimeTrackingService.ts:200-202 | The average times the count is at most the sum, and pushes past it with one more. |
| TimeTracking.EmptyDay | packages/extension/src/services/TimeTrackingService.ts:190-211 | A day without sessions reports zero everywhere. |
| TimeTracking.OtherDaySessionChangesNothing | packages/extension/src/services/TimeTrackingService.ts:190-211 | A session from another day leaves a day's stats unchanged. |
| TimeTracking.SameDaySessionCounts | packages/extension/src/services/TimeTrackingService.ts:190-211 | A session on the day adds one to the count, adds its focus time, and its project appears. |
| TimeTracking.DailyStatsFor | packages/extension/src/services/TimeTrackingService.ts:190-191 | Reports the given day, or today when no date is given. |
| TimeTracking.ParseFormat | packages/extension/src/services/TimeTrackingService.ts:243-252 | "csv", "json" and "pdf" and nothing else are formats. |
| TimeTracking.InRange | packages/extension/src/services/TimeTrackingService.ts:237-240 | Keeps exactly the sessions whose start lies in the inclusive range. |
| TimeTracking.InRangeAppend | packages/extension/src/services/TimeTrackingService.ts:237-240 | The filter distributes over concatenation, so the kept sessions stay in stored order. |
| TimeTracking.InRangeKeepsMultiplicity | packages/extension/src/services/TimeTrackingService.ts:237-240 | A session in the range is kept as many times as it is stored. A session outside it is not kept. |
| TimeTracking.ExportData | packages/extension/src/services/TimeTrackingService.ts:229-253 | Throws iff the format is unknown, with "Unsupported export format: " and the format. Without a range every session is exported. With one, the result is the range filter of the stored sessions: exactly those starting inside it, in stored order. |
| TimeTracking.InvalidRangeExportsNothing | packages/extension/src/services/TimeTrackingService.ts:233-240 | A range with an unparsable date exports no session, because NaN comparisons are false. |
| TimeTracking.NothingWithinInvalidRange | packages/extension/src/services/TimeTrackingService.ts:237-240 | No session lies inside a range with a missing bound. |
| TimeTracking.TimeTrackingService.constructor | packages/extension/src/services/TimeTrackingService.ts:41-47 | No sessions, nothing open, not tracking, no webview. |
| TimeTracking.TimeTrackingService.SetWebviewProvider | packages/extension/src/services/TimeTrackingService.ts:70-72 | Attaches the webview and changes nothing else. |
| TimeTracking.TimeTrackingService.NotifyWebview | packages/extension/src/services/TimeTrackingService.ts:400-404 | Posts the update only when a webview is attached. |
| TimeTracking.TimeTrackingService.StartTracking | packages/extension/src/services/TimeTrackingService.ts:74-116 | The new state is that of the `Start` step. |
| TimeTracking.TimeTrackingService.StopTracking | packages/extension/src/services/TimeTrackingService.ts:118-165 | The new state is that of the `Stop` step. |
| TimeTracking.TimeTrackingService.OnIdleStateChange | packages/extension/src/services/TimeTrackingService.ts:292-304 | The new state is that of the `IdleChange` step. |
| TimeTracking.TimeTrackingService.OnActivityDetected | packages/extension/src/services/TimeTrackingService.ts:280-289 | The new state is that of the `ActivityDetected` step. |
| TimeTracking.TimeTrackingService.ResetAllData | packages/extension/src/services/TimeTrackingService.ts:255-276 | The new state is that of the `Reset` step. |
| TimeTracking.TimeTrackingService.GetDailyStats | packages/extension/src/services/TimeTrackingService.ts:190-211 | The stored sessions' stats for the date, or for today. |
| TimeTracking.TimeTrackingService.GetWeeklyStats | packages/extension/src/services/TimeTrackingService.ts:213-227 | Exactly seven entries, oldest first. Entry k is the stats of day `today - 6 + k`. |
| TimeTracking.TimeTrackingService.ExportSessions | packages/extension/src/services/TimeTrackingService.ts:229-253 | The export of the stored sessions. |
| TimeFormat.JsRem | packages/extension/src/extension.ts:142-143 | JavaScript's `%`. It agrees with the mathematical remainder on non-negative operands and stays strictly inside (-b, b). |
| TimeFormat.PadStart | packages/extension/src/extension.ts:146 | A string already long enough is unchanged. Otherwise the result is fill characters followed by the string, exactly the width long. |
| TimeFormat.ComponentsInRange | packages/extension/src/extension.ts:141-143 | For a non-negative count, hours are non-negative. Minutes are `(s mod 3600) div 60`, and minutes and seconds lie in 0..59. |
| TimeFormat.ComponentsRecombine | packages/extension/src/extension.ts:141-143 | `hours*3600 + minutes*60 + secs` is the count. |
| TimeFormat.NoHoursBelowAnHour | packages/extension/src/extension.ts:141-142 | Below an hour there are no hours, and the minutes are the whole minutes. |
| TimeFormat.TwoDigitsShape | packages/extension/src/extension.ts:146-148 | A clock digit pair is two digits that read back as the number, with a leading zero below ten. |
| TimeFormat.FormatShape | packages/extension/src/extension.ts:140-150 | `H:MM:SS` from one hour up and `M:SS` below. |
| TimeFormat.Examples | packages/extension/src/extension.ts:140-150 | 5405 s reads "1:30:05", and 5 s reads "0:05". |
| TimeFormat.FormatRoundTrip | packages/extension/src/extension.ts:140-150 | Reading the clock back gives the count: the formatter loses nothing. |
| TimeFormat.FormatInjective | packages/extension/src/extension.ts:140-150 | Different non-negative counts never show the same clock. |
| WebviewStore.InitialState | packages/webview/src/store/timeTrackingStore.ts:70-91 | The dashboard view, no session, no stats, and the default settings (300 s idle, 8 h goal, auto theme, all flags on). It is not connected, not loading, and has no error. |
| WebviewStore.AddRecentKeepsNewest | packages/webview/src/store/timeTrackingStore.ts:103-111 | The new session comes first and the list holds at most 10. The earlier sessions follow in order; only those beyond ten are dropped. |
| WebviewStore.AddRecentKeepsNine | packages/webview/src/store/timeTrackingStore.ts:103-111 | One of the nine newest sessions moves one place back and remains. |
| WebviewStore.MergeOverwritesGivenKeys | packages/webview/src/store/timeTrackingStore.ts:126 | Each given key takes its new value, and every other key keeps its old one. |
| WebviewStore.MergeLaws | packages/webview/src/store/timeTrackingStore.ts:126 | Merging nothing changes nothing, and merging the same partial twice equals merging it once. |
| WebviewStore.MergeLaterWins | packages/webview/src/store/timeTrackingStore.ts:126 | Of two merges, the later one wins key by key. |
| WebviewStore.SendOutcome | packages/webview/src/store/timeTrackingStore.ts:155-167 | A delivered message is posted once and clears the error. A missing API sets the error "VS Code API not available". A throw sets its message, or "Communication error" for a non-Error value. |
| WebviewStore.UpdateSettingsSendsPartial | packages/webview/src/store/timeTrackingStore.ts:123-137 | Merges the partial into the settings and sends one `updateSettings` message carrying the partial. |
| WebviewStore.ReceiveTouchesOneField | packages/webview/src/store/timeTrackingStore.ts:181-207 | Each known message type replaces only its own field. An unknown type changes nothing. |
| WebviewStore.SettingsUpdateIsEchoed | packages/webview/src/store/timeTrackingStore.ts:195-197 | An inbound settings update is merged in and sent back as an `updateSettings` request. |
| WebviewStore.ReceiveKeepsLocalState | packages/webview/src/store/timeTrackingStore.ts:181-207 | No inbound message changes the recent sessions, the view or the loading flag. |
| WebviewStore.StepsPreserveInv | packages/webview/src/store/timeTrackingStore.ts:103-207 | Adding, receiving, updating settings and sending all keep the recent list at ten or fewer. |
| WebviewStore.Store.constructor | packages/webview/src/store/timeTrackingStore.ts:83-91 | The initial state. |
| WebviewStore.Store.SetActiveView | packages/webview/src/store/timeTrackingStore.ts:94-96 | Replaces the view. |
| WebviewStore.Store.SetCurrentSession | packages/webview/src/store/timeTrackingStore.ts:99-101 | Replaces the current session. |
| WebviewStore.Store.AddSession | packages/webview/src/store/timeTrackingStore.ts:103-111 | The recent list becomes the `AddRecent` list. |
| WebviewStore.Store.SetDailyStats | packages/webview/src/store/timeTrackingStore.ts:114-116 | Replaces the daily stats. |
| WebviewStore.Store.SetWeeklyStats | packages/webview/src/store/timeTrackingStore.ts:118-120 | Replaces the weekly stats. |
| WebviewStore.Store.SetConnectionStatus | packages/webview/src/store/timeTrackingStore.ts:140-142 | Replaces the connection flag. |
| WebviewStore.Store.SetLoading | packages/webview/src/store/timeTrackingStore.ts:145-147 | Replaces the loading flag. |
| WebviewStore.Store.SetError | packages/webview/src/store/timeTrackingStore.ts:150-152 | Replaces the last error. |
| WebviewStore.Store.SendMessage | packages/webview/src/store/timeTrackingStore.ts:155-167 | The new state is that of the `Send` step. |
| WebviewStore.Store.UpdateSettings | packages/webview/src/store/timeTrackingStore.ts:123-137 | The new state is that of the settings-update step. |
| WebviewStore.Store.OnMessage | packages/webview/src/store/timeTrackingStore.ts:181-207 | The new state is that of the `Receive` step. |

## Left out

- `createRequestId` and `createRequest`: they draw on `Math.random` and `Date.now`. Ids, timestamps and the clock are parameters instead.
- Real timers, promises and `console` logging: timers are tickets, settlements are a recorded map, and a timer firing is an explicit event.
- Fractional numbers, `Infinity`, and the sign of zero: numbers are integers plus NaN.
- Date and URL parsing: `new Date(s)` and `new URL(s)` are host functions given as parameters.
- How JavaScript orders the integer-like keys of `Object.keys`: object properties keep their written order.
- Duplicate keys in an object: a read finds the first.
- Spread of explicitly `undefined` options: an option is either given or missing.
- `validateArray` rewrites each item error's `field` in place, which the item's own result would also show. The model builds renamed copies, so that aliasing is not captured.
- `validateActivityPayload` is not part of this model. It is a predicate given to the event mapper's constructor.
- EventMapper: its VS Code event subscriptions, `dispose`, `isDocumentSaved` and the project lookup behind the cache; `IpcBridge.send` is an appended log.
- TimeTrackingService: persistence in `globalState`, including `_loadPersistedData`; its `vscode.window` messages and the `_formatTime` notification text; `_detectCurrentProject` and `_generateSessionId`, whose results are parameters; the wiring to the event mapper and idle detector.
- TimeTrackingService `pauseTracking` only forces the external idle detector, so it leaves the service state unchanged. `_onSessionUpdate`'s `Object.assign` of arbitrary integration data is left out too.
- The JSON, CSV and PDF renderers of `exportData`: the model returns the format and the sessions to render.
- Date strings are modelled as day keys: `getDailyStats`'s missing or empty date is `None`, and a date is compared by its day key rather than as a `YYYY-MM-DD` string.
- Dates are UTC day indexes (`ms / 86400000`), which matches `toISOString`. `getWeeklyStats` steps back with local-time `setDate`, so across a daylight-saving change the source may yield a day key one off. That effect is not modelled.
- TimeTracking.TimeTrackingService.StartTracking: the `catch` path is not modelled. `_detectCurrentProject` and the three component starts are taken not to throw. In the source a throw from a component start (TimeTrackingService.ts:93-95) leaves `_currentSession` set while `_isTracking` stays false. The model's invariant, tracking iff a session is open, excludes that state. A throw from `_detectCurrentProject` only logs and leaves the state unchanged.
- TimeTracking.TimeTrackingService.StartTracking: the asynchronous `startTracking` is modelled as one atomic step. In the source two calls that overlap across the `await` at TimeTrackingService.ts:84 both pass the `_isTracking` check, and the later one overwrites the earlier one's session.
- TimeTracking.TimeTrackingService.StopTracking: the asynchronous `stopTracking` is modelled as one atomic step. In the source the session is pushed (TimeTrackingService.ts:140) before the `await` of `_persistSession` (line 141), and `_currentSession` and `_isTracking` are cleared only after it (lines 144-145). A second `stopTracking` in that window passes the check at line 119. It sets `endTime` and `focusTime` again and pushes the same object a second time, so `getDailyStats` counts that session twice. An idle event in the same window changes the stored session's `idleTime` through `_currentSession`, because both names refer to one object. The model stores a copy and has no such window, so neither the double push nor the sharing is captured.
- TimeTracking.TimeTrackingService.StopTracking: the `catch` path is not modelled. The component stops and `_persistSession` are taken not to throw.
- Webview store: inbound payloads are taken as well typed. The zustand `devtools` middleware, the `window` listener registration, and the React components that call `sendMessage` are left out.
- TimeFormat: negative counts are modelled with JavaScript's `%`, but the shape and round-trip lemmas are stated only for counts of zero or more.
- MessageHandling.MessageHandler.SendRequest: a synchronous reply is modelled as at most one response delivered from inside `sendFn`. Further nesting is not modelled.
- MessageHandling.MessageHandler.SendRequest: `sendFn` is taken not to throw. In the source a throw inside the promise executor rejects the caller's promise, but the pending entry and its timer stay. A later reply then calls the entry's functions on a settled promise with no effect, and the timer still fires. The invariant, under which a settled promise has no entry and no timer, holds only under this assumption.
- Ipc.IPCManager.SendRequest: `bridge.send` is taken not to throw, for the same reason as `sendFn` above.
- Notifications.NotificationDispatcher.Dispatch: handlers that subscribe or unsubscribe while a dispatch is running are not modelled. The handlers are fixed when the dispatch starts. In the source `forEach` walks the live array, so a handler that unsubscribes itself makes the next handler be skipped.
- WebviewProvider, projectUtils, the build scripts, extension activation and the status-bar interval are outside this model.

## Findings

| source | as written | input that shows it | evidently intended | confidence | as-written member | corrected member |
|---|---|---|---|---|---|---|
| packages/core/src/utils/debounce.ts:86-95 | With `immediate`, a call runs at once and returns before any timer is set. So no timer is ever pending, and every later call also counts as a first call. | `debounce(f, 100, {immediate: true})` called at 0 ms and at 1 ms runs `f` twice. | The option's own description: run on the leading edge, then stay quiet until `wait` passes without a call. Two calls 1 ms apart run once. | not executed | Debounce.ImmediateRunsEveryCall | Debounce.LeadingCallsWithinWaitRunOnce |
