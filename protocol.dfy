/**
 * The IPC message protocol between the editor process and the webview: the
 * closed lists of message types, the type guards that classify an untyped
 * value, `validateMessage`, and the stateless helpers that build an error
 * response and pair a response with its request.
 */
module Protocol {
  import opened Wrappers
  import opened Js
  import Uuid

  // ---------------------------------------------------------------- message types

  /** The 22 request discriminants. */
  const RequestTypes: seq<string> := [
    "startSession", "pauseSession", "resumeSession", "stopSession", "getSessionStatus",
    "getSessions", "getDailyStats", "getWeeklyStats", "getMonthlyStats", "getProjectStats",
    "getSettings", "updateSettings", "resetSettings", "exportData", "startPomodoro",
    "stopPomodoro", "startBreak", "stopBreak", "tagSession", "getAvailableTags",
    "getProjects", "getHealthMetrics"
  ]

  /** The 22 success-response discriminants. */
  const ResponseTypes: seq<string> := [
    "startSessionResponse", "pauseSessionResponse", "resumeSessionResponse", "stopSessionResponse",
    "getSessionStatusResponse", "getSessionsResponse", "getDailyStatsResponse",
    "getWeeklyStatsResponse", "getMonthlyStatsResponse", "getProjectStatsResponse",
    "getSettingsResponse", "updateSettingsResponse", "resetSettingsResponse",
    "exportDataResponse", "startPomodoroResponse", "stopPomodoroResponse", "startBreakResponse",
    "stopBreakResponse", "tagSessionResponse", "getAvailableTagsResponse", "getProjectsResponse",
    "getHealthMetricsResponse"
  ]

  /** The 8 notification discriminants. */
  const NotificationTypes: seq<string> := [
    "statusUpdate", "idleDetected", "focusTimeUpdate", "pomodoroUpdate", "breakUpdate",
    "goalReached", "healthAlert", "projectDetected"
  ]

  /** `message.type` of a value whose properties can be read. */
  function TypeOf(m: JsValue): JsValue { Get(m, "type") }

  /** `message.id`. */
  function IdOf(m: JsValue): JsValue { Get(m, "id") }

  // ---------------------------------------------------------------- type guards

  /** `isMessageBase`: a non-null object with a string `type`, a string `id` and a numeric or absent `timestamp`. */
  predicate IsMessageBase(m: JsValue)
  {
    IsObject(m) && TypeOf(m).Str? && IdOf(m).Str?
    && (Get(m, "timestamp").Undefined? || IsNumber(Get(m, "timestamp")))
  }

  /** `isErrorResponse`: a message base of type "error" whose `error` object has string `code` and `message`. */
  predicate IsErrorResponse(m: JsValue)
  {
    IsMessageBase(m) && TypeOf(m) == Str("error")
    && IsObject(Get(m, "error"))
    && Get(Get(m, "error"), "code").Str? && Get(Get(m, "error"), "message").Str?
  }

  /** `isRequestMessage`. */
  predicate IsRequestMessage(m: JsValue)
  {
    IsMessageBase(m) && TypeOf(m).Str? && TypeOf(m).s in RequestTypes
  }

  /** `isResponseMessage`: every error response, whatever its id looks like, and the 22 success types. */
  predicate IsResponseMessage(m: JsValue)
  {
    IsMessageBase(m) && (IsErrorResponse(m) || TypeOf(m).s in ResponseTypes)
  }

  /** `isNotificationMessage`: a non-null object whose string `type` is a notification type; no id needed. */
  predicate IsNotificationMessage(m: JsValue)
  {
    IsObject(m) && TypeOf(m).Str? && TypeOf(m).s in NotificationTypes
  }

  /** `isMessageOfType(message, type)`. */
  predicate IsMessageOfType(m: JsValue, t: string)
  {
    IsObject(m) && TypeOf(m) == Str(t)
  }

  // The literal lists are compared a few positions at a time to keep each proof small.
  lemma ResponseTypesFollowRequestTypes0()
    ensures forall i :: 0 <= i < 6 ==> ResponseTypes[i] == RequestTypes[i] + "Response"
  {
    assert ResponseTypes[0] == RequestTypes[0] + "Response";
    assert ResponseTypes[1] == RequestTypes[1] + "Response";
    assert ResponseTypes[2] == RequestTypes[2] + "Response";
    assert ResponseTypes[3] == RequestTypes[3] + "Response";
    assert ResponseTypes[4] == RequestTypes[4] + "Response";
    assert ResponseTypes[5] == RequestTypes[5] + "Response";
  }

  lemma ResponseTypesFollowRequestTypes1()
    ensures forall i :: 6 <= i < 12 ==> ResponseTypes[i] == RequestTypes[i] + "Response"
  {
    assert ResponseTypes[6] == RequestTypes[6] + "Response";
    assert ResponseTypes[7] == RequestTypes[7] + "Response";
    assert ResponseTypes[8] == RequestTypes[8] + "Response";
    assert ResponseTypes[9] == RequestTypes[9] + "Response";
    assert ResponseTypes[10] == RequestTypes[10] + "Response";
    assert ResponseTypes[11] == RequestTypes[11] + "Response";
  }

  lemma ResponseTypesFollowRequestTypes2()
    ensures forall i :: 12 <= i < 17 ==> ResponseTypes[i] == RequestTypes[i] + "Response"
  {
    assert ResponseTypes[12] == RequestTypes[12] + "Response";
    assert ResponseTypes[13] == RequestTypes[13] + "Response";
    assert ResponseTypes[14] == RequestTypes[14] + "Response";
    assert ResponseTypes[15] == RequestTypes[15] + "Response";
    assert ResponseTypes[16] == RequestTypes[16] + "Response";
  }

  lemma ResponseTypesFollowRequestTypes3()
    ensures forall i :: 17 <= i < 22 ==> ResponseTypes[i] == RequestTypes[i] + "Response"
  {
    assert ResponseTypes[17] == RequestTypes[17] + "Response";
    assert ResponseTypes[18] == RequestTypes[18] + "Response";
    assert ResponseTypes[19] == RequestTypes[19] + "Response";
    assert ResponseTypes[20] == RequestTypes[20] + "Response";
    assert ResponseTypes[21] == RequestTypes[21] + "Response";
  }

  /** Every success-response type is a request type with "Response" appended, position by position. */
  lemma ResponseTypesFollowRequestTypes()
    ensures |ResponseTypes| == |RequestTypes| == 22
    ensures forall i :: 0 <= i < 22 ==> ResponseTypes[i] == GetResponseType(RequestTypes[i])
  {
    ResponseTypesFollowRequestTypes0();
    ResponseTypesFollowRequestTypes1();
    ResponseTypesFollowRequestTypes2();
    ResponseTypesFollowRequestTypes3();
  }

  /** Every success-response type ends in "Response". */
  lemma ResponseTypesEndInResponse()
    ensures forall t :: t in ResponseTypes ==> EndsWith(t, "Response")
  {
    ResponseTypesFollowRequestTypes();
    forall t | t in ResponseTypes ensures EndsWith(t, "Response") {
      var i :| 0 <= i < |ResponseTypes| && ResponseTypes[i] == t;
      assert t == GetResponseType(RequestTypes[i]);
    }
  }

  /** No request type ends in "Response" or is "error". */
  lemma RequestTypesDoNotEndInResponse()
    ensures forall t :: t in RequestTypes ==> !EndsWith(t, "Response") && t != "error"
  {
  }

  /** The notification types are neither requests, success responses nor "error". */
  lemma NotificationTypesAreDistinct()
    ensures forall t :: t in NotificationTypes ==> t !in RequestTypes && t !in ResponseTypes && t != "error"
  {
    NotificationsAreNotRequests0();
    NotificationsAreNotRequests1();
    NotificationsDoNotEndInResponse();
    ResponseTypesEndInResponse();
    forall t | t in NotificationTypes ensures t !in RequestTypes && t !in ResponseTypes && t != "error" {
      var i :| 0 <= i < |NotificationTypes| && NotificationTypes[i] == t;
    }
  }

  lemma NotificationsAreNotRequests0()
    ensures forall i :: 0 <= i < 4 ==> NotificationTypes[i] !in RequestTypes
  {
  }

  lemma NotificationsAreNotRequests1()
    ensures forall i :: 4 <= i < 8 ==> NotificationTypes[i] !in RequestTypes
  {
  }

  lemma NotificationsDoNotEndInResponse()
    ensures forall t :: t in NotificationTypes ==> !EndsWith(t, "Response") && t != "error"
  {
  }

  /** A value is at most one of request, response (including error) and notification. */
  lemma ClassificationIsExclusive(m: JsValue)
    ensures !(IsRequestMessage(m) && IsResponseMessage(m))
    ensures !(IsRequestMessage(m) && IsNotificationMessage(m))
    ensures !(IsResponseMessage(m) && IsNotificationMessage(m))
  {
    NotificationTypesAreDistinct();
    RequestTypesDoNotEndInResponse();
    ResponseTypesEndInResponse();
  }

  // ---------------------------------------------------------------- UUID

  /** `isValidUUID`: 8-4-4-4-12 hex digits in either case, with no version or variant constraint. */
  function IsValidUUID(uuid: string): (r: bool)
    ensures r <==> Uuid.UuidShaped(uuid)
  {
    Uuid.LooseIsShape(uuid);
    Uuid.Matches(uuid, Uuid.LoosePattern)
  }

  // ---------------------------------------------------------------- validateMessage

  /** Why `validateMessage` rejected a message; `ErrorText` gives the reported string. */
  datatype Reason =
    | NotAnObject | NoStringType | NoId | BadId | BadTimestamp
    | NoPayload | NoErrorObject | NoErrorCode | NoErrorMessage

  /** The result of `validateMessage`: `{valid: true}` or `{valid: false, error}`. */
  datatype Verdict = Valid | Invalid(reason: Reason)

  /** The `error` string reported for each reason. */
  function ErrorText(r: Reason): string
  {
    match r
    case NotAnObject => "Message must be an object"
    case NoStringType => "Message must have a string type property"
    case NoId => "Message must have an id property"
    case BadId => "Message id must be a valid UUID"
    case BadTimestamp => "Message timestamp must be a number"
    case NoPayload => "Response messages must have a payload"
    case NoErrorObject => "Error response must have an error object"
    case NoErrorCode => "Error response must have an error.code string"
    case NoErrorMessage => "Error response must have an error.message string"
  }

  /** `validateMessage`: an ordered chain of checks in which the first failing one names the result. */
  function ValidateMessage(m: JsValue): Verdict
  {
    if !IsObject(m) then Invalid(NotAnObject)
    else if !TypeOf(m).Str? then Invalid(NoStringType)
    else if IsNotificationMessage(m) then Valid
    else ValidateIdentified(m)
  }

  /** The rest of the chain, applied to an object with a string type that is not a notification. */
  function ValidateIdentified(m: JsValue): Verdict
    requires IsObject(m) && TypeOf(m).Str?
  {
    if !Truthy(IdOf(m)) then Invalid(NoId)
    // the regular expression's `test` converts a non-string id with String(id)
    else if !IsValidUUID(ToJsString(IdOf(m))) then Invalid(BadId)
    else if !Get(m, "timestamp").Undefined? && !IsNumber(Get(m, "timestamp")) then Invalid(BadTimestamp)
    else if EndsWith(TypeOf(m).s, "Response") && !Truthy(Get(m, "payload")) then Invalid(NoPayload)
    else if TypeOf(m).s == "error" then ValidateErrorBody(Get(m, "error"))
    else Valid
  }

  /** The checks on the `error` member of a message of type "error". */
  function ValidateErrorBody(e: JsValue): Verdict
  {
    if !Truthy(e) || !IsTypeofObject(e) then Invalid(NoErrorObject)
    else if !Get(e, "code").Str? then Invalid(NoErrorCode)
    else if !Get(e, "message").Str? then Invalid(NoErrorMessage)
    else Valid
  }

  // The individual rules of the chain, each stated on its own.
  predicate IsAnObject(m: JsValue) { IsObject(m) }
  predicate HasStringType(m: JsValue) { IsObject(m) && TypeOf(m).Str? }
  predicate IdPresent(m: JsValue) { Truthy(IdOf(m)) }
  predicate IdIsUuid(m: JsValue) { Uuid.UuidShaped(ToJsString(IdOf(m))) }
  predicate TimestampOk(m: JsValue) { Get(m, "timestamp").Undefined? || IsNumber(Get(m, "timestamp")) }
  predicate PayloadOk(m: JsValue) requires HasStringType(m)
  {
    EndsWith(TypeOf(m).s, "Response") ==> Truthy(Get(m, "payload"))
  }
  predicate ErrorObjectOk(m: JsValue) requires HasStringType(m)
  {
    TypeOf(m).s == "error" ==> IsObject(Get(m, "error"))
  }
  predicate ErrorFieldsOk(m: JsValue) requires HasStringType(m)
  {
    TypeOf(m).s == "error" ==>
      Get(Get(m, "error"), "code").Str? && Get(Get(m, "error"), "message").Str?
  }

  /** The checks that a message other than a notification must pass, in the order they are applied. */
  predicate IdentifiedMessageOk(m: JsValue) requires HasStringType(m)
  {
    IdPresent(m) && IdIsUuid(m) && TimestampOk(m) && PayloadOk(m) && ErrorObjectOk(m) && ErrorFieldsOk(m)
  }

  /** A message is valid exactly when it is an object with a string type that is a notification type or passes every other rule. */
  lemma ValidateMessageAccepts(m: JsValue)
    ensures ValidateMessage(m) == Valid <==>
              HasStringType(m) && (TypeOf(m).s in NotificationTypes || IdentifiedMessageOk(m))
  {
  }

  /** Each reason is returned exactly when every earlier rule passed and its own rule failed. */
  lemma ValidateMessageFirstFailure(m: JsValue)
    ensures ValidateMessage(m) == Invalid(NotAnObject) <==> !IsAnObject(m)
    ensures ValidateMessage(m) == Invalid(NoStringType) <==> IsAnObject(m) && !HasStringType(m)
    ensures ValidateMessage(m) == Invalid(NoId) <==>
              HasStringType(m) && TypeOf(m).s !in NotificationTypes && !IdPresent(m)
    ensures ValidateMessage(m) == Invalid(BadId) <==>
              HasStringType(m) && TypeOf(m).s !in NotificationTypes && IdPresent(m) && !IdIsUuid(m)
    ensures ValidateMessage(m) == Invalid(BadTimestamp) <==>
              HasStringType(m) && TypeOf(m).s !in NotificationTypes && IdPresent(m) && IdIsUuid(m)
              && !TimestampOk(m)
    ensures ValidateMessage(m) == Invalid(NoPayload) <==>
              HasStringType(m) && TypeOf(m).s !in NotificationTypes && IdPresent(m) && IdIsUuid(m)
              && TimestampOk(m) && !PayloadOk(m)
    ensures ValidateMessage(m) == Invalid(NoErrorObject) <==>
              HasStringType(m) && TypeOf(m).s !in NotificationTypes && IdPresent(m) && IdIsUuid(m)
              && TimestampOk(m) && PayloadOk(m) && !ErrorObjectOk(m)
    ensures ValidateMessage(m) == Invalid(NoErrorCode) <==>
              HasStringType(m) && TypeOf(m).s !in NotificationTypes && IdPresent(m) && IdIsUuid(m)
              && TimestampOk(m) && PayloadOk(m) && ErrorObjectOk(m)
              && TypeOf(m).s == "error" && !Get(Get(m, "error"), "code").Str?
    ensures ValidateMessage(m) == Invalid(NoErrorMessage) <==>
              HasStringType(m) && TypeOf(m).s !in NotificationTypes && IdPresent(m) && IdIsUuid(m)
              && TimestampOk(m) && PayloadOk(m) && ErrorObjectOk(m)
              && TypeOf(m).s == "error" && Get(Get(m, "error"), "code").Str?
              && !Get(Get(m, "error"), "message").Str?
  {
    FirstFailureOfShape(m);
    FirstFailureOfIdentity(m);
    FirstFailureOfError(m);
  }

  /** The reasons about the value, its type and its id being present. */
  lemma FirstFailureOfShape(m: JsValue)
    ensures ValidateMessage(m) == Invalid(NotAnObject) <==> !IsAnObject(m)
    ensures ValidateMessage(m) == Invalid(NoStringType) <==> IsAnObject(m) && !HasStringType(m)
    ensures ValidateMessage(m) == Invalid(NoId) <==>
              HasStringType(m) && TypeOf(m).s !in NotificationTypes && !IdPresent(m)
  {
  }

  /** The reasons about the id, the timestamp and the payload. */
  lemma FirstFailureOfIdentity(m: JsValue)
    ensures ValidateMessage(m) == Invalid(BadId) <==>
              HasStringType(m) && TypeOf(m).s !in NotificationTypes && IdPresent(m) && !IdIsUuid(m)
    ensures ValidateMessage(m) == Invalid(BadTimestamp) <==>
              HasStringType(m) && TypeOf(m).s !in NotificationTypes && IdPresent(m) && IdIsUuid(m)
              && !TimestampOk(m)
    ensures ValidateMessage(m) == Invalid(NoPayload) <==>
              HasStringType(m) && TypeOf(m).s !in NotificationTypes && IdPresent(m) && IdIsUuid(m)
              && TimestampOk(m) && !PayloadOk(m)
  {
  }

  /** The reasons about an error message's `error` object. */
  lemma FirstFailureOfError(m: JsValue)
    ensures ValidateMessage(m) == Invalid(NoErrorObject) <==>
              HasStringType(m) && TypeOf(m).s !in NotificationTypes && IdPresent(m) && IdIsUuid(m)
              && TimestampOk(m) && PayloadOk(m) && !ErrorObjectOk(m)
    ensures ValidateMessage(m) == Invalid(NoErrorCode) <==>
              HasStringType(m) && TypeOf(m).s !in NotificationTypes && IdPresent(m) && IdIsUuid(m)
              && TimestampOk(m) && PayloadOk(m) && ErrorObjectOk(m)
              && TypeOf(m).s == "error" && !Get(Get(m, "error"), "code").Str?
    ensures ValidateMessage(m) == Invalid(NoErrorMessage) <==>
              HasStringType(m) && TypeOf(m).s !in NotificationTypes && IdPresent(m) && IdIsUuid(m)
              && TimestampOk(m) && PayloadOk(m) && ErrorObjectOk(m)
              && TypeOf(m).s == "error" && Get(Get(m, "error"), "code").Str?
              && !Get(Get(m, "error"), "message").Str?
  {
  }

  /** A notification is valid without an id, a timestamp or a payload. */
  lemma NotificationsNeedNoId(m: JsValue)
    requires IsNotificationMessage(m)
    ensures ValidateMessage(m) == Valid
  {
  }

  /** Every message the validator accepts and that is not a notification carries a UUID-shaped id. */
  lemma ValidMessagesHaveUuids(m: JsValue)
    requires ValidateMessage(m) == Valid && !IsNotificationMessage(m)
    ensures Truthy(IdOf(m)) && Uuid.UuidShaped(ToJsString(IdOf(m)))
  {
  }

  // ---------------------------------------------------------------- factory and matching

  /** `createErrorResponse(requestId, code, message, details?)`; `details` is kept only when truthy. */
  function CreateErrorResponse(requestId: string, code: string, message: string, details: Option<JsValue>): JsValue
  {
    var extra := if details.Some? && Truthy(details.value) then [Prop("details", details.value)] else [];
    Obj([Prop("type", Str("error")), Prop("id", Str(requestId)),
         Prop("error", Obj([Prop("code", Str(code)), Prop("message", Str(message))] + extra))])
  }

  /** The properties of a built error response, read one by one. */
  lemma ErrorResponseFields(requestId: string, code: string, message: string, details: Option<JsValue>)
    ensures var r := CreateErrorResponse(requestId, code, message, details);
      TypeOf(r) == Str("error") && IdOf(r) == Str(requestId)
      && Get(r, "timestamp") == Undefined && Get(r, "payload") == Undefined
      && Get(r, "error").Obj?
      && Get(Get(r, "error"), "code") == Str(code) && Get(Get(r, "error"), "message") == Str(message)
  {
    var r := CreateErrorResponse(requestId, code, message, details);
    var ps := r.props;
    assert Lookup(ps, "type") == Some(Str("error"));
    assert Lookup(ps[1..], "id") == Some(Str(requestId));
    assert Lookup(ps, "id") == Some(Str(requestId));
    assert Lookup(ps[1..][1..], "error") == Some(ps[2].value);
    assert Lookup(ps, "error") == Some(ps[2].value);
    assert ps[1..][1..][1..] == [];
    assert Lookup(ps[1..][1..], "timestamp") == None && Lookup(ps[1..][1..], "payload") == None;
    assert Lookup(ps[1..], "timestamp") == None && Lookup(ps[1..], "payload") == None;
    assert Lookup(ps, "timestamp") == None && Lookup(ps, "payload") == None;
    var e := ps[2].value;
    assert Lookup(e.props, "code") == Some(Str(code));
    assert Lookup(e.props[1..], "message") == Some(Str(message));
    assert Lookup(e.props, "message") == Some(Str(message));
  }

  /** A built error response is recognised as an error response carrying the given id. */
  lemma CreateErrorResponseIsErrorResponse(requestId: string, code: string, message: string, details: Option<JsValue>)
    ensures IsErrorResponse(CreateErrorResponse(requestId, code, message, details))
    ensures IsResponseMessage(CreateErrorResponse(requestId, code, message, details))
    ensures IdOf(CreateErrorResponse(requestId, code, message, details)) == Str(requestId)
  {
    ErrorResponseFields(requestId, code, message, details);
  }

  /** A built error response validates exactly when its id is a non-empty UUID-shaped string. */
  lemma CreateErrorResponseValidates(requestId: string, code: string, message: string, details: Option<JsValue>)
    ensures ValidateMessage(CreateErrorResponse(requestId, code, message, details)) ==
              if requestId == "" then Invalid(NoId)
              else if !Uuid.UuidShaped(requestId) then Invalid(BadId)
              else Valid
  {
    var r := CreateErrorResponse(requestId, code, message, details);
    ErrorResponseFields(requestId, code, message, details);
    assert "error" !in NotificationTypes;
    assert !IsNotificationMessage(r);
    assert !EndsWith("error", "Response");
    assert ValidateErrorBody(Get(r, "error")) == Valid;
  }

  /** `getResponseType(requestType)`: the request type followed by "Response". */
  function GetResponseType(requestType: string): (r: string)
    ensures EndsWith(r, "Response") && |r| == |requestType| + 8
    ensures StartsWith(r, requestType)
  {
    requestType + "Response"
  }

  /** Response types determine the request type they answer. */
  lemma GetResponseTypeInjective(a: string, b: string)
    requires GetResponseType(a) == GetResponseType(b)
    ensures a == b
  {
    assert a == GetResponseType(a)[..|a|];
  }

  /** Every request type maps to one of the listed success-response types. */
  lemma GetResponseTypeIsListed(t: string)
    requires t in RequestTypes
    ensures GetResponseType(t) in ResponseTypes
  {
    ResponseTypesFollowRequestTypes();
    var i :| 0 <= i < |RequestTypes| && RequestTypes[i] == t;
    assert ResponseTypes[i] == GetResponseType(t);
  }

  /** `isResponseFor(response, request)`: an error answers a request with the same id; otherwise the type must also match. */
  predicate IsResponseFor(response: JsValue, request: JsValue)
  {
    if IsErrorResponse(response) then IdOf(response) == IdOf(request)
    else TypeOf(response) == Str(GetResponseType(ToJsString(TypeOf(request)))) && IdOf(response) == IdOf(request)
  }

  /** A response answers a request iff the ids agree and it is an error or carries the request's response type. */
  lemma IsResponseForIff(response: JsValue, request: JsValue)
    requires IsRequestMessage(request)
    ensures IsResponseFor(response, request) <==>
              IdOf(response) == IdOf(request)
              && (IsErrorResponse(response) || TypeOf(response) == Str(TypeOf(request).s + "Response"))
  {
  }

  /** An error response built from a request's id answers that request. */
  lemma ErrorResponseAnswersItsRequest(request: JsValue, code: string, message: string, details: Option<JsValue>)
    requires IsRequestMessage(request)
    ensures IsResponseFor(CreateErrorResponse(IdOf(request).s, code, message, details), request)
  {
    CreateErrorResponseIsErrorResponse(IdOf(request).s, code, message, details);
  }

  /** An error response never answers a request whose id differs from its own. */
  lemma ErrorResponseIgnoresOtherIds(request: JsValue, other: string, code: string, message: string)
    requires IsRequestMessage(request) && IdOf(request) != Str(other)
    ensures !IsResponseFor(CreateErrorResponse(other, code, message, None), request)
  {
    CreateErrorResponseIsErrorResponse(other, code, message, None);
  }

  // ---------------------------------------------------------------- examples

  /** A request without an id, a non-UUID id, and a notification without an id. */
  lemma ValidateMessageExamples()
    ensures ValidateMessage(Obj([Prop("type", Str("startSession"))])) == Invalid(NoId)
    ensures ValidateMessage(Obj([Prop("type", Str("foo")), Prop("id", Str("not-a-uuid"))])) == Invalid(BadId)
    ensures ValidateMessage(Obj([Prop("type", Str("statusUpdate")), Prop("payload", Obj([]))])) == Valid
  {
    RequestWithoutId();
    RequestWithBadId();
    NotificationWithoutId();
  }

  lemma RequestWithoutId()
    ensures ValidateMessage(Obj([Prop("type", Str("startSession"))])) == Invalid(NoId)
  {
    var m1 := Obj([Prop("type", Str("startSession"))]);
    assert TypeOf(m1) == Str("startSession");
  }

  lemma RequestWithBadId()
    ensures ValidateMessage(Obj([Prop("type", Str("foo")), Prop("id", Str("not-a-uuid"))])) == Invalid(BadId)
  {
    var m2 := Obj([Prop("type", Str("foo")), Prop("id", Str("not-a-uuid"))]);
    assert TypeOf(m2) == Str("foo");
    assert m2.props[1..][0] == Prop("id", Str("not-a-uuid"));
    assert IdOf(m2) == Str("not-a-uuid");
  }

  lemma NotificationWithoutId()
    ensures ValidateMessage(Obj([Prop("type", Str("statusUpdate")), Prop("payload", Obj([]))])) == Valid
  {
    var m3 := Obj([Prop("type", Str("statusUpdate")), Prop("payload", Obj([]))]);
    assert TypeOf(m3) == Str("statusUpdate");
  }
}
