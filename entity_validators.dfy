/**
 * The entity, request and query validators: each one is the table of its
 * field rules, in the order the validator checks them, and the guarantees
 * of `Validators.ValidateWith` carried over to it.
 */
module EntityValidators {
  import opened Wrappers
  import opened Js
  import opened Enums
  import opened Validators

  // ---------------------------------------------------------------- entity rule tables

  const SessionRules: seq<FieldRule> := [
    FieldRule("id", Always, UuidRule),
    FieldRule("startTime", Always, TimestampRule),
    FieldRule("status", Always, OneOfRule(SessionStatusValues, "status must be a valid SessionStatus")),
    FieldRule("interruptions", Always, RangeRule(Some(0), None)),
    FieldRule("createdAt", Always, TimestampRule),
    FieldRule("updatedAt", Always, TimestampRule),
    FieldRule("endTime", UnlessNull, TimestampRule),
    FieldRule("duration", UnlessNull, RangeRule(Some(0), None)),
    FieldRule("projectId", UnlessNull, UuidRule),
    FieldRule("complexity", UnlessNull, RangeRule(Some(0), Some(100))),
    FieldRule("stressLevel", UnlessNull, RangeRule(Some(0), Some(100)))
  ]

  const ProjectRules: seq<FieldRule> := [
    FieldRule("id", Always, UuidRule),
    FieldRule("name", Always, NonEmptyRule),
    FieldRule("isArchived", Always, BooleanRule),
    FieldRule("createdAt", Always, TimestampRule),
    FieldRule("updatedAt", Always, TimestampRule),
    FieldRule("gitRepository", UnlessNull, UrlRule),
    FieldRule("color", Always, HexColorRule),
    FieldRule("lastActive", UnlessNull, TimestampRule)
  ]

  const TagRules: seq<FieldRule> := [
    FieldRule("id", Always, UuidRule),
    FieldRule("name", Always, NonEmptyRule),
    FieldRule("usageCount", Always, RangeRule(Some(0), None)),
    FieldRule("createdAt", Always, TimestampRule),
    FieldRule("color", Always, HexColorRule)
  ]

  const PomodoroRules: seq<FieldRule> := [
    FieldRule("id", Always, UuidRule),
    FieldRule("startTime", Always, TimestampRule),
    FieldRule("duration", Always, RangeRule(Some(1), None)),
    FieldRule("status", Always, OneOfRule(PomodoroStatusValues, "status must be a valid PomodoroStatus")),
    FieldRule("createdAt", Always, TimestampRule),
    FieldRule("endTime", UnlessNull, TimestampRule),
    FieldRule("sessionId", UnlessNull, UuidRule)
  ]

  const BreakRules: seq<FieldRule> := [
    FieldRule("id", Always, UuidRule),
    FieldRule("startTime", Always, TimestampRule),
    FieldRule("duration", Always, RangeRule(Some(1), None)),
    FieldRule("isLongBreak", Always, BooleanRule),
    FieldRule("createdAt", Always, TimestampRule),
    FieldRule("endTime", UnlessNull, TimestampRule),
    FieldRule("pomodoroId", UnlessNull, UuidRule)
  ]

  const DailyStatsRules: seq<FieldRule> := [
    FieldRule("date", Always, DateFormatRule),
    FieldRule("totalTime", Always, RangeRule(Some(0), None)),
    FieldRule("activeTime", Always, RangeRule(Some(0), None)),
    FieldRule("deepWorkTime", Always, RangeRule(Some(0), None)),
    FieldRule("deepWorkPercentage", Always, RangeRule(Some(0), Some(100))),
    FieldRule("sessionsCount", Always, RangeRule(Some(0), None)),
    FieldRule("averageSessionLength", Always, RangeRule(Some(0), None)),
    FieldRule("contextSwitches", Always, RangeRule(Some(0), None)),
    FieldRule("goalCompletion", Always, RangeRule(Some(0), Some(100))),
    FieldRule("updatedAt", Always, TimestampRule)
  ]

  const SettingRules: seq<FieldRule> := [
    FieldRule("key", Always, NonEmptyRule),
    FieldRule("value", Always, NonEmptyRule),
    FieldRule("type", Always, OneOfRule(SettingTypeValues, "type must be a valid SettingType")),
    FieldRule("updatedAt", Always, TimestampRule)
  ]

  // ---------------------------------------------------------------- request rule tables

  const CreateSessionRequestRules: seq<FieldRule> := [
    FieldRule("projectId", UnlessUndefined, UuidRule),
    FieldRule("complexity", UnlessUndefined, RangeRule(Some(0), Some(100)))
  ]

  const UpdateSessionRequestRules: seq<FieldRule> := [
    FieldRule("status", UnlessUndefined, OneOfRule(SessionStatusValues, "status must be a valid SessionStatus")),
    FieldRule("complexity", UnlessUndefined, RangeRule(Some(0), Some(100))),
    FieldRule("stressLevel", UnlessUndefined, RangeRule(Some(0), Some(100))),
    FieldRule("addInterruption", UnlessUndefined, BooleanRule)
  ]

  const CreateProjectRequestRules: seq<FieldRule> := [
    FieldRule("name", Always, NonEmptyRule),
    FieldRule("gitRepository", UnlessUndefined, UrlRule),
    FieldRule("color", UnlessUndefined, HexColorRule)
  ]

  const UpdateProjectRequestRules: seq<FieldRule> := [
    FieldRule("name", UnlessUndefined, NonEmptyRule),
    FieldRule("gitRepository", UnlessUndefined, UrlRule),
    FieldRule("color", UnlessUndefined, HexColorRule),
    FieldRule("isArchived", UnlessUndefined, BooleanRule)
  ]

  const CreateTagRequestRules: seq<FieldRule> := [
    FieldRule("name", Always, NonEmptyRule),
    FieldRule("color", UnlessUndefined, HexColorRule)
  ]

  const UpdateTagRequestRules: seq<FieldRule> := [
    FieldRule("name", UnlessUndefined, NonEmptyRule),
    FieldRule("color", UnlessUndefined, HexColorRule)
  ]

  const CreatePomodoroRequestRules: seq<FieldRule> := [
    FieldRule("duration", UnlessUndefined, RangeRule(Some(1), None)),
    FieldRule("sessionId", UnlessUndefined, UuidRule)
  ]

  // ---------------------------------------------------------------- the validators

  /** `validateSession(data)`. */
  function ValidateSession(host: Host, data: JsValue): (r: Validated)
    ensures r.Err? <==> IsNullish(data)
    ensures r == Ok(Success(data)) <==> !IsNullish(data) && RulesOk(host, data, SessionRules)
  {
    ValidateWithIff(host, data, SessionRules);
    ValidateWith(host, data, SessionRules)
  }

  /** `validateProject(data)`. */
  function ValidateProject(host: Host, data: JsValue): (r: Validated)
    ensures r.Err? <==> IsNullish(data)
    ensures r == Ok(Success(data)) <==> !IsNullish(data) && RulesOk(host, data, ProjectRules)
  {
    ValidateWithIff(host, data, ProjectRules);
    ValidateWith(host, data, ProjectRules)
  }

  /** `validateTag(data)`. */
  function ValidateTag(host: Host, data: JsValue): (r: Validated)
    ensures r.Err? <==> IsNullish(data)
    ensures r == Ok(Success(data)) <==> !IsNullish(data) && RulesOk(host, data, TagRules)
  {
    ValidateWithIff(host, data, TagRules);
    ValidateWith(host, data, TagRules)
  }

  /** `validatePomodoro(data)`. */
  function ValidatePomodoro(host: Host, data: JsValue): (r: Validated)
    ensures r.Err? <==> IsNullish(data)
    ensures r == Ok(Success(data)) <==> !IsNullish(data) && RulesOk(host, data, PomodoroRules)
  {
    ValidateWithIff(host, data, PomodoroRules);
    ValidateWith(host, data, PomodoroRules)
  }

  /** `validateBreak(data)`. */
  function ValidateBreak(host: Host, data: JsValue): (r: Validated)
    ensures r.Err? <==> IsNullish(data)
    ensures r == Ok(Success(data)) <==> !IsNullish(data) && RulesOk(host, data, BreakRules)
  {
    ValidateWithIff(host, data, BreakRules);
    ValidateWith(host, data, BreakRules)
  }

  /** `validateDailyStats(data)`. */
  function ValidateDailyStats(host: Host, data: JsValue): (r: Validated)
    ensures r.Err? <==> IsNullish(data)
    ensures r == Ok(Success(data)) <==> !IsNullish(data) && RulesOk(host, data, DailyStatsRules)
  {
    ValidateWithIff(host, data, DailyStatsRules);
    ValidateWith(host, data, DailyStatsRules)
  }

  /** `validateSetting(data)`. */
  function ValidateSetting(host: Host, data: JsValue): (r: Validated)
    ensures r.Err? <==> IsNullish(data)
    ensures r == Ok(Success(data)) <==> !IsNullish(data) && RulesOk(host, data, SettingRules)
  {
    ValidateWithIff(host, data, SettingRules);
    ValidateWith(host, data, SettingRules)
  }

  /** `validateCreateSessionRequest(data)`. */
  function ValidateCreateSessionRequest(host: Host, data: JsValue): (r: Validated)
    ensures r.Err? <==> IsNullish(data)
    ensures r == Ok(Success(data)) <==> !IsNullish(data) && RulesOk(host, data, CreateSessionRequestRules)
  {
    ValidateWithIff(host, data, CreateSessionRequestRules);
    ValidateWith(host, data, CreateSessionRequestRules)
  }

  /** `validateUpdateSessionRequest(data)`. */
  function ValidateUpdateSessionRequest(host: Host, data: JsValue): (r: Validated)
    ensures r.Err? <==> IsNullish(data)
    ensures r == Ok(Success(data)) <==> !IsNullish(data) && RulesOk(host, data, UpdateSessionRequestRules)
  {
    ValidateWithIff(host, data, UpdateSessionRequestRules);
    ValidateWith(host, data, UpdateSessionRequestRules)
  }

  /** `validateCreateProjectRequest(data)`. */
  function ValidateCreateProjectRequest(host: Host, data: JsValue): (r: Validated)
    ensures r.Err? <==> IsNullish(data)
    ensures r == Ok(Success(data)) <==> !IsNullish(data) && RulesOk(host, data, CreateProjectRequestRules)
  {
    ValidateWithIff(host, data, CreateProjectRequestRules);
    ValidateWith(host, data, CreateProjectRequestRules)
  }

  /** `validateUpdateProjectRequest(data)`. */
  function ValidateUpdateProjectRequest(host: Host, data: JsValue): (r: Validated)
    ensures r.Err? <==> IsNullish(data)
    ensures r == Ok(Success(data)) <==> !IsNullish(data) && RulesOk(host, data, UpdateProjectRequestRules)
  {
    ValidateWithIff(host, data, UpdateProjectRequestRules);
    ValidateWith(host, data, UpdateProjectRequestRules)
  }

  /** `validateCreateTagRequest(data)`. */
  function ValidateCreateTagRequest(host: Host, data: JsValue): (r: Validated)
    ensures r.Err? <==> IsNullish(data)
    ensures r == Ok(Success(data)) <==> !IsNullish(data) && RulesOk(host, data, CreateTagRequestRules)
  {
    ValidateWithIff(host, data, CreateTagRequestRules);
    ValidateWith(host, data, CreateTagRequestRules)
  }

  /** `validateUpdateTagRequest(data)`. */
  function ValidateUpdateTagRequest(host: Host, data: JsValue): (r: Validated)
    ensures r.Err? <==> IsNullish(data)
    ensures r == Ok(Success(data)) <==> !IsNullish(data) && RulesOk(host, data, UpdateTagRequestRules)
  {
    ValidateWithIff(host, data, UpdateTagRequestRules);
    ValidateWith(host, data, UpdateTagRequestRules)
  }

  /** `validateCreatePomodoroRequest(data)`. */
  function ValidateCreatePomodoroRequest(host: Host, data: JsValue): (r: Validated)
    ensures r.Err? <==> IsNullish(data)
    ensures r == Ok(Success(data)) <==> !IsNullish(data) && RulesOk(host, data, CreatePomodoroRequestRules)
  {
    ValidateWithIff(host, data, CreatePomodoroRequestRules);
    ValidateWith(host, data, CreatePomodoroRequestRules)
  }

  // ---------------------------------------------------------------- what a session must be, field by field

  /** A session that passes: the required fields are well formed, and each nullable one is null or well formed. */
  predicate SessionFieldsOk(host: Host, d: JsValue)
  {
    StrictUuid(Get(d, "id"))
    && IsoTimestamp(host, Get(d, "startTime"))
    && IsSessionStatus(Get(d, "status"))
    && NumberWithin(Get(d, "interruptions"), Some(0), None)
    && IsoTimestamp(host, Get(d, "createdAt"))
    && IsoTimestamp(host, Get(d, "updatedAt"))
    && (Get(d, "endTime").Null? || IsoTimestamp(host, Get(d, "endTime")))
    && (Get(d, "duration").Null? || NumberWithin(Get(d, "duration"), Some(0), None))
    && (Get(d, "projectId").Null? || StrictUuid(Get(d, "projectId")))
    && (Get(d, "complexity").Null? || NumberWithin(Get(d, "complexity"), Some(0), Some(100)))
    && (Get(d, "stressLevel").Null? || NumberWithin(Get(d, "stressLevel"), Some(0), Some(100)))
  }

  /** The session table, read field by field. */
  lemma SessionRulesMeaning(host: Host, d: JsValue)
    ensures RulesOk(host, d, SessionRules) <==> SessionFieldsOk(host, d)
  {
    if SessionFieldsOk(host, d) {
      forall i | 0 <= i < |SessionRules|
        ensures FieldRuleOk(host, d, SessionRules[i])
      {
        SessionFieldPasses(host, d, i);
      }
    }
    if RulesOk(host, d, SessionRules) {
      SessionRulesGiveFields(host, d);
    }
  }

  /** When the fields are well formed, each rule of the table passes. */
  lemma SessionFieldPasses(host: Host, d: JsValue, i: nat)
    requires SessionFieldsOk(host, d) && i < |SessionRules|
    ensures FieldRuleOk(host, d, SessionRules[i])
  {
    if i < 3 {
      SessionRules0To2(host, d);
    } else if i < 6 {
      SessionRules3To5(host, d);
    } else if i < 9 {
      SessionRules6To8(host, d);
    } else {
      SessionRules9To10(host, d);
    }
  }

  /** When every rule of the table passes, the fields are well formed. */
  lemma SessionRulesGiveFields(host: Host, d: JsValue)
    requires RulesOk(host, d, SessionRules)
    ensures SessionFieldsOk(host, d)
  {
    var rs := SessionRules;
    assert FieldRuleOk(host, d, rs[0]) && FieldRuleOk(host, d, rs[1]) && FieldRuleOk(host, d, rs[2]);
    assert FieldRuleOk(host, d, rs[3]) && FieldRuleOk(host, d, rs[4]) && FieldRuleOk(host, d, rs[5]);
    assert FieldRuleOk(host, d, rs[6]) && FieldRuleOk(host, d, rs[7]) && FieldRuleOk(host, d, rs[8]);
    assert FieldRuleOk(host, d, rs[9]) && FieldRuleOk(host, d, rs[10]);
    SessionRules0To2(host, d);
    SessionRules3To5(host, d);
    SessionRules6To8(host, d);
    SessionRules9To10(host, d);
  }

  lemma SessionRules0To2(host: Host, d: JsValue)
    ensures FieldRuleOk(host, d, SessionRules[0]) <==> StrictUuid(Get(d, "id"))
    ensures FieldRuleOk(host, d, SessionRules[1]) <==> IsoTimestamp(host, Get(d, "startTime"))
    ensures FieldRuleOk(host, d, SessionRules[2]) <==> IsSessionStatus(Get(d, "status"))
  {
  }

  lemma SessionRules3To5(host: Host, d: JsValue)
    ensures FieldRuleOk(host, d, SessionRules[3]) <==> NumberWithin(Get(d, "interruptions"), Some(0), None)
    ensures FieldRuleOk(host, d, SessionRules[4]) <==> IsoTimestamp(host, Get(d, "createdAt"))
    ensures FieldRuleOk(host, d, SessionRules[5]) <==> IsoTimestamp(host, Get(d, "updatedAt"))
  {
  }

  lemma SessionRules6To8(host: Host, d: JsValue)
    ensures FieldRuleOk(host, d, SessionRules[6]) <==> Get(d, "endTime").Null? || IsoTimestamp(host, Get(d, "endTime"))
    ensures FieldRuleOk(host, d, SessionRules[7]) <==> Get(d, "duration").Null? || NumberWithin(Get(d, "duration"), Some(0), None)
    ensures FieldRuleOk(host, d, SessionRules[8]) <==> Get(d, "projectId").Null? || StrictUuid(Get(d, "projectId"))
  {
  }

  lemma SessionRules9To10(host: Host, d: JsValue)
    ensures FieldRuleOk(host, d, SessionRules[9]) <==>
              Get(d, "complexity").Null? || NumberWithin(Get(d, "complexity"), Some(0), Some(100))
    ensures FieldRuleOk(host, d, SessionRules[10]) <==>
              Get(d, "stressLevel").Null? || NumberWithin(Get(d, "stressLevel"), Some(0), Some(100))
  {
  }

  /** A missing optional field is `undefined`, not `null`, so the entity validators still check it. */
  lemma MissingNullableFieldIsChecked(host: Host, d: JsValue)
    requires d.Obj? && Get(d, "endTime") == Undefined
    ensures !FieldRuleOk(host, d, SessionRules[6])
    ensures exists e :: e in Errors(host, d, SessionRules) && e.field == "endTime"
  {
    FailingFieldReported(host, d, SessionRules, 6);
  }

  /** Every reported field, and only those: what a failed validation lists about a session. */
  lemma SessionFailuresAreComplete(host: Host, d: JsValue)
    requires !IsNullish(d) && ValidateSession(host, d).value.Failure?
    ensures forall i :: 0 <= i < |SessionRules| && !FieldRuleOk(host, d, SessionRules[i]) ==>
              exists e :: e in ValidateSession(host, d).value.errors && e.field == SessionRules[i].field
    ensures forall e :: e in ValidateSession(host, d).value.errors ==>
              exists i :: 0 <= i < |SessionRules| && !FieldRuleOk(host, d, SessionRules[i]) && e.field == SessionRules[i].field
  {
    assert AllOwnFields(SessionRules);
    FailuresAreExactlyFailingFields(host, d, SessionRules);
  }

  /** A session with six bad required fields and no optional ones. */
  function BadSession(): JsValue
  {
    Obj([
      Prop("id", Str("bad")),
      Prop("startTime", Str("bad")),
      Prop("status", Str("nope")),
      Prop("interruptions", Num(-1)),
      Prop("createdAt", Str("bad")),
      Prop("updatedAt", Str("bad"))
    ])
  }

  /** Its validation fails and names each of the six fields. */
  lemma BadSessionReportsEveryField(host: Host)
    requires host.parseDate("bad") == None
    ensures ValidateSession(host, BadSession()) == Ok(Failure(Errors(host, BadSession(), SessionRules)))
    ensures exists e :: e in Errors(host, BadSession(), SessionRules) && e.field == "id"
    ensures exists e :: e in Errors(host, BadSession(), SessionRules) && e.field == "startTime"
    ensures exists e :: e in Errors(host, BadSession(), SessionRules) && e.field == "status"
    ensures exists e :: e in Errors(host, BadSession(), SessionRules) && e.field == "interruptions"
    ensures exists e :: e in Errors(host, BadSession(), SessionRules) && e.field == "createdAt"
    ensures exists e :: e in Errors(host, BadSession(), SessionRules) && e.field == "updatedAt"
  {
    var d := BadSession();
    BadSessionHasBadFields();
    BadFieldsFail(host, d);
    BadFieldsReported(host, d);
    ErrorsEmptyIff(host, d, SessionRules);
  }

  /** The six fields of the bad session, as read by the validator. */
  predicate BadFields(d: JsValue)
  {
    Get(d, "id") == Str("bad") && Get(d, "startTime") == Str("bad") && Get(d, "status") == Str("nope")
    && Get(d, "interruptions") == Num(-1) && Get(d, "createdAt") == Str("bad") && Get(d, "updatedAt") == Str("bad")
  }

  lemma BadSessionHasBadFields()
    ensures BadFields(BadSession())
  {
    var ps := BadSession().props;
    BadHead(ps);
    BadInterruptions(ps);
    BadCreatedAt(ps);
    BadUpdatedAt(ps);
  }

  /** The first six rules of the session table all fail on such fields. */
  lemma BadFieldsFail(host: Host, d: JsValue)
    requires host.parseDate("bad") == None && BadFields(d)
    ensures forall i :: 0 <= i < 6 ==> !FieldRuleOk(host, d, SessionRules[i])
  {
    SessionRules0To2(host, d);
    SessionRules3To5(host, d);
    assert !IsSessionStatus(Str("nope"));
  }

  /** Each of the six failing fields is named in the errors. */
  lemma BadFieldsReported(host: Host, d: JsValue)
    requires forall i :: 0 <= i < 6 ==> !FieldRuleOk(host, d, SessionRules[i])
    ensures exists e :: e in Errors(host, d, SessionRules) && e.field == "id"
    ensures exists e :: e in Errors(host, d, SessionRules) && e.field == "startTime"
    ensures exists e :: e in Errors(host, d, SessionRules) && e.field == "status"
    ensures exists e :: e in Errors(host, d, SessionRules) && e.field == "interruptions"
    ensures exists e :: e in Errors(host, d, SessionRules) && e.field == "createdAt"
    ensures exists e :: e in Errors(host, d, SessionRules) && e.field == "updatedAt"
  {
    var rs := SessionRules;
    assert !FieldRuleOk(host, d, rs[0]) && !FieldRuleOk(host, d, rs[1]) && !FieldRuleOk(host, d, rs[2]);
    assert !FieldRuleOk(host, d, rs[3]) && !FieldRuleOk(host, d, rs[4]) && !FieldRuleOk(host, d, rs[5]);
    FieldReported(host, d, rs, 0, "id");
    FieldReported(host, d, rs, 1, "startTime");
    FieldReported(host, d, rs, 2, "status");
    FieldReported(host, d, rs, 3, "interruptions");
    FieldReported(host, d, rs, 4, "createdAt");
    FieldReported(host, d, rs, 5, "updatedAt");
  }

  lemma BadHead(ps: seq<Prop>)
    requires ps == BadSession().props
    ensures Lookup(ps, "id") == Some(Str("bad"))
    ensures Lookup(ps, "startTime") == Some(Str("bad"))
    ensures Lookup(ps, "status") == Some(Str("nope"))
  {
    assert Lookup(ps[1..], "startTime") == Some(Str("bad"));
    assert Lookup(ps[1..][1..], "status") == Some(Str("nope"));
    assert Lookup(ps[1..], "status") == Some(Str("nope"));
  }

  lemma BadInterruptions(ps: seq<Prop>)
    requires ps == BadSession().props
    ensures Lookup(ps, "interruptions") == Some(Num(-1))
  {
    var tail := ps[1..][1..][1..];
    assert Lookup(tail, "interruptions") == Some(Num(-1));
    assert Lookup(ps[1..][1..], "interruptions") == Some(Num(-1));
    assert Lookup(ps[1..], "interruptions") == Some(Num(-1));
  }

  lemma BadCreatedAt(ps: seq<Prop>)
    requires ps == BadSession().props
    ensures Lookup(ps, "createdAt") == Some(Str("bad"))
  {
    var tail := ps[1..][1..][1..];
    assert Lookup(tail[1..], "createdAt") == Some(Str("bad"));
    assert Lookup(tail, "createdAt") == Some(Str("bad"));
    assert Lookup(ps[1..][1..], "createdAt") == Some(Str("bad"));
    assert Lookup(ps[1..], "createdAt") == Some(Str("bad"));
  }

  lemma BadUpdatedAt(ps: seq<Prop>)
    requires ps == BadSession().props
    ensures Lookup(ps, "updatedAt") == Some(Str("bad"))
  {
    var tail := ps[1..][1..][1..];
    assert Lookup(tail[1..][1..], "updatedAt") == Some(Str("bad"));
    assert Lookup(tail[1..], "updatedAt") == Some(Str("bad"));
    assert Lookup(tail, "updatedAt") == Some(Str("bad"));
    assert Lookup(ps[1..][1..], "updatedAt") == Some(Str("bad"));
    assert Lookup(ps[1..], "updatedAt") == Some(Str("bad"));
  }

  // ---------------------------------------------------------------- time ranges

  const TimeRangeRules: seq<FieldRule> := [
    FieldRule("startDate", Always, DateFormatRule),
    FieldRule("endDate", Always, DateFormatRule)
  ]

  /** `new Date(start) > new Date(end)`: false when either is an invalid date. */
  predicate Later(host: Host, start: JsValue, end: JsValue)
  {
    var a := host.parseDate(ToJsString(start));
    var b := host.parseDate(ToJsString(end));
    a.Some? && b.Some? && a.value > b.value
  }

  /** The ordering check, made only when both dates have the right shape. */
  function OrderErrors(host: Host, data: JsValue): (r: seq<ValidationError>)
    ensures r != [] <==>
              DateShaped(ToJsString(Get(data, "startDate"))) && DateShaped(ToJsString(Get(data, "endDate")))
              && Later(host, Get(data, "startDate"), Get(data, "endDate"))
    ensures r != [] ==>
              r == [ValidationError("startDate must be before or equal to endDate", "startDate", Get(data, "startDate"))]
  {
    var start := Get(data, "startDate");
    var end := Get(data, "endDate");
    if DateShaped(ToJsString(start)) && DateShaped(ToJsString(end)) && Later(host, start, end) then
      [ValidationError("startDate must be before or equal to endDate", "startDate", start)]
    else []
  }

  /** A time range that passes: two dates of the right shape, the first not after the second. */
  predicate TimeRangeOk(host: Host, data: JsValue)
  {
    DateShaped(ToJsString(Get(data, "startDate"))) && DateShaped(ToJsString(Get(data, "endDate")))
    && !Later(host, Get(data, "startDate"), Get(data, "endDate"))
  }

  /** `validateTimeRange(data)`. */
  function ValidateTimeRange(host: Host, data: JsValue): (r: Validated)
    ensures r.Err? <==> IsNullish(data)
    ensures r == Ok(Success(data)) <==> !IsNullish(data) && TimeRangeOk(host, data)
    ensures r.Ok? ==> r.value.Success? || r.value.errors == Errors(host, data, TimeRangeRules) + OrderErrors(host, data)
  {
    if IsNullish(data) then Err(ReadError(data, "startDate"))
    else
      ErrorsEmptyIff(host, data, TimeRangeRules);
      assert RulesOk(host, data, TimeRangeRules) <==>
             DateShaped(ToJsString(Get(data, "startDate"))) && DateShaped(ToJsString(Get(data, "endDate"))) by {
        assert FieldRuleOk(host, data, TimeRangeRules[0]) <==> DateShaped(ToJsString(Get(data, "startDate")));
        assert FieldRuleOk(host, data, TimeRangeRules[1]) <==> DateShaped(ToJsString(Get(data, "endDate")));
      }
      Ok(Finish(data, Errors(host, data, TimeRangeRules) + OrderErrors(host, data)))
  }

  function Range(start: string, end: string): JsValue
  {
    Obj([Prop("startDate", Str(start)), Prop("endDate", Str(end))])
  }

  /** A range that starts and ends on the same day is valid. */
  lemma SameDayRangeIsValid(host: Host, day: string)
    requires DateShaped(day)
    ensures ValidateTimeRange(host, Range(day, day)) == Ok(Success(Range(day, day)))
  {
    var ps := Range(day, day).props;
    assert Lookup(ps[1..], "endDate") == Some(Str(day));
  }

  lemma IsoDaysAreDateShaped()
    ensures DateShaped("2025-02-01") && DateShaped("2025-01-01")
  {
    var a := "2025-02-01";
    var b := "2025-01-01";
    assert forall k :: 0 <= k < 10 && k != 4 && k != 7 ==> IsDigit(a[k]) && IsDigit(b[k]);
  }

  /** A range whose start is later fails with just the ordering error. */
  lemma BackwardsRangeFails(host: Host)
    requires host.parseDate("2025-02-01").Some? && host.parseDate("2025-01-01").Some?
    requires host.parseDate("2025-02-01").value > host.parseDate("2025-01-01").value
    ensures ValidateTimeRange(host, Range("2025-02-01", "2025-01-01")) ==
              Ok(Failure([ValidationError("startDate must be before or equal to endDate", "startDate", Str("2025-02-01"))]))
  {
    var d := Range("2025-02-01", "2025-01-01");
    var ps := d.props;
    assert Lookup(ps[1..], "endDate") == Some(Str("2025-01-01"));
    assert Get(d, "startDate") == Str("2025-02-01");
    IsoDaysAreDateShaped();
    ErrorsEmptyIff(host, d, TimeRangeRules);
    RulesOkCons(host, d, TimeRangeRules);
    RulesOkCons(host, d, TimeRangeRules[1..]);
    assert TimeRangeRules[1..][1..] == [];
    assert FieldRuleOk(host, d, TimeRangeRules[0]) && FieldRuleOk(host, d, TimeRangeRules[1]);
    assert Errors(host, d, TimeRangeRules) == [];
    assert OrderErrors(host, d) != [];
    var e := ValidationError("startDate must be before or equal to endDate", "startDate", Str("2025-02-01"));
    assert OrderErrors(host, d) == [e];
    assert Errors(host, d, TimeRangeRules) + OrderErrors(host, d) == [e];
    assert ValidateTimeRange(host, d) == Ok(Finish(d, [e]));
  }

  // ---------------------------------------------------------------- queries and exports

  const AnalyticsQueryRules: seq<FieldRule> := [
    FieldRule("projectIds", UnlessUndefined, UuidArrayRule),
    FieldRule("tagIds", UnlessUndefined, UuidArrayRule),
    FieldRule("groupBy", UnlessUndefined, OneOfRule(["day", "week", "month"], "groupBy must be one of: day, week, month")),
    FieldRule("includeBreakdown", UnlessUndefined, BooleanRule)
  ]

  const ExportRequestRules: seq<FieldRule> := [
    FieldRule("format", Always, OneOfRule(["csv", "json", "pdf"], "format must be one of: csv, json, pdf")),
    FieldRule("include", Always, FlagsRule(["sessions", "projects", "stats", "pomodoros"])),
    FieldRule("includeInsights", UnlessUndefined, BooleanRule)
  ]

  /** The errors of a nested result, to be pushed after the outer ones so far. */
  function NestedErrors(r: ValidationResult): seq<ValidationError>
  {
    if r.Failure? then r.errors else []
  }

  /** Validate the nested time range first, then the rest of the fields, on one error list. */
  function WithTimeRange(host: Host, data: JsValue, rules: seq<FieldRule>): (r: Validated)
    ensures r.Err? <==> IsNullish(data) || IsNullish(Get(data, "timeRange"))
    ensures r == Ok(Success(data)) <==>
              !r.Err? && TimeRangeOk(host, Get(data, "timeRange")) && RulesOk(host, data, rules)
    ensures r.Ok? ==>
              ValidateTimeRange(host, Get(data, "timeRange")).Ok? &&
              r == Ok(Finish(data, NestedErrors(ValidateTimeRange(host, Get(data, "timeRange")).value)
                                   + Errors(host, data, rules)))
  {
    if IsNullish(data) then Err(ReadError(data, "timeRange"))
    else
      match ValidateTimeRange(host, Get(data, "timeRange"))
      case Err(e) => Err(e)
      case Ok(tr) =>
        ErrorsEmptyIff(host, data, rules);
        Ok(Finish(data, NestedErrors(tr) + Errors(host, data, rules)))
  }

  /** `validateAnalyticsQuery(data)`; a query without a time range throws when the range is read. */
  function ValidateAnalyticsQuery(host: Host, data: JsValue): (r: Validated)
    ensures r.Err? <==> IsNullish(data) || IsNullish(Get(data, "timeRange"))
    ensures r == Ok(Success(data)) <==>
              !r.Err? && TimeRangeOk(host, Get(data, "timeRange")) && RulesOk(host, data, AnalyticsQueryRules)
    ensures r.Ok? ==>
              ValidateTimeRange(host, Get(data, "timeRange")).Ok? &&
              r == Ok(Finish(data, NestedErrors(ValidateTimeRange(host, Get(data, "timeRange")).value)
                                   + Errors(host, data, AnalyticsQueryRules)))
  {
    WithTimeRange(host, data, AnalyticsQueryRules)
  }

  /** `validateExportRequest(data)`. */
  function ValidateExportRequest(host: Host, data: JsValue): (r: Validated)
    ensures r.Err? <==> IsNullish(data) || IsNullish(Get(data, "timeRange"))
    ensures r == Ok(Success(data)) <==>
              !r.Err? && TimeRangeOk(host, Get(data, "timeRange")) && RulesOk(host, data, ExportRequestRules)
    ensures r.Ok? ==>
              ValidateTimeRange(host, Get(data, "timeRange")).Ok? &&
              r == Ok(Finish(data, NestedErrors(ValidateTimeRange(host, Get(data, "timeRange")).value)
                                   + Errors(host, data, ExportRequestRules)))
  {
    WithTimeRange(host, data, ExportRequestRules)
  }

  /** The id lists of a query pass exactly when each is absent or an array of UUIDs; the other two fields likewise. */
  lemma AnalyticsQueryRulesMeaning(host: Host, d: JsValue)
    ensures RulesOk(host, d, AnalyticsQueryRules) <==>
              (Get(d, "projectIds").Undefined? || UuidArray(Get(d, "projectIds")))
              && (Get(d, "tagIds").Undefined? || UuidArray(Get(d, "tagIds")))
              && (Get(d, "groupBy").Undefined? || (Get(d, "groupBy").Str? && Get(d, "groupBy").s in ["day", "week", "month"]))
              && (Get(d, "includeBreakdown").Undefined? || Get(d, "includeBreakdown").Bool?)
  {
    var rs := AnalyticsQueryRules;
    RulesOkFour(host, d, rs);
    assert FieldRuleOk(host, d, rs[0]) <==> Get(d, "projectIds").Undefined? || UuidArray(Get(d, "projectIds"));
    assert FieldRuleOk(host, d, rs[1]) <==> Get(d, "tagIds").Undefined? || UuidArray(Get(d, "tagIds"));
  }

  /** An export passes its own fields exactly when the format is listed, `include` is an object of known boolean flags, and `includeInsights` is absent or a boolean. */
  lemma ExportRequestRulesMeaning(host: Host, d: JsValue)
    ensures RulesOk(host, d, ExportRequestRules) <==>
              (Get(d, "format").Str? && Get(d, "format").s in ["csv", "json", "pdf"])
              && FlagsObject(Get(d, "include"), ["sessions", "projects", "stats", "pomodoros"])
              && (Get(d, "includeInsights").Undefined? || Get(d, "includeInsights").Bool?)
  {
    var rs := ExportRequestRules;
    RulesOkThree(host, d, rs);
    assert FieldRuleOk(host, d, rs[1]) <==> FlagsObject(Get(d, "include"), ["sessions", "projects", "stats", "pomodoros"]);
  }
}
