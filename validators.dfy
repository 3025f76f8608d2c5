/**
 * The runtime validators of the shared types: the primitive field checks,
 * each of which returns the list of errors it finds, and the rule tables that
 * the entity and request validators are built from.
 *
 * A validator of the source is a straight sequence of field checks whose
 * errors are pushed onto one list; here it is a sequence of `FieldRule`s in
 * the same order, and `Errors` concatenates what each rule reports. `new
 * Date(s)` and `new URL(s)` are built-ins whose parsers are not modelled:
 * they are the `Host`'s functions.
 */
module Validators {
  import opened Wrappers
  import opened Js
  import Uuid

  /** `ValidationError(message, field, value)`. */
  datatype ValidationError = ValidationError(message: string, field: string, value: JsValue)

  /** `ValidationResult<T>`: `{success: true, data}` or `{success: false, errors}`. */
  datatype ValidationResult = Success(data: JsValue) | Failure(errors: seq<ValidationError>)

  /** What a call may throw: a `TypeError` from reading a property of null or undefined, or `createValidator`'s error. */
  datatype JsError = TypeError(message: string) | ValidationFailed(message: string)

  /** A validator's whole behaviour: the result it returns, or the error it throws. */
  type Validated = Result<ValidationResult, JsError>

  /**
   * The built-ins the validators call: `new Date(s).getTime()` (None for NaN)
   * and whether `new URL(s)` succeeds.
   */
  datatype Host = Host(parseDate: string -> Option<int>, isUrl: string -> bool)

  /** `errors.length === 0 ? {success: true, data} : {success: false, errors}`. */
  function Finish(data: JsValue, errors: seq<ValidationError>): (r: ValidationResult)
    ensures r.Success? <==> errors == []
    ensures r.Success? ==> r.data == data
    ensures r.Failure? ==> r.errors == errors
  {
    if errors == [] then Success(data) else Failure(errors)
  }

  /** Every error is about field `f` and carries the value `v`. */
  predicate About(errors: seq<ValidationError>, f: string, v: JsValue)
  {
    forall i :: 0 <= i < |errors| ==> errors[i].field == f && errors[i].value == v
  }

  // ---------------------------------------------------------------- what each check accepts

  /** `/^[0-9a-f]{8}-[0-9a-f]{4}-[1-5][0-9a-f]{3}-[89ab][0-9a-f]{3}-[0-9a-f]{12}$/i`, on a string. */
  predicate StrictUuid(v: JsValue)
  {
    v.Str? && Uuid.UuidShaped(v.s) && Uuid.VersionAndVariant(v.s)
  }

  /** A string that `new Date` parses to a valid time. */
  predicate IsoTimestamp(host: Host, v: JsValue)
  {
    v.Str? && host.parseDate(v.s).Some?
  }

  /** A string with something other than white space in it. */
  predicate NonBlankString(v: JsValue)
  {
    v.Str? && !IsBlank(v.s)
  }

  /** A number, not NaN, within the optional inclusive bounds. */
  predicate NumberWithin(v: JsValue, min: Option<int>, max: Option<int>)
  {
    v.Num? && (min.Some? ==> min.value <= v.n) && (max.Some? ==> v.n <= max.value)
  }

  /** `/^#[0-9A-F]{6}$/i`. */
  predicate HexColorShaped(s: string)
  {
    |s| == 7 && s[0] == '#' && forall k :: 1 <= k < 7 ==> IsHexDigit(s[k])
  }

  /** `/^\d{4}-\d{2}-\d{2}$/`. */
  predicate DateShaped(s: string)
  {
    |s| == 10 && forall k :: 0 <= k < 10 ==> if k == 4 || k == 7 then s[k] == '-' else IsDigit(s[k])
  }

  // ---------------------------------------------------------------- primitive checks

  /** `isNonEmptyString(value, fieldName)`. */
  function IsNonEmptyString(v: JsValue, f: string): (r: seq<ValidationError>)
    ensures r == [] <==> NonBlankString(v)
    ensures !v.Str? ==> r == [ValidationError(f + " must be a string", f, v)]
    ensures v.Str? && IsBlank(v.s) ==> r == [ValidationError(f + " cannot be empty", f, v)]
    ensures About(r, f, v)
  {
    if !v.Str? then [ValidationError(f + " must be a string", f, v)]
    else if IsBlank(v.s) then [ValidationError(f + " cannot be empty", f, v)]
    else []
  }

  /** `isUUID(value, fieldName)`, with the strict pattern. */
  function IsUUID(v: JsValue, f: string): (r: seq<ValidationError>)
    ensures r == [] <==> StrictUuid(v)
    ensures !v.Str? ==> r == [ValidationError(f + " must be a string", f, v)]
    ensures v.Str? && !StrictUuid(v) ==> r == [ValidationError(f + " must be a valid UUID", f, v)]
    ensures About(r, f, v)
  {
    if !v.Str? then [ValidationError(f + " must be a string", f, v)]
    else
      Uuid.StrictIsShapePlusVersion(v.s);
      if !Uuid.Matches(v.s, Uuid.StrictPattern) then [ValidationError(f + " must be a valid UUID", f, v)]
      else []
  }

  /** `isISOTimestamp(value, fieldName)`. */
  function IsISOTimestamp(host: Host, v: JsValue, f: string): (r: seq<ValidationError>)
    ensures r == [] <==> IsoTimestamp(host, v)
    ensures !v.Str? ==> r == [ValidationError(f + " must be a string", f, v)]
    ensures v.Str? && host.parseDate(v.s).None? ==> r == [ValidationError(f + " must be a valid ISO timestamp", f, v)]
    ensures About(r, f, v)
  {
    if !v.Str? then [ValidationError(f + " must be a string", f, v)]
    else if host.parseDate(v.s).None? then [ValidationError(f + " must be a valid ISO timestamp", f, v)]
    else []
  }

  function AtLeast(v: JsValue, f: string, min: int): ValidationError
  {
    ValidationError(f + " must be at least " + IntToString(min), f, v)
  }

  function AtMost(v: JsValue, f: string, max: int): ValidationError
  {
    ValidationError(f + " must be at most " + IntToString(max), f, v)
  }

  /**
   * `isNumberInRange(value, fieldName, min?, max?)`: a non-number or NaN gets
   * the one "must be a number" error; otherwise one error per bound it lies
   * outside, the lower first.
   */
  function IsNumberInRange(v: JsValue, f: string, min: Option<int>, max: Option<int>): (r: seq<ValidationError>)
    ensures r == [] <==> NumberWithin(v, min, max)
    ensures !v.Num? ==> r == [ValidationError(f + " must be a number", f, v)]
    ensures v.Num? ==>
              |r| == (if min.Some? && v.n < min.value then 1 else 0) + (if max.Some? && v.n > max.value then 1 else 0)
    ensures v.Num? && min.Some? && v.n < min.value ==> r[0] == AtLeast(v, f, min.value)
    ensures v.Num? && max.Some? && v.n > max.value ==> r[|r| - 1] == AtMost(v, f, max.value)
    ensures About(r, f, v)
  {
    if !v.Num? then [ValidationError(f + " must be a number", f, v)]
    else
      (if min.Some? && v.n < min.value then [AtLeast(v, f, min.value)] else [])
      + (if max.Some? && v.n > max.value then [AtMost(v, f, max.value)] else [])
  }

  /** `isHexColor(value, fieldName)`: null and undefined are accepted. */
  function IsHexColor(v: JsValue, f: string): (r: seq<ValidationError>)
    ensures r == [] <==> IsNullish(v) || (v.Str? && HexColorShaped(v.s))
    ensures !IsNullish(v) && !v.Str? ==> r == [ValidationError(f + " must be a string", f, v)]
    ensures v.Str? && !HexColorShaped(v.s) ==>
              r == [ValidationError(f + " must be a valid hex color (e.g., #FF5733)", f, v)]
    ensures About(r, f, v)
  {
    if IsNullish(v) then []
    else if !v.Str? then [ValidationError(f + " must be a string", f, v)]
    else if !HexColorShaped(v.s) then [ValidationError(f + " must be a valid hex color (e.g., #FF5733)", f, v)]
    else []
  }

  /** `isURL(value, fieldName)`: null and undefined are accepted. */
  function IsURL(host: Host, v: JsValue, f: string): (r: seq<ValidationError>)
    ensures r == [] <==> IsNullish(v) || (v.Str? && host.isUrl(v.s))
    ensures !IsNullish(v) && !v.Str? ==> r == [ValidationError(f + " must be a string", f, v)]
    ensures v.Str? && !host.isUrl(v.s) ==> r == [ValidationError(f + " must be a valid URL", f, v)]
    ensures About(r, f, v)
  {
    if IsNullish(v) then []
    else if !v.Str? then [ValidationError(f + " must be a string", f, v)]
    else if !host.isUrl(v.s) then [ValidationError(f + " must be a valid URL", f, v)]
    else []
  }

  /** The inline `typeof value !== "boolean"` check. */
  function IsBoolean(v: JsValue, f: string): (r: seq<ValidationError>)
    ensures r == [] <==> v.Bool?
    ensures !v.Bool? ==> r == [ValidationError(f + " must be a boolean", f, v)]
  {
    if v.Bool? then [] else [ValidationError(f + " must be a boolean", f, v)]
  }

  /** The inline `values.includes(value)` check, with its own message. */
  function IsOneOf(v: JsValue, f: string, values: seq<string>, message: string): (r: seq<ValidationError>)
    ensures r == [] <==> v.Str? && v.s in values
    ensures r != [] ==> r == [ValidationError(message, f, v)]
  {
    if v.Str? && v.s in values then [] else [ValidationError(message, f, v)]
  }

  /** The inline `dateRegex.test(value)` check; the test reads `String(value)`. */
  function IsDateFormat(v: JsValue, f: string): (r: seq<ValidationError>)
    ensures r == [] <==> DateShaped(ToJsString(v))
    ensures r != [] ==> r == [ValidationError(f + " must be in YYYY-MM-DD format", f, v)]
  {
    if DateShaped(ToJsString(v)) then [] else [ValidationError(f + " must be in YYYY-MM-DD format", f, v)]
  }

  // ---------------------------------------------------------------- lists of error lists

  /** The concatenation of error lists, as successive `push(...)` calls build it. */
  function Flatten(parts: seq<seq<ValidationError>>): seq<ValidationError>
  {
    if parts == [] then [] else Flatten(parts[..|parts| - 1]) + parts[|parts| - 1]
  }

  lemma {:induction false} FlattenEmpty(parts: seq<seq<ValidationError>>)
    ensures Flatten(parts) == [] <==> forall i :: 0 <= i < |parts| ==> parts[i] == []
  {
    if parts != [] {
      var init := parts[..|parts| - 1];
      FlattenEmpty(init);
      assert forall i :: 0 <= i < |init| ==> init[i] == parts[i];
    }
  }

  lemma {:induction false} FlattenMembers(parts: seq<seq<ValidationError>>, e: ValidationError)
    ensures e in Flatten(parts) <==> exists i :: 0 <= i < |parts| && e in parts[i]
  {
    if parts != [] {
      var init := parts[..|parts| - 1];
      FlattenMembers(init, e);
      assert forall i :: 0 <= i < |init| ==> init[i] == parts[i];
      if e in parts[|parts| - 1] {
        assert exists i :: 0 <= i < |parts| && e in parts[i];
      }
    }
  }

  /** Flattening one more part appends its errors. */
  lemma FlattenSnoc(parts: seq<seq<ValidationError>>, i: nat)
    requires i < |parts|
    ensures Flatten(parts[..i + 1]) == Flatten(parts[..i]) + parts[i]
  {
    assert parts[..i + 1][..i] == parts[..i];
  }

  // ---------------------------------------------------------------- the two per-item loops

  /** The field name of item `i` of array field `f`: `f[i]`. */
  function Indexed(f: string, i: nat): string
  {
    f + "[" + NatToString(i) + "]"
  }

  /** The errors of `isUUID` for each item of an array, under its indexed field name. */
  function UuidItemParts(items: seq<JsValue>, f: string): (r: seq<seq<ValidationError>>)
    ensures |r| == |items|
  {
    seq(|items|, i requires 0 <= i < |items| => IsUUID(items[i], Indexed(f, i)))
  }

  /** An optional id list: an array whose items are all UUIDs. */
  predicate UuidArray(v: JsValue)
  {
    v.Arr? && forall i :: 0 <= i < |v.items| ==> StrictUuid(v.items[i])
  }

  /** `if (!Array.isArray(v)) push("f must be an array") else v.forEach((id, i) => push(...isUUID(id, "f[i]")))`. */
  function UuidArrayErrors(v: JsValue, f: string): (r: seq<ValidationError>)
    ensures r == [] <==> UuidArray(v)
  {
    if !v.Arr? then [ValidationError(f + " must be an array", f, v)]
    else
      FlattenEmpty(UuidItemParts(v.items, f));
      assert forall i :: 0 <= i < |v.items| ==> (UuidItemParts(v.items, f)[i] == [] <==> StrictUuid(v.items[i]));
      Flatten(UuidItemParts(v.items, f))
  }

  /** The `forEach` over the items of an id array. */
  method CollectUuidErrors(items: seq<JsValue>, f: string) returns (errors: seq<ValidationError>)
    ensures errors == Flatten(UuidItemParts(items, f))
  {
    errors := [];
    var i := 0;
    while i < |items|
      invariant 0 <= i <= |items|
      invariant errors == Flatten(UuidItemParts(items, f)[..i])
    {
      FlattenSnoc(UuidItemParts(items, f), i);
      errors := errors + IsUUID(items[i], Indexed(f, i));
      i := i + 1;
    }
    assert UuidItemParts(items, f)[..i] == UuidItemParts(items, f);
  }

  /** The error for one key of a flags object: an unknown key, or a known one whose value is not a boolean. */
  function FlagErrors(p: Prop, f: string, allowed: seq<string>): (r: seq<ValidationError>)
    ensures r == [] <==> p.key in allowed && p.value.Bool?
    ensures About(r, f + "." + p.key, p.value)
  {
    var name := f + "." + p.key;
    if p.key !in allowed then [ValidationError(name + " is not a valid field", name, p.value)]
    else if !p.value.Bool? then [ValidationError(name + " must be a boolean", name, p.value)]
    else []
  }

  function FlagParts(entries: seq<Prop>, f: string, allowed: seq<string>): (r: seq<seq<ValidationError>>)
    ensures |r| == |entries|
  {
    seq(|entries|, i requires 0 <= i < |entries| => FlagErrors(entries[i], f, allowed))
  }

  /** A flags object: a non-null object whose every key is allowed and holds a boolean. */
  predicate FlagsObject(v: JsValue, allowed: seq<string>)
  {
    IsObject(v) && forall i :: 0 <= i < |Entries(v)| ==> Entries(v)[i].key in allowed && Entries(v)[i].value.Bool?
  }

  /** `if (!v || typeof v !== "object") push("f must be an object") else Object.keys(v).forEach(...)`. */
  function FlagsErrors(v: JsValue, f: string, allowed: seq<string>): (r: seq<ValidationError>)
    ensures r == [] <==> FlagsObject(v, allowed)
  {
    if !Truthy(v) || !IsTypeofObject(v) then [ValidationError(f + " must be an object", f, v)]
    else
      FlattenEmpty(FlagParts(Entries(v), f, allowed));
      assert forall i :: 0 <= i < |Entries(v)| ==>
          (FlagParts(Entries(v), f, allowed)[i] == [] <==> Entries(v)[i].key in allowed && Entries(v)[i].value.Bool?);
      Flatten(FlagParts(Entries(v), f, allowed))
  }

  /** The `forEach` over the keys of a flags object. */
  method CollectFlagErrors(entries: seq<Prop>, f: string, allowed: seq<string>) returns (errors: seq<ValidationError>)
    ensures errors == Flatten(FlagParts(entries, f, allowed))
  {
    errors := [];
    var i := 0;
    while i < |entries|
      invariant 0 <= i <= |entries|
      invariant errors == Flatten(FlagParts(entries, f, allowed)[..i])
    {
      FlattenSnoc(FlagParts(entries, f, allowed), i);
      errors := errors + FlagErrors(entries[i], f, allowed);
      i := i + 1;
    }
    assert FlagParts(entries, f, allowed)[..i] == FlagParts(entries, f, allowed);
  }

  // ---------------------------------------------------------------- rules

  /** The check a validator applies to one field. */
  datatype Rule =
    | UuidRule
    | TimestampRule
    | NonEmptyRule
    | RangeRule(min: Option<int>, max: Option<int>)
    | HexColorRule
    | UrlRule
    | BooleanRule
    | OneOfRule(values: seq<string>, message: string)
    | DateFormatRule
    | UuidArrayRule
    | FlagsRule(allowed: seq<string>)

  /** When a check is skipped: never, when the field is `null` (`!== null`), or when it is `undefined` (`!== undefined`). */
  datatype Guard = Always | UnlessNull | UnlessUndefined

  datatype FieldRule = FieldRule(field: string, guard: Guard, rule: Rule)

  predicate Skipped(g: Guard, v: JsValue)
  {
    match g
    case Always => false
    case UnlessNull => v.Null?
    case UnlessUndefined => v.Undefined?
  }

  /** What each rule accepts, stated without its error messages. */
  predicate RuleOk(host: Host, rule: Rule, v: JsValue)
  {
    match rule
    case UuidRule => StrictUuid(v)
    case TimestampRule => IsoTimestamp(host, v)
    case NonEmptyRule => NonBlankString(v)
    case RangeRule(min, max) => NumberWithin(v, min, max)
    case HexColorRule => IsNullish(v) || (v.Str? && HexColorShaped(v.s))
    case UrlRule => IsNullish(v) || (v.Str? && host.isUrl(v.s))
    case BooleanRule => v.Bool?
    case OneOfRule(values, _) => v.Str? && v.s in values
    case DateFormatRule => DateShaped(ToJsString(v))
    case UuidArrayRule => UuidArray(v)
    case FlagsRule(allowed) => FlagsObject(v, allowed)
  }

  /** A rule whose errors all name its field exactly (the two per-item rules rename theirs). */
  predicate OwnField(rule: Rule)
  {
    !rule.UuidArrayRule? && !rule.FlagsRule?
  }

  function RuleErrors(host: Host, rule: Rule, v: JsValue, f: string): (r: seq<ValidationError>)
    ensures r == [] <==> RuleOk(host, rule, v)
    ensures OwnField(rule) ==> forall i :: 0 <= i < |r| ==> r[i].field == f
  {
    match rule
    case UuidRule => IsUUID(v, f)
    case TimestampRule => IsISOTimestamp(host, v, f)
    case NonEmptyRule => IsNonEmptyString(v, f)
    case RangeRule(min, max) => IsNumberInRange(v, f, min, max)
    case HexColorRule => IsHexColor(v, f)
    case UrlRule => IsURL(host, v, f)
    case BooleanRule => IsBoolean(v, f)
    case OneOfRule(values, message) => IsOneOf(v, f, values, message)
    case DateFormatRule => IsDateFormat(v, f)
    case UuidArrayRule => UuidArrayErrors(v, f)
    case FlagsRule(allowed) => FlagsErrors(v, f, allowed)
  }

  /** The errors one rule reports for `data`. */
  function FieldRuleErrors(host: Host, data: JsValue, fr: FieldRule): seq<ValidationError>
  {
    var v := Get(data, fr.field);
    if Skipped(fr.guard, v) then [] else RuleErrors(host, fr.rule, v, fr.field)
  }

  /** A field passes its rule: the rule is skipped for it, or it is accepted. */
  predicate FieldRuleOk(host: Host, data: JsValue, fr: FieldRule)
  {
    Skipped(fr.guard, Get(data, fr.field)) || RuleOk(host, fr.rule, Get(data, fr.field))
  }

  function RuleParts(host: Host, data: JsValue, rules: seq<FieldRule>): (r: seq<seq<ValidationError>>)
    ensures |r| == |rules|
  {
    seq(|rules|, i requires 0 <= i < |rules| => FieldRuleErrors(host, data, rules[i]))
  }

  /** Every error the rules report, in rule order. */
  function Errors(host: Host, data: JsValue, rules: seq<FieldRule>): seq<ValidationError>
  {
    Flatten(RuleParts(host, data, rules))
  }

  predicate RulesOk(host: Host, data: JsValue, rules: seq<FieldRule>)
  {
    forall i :: 0 <= i < |rules| ==> FieldRuleOk(host, data, rules[i])
  }

  /** The message of the `TypeError` for reading `field` of null or undefined. */
  function ReadError(data: JsValue, field: string): JsError
  {
    TypeError("Cannot read properties of " + ToJsString(data) + " (reading '" + field + "')")
  }

  /** A validator built from a rule table: reading a field of null or undefined throws. */
  function ValidateWith(host: Host, data: JsValue, rules: seq<FieldRule>): Validated
    requires rules != []
  {
    if IsNullish(data) then Err(ReadError(data, rules[0].field))
    else Ok(Finish(data, Errors(host, data, rules)))
  }

  // ---------------------------------------------------------------- what every rule table guarantees

  /** A table passes when its first rule and the rest of it pass. */
  lemma RulesOkCons(host: Host, data: JsValue, rules: seq<FieldRule>)
    requires rules != []
    ensures RulesOk(host, data, rules) <==> FieldRuleOk(host, data, rules[0]) && RulesOk(host, data, rules[1..])
  {
    assert forall i :: 1 <= i < |rules| ==> rules[1..][i - 1] == rules[i];
  }

  /** A table of three rules passes when each of the three does. */
  lemma RulesOkThree(host: Host, data: JsValue, rules: seq<FieldRule>)
    requires |rules| == 3
    ensures RulesOk(host, data, rules) <==>
              FieldRuleOk(host, data, rules[0]) && FieldRuleOk(host, data, rules[1]) && FieldRuleOk(host, data, rules[2])
  {
  }

  /** A table of four rules passes when each of the four does. */
  lemma RulesOkFour(host: Host, data: JsValue, rules: seq<FieldRule>)
    requires |rules| == 4
    ensures RulesOk(host, data, rules) <==>
              FieldRuleOk(host, data, rules[0]) && FieldRuleOk(host, data, rules[1])
              && FieldRuleOk(host, data, rules[2]) && FieldRuleOk(host, data, rules[3])
  {
  }

  /** No error is reported exactly when every field passes its rule. */
  lemma ErrorsEmptyIff(host: Host, data: JsValue, rules: seq<FieldRule>)
    ensures Errors(host, data, rules) == [] <==> RulesOk(host, data, rules)
  {
    var parts := RuleParts(host, data, rules);
    FlattenEmpty(parts);
    assert forall i :: 0 <= i < |rules| ==> (parts[i] == [] <==> FieldRuleOk(host, data, rules[i]));
  }

  /** A field that fails its rule has at least one error; for a rule of its own field, one naming that field. */
  lemma FailingFieldReported(host: Host, data: JsValue, rules: seq<FieldRule>, i: nat)
    requires i < |rules| && !FieldRuleOk(host, data, rules[i])
    ensures exists e :: e in Errors(host, data, rules) && e in FieldRuleErrors(host, data, rules[i])
    ensures OwnField(rules[i].rule) ==> exists e :: e in Errors(host, data, rules) && e.field == rules[i].field
  {
    var parts := RuleParts(host, data, rules);
    var e := parts[i][0];
    FlattenMembers(parts, e);
    assert e in Errors(host, data, rules);
  }

  /** A failing own-field rule for field `f` puts an error naming `f` among the errors. */
  lemma FieldReported(host: Host, data: JsValue, rules: seq<FieldRule>, i: nat, f: string)
    requires i < |rules| && rules[i].field == f && OwnField(rules[i].rule) && !FieldRuleOk(host, data, rules[i])
    ensures exists e :: e in Errors(host, data, rules) && e.field == f
  {
    FailingFieldReported(host, data, rules, i);
  }

  /** Every reported error comes from a rule that the field fails. */
  lemma ErrorsComeFromFailingFields(host: Host, data: JsValue, rules: seq<FieldRule>, e: ValidationError)
    requires e in Errors(host, data, rules)
    ensures exists i :: 0 <= i < |rules| && !FieldRuleOk(host, data, rules[i]) && e in FieldRuleErrors(host, data, rules[i])
  {
    FlattenMembers(RuleParts(host, data, rules), e);
  }

  /** Every rule of the table reports errors under its own field name. */
  predicate AllOwnFields(rules: seq<FieldRule>)
  {
    forall i :: 0 <= i < |rules| ==> OwnField(rules[i].rule)
  }

  /** For a table of own-field rules, the fields named in the errors are exactly the failing fields. */
  lemma FailuresAreExactlyFailingFields(host: Host, data: JsValue, rules: seq<FieldRule>)
    requires AllOwnFields(rules)
    ensures forall i :: 0 <= i < |rules| && !FieldRuleOk(host, data, rules[i]) ==>
              exists e :: e in Errors(host, data, rules) && e.field == rules[i].field
    ensures forall e :: e in Errors(host, data, rules) ==>
              exists i :: 0 <= i < |rules| && !FieldRuleOk(host, data, rules[i]) && e.field == rules[i].field
  {
    forall i | 0 <= i < |rules| && !FieldRuleOk(host, data, rules[i])
      ensures exists e :: e in Errors(host, data, rules) && e.field == rules[i].field
    {
      FailingFieldReported(host, data, rules, i);
    }
    forall e | e in Errors(host, data, rules)
      ensures exists i :: 0 <= i < |rules| && !FieldRuleOk(host, data, rules[i]) && e.field == rules[i].field
    {
      ErrorsComeFromFailingFields(host, data, rules, e);
      var i :| 0 <= i < |rules| && !FieldRuleOk(host, data, rules[i]) && e in FieldRuleErrors(host, data, rules[i]);
      assert OwnField(rules[i].rule);
    }
  }

  /** A rule-table validator throws exactly on null and undefined, and succeeds, with the data unchanged, exactly when every field passes. */
  lemma ValidateWithIff(host: Host, data: JsValue, rules: seq<FieldRule>)
    requires rules != []
    ensures ValidateWith(host, data, rules).Err? <==> IsNullish(data)
    ensures ValidateWith(host, data, rules) == Ok(Success(data)) <==> !IsNullish(data) && RulesOk(host, data, rules)
    ensures ValidateWith(host, data, rules).Ok? && ValidateWith(host, data, rules).value.Success? ==>
              ValidateWith(host, data, rules) == Ok(Success(data))
  {
    ErrorsEmptyIff(host, data, rules);
  }
}
