/**
 * The three string enumerations of the shared type definitions and their
 * type guards (`isSessionStatus`, `isPomodoroStatus`, `isSettingType`), each
 * of which tests whether a value is one of the enumeration's string values.
 */
module Enums {
  import opened Js

  /** The states a tracking session can be in. */
  datatype SessionStatus = SessionActive | SessionPaused | SessionCompleted | SessionInterrupted

  /** The states of a pomodoro timer; a pomodoro cannot be paused. */
  datatype PomodoroStatus = PomodoroActive | PomodoroCompleted | PomodoroInterrupted

  /** The types a stored setting value can have. */
  datatype SettingType = SettingString | SettingNumber | SettingBoolean | SettingJson

  /** The string each enumeration member stands for on the wire. */
  function SessionStatusValue(st: SessionStatus): string
  {
    match st
    case SessionActive => "active"
    case SessionPaused => "paused"
    case SessionCompleted => "completed"
    case SessionInterrupted => "interrupted"
  }

  function PomodoroStatusValue(st: PomodoroStatus): string
  {
    match st
    case PomodoroActive => "active"
    case PomodoroCompleted => "completed"
    case PomodoroInterrupted => "interrupted"
  }

  function SettingTypeValue(t: SettingType): string
  {
    match t
    case SettingString => "string"
    case SettingNumber => "number"
    case SettingBoolean => "boolean"
    case SettingJson => "json"
  }

  /** `Object.values(E)` for each enumeration, in declaration order. */
  const SessionStatusValues: seq<string> := ["active", "paused", "completed", "interrupted"]
  const PomodoroStatusValues: seq<string> := ["active", "completed", "interrupted"]
  const SettingTypeValues: seq<string> := ["string", "number", "boolean", "json"]

  /** `values.includes(v)`: strict equality with one of the strings, so only a string can match. */
  predicate Includes(values: seq<string>, v: JsValue)
  {
    v.Str? && v.s in values
  }

  /** `isSessionStatus(value)`. */
  predicate IsSessionStatus(v: JsValue) { Includes(SessionStatusValues, v) }

  /** `isPomodoroStatus(value)`. */
  predicate IsPomodoroStatus(v: JsValue) { Includes(PomodoroStatusValues, v) }

  /** `isSettingType(value)`. */
  predicate IsSettingType(v: JsValue) { Includes(SettingTypeValues, v) }

  /** The guard accepts exactly the wire strings of the enumeration's members. */
  lemma SessionStatusGuard(v: JsValue)
    ensures IsSessionStatus(v) <==> exists st :: v == Str(SessionStatusValue(st))
  {
    if IsSessionStatus(v) {
      var st := if v.s == "active" then SessionActive
                else if v.s == "paused" then SessionPaused
                else if v.s == "completed" then SessionCompleted
                else SessionInterrupted;
      assert v == Str(SessionStatusValue(st));
    }
  }

  lemma PomodoroStatusGuard(v: JsValue)
    ensures IsPomodoroStatus(v) <==> exists st :: v == Str(PomodoroStatusValue(st))
  {
    if IsPomodoroStatus(v) {
      var st := if v.s == "active" then PomodoroActive
                else if v.s == "completed" then PomodoroCompleted
                else PomodoroInterrupted;
      assert v == Str(PomodoroStatusValue(st));
    }
  }

  lemma SettingTypeGuard(v: JsValue)
    ensures IsSettingType(v) <==> exists t :: v == Str(SettingTypeValue(t))
  {
    if IsSettingType(v) {
      var t := if v.s == "string" then SettingString
               else if v.s == "number" then SettingNumber
               else if v.s == "boolean" then SettingBoolean
               else SettingJson;
      assert v == Str(SettingTypeValue(t));
    }
  }

  /** Every pomodoro status is also a session status, and "paused" is the one session status that is not a pomodoro status. */
  lemma PomodoroStatusIsSessionStatus(v: JsValue)
    ensures IsPomodoroStatus(v) ==> IsSessionStatus(v)
    ensures IsSessionStatus(v) && !IsPomodoroStatus(v) <==> v == Str("paused")
  {
  }

  /** The guards reject every value that is not a string. */
  lemma GuardsRejectNonStrings(v: JsValue)
    requires !v.Str?
    ensures !IsSessionStatus(v) && !IsPomodoroStatus(v) && !IsSettingType(v)
  {
  }
}
