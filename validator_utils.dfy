/**
 * `validateArray`, which runs an item validator over an array and renames
 * each item error's field after the item's position, and `createValidator`,
 * which turns a validator into a function that returns the data or throws.
 */
module ValidatorUtils {
  import opened Wrappers
  import opened Js
  import opened Validators

  /** An item validator; like the entity validators, it may throw. */
  type ItemValidator = JsValue -> Validated

  /** The field an item error is renamed to: `name[index].field`. */
  function ItemField(name: string, index: nat, field: string): string
  {
    name + "[" + NatToString(index) + "]." + field
  }

  /** The errors of item `index`, each renamed after the item. */
  function Renamed(errors: seq<ValidationError>, name: string, index: nat): (r: seq<ValidationError>)
    ensures |r| == |errors|
    ensures forall k :: 0 <= k < |r| ==>
              r[k].message == errors[k].message && r[k].value == errors[k].value
              && r[k].field == ItemField(name, index, errors[k].field)
  {
    seq(|errors|, k requires 0 <= k < |errors| => errors[k].(field := ItemField(name, index, errors[k].field)))
  }

  /** The errors collected and the items kept, so far. */
  datatype Progress = Progress(errors: seq<ValidationError>, items: seq<JsValue>)

  /** One `forEach` step over item `index`: keep its data, or collect its renamed errors; a throw ends the walk. */
  function Step(p: Progress, r: Validated, name: string, index: nat): Result<Progress, JsError>
  {
    match r
    case Err(e) => Err(e)
    case Ok(Success(d)) => Ok(Progress(p.errors, p.items + [d]))
    case Ok(Failure(es)) => Ok(Progress(p.errors + Renamed(es, name, index), p.items))
  }

  /** The state of the walk after the first `|items|` items. */
  function Walk(items: seq<JsValue>, validator: ItemValidator, name: string): Result<Progress, JsError>
  {
    if items == [] then Ok(Progress([], []))
    else
      match Walk(items[..|items| - 1], validator, name)
      case Err(e) => Err(e)
      case Ok(p) => Step(p, validator(items[|items| - 1]), name, |items| - 1)
  }

  /** `validateArray(data, validator, fieldName)` as a function of its arguments. */
  function ArrayResult(data: JsValue, validator: ItemValidator, name: string): Validated
  {
    if !data.Arr? then Ok(Failure([ValidationError(name + " must be an array", name, data)]))
    else
      match Walk(data.items, validator, name)
      case Err(e) => Err(e)
      case Ok(p) => Ok(Finish(Arr(p.items), p.errors))
  }

  /** `validateArray(data, validator, fieldName = "array")`. */
  method ValidateArray(data: JsValue, validator: ItemValidator, name: string := "array") returns (r: Validated)
    ensures r == ArrayResult(data, validator, name)
  {
    if !data.Arr? {
      return Ok(Failure([ValidationError(name + " must be an array", name, data)]));
    }
    var items := data.items;
    var errors: seq<ValidationError> := [];
    var validated: seq<JsValue> := [];
    var i := 0;
    while i < |items|
      invariant 0 <= i <= |items|
      invariant Walk(items[..i], validator, name) == Ok(Progress(errors, validated))
    {
      assert items[..i + 1][..i] == items[..i];
      var result := validator(items[i]);
      match result {
        case Err(e) =>
          WalkStopsAfterThrow(items, validator, name, i + 1);
          return Err(e);
        case Ok(Success(d)) =>
          validated := validated + [d];
        case Ok(Failure(es)) =>
          errors := errors + Renamed(es, name, i);
      }
      i := i + 1;
    }
    assert items[..i] == items;
    r := Ok(Finish(Arr(validated), errors));
  }

  /** Once an item throws, the whole walk throws the same error. */
  lemma {:induction false} WalkStopsAfterThrow(items: seq<JsValue>, validator: ItemValidator, name: string, n: nat)
    requires 0 < n <= |items| && Walk(items[..n], validator, name).Err?
    ensures Walk(items, validator, name) == Walk(items[..n], validator, name)
  {
    if n < |items| {
      assert items[..|items| - 1][..n] == items[..n];
      WalkStopsAfterThrow(items[..|items| - 1], validator, name, n);
      assert items[..n] == items[..|items| - 1][..n];
    } else {
      assert items[..n] == items;
    }
  }

  // ---------------------------------------------------------------- what validateArray guarantees

  /** A non-array gets exactly one error, about the array itself. */
  lemma NonArrayIsOneError(data: JsValue, validator: ItemValidator, name: string)
    requires !data.Arr?
    ensures ArrayResult(data, validator, name) == Ok(Failure([ValidationError(name + " must be an array", name, data)]))
  {
  }

  /** Every item passes: each item's own validated data, one per item, in order. */
  predicate AllPass(items: seq<JsValue>, validator: ItemValidator)
  {
    forall i :: 0 <= i < |items| ==> validator(items[i]).Ok? && validator(items[i]).value.Success?
  }

  /** When every item passes, the walk keeps every item's data in order and collects nothing. */
  lemma {:induction false} WalkWhenAllPass(items: seq<JsValue>, validator: ItemValidator, name: string)
    requires AllPass(items, validator)
    ensures Walk(items, validator, name).Ok?
    ensures Walk(items, validator, name).value.errors == []
    ensures |Walk(items, validator, name).value.items| == |items|
    ensures forall i :: 0 <= i < |items| ==>
              Walk(items, validator, name).value.items[i] == validator(items[i]).value.data
  {
    if items != [] {
      var init := items[..|items| - 1];
      assert forall i :: 0 <= i < |init| ==> init[i] == items[i];
      WalkWhenAllPass(init, validator, name);
    }
  }

  /** An array whose items all pass succeeds with their validated data, in order. */
  lemma ArraySucceedsWhenAllPass(data: JsValue, validator: ItemValidator, name: string)
    requires data.Arr? && AllPass(data.items, validator)
    ensures ArrayResult(data, validator, name).Ok? && ArrayResult(data, validator, name).value.Success?
    ensures var out := ArrayResult(data, validator, name).value.data;
            out.Arr? && |out.items| == |data.items|
            && forall i :: 0 <= i < |data.items| ==> out.items[i] == validator(data.items[i]).value.data
  {
    WalkWhenAllPass(data.items, validator, name);
  }

  /** The errors of item `i`, renamed, when it fails; none otherwise. */
  function ItemErrors(items: seq<JsValue>, validator: ItemValidator, name: string, i: nat): seq<ValidationError>
    requires i < |items|
  {
    var r := validator(items[i]);
    if r.Ok? && r.value.Failure? then Renamed(r.value.errors, name, i) else []
  }

  /** No item throws. */
  predicate NoneThrows(items: seq<JsValue>, validator: ItemValidator)
  {
    forall i :: 0 <= i < |items| ==> validator(items[i]).Ok?
  }

  /** The collected errors are the failing items' errors, renamed, in item order. */
  lemma {:induction false} WalkCollectsItemErrors(items: seq<JsValue>, validator: ItemValidator, name: string)
    requires NoneThrows(items, validator)
    ensures Walk(items, validator, name).Ok?
    ensures Walk(items, validator, name).value.errors
              == Flatten(seq(|items|, i requires 0 <= i < |items| => ItemErrors(items, validator, name, i)))
  {
    var parts := seq(|items|, i requires 0 <= i < |items| => ItemErrors(items, validator, name, i));
    if items != [] {
      var init := items[..|items| - 1];
      assert forall i :: 0 <= i < |init| ==> init[i] == items[i];
      WalkCollectsItemErrors(init, validator, name);
      var initParts := seq(|init|, i requires 0 <= i < |init| => ItemErrors(init, validator, name, i));
      assert parts[..|parts| - 1] == initParts;
    }
  }

  /** A throwing item makes `validateArray` throw, when no earlier item has. */
  lemma ArrayThrowsWithItem(data: JsValue, validator: ItemValidator, name: string, n: nat)
    requires data.Arr? && n < |data.items| && validator(data.items[n]).Err?
    requires NoneThrows(data.items[..n], validator)
    ensures ArrayResult(data, validator, name) == Err(validator(data.items[n]).error)
  {
    WalkCollectsItemErrors(data.items[..n], validator, name);
    assert data.items[..n + 1][..n] == data.items[..n];
    WalkStopsAfterThrow(data.items, validator, name, n + 1);
  }

  // ---------------------------------------------------------------- createValidator

  /** `createValidator(validator)(data)`: the validated data, or a throw. */
  function CreateValidator(validator: ItemValidator, data: JsValue): (r: Result<JsValue, JsError>)
    ensures validator(data).Err? ==> r == Err(validator(data).error)
    ensures validator(data) == Ok(Success(data)) ==> r == Ok(data)
    ensures r.Ok? <==> validator(data).Ok? && validator(data).value.Success?
    ensures validator(data).Ok? && validator(data).value.Failure? ==>
              r == Err(ValidationFailed(FailureMessage(validator(data).value.errors)))
  {
    match validator(data)
    case Err(e) => Err(e)
    case Ok(Success(d)) => Ok(d)
    case Ok(Failure(errors)) => Err(ValidationFailed(FailureMessage(errors)))
  }

  /** `"Validation failed: " + errors.map(e => `${e.field}: ${e.message}`).join(", ")`. */
  function FailureMessage(errors: seq<ValidationError>): (m: string)
    ensures StartsWith(m, "Validation failed: ")
    ensures errors == [] ==> m == "Validation failed: "
    ensures |errors| == 1 ==> m == "Validation failed: " + errors[0].field + ": " + errors[0].message
  {
    var m := "Validation failed: " + Join(ErrorParts(errors), ", ");
    assert m[..|"Validation failed: "|] == "Validation failed: ";
    m
  }

  /** Each error as `field: message`, in order. */
  function ErrorParts(errors: seq<ValidationError>): (parts: seq<string>)
    ensures |parts| == |errors|
    ensures forall k :: 0 <= k < |errors| ==> parts[k] == errors[k].field + ": " + errors[k].message
  {
    seq(|errors|, k requires 0 <= k < |errors| => errors[k].field + ": " + errors[k].message)
  }

  /** A further error adds ", field: message" at the end of the message, so every error is listed in order. */
  lemma FailureMessageSnoc(errors: seq<ValidationError>, e: ValidationError)
    requires errors != []
    ensures FailureMessage(errors + [e]) == FailureMessage(errors) + ", " + e.field + ": " + e.message
  {
    assert ErrorParts(errors + [e]) == ErrorParts(errors) + [e.field + ": " + e.message];
    JoinSnoc(ErrorParts(errors), e.field + ": " + e.message, ", ");
  }
}
