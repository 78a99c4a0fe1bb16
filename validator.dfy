/** The check run before any encoding: every required numeric field must be
    present and must not hold 0 or `None`. */
module Validator {
  import opened FormValues

  /** The fields the check looks at, in the order it looks at them. */
  const RequiredFields: seq<Key> := [
    Education, BodyMassIndex, Age,
    TransportationExpense, DistanceToWork,
    DailyWorkLoadAverage
  ]

  /** `inputs.get(field) in [0, None]`: the field is absent, 0 or `None`. */
  predicate IsBlank(inputs: map<Key, Value>, field: Key) {
    field !in inputs || inputs[field] == Int(0) || inputs[field] == NoneValue
  }

  /** Python's `any` over a list of fields. */
  function AnyBlank(inputs: map<Key, Value>, fields: seq<Key>): (b: bool)
    ensures b <==> exists i :: 0 <= i < |fields| && IsBlank(inputs, fields[i])
  {
    if fields == [] then false
    else if IsBlank(inputs, fields[0]) then true
    else
      var rest := AnyBlank(inputs, fields[1..]);
      assert forall i :: 1 <= i < |fields| ==> fields[i] == fields[1..][i - 1];
      rest
  }

  /** `Validator.validate_inputs`: true exactly when all six required fields are
      present with a value other than 0 and `None`. */
  function ValidateInputs(inputs: map<Key, Value>): (ok: bool)
    ensures ok <==> forall f :: f in RequiredFields ==> !IsBlank(inputs, f)
    ensures ok ==> forall f :: f in RequiredFields ==> f in inputs
    ensures ok <==>
      && !IsBlank(inputs, Education)
      && !IsBlank(inputs, BodyMassIndex)
      && !IsBlank(inputs, Age)
      && !IsBlank(inputs, TransportationExpense)
      && !IsBlank(inputs, DistanceToWork)
      && !IsBlank(inputs, DailyWorkLoadAverage)
  {
    !AnyBlank(inputs, RequiredFields)
  }

  /** Only the six required fields decide the verdict: two submissions that
      agree on them are accepted or rejected together. */
  lemma OnlyRequiredFieldsMatter(a: map<Key, Value>, b: map<Key, Value>)
    requires forall f :: f in RequiredFields ==> (f in a <==> f in b) && (f in a ==> a[f] == b[f])
    ensures ValidateInputs(a) == ValidateInputs(b)
  {
  }
}
