/** The submission pipeline: validate, and only then encode and ask the
    classifier. */
module Predictor {
  import opened Calendar
  import opened FormValues
  import opened Validator
  import opened Transformer

  /** How a submission ends: a label from the classifier (0 = not absent), or
      the validation error that stops processing. */
  datatype Outcome = Predicted(code: int) | Rejected

  /** What the form's widgets always put into the session: the count
      selectors hold one of their options (an int or "More than 2"), the
      reason selector holds a value that is not a list, the date picker holds
      a date. The numeric fields and education are left to validation. */
  predicate FormShaped(session: map<Key, Value>) {
    && Children in session && IsCount(session[Children])
    && Pets in session && IsCount(session[Pets])
    && Reason in session && Hashable(session[Reason])
    && DateField in session && IsDate(session[DateField])
  }

  /** A well-shaped submission that passes validation has everything the
      encoder reads. */
  lemma ValidatedCanTransform(session: map<Key, Value>)
    requires FormShaped(session) && ValidateInputs(session)
    ensures CanTransform(session)
  {
    assert forall f :: f in RequiredFields ==> f in session;
  }

  class AbsentHoursPredictor {
    /** Where the trained model is stored; loading it is outside this model. */
    const modelPath: string
    /** The loaded classifier's `predict`, reduced to the label of a one-row frame. */
    const classify: Row -> int
    /** The rows handed to the classifier so far, oldest first. */
    ghost var requests: seq<Row>

    constructor (modelPath: string, classify: Row -> int)
      ensures this.modelPath == modelPath && this.classify == classify
      ensures requests == []
    {
      this.modelPath := modelPath;
      this.classify := classify;
      requests := [];
    }

    /** `get_prediction`: the classifier's label for one encoded row. */
    method GetPrediction(row: Row) returns (code: int)
      modifies this
      ensures code == classify(row)
      ensures requests == old(requests) + [row]
    {
      code := classify(row);
      requests := requests + [row];
    }

    /** `process_inputs`: copies the session, validates the copy, and encodes
        and classifies it only when validation succeeds. The session itself is
        never changed; a rejected submission reaches neither the encoder nor
        the classifier. The encoder is only asked to read what it can read
        once validation has passed, which the form's widgets guarantee
        (`ValidatedCanTransform`). */
    method ProcessInputs(session: InputDict) returns (outcome: Outcome)
      requires ValidateInputs(session.entries) ==> CanTransform(session.entries)
      modifies this
      ensures unchanged(session)
      ensures outcome.Rejected? <==> !ValidateInputs(session.entries)
      ensures outcome.Predicted? ==>
        && outcome.code == classify(Encode(session.entries))
        && requests == old(requests) + [Encode(session.entries)]
      ensures outcome.Rejected? ==> requests == old(requests)
    {
      var inputs := new InputDict(session.entries);
      if ValidateInputs(inputs.entries) {
        var row := TransformInputs(inputs);
        var prediction := GetPrediction(row);
        outcome := Predicted(prediction);
      } else {
        outcome := Rejected;
      }
    }
  }

  /** A session holding a complete submission (level-3 education, body mass
      index 25, the given age, transport expense 200, distance 10, work load
      250, one child, no pets, reason B, Friday 2024-03-15), whatever else
      it holds. */
  predicate Sample(s: map<Key, Value>, age: int) {
    && Education in s && s[Education] == Int(3)
    && BodyMassIndex in s && s[BodyMassIndex] == Int(25)
    && Age in s && s[Age] == Int(age)
    && TransportationExpense in s && s[TransportationExpense] == Int(200)
    && DistanceToWork in s && s[DistanceToWork] == Int(10)
    && DailyWorkLoadAverage in s && s[DailyWorkLoadAverage] == Int(250)
    && Children in s && s[Children] == Int(1)
    && Pets in s && s[Pets] == Int(0)
    && Reason in s && s[Reason] == Str(ReasonCategories[1])
    && DateField in s && s[DateField] == DateObj(Date(2024, 3, 15))
  }

  /** The sample submission passes validation. */
  lemma SampleSubmissionAccepted(s: map<Key, Value>)
    requires Sample(s, 30)
    ensures FormShaped(s) && ValidateInputs(s) && CanTransform(s)
  {
    ValidatedCanTransform(s);
  }

  /** The sample submission encodes to education 1, children 1, pets 0 and
      reason [0, 1, 0, 0]. */
  lemma SampleSubmissionCategoricals(s: map<Key, Value>)
    requires Sample(s, 30)
    ensures CanTransform(s)
    ensures var row := Encode(s);
      && row[5].value == Int(1) && row[6].value == Int(1) && row[7].value == Int(0)
      && row[8].value == Int(0) && row[9].value == Int(1) && row[10].value == Int(0) && row[11].value == Int(0)
  {
    SampleSubmissionAccepted(s);
    EncodeCategoricals(s);
    EncodeReasonSlots(s);
  }

  /** The sample submission's date encodes to day 15, month 3 and weekday 4
      (Friday). */
  lemma SampleSubmissionDate(s: map<Key, Value>)
    requires Sample(s, 30)
    ensures CanTransform(s)
    ensures var row := Encode(s);
      row[12].value == Int(15) && row[13].value == Int(3) && row[14].value == Int(4)
  {
    SampleSubmissionAccepted(s);
    EncodeDateParts(s);
    Friday20240315();
  }

  /** The same submission with age 0 is rejected. */
  lemma ZeroAgeRejected(s: map<Key, Value>)
    requires Sample(s, 0)
    ensures FormShaped(s) && !ValidateInputs(s)
  {
  }
}
