/** Feature encoding: turns a validated form submission into the 15-column row
    the classifier was trained on. */
module Transformer {
  import opened Calendar
  import opened FormValues

  /** The option the count selectors offer for three or more. */
  const MoreThanTwo: string := "More than 2"

  /** The options of the count selectors (children, pets). */
  const CountOptions: seq<Value> := [Int(0), Int(1), Int(2), Str(MoreThanTwo)]

  /** The reason categories, in one-hot position order. */
  const ReasonCategories: seq<string> := ["Category A", "Category B", "Category C", "Category D"]

  /** The keys `COLUMN_MAP` has an entry for. */
  predicate IsColumnKey(k: Key) {
    !(k.Reason? || k.DateField? || k.Other?)
  }

  /** `COLUMN_MAP`: the column name of each key of the row. */
  function ColumnName(k: Key): (name: string)
    requires IsColumnKey(k)
    ensures name in FeatureColumns
  {
    match k
    case TransportationExpense => "Transportation Expense"
    case DistanceToWork => "Distance to Work"
    case Age => "Age"
    case DailyWorkLoadAverage => "Daily Work Load Average"
    case BodyMassIndex => "Body Mass Index"
    case Education => "Education"
    case Children => "Children"
    case Pets => "Pets"
    case Reason1 => "Reason_1"
    case Reason2 => "Reason_2"
    case Reason3 => "Reason_3"
    case Reason4 => "Reason_4"
    case Day => "Day"
    case Month => "Month"
    case Weekday => "Weekday"
  }

  /** The keys of `COLUMN_MAP` in row order. Positions 8..11 are the reason
      slots, filled from the reason vector rather than from a dict key. */
  function RowKey(c: int): (k: Key)
    requires 0 <= c < 15
    ensures IsColumnKey(k)
  {
    match c
    case 0 => TransportationExpense
    case 1 => DistanceToWork
    case 2 => Age
    case 3 => DailyWorkLoadAverage
    case 4 => BodyMassIndex
    case 5 => Education
    case 6 => Children
    case 7 => Pets
    case 8 => Reason1
    case 9 => Reason2
    case 10 => Reason3
    case 11 => Reason4
    case 12 => Day
    case 13 => Month
    case _ => Weekday
  }

  /** The column names, in the order the classifier was trained on. */
  const FeatureColumns: seq<string> := [
    "Transportation Expense", "Distance to Work", "Age",
    "Daily Work Load Average", "Body Mass Index", "Education",
    "Children", "Pets", "Reason_1", "Reason_2", "Reason_3", "Reason_4",
    "Day", "Month", "Weekday"
  ]

  /** The dict keys that the encoding overwrites or adds. */
  predicate IsEncodedKey(k: Key) {
    k.Education? || k.Children? || k.Pets? || k.Reason? || k.Day? || k.Month? || k.Weekday?
  }

  /** One cell of the single-row frame handed to the classifier. */
  datatype Column = Column(name: string, value: Value)

  type Row = seq<Column>

  function Sum(s: seq<int>): int {
    if s == [] then 0 else s[0] + Sum(s[1..])
  }

  /** `_transform_education`: levels 2, 3 and 4 become 1, anything else 0. */
  function TransformEducation(education: Value): (r: int)
    ensures r == 0 || r == 1
    ensures r == 1 <==> education.Int? && 2 <= education.i <= 4
  {
    if education in [Int(2), Int(3), Int(4)] then 1 else 0
  }

  /** What `_transform_count` can convert without raising: an int, or the
      "More than 2" option. */
  predicate IsCount(count: Value) {
    count.Int? || count == Str(MoreThanTwo)
  }

  /** `_transform_count`: the "More than 2" option becomes 3, an int stays. */
  function TransformCount(count: Value): (r: int)
    requires IsCount(count)
    ensures count == Str(MoreThanTwo) ==> r == 3
    ensures count.Int? ==> r == count.i
  {
    if count == Str(MoreThanTwo) then 3 else count.i
  }

  /** On the selector's options the count code is 0..3, one code per option:
      option k encodes to k and code k names option k. */
  lemma CountOptionsRoundTrip(count: Value)
    requires count in CountOptions
    ensures 0 <= TransformCount(count) <= 3
    ensures CountOptions[TransformCount(count)] == count
  {
  }

  /** `_transform_reason`: a known category selects its one-hot vector (the
      source's lookup table, written as one case per entry); any other
      hashable value falls back to all zeros. A list cannot be looked up in
      the table (Python raises `TypeError`), so it is excluded. */
  function TransformReason(reason: Value): (r: seq<int>)
    requires Hashable(reason)
    ensures |r| == 4
    ensures forall j :: 0 <= j < 4 ==> r[j] == 0 || r[j] == 1
    ensures forall j :: 0 <= j < 4 ==> (r[j] == 1 <==> reason == Str(ReasonCategories[j]))
    ensures Sum(r) == (if reason.Str? && reason.s in ReasonCategories then 1 else 0)
  {
    match reason
    case Str("Category A") => [1, 0, 0, 0]
    case Str("Category B") => [0, 1, 0, 0]
    case Str("Category C") => [0, 0, 1, 0]
    case Str("Category D") => [0, 0, 0, 1]
    case _ => [0, 0, 0, 0]
  }

  /** Reads a one-hot reason vector back as its category, if it has a 1. */
  function DecodeReason(onehot: seq<int>): (c: Option<string>)
    requires |onehot| == 4
    ensures c.Some? ==> c.value in ReasonCategories
  {
    if onehot[0] == 1 then Some(ReasonCategories[0])
    else if onehot[1] == 1 then Some(ReasonCategories[1])
    else if onehot[2] == 1 then Some(ReasonCategories[2])
    else if onehot[3] == 1 then Some(ReasonCategories[3])
    else None
  }

  /** The reason encoding loses nothing on the four categories and maps
      everything else to the vector that names no category. */
  lemma ReasonRoundTrip(reason: Value)
    requires Hashable(reason)
    ensures DecodeReason(TransformReason(reason))
         == (if reason.Str? && reason.s in ReasonCategories then Some(reason.s) else None)
  {
  }

  /** What `_transform_date` can read: a `datetime.date`. */
  predicate IsDate(v: Value) {
    v.DateObj? && Valid(v.date)
  }

  /** `_transform_date`: day of month, month and weekday (Monday == 0). */
  function TransformDate(date: Value): (r: (int, int, int))
    requires IsDate(date)
    ensures r.0 == date.date.day && r.1 == date.date.month
    ensures 1 <= r.1 <= 12 && 1 <= r.0 <= DaysInMonth(date.date.year, r.1)
    ensures 0 <= r.2 <= 6 && r.2 == WeekdayOf(date.date)
  {
    (date.date.day, date.date.month, WeekdayOf(date.date))
  }

  /** Encoding the next calendar day gives the next weekday code, Sunday (6)
      wrapping to Monday (0). */
  lemma {:induction false} TransformDateNextDay(d: Date)
    requires Valid(d) && d != LastDate
    ensures TransformDate(DateObj(NextDay(d))).2 == (TransformDate(DateObj(d)).2 + 1) % 7
  {
    WeekdayAdvances(d);
  }

  /** What `_prepare_df` reads: the ten copied keys, and a reason vector with
      at least four entries. */
  predicate HasRowSources(inputs: map<Key, Value>) {
    && TransportationExpense in inputs && DistanceToWork in inputs && Age in inputs
    && DailyWorkLoadAverage in inputs && BodyMassIndex in inputs
    && Education in inputs && Children in inputs && Pets in inputs
    && Day in inputs && Month in inputs && Weekday in inputs
    && Reason in inputs && inputs[Reason].IntList? && |inputs[Reason].items| >= 4
  }

  /** The value of cell `c`: a reason slot reads the reason vector, every
      other column reads its own key. */
  function Cell(inputs: map<Key, Value>, c: int): Value
    requires HasRowSources(inputs) && 0 <= c < 15
  {
    if 8 <= c < 12 then Int(inputs[Reason].items[c - 8]) else inputs[RowKey(c)]
  }

  /** `COLUMN_MAP` names the row keys with the trained column names, in order. */
  lemma TrainedColumnOrder()
    ensures forall c :: 0 <= c < 15 ==> ColumnName(RowKey(c)) == FeatureColumns[c]
  {
  }

  /** `_prepare_df`: the row, one named cell per entry of `COLUMN_MAP`, in the
      map's order. */
  function PrepareDf(inputs: map<Key, Value>): (row: Row)
    requires HasRowSources(inputs)
    ensures |row| == 15
    ensures forall c :: 0 <= c < 15 ==> row[c].name == FeatureColumns[c]
    ensures forall c :: 0 <= c < 15 && !(8 <= c < 12) ==> row[c].value == inputs[RowKey(c)]
    ensures forall j :: 0 <= j < 4 ==> row[8 + j].value == Int(inputs[Reason].items[j])
  {
    TrainedColumnOrder();
    seq(15, c requires 0 <= c < 15 => Column(ColumnName(RowKey(c)), Cell(inputs, c)))
  }

  /** The fifteen column names differ pairwise, so the row dict keeps all
      fifteen cells. */
  lemma FeatureColumnsDistinct()
    ensures |FeatureColumns| == 15
    ensures forall a, b :: 0 <= a < b < 15 ==> FeatureColumns[a] != FeatureColumns[b]
  {
  }

  /** What `transform_inputs` reads without raising: the keys it transforms,
      with count-shaped children and pets, a hashable reason and a date, plus
      the numeric keys the row copies. */
  predicate CanTransform(inputs: map<Key, Value>) {
    && Education in inputs
    && Children in inputs && IsCount(inputs[Children])
    && Pets in inputs && IsCount(inputs[Pets])
    && Reason in inputs && Hashable(inputs[Reason])
    && DateField in inputs && IsDate(inputs[DateField])
    && TransportationExpense in inputs && DistanceToWork in inputs && Age in inputs
    && DailyWorkLoadAverage in inputs && BodyMassIndex in inputs
  }

  /** The dict after `transform_inputs`, built in the order the statements
      run: four keys overwritten with their encodings, three date keys added,
      every other key as it was. */
  function Transformed(inputs: map<Key, Value>): (out: map<Key, Value>)
    requires CanTransform(inputs)
    ensures out.Keys == inputs.Keys + {Day, Month, Weekday}
    ensures forall k :: k in inputs && !IsEncodedKey(k) ==> out[k] == inputs[k]
    ensures out[Education] == Int(TransformEducation(inputs[Education]))
    ensures out[Children] == Int(TransformCount(inputs[Children]))
    ensures out[Pets] == Int(TransformCount(inputs[Pets]))
    ensures out[Reason] == IntList(TransformReason(inputs[Reason]))
    ensures out[Day] == Int(inputs[DateField].date.day)
    ensures out[Month] == Int(inputs[DateField].date.month)
    ensures out[Weekday] == Int(WeekdayOf(inputs[DateField].date))
  {
    var date := inputs[DateField].date;
    inputs
      [Education := Int(TransformEducation(inputs[Education]))]
      [Children := Int(TransformCount(inputs[Children]))]
      [Pets := Int(TransformCount(inputs[Pets]))]
      [Reason := IntList(TransformReason(inputs[Reason]))]
      [Day := Int(date.day)][Month := Int(date.month)][Weekday := Int(WeekdayOf(date))]
  }

  /** The transformed dict holds everything `_prepare_df` reads. */
  lemma TransformedHasRowSources(inputs: map<Key, Value>)
    requires CanTransform(inputs)
    ensures HasRowSources(Transformed(inputs))
  {
    var t := Transformed(inputs);
    assert t[Reason] == IntList(TransformReason(inputs[Reason]));
  }

  /** The row `transform_inputs` returns, as a function of the submission it
      is handed. */
  function Encode(inputs: map<Key, Value>): (row: Row)
    requires CanTransform(inputs)
    ensures |row| == 15
    ensures forall c :: 0 <= c < 15 ==> row[c].name == FeatureColumns[c]
  {
    TransformedHasRowSources(inputs);
    PrepareDf(Transformed(inputs))
  }

  /** The first five columns are the numeric fields, copied unchanged. */
  lemma EncodeCopiesMeasures(inputs: map<Key, Value>)
    requires CanTransform(inputs)
    ensures var row := Encode(inputs);
      && row[0].value == inputs[TransportationExpense]
      && row[1].value == inputs[DistanceToWork]
      && row[2].value == inputs[Age]
      && row[3].value == inputs[DailyWorkLoadAverage]
      && row[4].value == inputs[BodyMassIndex]
  {
    var t := Transformed(inputs);
    assert t[TransportationExpense] == inputs[TransportationExpense] && t[DistanceToWork] == inputs[DistanceToWork];
    assert t[Age] == inputs[Age] && t[DailyWorkLoadAverage] == inputs[DailyWorkLoadAverage];
    assert t[BodyMassIndex] == inputs[BodyMassIndex];
  }

  /** Columns 5..7 hold the education flag and the two count codes. */
  lemma EncodeCategoricals(inputs: map<Key, Value>)
    requires CanTransform(inputs)
    ensures var row := Encode(inputs);
      && row[5].value == Int(TransformEducation(inputs[Education]))
      && row[6].value == Int(TransformCount(inputs[Children]))
      && row[7].value == Int(TransformCount(inputs[Pets]))
  {
    var t := Transformed(inputs);
    var row := PrepareDf(t);
    assert row[5].value == t[Education] && row[6].value == t[Children] && row[7].value == t[Pets];
  }

  /** Columns 8..11 are one-hot in the reason: slot `j` is 1 exactly when the
      reason is the `j`-th category. */
  lemma EncodeReasonSlots(inputs: map<Key, Value>)
    requires CanTransform(inputs)
    ensures forall j :: 0 <= j < 4 ==>
      Encode(inputs)[8 + j].value == Int(if inputs[Reason] == Str(ReasonCategories[j]) then 1 else 0)
  {
    var t := Transformed(inputs);
    assert t[Reason].items == TransformReason(inputs[Reason]);
  }

  /** Columns 12..14 are the day of month, the month and the weekday. */
  lemma EncodeDateParts(inputs: map<Key, Value>)
    requires CanTransform(inputs)
    ensures var row := Encode(inputs);
      && row[12].value == Int(inputs[DateField].date.day)
      && row[13].value == Int(inputs[DateField].date.month)
      && row[14].value == Int(WeekdayOf(inputs[DateField].date))
  {
    var t := Transformed(inputs);
    var row := PrepareDf(t);
    assert row[12].value == t[Day] && row[13].value == t[Month] && row[14].value == t[Weekday];
  }

  /** `Transformer.transform_inputs`: rewrites the caller's dict in place,
      one key at a time, and returns the row built from it. */
  method TransformInputs(inputs: InputDict) returns (row: Row)
    requires CanTransform(inputs.entries)
    modifies inputs
    ensures inputs.entries == Transformed(old(inputs.entries))
    ensures row == PrepareDf(inputs.entries) == Encode(old(inputs.entries))
  {
    inputs.SetItem(Education, Int(TransformEducation(inputs.entries[Education])));
    inputs.SetItem(Children, Int(TransformCount(inputs.entries[Children])));
    inputs.SetItem(Pets, Int(TransformCount(inputs.entries[Pets])));
    inputs.SetItem(Reason, IntList(TransformReason(inputs.entries[Reason])));
    var (day, month, weekday) := TransformDate(inputs.entries[DateField]);
    inputs.SetItem(Day, Int(day));
    inputs.SetItem(Month, Int(month));
    inputs.SetItem(Weekday, Int(weekday));
    TransformedHasRowSources(old(inputs.entries));
    row := PrepareDf(inputs.entries);
  }
}
