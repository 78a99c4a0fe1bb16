/** The values a form submission carries and the Python dict that holds them. */
module FormValues {
  import opened Calendar

  datatype Option<+T> = None | Some(value: T)

  /** The kinds of value that reach the dict: Python `int`, `str`,
      `datetime.date`, a `list` of ints (the one-hot reason vector) and `None`. */
  datatype Value =
    | Int(i: int)
    | Str(s: string)
    | DateObj(date: Date)
    | IntList(items: seq<int>)
    | NoneValue

  /** A value Python can hash, and so use as a dict key: everything but a
      list. */
  predicate Hashable(v: Value) {
    !v.IntList?
  }

  /** A dict key. Each field the form or the encoder names has its own
      constructor; every other session entry (the submit button, for one) is
      `Other` with its name. `Name` gives the key as a Python string. */
  datatype Key =
    | Education | BodyMassIndex | Age | TransportationExpense | DistanceToWork
    | DailyWorkLoadAverage | Children | Pets | Reason | DateField
    | Reason1 | Reason2 | Reason3 | Reason4 | Day | Month | Weekday
    | Other(name: string)
  {
    function Name(): string {
      match this
      case Education => "education"
      case BodyMassIndex => "body_mass_index"
      case Age => "age"
      case TransportationExpense => "transportation_expense"
      case DistanceToWork => "distance_to_work"
      case DailyWorkLoadAverage => "daily_work_load_average"
      case Children => "children"
      case Pets => "pets"
      case Reason => "reason"
      case DateField => "date"
      case Reason1 => "reason_1"
      case Reason2 => "reason_2"
      case Reason3 => "reason_3"
      case Reason4 => "reason_4"
      case Day => "day"
      case Month => "month"
      case Weekday => "weekday"
      case Other(name) => name
    }
  }

  /** A Python dict from field names to values, mutated in place by the
      transformation step. */
  class InputDict {
    var entries: map<Key, Value>

    constructor (entries: map<Key, Value>)
      ensures this.entries == entries
    {
      this.entries := entries;
    }

    /** `dict[key] = value`: inserts the key or overwrites its value, and
        leaves every other entry alone. */
    method SetItem(key: Key, value: Value)
      modifies this
      ensures entries == old(entries)[key := value]
    {
      entries := entries[key := value];
    }
  }
}
