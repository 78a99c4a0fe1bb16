# Absenteeism form: validation and feature encoding

This project models the input check and feature encoding of the absenteeism
predictor, a Streamlit form in front of a trained logistic-regression
classifier, and proves properties of the model in Dafny.

A submission is the form's session state: a dict from field names to values.
`Validator.validate_inputs` decides whether the six required numeric fields
are filled in. Only when they are does `AbsentHoursPredictor.process_inputs`
run two further steps:

1. `Transformer.transform_inputs` rewrites a copy of the dict in place. It
   binarises the education level, normalises the children and pets counts,
   one-hot encodes the reason, and splits the date into day, month and
   weekday.
2. `_prepare_df` lays the result out as one 15-column row, which is handed to
   the classifier.

The project has five modules:

- `Calendar` (`calendar.dfy`). The part of Python's `datetime.date` that the
  encoder relies on:
  - dates in the proleptic Gregorian calendar, years 1 to 9999;
  - the day count `toordinal`, with 0001-01-01 as day 1;
  - `weekday`, with Monday as 0.
- `FormValues` (`values.dfy`). The kinds of value the dict holds: the
  session's ints, strings, dates and `None`, plus the list of ints that
  `transform_inputs` writes for the reason. Also the dict keys, and
  `InputDict`, the mutable Python dict.
- `Validator` (`validator.dfy`). `validate_inputs`.
- `Transformer` (`transformer.dfy`). `COLUMN_MAP`, the four field encoders,
  `_prepare_df` and `transform_inputs`.
  - `transform_inputs` is a method that updates an `InputDict` key by key.
  - Its effect is specified by the function `Transformed`, and the row it
    returns by the function `Encode`.
- `Predictor` (`predictor.dfy`). `AbsentHoursPredictor`:
  - the classifier is a function `Row -> int`;
  - a ghost log `requests` records every row the classifier is asked about;
  - so "a rejected submission is never encoded or classified" is stated as
    that log being unchanged.

Where a Python step would raise, the model has a precondition that excludes
the input:
- `KeyError` on a missing key;
- `ValueError` from `int()`;
- `TypeError` from looking up an unhashable (list) reason in the reason table;
- `AttributeError` on a non-date.

A required field is blank when it is absent, 0 or `None`. The code tests
`inputs.get(field) in [0, None]`, so `None` counts as blank too, not only a
missing or zero value.

## Model

| member | source | states |
|---|---|---|
| Calendar.DaysInMonth | 6-applying-model/module_class_6.py:78 | A month has 28 to 31 days; February has 29 exactly in a leap year. |
| Calendar.DaysBeforeYear | 6-applying-model/module_class_6.py:78 | The days before a year, counted year by year, are at least 365 per earlier year. |
| Calendar.DaysBeforeYearFormula | 6-applying-model/module_class_6.py:78 | The year-by-year count equals the closed leap-year formula 365·y + y/4 − y/100 + y/400 that `date.toordinal` uses. |
| Calendar.DaysBeforeMonth | 6-applying-model/module_class_6.py:78 | The days of a year before a month lie in 0..335. |
| Calendar.Ordinal | 6-applying-model/module_class_6.py:78 | Every valid date has a positive day number. |
| Calendar.WeekdayOf | 6-applying-model/module_class_6.py:78 | `date.weekday()` is in 0..6. |
| Calendar.NextDay | 6-applying-model/module_class_6.py:78 | The day after a valid date (other than 9999-12-31) is valid, and is in the same year or is 1 January of the next year. |
| Calendar.NextDayOrdinal | 6-applying-model/module_class_6.py:78 | Consecutive dates have consecutive day numbers, across month and year ends. |
| Calendar.WeekdayAdvances | 6-applying-model/module_class_6.py:78 | Consecutive dates have weekdays w and (w + 1) mod 7. |
| Calendar.OrdinalWithinYear | 6-applying-model/module_class_6.py:78 | A date's day number lies within its own year's block of day numbers. |
| Calendar.DaysBeforeYearMonotone | 6-applying-model/module_class_6.py:78 | Every day of an earlier year comes before the first day of a later year. |
| Calendar.OrdinalIncreasing | 6-applying-model/module_class_6.py:78 | The day number is strictly increasing in date order. |
| Calendar.OrdinalInjective | 6-applying-model/module_class_6.py:78 | Distinct dates have distinct day numbers. |
| Calendar.FirstDayIsMonday | 6-applying-model/module_class_6.py:78 | 0001-01-01 is weekday 0 (Monday). |
| Calendar.Friday20240315 | 6-applying-model/module_class_6.py:78 | 2024-03-15 is weekday 4 (Friday). |
| FormValues.InputDict.constructor | 6-applying-model/module_class_6.py:137 | `dict(st.session_state).copy()`: a new dict with the same entries. |
| FormValues.InputDict.SetItem | 6-applying-model/module_class_6.py:46-50 | `d[key] = value`: inserts or overwrites that key, and every other entry is unchanged. |
| Validator.AnyBlank | 6-applying-model/module_class_6.py:17 | `any(...)` over the field list is true exactly when some listed field is absent, 0 or `None`. |
| Validator.ValidateInputs | 6-applying-model/module_class_6.py:10-20 | True exactly when none of the six required fields is absent, 0 or `None`, written both as a quantifier over the list and as six explicit conditions; true implies all six keys are present. |
| Validator.OnlyRequiredFieldsMatter | 6-applying-model/module_class_6.py:12-17 | Two dicts that agree on the six required fields get the same verdict, whatever else they hold. |
| Transformer.ColumnName | 6-applying-model/module_class_6.py:25-41 | `COLUMN_MAP`: each of its 15 keys maps to one of the trained column names. |
| Transformer.RowKey | 6-applying-model/module_class_6.py:25-41 | Each of the 15 row positions names a key of `COLUMN_MAP`. |
| Transformer.TrainedColumnOrder | 6-applying-model/module_class_6.py:25-41 | `COLUMN_MAP`, taken in its insertion order, gives exactly the trained column names Transportation Expense … Weekday, in that order. |
| Transformer.TransformEducation | 6-applying-model/module_class_6.py:55-57 | The result is 0 or 1, and it is 1 exactly for education 2, 3 or 4 (so level 1 and anything else give 0). |
| Transformer.TransformCount | 6-applying-model/module_class_6.py:60-62 | "More than 2" gives 3; an int passes through unchanged. |
| Transformer.CountOptionsRoundTrip | 6-applying-model/module_class_6.py:60-62 | On the selector options 0, 1, 2 and "More than 2", the code is in 0..3, and code k is the k-th option, so no two options share a code. |
| Transformer.TransformReason | 6-applying-model/module_class_6.py:65-73 | For a hashable reason (a list raises `TypeError` in the lookup), the result has length 4 with 0/1 entries. Entry j is 1 exactly when the reason is category j. The sum is 1 for the four categories and 0 for everything else. |
| Transformer.DecodeReason | 6-applying-model/module_class_6.py:67-72 | Reading a one-hot vector back yields only one of the four categories. |
| Transformer.ReasonRoundTrip | 6-applying-model/module_class_6.py:65-73 | Decoding the encoding gives back each category, and gives nothing for any other value. |
| Transformer.TransformDate | 6-applying-model/module_class_6.py:76-78 | The result is (day, month, weekday): a day that exists in a month 1..12, and the date's weekday in 0..6. |
| Transformer.TransformDateNextDay | 6-applying-model/module_class_6.py:76-78 | Encoding the next day advances the weekday code by 1 mod 7. |
| Transformer.PrepareDf | 6-applying-model/module_class_6.py:81-101 | The row has 15 columns named as trained, in order. Each non-reason column holds its dict entry unchanged, and Reason_(j+1) holds `reason[j]`. |
| Transformer.FeatureColumnsDistinct | 6-applying-model/module_class_6.py:83-99 | The 15 column names differ pairwise, so the row dict keeps 15 cells. |
| Transformer.Transformed | 6-applying-model/module_class_6.py:46-50 | Defined only where `transform_inputs` does not raise: in particular the reason is not a list, on which line 49 raises. After transformation the keys are the old keys plus day, month and weekday. Education, children, pets and reason hold their encodings, and the date parts are added. Every other key, including the five numeric fields and `date`, keeps its value. |
| Transformer.TransformedHasRowSources | 6-applying-model/module_class_6.py:46-52 | The transformed dict has every key `_prepare_df` reads, and a reason vector of length 4. |
| Transformer.Encode | 6-applying-model/module_class_6.py:44-52 | The row for a raw submission that `transform_inputs` accepts (no missing key, count-shaped children and pets, a reason that is not a list, a date) has 15 columns with the trained names, in order. |
| Transformer.EncodeCopiesMeasures | 6-applying-model/module_class_6.py:84-88 | The first five columns are the submission's numeric fields, unchanged. |
| Transformer.EncodeCategoricals | 6-applying-model/module_class_6.py:89-91 | Columns 5 to 7 are the education flag and the children and pets codes of the raw submission. |
| Transformer.EncodeReasonSlots | 6-applying-model/module_class_6.py:92-95 | Column 8 + j is 1 exactly when the submitted reason is category j, and 0 otherwise. |
| Transformer.EncodeDateParts | 6-applying-model/module_class_6.py:96-98 | Columns 12 to 14 are the submitted date's day, month and weekday. |
| Transformer.TransformInputs | 6-applying-model/module_class_6.py:44-52 | Called only on a dict the steps at lines 46-50 accept without raising (a list-valued reason is excluded). The caller's dict ends up as `Transformed` of its old contents, and the returned row is `_prepare_df` of the new dict, which is `Encode` of the old one. |
| Predictor.ValidatedCanTransform | 6-applying-model/module_class_6.py:139-140 | A session shaped by the form's widgets (count options, a reason that is not a list, a date) that passes validation has everything `transform_inputs` reads without raising. |
| Predictor.AbsentHoursPredictor.constructor | 6-applying-model/module_class_6.py:105-107 | Stores the model path, and no rows have been classified yet. |
| Predictor.AbsentHoursPredictor.GetPrediction | 6-applying-model/module_class_6.py:147-151 | Returns the classifier's label for the row, and logs exactly that one row. |
| Predictor.AbsentHoursPredictor.ProcessInputs | 6-applying-model/module_class_6.py:135-145 | Called only on a session that, once validated, `transform_inputs` can encode without raising (so a validated list-valued reason is excluded). The submission is rejected exactly when validation fails, and then the classifier is not called. Otherwise the result is the classifier's label for `Encode` of the submission, and exactly that row is sent to it. The session is never changed. |
| Predictor.SampleSubmissionAccepted | 6-applying-model/module_class_6.py:139 | The complete sample submission (education 3, reason B, 2024-03-15, …) passes validation and can be encoded. |
| Predictor.SampleSubmissionCategoricals | 6-applying-model/module_class_6.py:140 | The sample encodes to education 1, children 1, pets 0 and reason [0, 1, 0, 0]. |
| Predictor.SampleSubmissionDate | 6-applying-model/module_class_6.py:140 | The sample encodes to day 15, month 3 and weekday 4. |
| Predictor.ZeroAgeRejected | 6-applying-model/module_class_6.py:139 | The same submission with age 0 is well-shaped but fails validation. |

## Left out

- The Streamlit user interface is not modelled:
  - `display_inputs` and the widget ranges;
  - the `st.error` calls (lines 18 and 144), so the error notification is not modelled;
  - `6-applying-model/app.py`.
  The session is an explicit map.
- `st.stop()` is the `Rejected` outcome. The model does not capture its unwinding of the script.
- `load_model` is left out, because it is file I/O, pickle deserialisation and `st.cache_data` memoisation. `GetPrediction` does not model the failure when the model file is missing.
- `model.predict` is an arbitrary function from rows to labels, because the trained classifier is outside the repository.
- The pandas `DataFrame` is a sequence of (column name, value) pairs in column order. The dict `row` of `_prepare_df` is that sequence, because its 15 names are distinct.
- Floats and booleans are not modelled. This also means Python equality across types (`0.0 == 0`, `False == 0`, `2.0 in [2, 3, 4]`) is left out: only `int`, `str`, `date`, int lists and `None` reach the model.
- Transformer.TransformCount: `int()` of a numeric string such as "2" is not modelled. The count must be an int or "More than 2"; anything else is excluded by a precondition, where Python would parse the string or raise.
- Transformer.TransformDate: only dates in years 1 to 9999 are modelled, as `datetime.date` allows. Time zones and `datetime` subclasses are left out.
- FormValues.Key: keys are a datatype with one constructor per field the code names, plus `Other(name)` for all other session entries. The model does not enforce that an `Other` name differs from the named fields' strings.
- Transformer.TransformReason: the lookup in `reason_map` is written as one case per entry of the table. It is not a Dafny map.
- TransformInputs: the partly rewritten dict that Python leaves behind when a step raises (for example a list-valued reason at line 49, after lines 46-48 have run) is not modelled. The precondition excludes every input on which a step raises.
