/** The CSV loader and record validation of study02/src/test/data_processor.go.
    The file has already been split into rows of fields (opening the file and
    the CSV tokenising are left out); `ProcessCSVFile` skips the header row
    and turns every other row into a record, failing the whole load on the
    first bad row; `ValidateRecords` reports the first record whose ID, name
    or value is unacceptable. */
module CsvLoader {
  import opened Wrappers
  import opened Text

  /** A `float64` as far as the loader and the validation tell values apart:
      `strconv.ParseFloat` may also yield infinities and NaN. */
  datatype Float64 = Finite(r: real) | PosInf | NegInf | NaN

  /** Go's `value < 0`: false for NaN and for negative zero. */
  predicate IsNegative(v: Float64): (b: bool)
    ensures v.Finite? ==> (b <==> v.r < 0.0)
    ensures v.NaN? || v.PosInf? ==> !b
    ensures v.NegInf? ==> b
  {
    (v.Finite? && v.r < 0.0) || v.NegInf?
  }

  /** `DataRecord` of this file: an integer ID, a name and a value. */
  datatype DataRecord = DataRecord(id: int, name: string, value: Float64)

  /** Why a load failed. */
  datatype LoadError =
    | MissingHeader                                          // "failed to read header"
    | FieldCountMismatch(row: nat, expected: nat, got: nat)  // the reader's "wrong number of fields"
    | InvalidRowLength(got: nat)                             // "invalid row length: expected 3"
    | InvalidIDFormat(text: string)                          // `strconv.Atoi` failed
    | InvalidValueFormat(text: string)                       // `strconv.ParseFloat` failed

  const MinInt64: int := -0x8000_0000_0000_0000
  const MaxInt64: int := 0x7FFF_FFFF_FFFF_FFFF

  predicate AllDigits(s: string) {
    forall k :: 0 <= k < |s| ==> IsAsciiDigit(s[k])
  }

  /** The value of a string of decimal digits, most significant first. */
  function DigitsValue(s: string): nat
    requires AllDigits(s)
    decreases |s|
  {
    if s == [] then 0
    else DigitsValue(s[..|s| - 1]) * 10 + (s[|s| - 1] as int - '0' as int)
  }

  /** `strconv.Atoi`: an optional sign and at least one decimal digit, whose
      value must fit in 64 bits. */
  function Atoi(s: string): (r: Option<int>)
    ensures r.Some? ==> MinInt64 <= r.value <= MaxInt64
    ensures r.Some? ==> |s| > 0 && AllDigits(s[1..])
    ensures r.Some? ==> IsAsciiDigit(s[0]) || ((s[0] == '+' || s[0] == '-') && |s| >= 2)
    ensures r.Some? && IsAsciiDigit(s[0]) ==> r.value == DigitsValue(s)
    ensures r.Some? && s[0] == '+' ==> r.value == DigitsValue(s[1..])
    ensures r.Some? && s[0] == '-' ==> r.value == 0 - DigitsValue(s[1..]) as int
    ensures r.Some? && r.value < 0 ==> s[0] == '-'
  {
    if s == [] then None
    else
      var digits := if s[0] == '+' || s[0] == '-' then s[1..] else s;
      if digits == [] || !AllDigits(digits) then None
      else
        var magnitude: int := DigitsValue(digits);
        var v := if s[0] == '-' then -magnitude else magnitude;
        if v < MinInt64 || v > MaxInt64 then None else Some(v)
  }

  /** Atoi reads back a plain digit string whose value fits. */
  lemma AtoiDigits(s: string)
    requires s != [] && AllDigits(s) && DigitsValue(s) <= MaxInt64
    ensures Atoi(s) == Some(DigitsValue(s))
  {
  }

  /** A sign in front of an in-range digit string is read as that sign. */
  lemma AtoiSigned(d: string)
    requires d != [] && AllDigits(d)
    ensures DigitsValue(d) <= MaxInt64 ==> Atoi("+" + d) == Some(DigitsValue(d))
    ensures DigitsValue(d) <= MaxInt64 + 1 ==> Atoi("-" + d) == Some(0 - DigitsValue(d) as int)
    ensures DigitsValue(d) > MaxInt64 + 1 ==> Atoi("-" + d) == None && Atoi("+" + d) == None
  {
    assert ("+" + d)[1..] == d && ("-" + d)[1..] == d;
  }

  /** One data row, at position `index` of the input: the reader rejects a
      row whose field count differs from the header's (its default), then
      the row must have 3 fields, an integer ID and a parsable value. */
  function ParseRow(header: seq<string>, row: seq<string>, index: nat, parseFloat: string -> Option<Float64>): (r: Result<DataRecord, LoadError>)
    ensures r.Ok? <==> |row| == |header| == 3 && Atoi(row[0]).Some? && parseFloat(row[2]).Some?
    ensures r.Ok? ==> r.value == DataRecord(Atoi(row[0]).value, row[1], parseFloat(row[2]).value)
    ensures |row| != |header| ==> r == Err(FieldCountMismatch(index, |header|, |row|))
    ensures |row| == |header| && |row| != 3 ==> r == Err(InvalidRowLength(|row|))
    ensures |row| == |header| == 3 && Atoi(row[0]).None? ==> r == Err(InvalidIDFormat(row[0]))
    ensures |row| == |header| == 3 && Atoi(row[0]).Some? && parseFloat(row[2]).None? ==>
      r == Err(InvalidValueFormat(row[2]))
  {
    if |row| != |header| then Err(FieldCountMismatch(index, |header|, |row|))
    else if |row| != 3 then Err(InvalidRowLength(|row|))
    else
      match Atoi(row[0])
      case None => Err(InvalidIDFormat(row[0]))
      case Some(id) =>
        match parseFloat(row[2])
        case None => Err(InvalidValueFormat(row[2]))
        case Some(value) => Ok(DataRecord(id, row[1], value))
  }

  /** `ProcessCSVFile` over the rows of the file: the header is consumed and
      never becomes a record; the first bad data row aborts the load and no
      record is returned; otherwise there is one record per data row, in
      row order. */
  method ProcessCSVFile(rows: seq<seq<string>>, parseFloat: string -> Option<Float64>)
    returns (result: Result<seq<DataRecord>, LoadError>)
    ensures rows == [] ==> result == Err(MissingHeader)
    ensures result.Ok? <==> rows != [] && forall i :: 1 <= i < |rows| ==> ParseRow(rows[0], rows[i], i, parseFloat).Ok?
    ensures (exists i :: 1 <= i < |rows| && |rows[i]| != 3) ==> result.Err?
    ensures (exists i :: 1 <= i < |rows| && |rows[i]| == 3 && (Atoi(rows[i][0]).None? || parseFloat(rows[i][2]).None?)) ==> result.Err?
    ensures result.Ok? ==> |result.value| == |rows| - 1
    ensures result.Ok? ==> forall k :: 0 <= k < |result.value| ==> result.value[k].name == rows[k + 1][1]
    ensures result.Ok? ==> forall k :: 0 <= k < |result.value| ==>
      Ok(result.value[k]) == ParseRow(rows[0], rows[k + 1], k + 1, parseFloat)
    ensures result.Err? && rows != [] ==>
      exists i :: (1 <= i < |rows|
        && (forall j :: 1 <= j < i ==> ParseRow(rows[0], rows[j], j, parseFloat).Ok?)
        && ParseRow(rows[0], rows[i], i, parseFloat).Err?
        && result == Err(ParseRow(rows[0], rows[i], i, parseFloat).error))
  {
    if rows == [] {
      return Err(MissingHeader);
    }
    var header := rows[0];
    var records: seq<DataRecord> := [];
    var i := 1;
    while i < |rows|
      invariant 1 <= i <= |rows|
      invariant |records| == i - 1
      invariant forall j :: 1 <= j < i ==> ParseRow(header, rows[j], j, parseFloat).Ok?
      invariant forall k :: 0 <= k < |records| ==> Ok(records[k]) == ParseRow(header, rows[k + 1], k + 1, parseFloat)
    {
      var row := rows[i];
      if |row| != |header| {
        return Err(FieldCountMismatch(i, |header|, |row|));
      }
      if |row| != 3 {
        return Err(InvalidRowLength(|row|));
      }
      var id := Atoi(row[0]);
      if id.None? {
        return Err(InvalidIDFormat(row[0]));
      }
      var name := row[1];
      var value := parseFloat(row[2]);
      if value.None? {
        return Err(InvalidValueFormat(row[2]));
      }
      records := records + [DataRecord(id.value, name, value.value)];
      i := i + 1;
    }
    return Ok(records);
  }

  /** Why a record is unacceptable, checking ID, then name, then value. */
  datatype RecordError = InvalidID(id: int) | EmptyName(id: int) | NegativeValue(id: int)

  /** The first of the three checks that `record` fails, if any. */
  function RecordFault(record: DataRecord): (e: Option<RecordError>)
    ensures e.None? <==> record.id > 0 && record.name != "" && !IsNegative(record.value)
    ensures e.Some? ==> e.value.id == record.id
    ensures e == Some(InvalidID(record.id)) <==> record.id <= 0
    ensures e == Some(EmptyName(record.id)) <==> record.id > 0 && record.name == ""
  {
    if record.id <= 0 then Some(InvalidID(record.id))
    else if record.name == "" then Some(EmptyName(record.id))
    else if IsNegative(record.value) then Some(NegativeValue(record.id))
    else None
  }

  /** `ValidateRecords`: nil iff every record is acceptable (so nil for no
      records); otherwise the fault of the first unacceptable record. */
  method ValidateRecords(records: seq<DataRecord>) returns (err: Option<RecordError>)
    ensures err.None? <==> forall k :: 0 <= k < |records| ==> RecordFault(records[k]).None?
    ensures err.Some? ==>
      exists i :: (0 <= i < |records|
        && (forall k :: 0 <= k < i ==> RecordFault(records[k]).None?)
        && err == RecordFault(records[i]))
  {
    var i := 0;
    while i < |records|
      invariant 0 <= i <= |records|
      invariant forall k :: 0 <= k < i ==> RecordFault(records[k]).None?
    {
      var record := records[i];
      if record.id <= 0 {
        return Some(InvalidID(record.id));
      }
      if record.name == "" {
        return Some(EmptyName(record.id));
      }
      if IsNegative(record.value) {
        return Some(NegativeValue(record.id));
      }
      i := i + 1;
    }
    return None;
  }
}
