/** The validate-then-transform record pipeline of
    study17/src/main/resources/data_processor.go: a `DataProcessor` holds an
    ordered list of validators and an ordered list of transformers; a record
    is rejected by the first validator that fails, and otherwise folded
    through the transformers in order. A batch is processed record by
    record, successes and failures collected separately in input order. */
module RecordPipeline {
  import opened Wrappers
  import Text

  /** `DataRecord`; the `Timestamp` field is never read and is not modelled. */
  datatype DataRecord = DataRecord(id: string, name: string, email: string, age: int)

  /** The zero `DataRecord{}` that `ProcessRecord` returns beside an error. */
  const ZeroRecord := DataRecord("", "", "", 0)

  /** What a validator reports: the two concrete rules of the source, and a
      reason for any other caller-supplied rule. */
  datatype RuleError =
    | InvalidEmailFormat
    | AgeOutOfRange(age: int, minAge: int, maxAge: int)
    | RuleFailed(reason: string)

  /** The `Validator` interface: `None` is a nil error. */
  type Validator = DataRecord -> Option<RuleError>

  /** The `Transformer` interface. */
  type Transformer = DataRecord -> DataRecord

  /** `ProcessRecord`'s error: "validation failed" wrapping the rule's error. */
  datatype ProcessError = ValidationFailed(cause: RuleError)

  /** `ProcessBatch`'s error: the record's position and ID, wrapping the
      `ProcessRecord` error. */
  datatype BatchError = RecordFailed(index: nat, id: string, cause: ProcessError)

  // ---------------------------------------------------------------------
  // Concrete rules

  /** `EmailValidator`: the email must contain an '@'. */
  datatype EmailValidator = EmailValidator {
    function Validate(record: DataRecord): (e: Option<RuleError>)
      ensures e.None? <==> '@' in record.email
      ensures e.Some? ==> e.value == InvalidEmailFormat
    {
      if '@' !in record.email then Some(InvalidEmailFormat) else None
    }
  }

  /** `AgeValidator`: the age must lie in `[minAge, maxAge]`, both bounds
      included. */
  datatype AgeValidator = AgeValidator(minAge: int, maxAge: int) {
    function Validate(record: DataRecord): (e: Option<RuleError>)
      ensures e.None? <==> minAge <= record.age <= maxAge
      ensures e.Some? ==> e.value == AgeOutOfRange(record.age, minAge, maxAge)
    {
      if record.age < minAge || record.age > maxAge then
        Some(AgeOutOfRange(record.age, minAge, maxAge))
      else
        None
    }
  }

  /** `NameTransformer`: a non-empty name is lower-cased and then title-cased;
      nothing else in the record changes. */
  datatype NameTransformer = NameTransformer {
    function Transform(record: DataRecord): (r: DataRecord)
      ensures r.id == record.id && r.email == record.email && r.age == record.age
      ensures |r.name| == |record.name|
      ensures record.name == "" ==> r == record
      ensures forall k :: 0 <= k < |r.name| ==>
        r.name[k] == if Text.StartsWord(record.name, k)
                     then Text.ToUpper(record.name[k])
                     else Text.ToLower(record.name[k])
    {
      if record.name != "" then
        Text.TitleOfLower(record.name);
        record.(name := Text.Title(Text.LowerString(record.name)))
      else
        record
    }
  }

  /** Applying `NameTransformer` twice gives what applying it once gives. */
  lemma {:induction false} NameTransformIdempotent(record: DataRecord)
    ensures NameTransformer().Transform(NameTransformer().Transform(record))
         == NameTransformer().Transform(record)
  {
    var once := NameTransformer().Transform(record);
    var twice := NameTransformer().Transform(once);
    if record.name != "" {
      forall k | 0 <= k < |once.name|
        ensures twice.name[k] == once.name[k]
      {
        var c := record.name[k];
        Text.CaseMappingFacts(c);
        if k > 0 {
          var p := record.name[k - 1];
          Text.CaseMappingFacts(p);
          assert once.name[k - 1] == Text.ToUpper(p) || once.name[k - 1] == Text.ToLower(p);
          assert Text.StartsWord(once.name, k) == Text.StartsWord(record.name, k);
        } else {
          assert twice.name[k] == Text.ToUpper(once.name[k]);
        }
      }
    }
  }

  // ---------------------------------------------------------------------
  // The pipeline as functions of the rule lists

  /** The index of the first validator that rejects `record`, if any. */
  function FirstRejection(vs: seq<Validator>, record: DataRecord): (i: Option<nat>)
    ensures i.Some? ==> i.value < |vs| && vs[i.value](record).Some?
    ensures i.Some? ==> forall k :: 0 <= k < i.value ==> vs[k](record).None?
    ensures i.None? <==> forall k :: 0 <= k < |vs| ==> vs[k](record).None?
  {
    if vs == [] then None
    else if vs[0](record).Some? then Some(0)
    else
      match FirstRejection(vs[1..], record)
      case None => None
      case Some(i) => Some(i + 1)
  }

  /** Folds `record` through `ts`; defined by peeling off the last
      transformer, the one applied last. */
  function ApplyTransformers(ts: seq<Transformer>, record: DataRecord): (r: DataRecord)
    ensures ts == [] ==> r == record
    ensures |ts| == 1 ==> r == ts[0](record)
    decreases |ts|
  {
    if ts == [] then record
    else ts[|ts| - 1](ApplyTransformers(ts[..|ts| - 1], record))
  }

  /** Running two transformer lists one after the other is running their
      concatenation. */
  lemma {:induction false} ApplyTransformersConcat(ts1: seq<Transformer>, ts2: seq<Transformer>, record: DataRecord)
    ensures ApplyTransformers(ts1 + ts2, record)
         == ApplyTransformers(ts2, ApplyTransformers(ts1, record))
    decreases |ts2|
  {
    if ts2 == [] {
      assert ts1 + ts2 == ts1;
    } else {
      var n := |ts2| - 1;
      assert (ts1 + ts2)[..|ts1 + ts2| - 1] == ts1 + ts2[..n];
      ApplyTransformersConcat(ts1, ts2[..n], record);
    }
  }

  /** Left to right: the first transformer sees the input, and its output is
      what the remaining ones are applied to. */
  lemma ApplyTransformersFirst(t: Transformer, ts: seq<Transformer>, record: DataRecord)
    ensures ApplyTransformers([t] + ts, record) == ApplyTransformers(ts, t(record))
  {
    ApplyTransformersConcat([t], ts, record);
    assert [t][..0] == [];
  }

  /** What `ProcessRecord` returns, as one value. */
  function Process(vs: seq<Validator>, ts: seq<Transformer>, record: DataRecord): (r: Result<DataRecord, ProcessError>)
    ensures r.Err? <==> FirstRejection(vs, record).Some?
    ensures r.Ok? ==> r.value == ApplyTransformers(ts, record)
    ensures r.Err? ==> r.error == ValidationFailed(vs[FirstRejection(vs, record).value](record).value)
  {
    match FirstRejection(vs, record)
    case Some(i) => Err(ValidationFailed(vs[i](record).value))
    case None => Ok(ApplyTransformers(ts, record))
  }

  /** A record is accepted iff every validator accepts it; then the result is
      the transformers' fold, and otherwise the error wraps the first
      rejecting validator's error. */
  lemma ProcessCharacterised(vs: seq<Validator>, ts: seq<Transformer>, record: DataRecord)
    ensures Process(vs, ts, record).Ok? <==> forall k :: 0 <= k < |vs| ==> vs[k](record).None?
    ensures Process(vs, ts, record).Ok? ==> Process(vs, ts, record).value == ApplyTransformers(ts, record)
    ensures forall i :: 0 <= i < |vs| && vs[i](record).Some? && (forall k :: 0 <= k < i ==> vs[k](record).None?) ==>
      Process(vs, ts, record) == Err(ValidationFailed(vs[i](record).value))
  {
    forall i | 0 <= i < |vs| && vs[i](record).Some? && (forall k :: 0 <= k < i ==> vs[k](record).None?)
      ensures Process(vs, ts, record) == Err(ValidationFailed(vs[i](record).value))
    {
      var j := FirstRejection(vs, record);
      assert j.Some?;
      assert !(j.value < i) && !(i < j.value);
    }
  }

  /** With no validators every record passes; with no transformers a
      passing record comes back unchanged. */
  lemma EmptyRuleLists(vs: seq<Validator>, ts: seq<Transformer>, record: DataRecord)
    ensures Process([], ts, record) == Ok(ApplyTransformers(ts, record))
    ensures Process(vs, [], record).Ok? ==> Process(vs, [], record).value == record
  {
  }

  /** The successful outputs of a batch, in input order. */
  function Successes(vs: seq<Validator>, ts: seq<Transformer>, records: seq<DataRecord>): (out: seq<DataRecord>)
    ensures |out| <= |records|
    decreases |records|
  {
    if records == [] then []
    else
      var n := |records| - 1;
      Successes(vs, ts, records[..n])
        + match Process(vs, ts, records[n]) case Ok(r) => [r] case Err(_) => []
  }

  /** The errors of a batch, in input order, each carrying its record's
      index and ID. */
  function Failures(vs: seq<Validator>, ts: seq<Transformer>, records: seq<DataRecord>): (errs: seq<BatchError>)
    ensures |errs| <= |records|
    decreases |records|
  {
    if records == [] then []
    else
      var n := |records| - 1;
      Failures(vs, ts, records[..n])
        + match Process(vs, ts, records[n]) case Ok(_) => [] case Err(e) => [RecordFailed(n, records[n].id, e)]
  }

  /** Every record ends up in exactly one of the two lists. */
  lemma {:induction false} BatchPartition(vs: seq<Validator>, ts: seq<Transformer>, records: seq<DataRecord>)
    ensures |Successes(vs, ts, records)| + |Failures(vs, ts, records)| == |records|
    decreases |records|
  {
    if records != [] {
      BatchPartition(vs, ts, records[..|records| - 1]);
    }
  }

  /** `f` names a record of `records` that the rules reject, with that
      record's index, ID and error. */
  predicate DescribesRejection(vs: seq<Validator>, ts: seq<Transformer>, records: seq<DataRecord>, f: BatchError) {
    f.index < |records| && f.id == records[f.index].id
    && Process(vs, ts, records[f.index]) == Err(f.cause)
  }

  /** The errors' indices strictly increase along the list. */
  predicate InInputOrder(fs: seq<BatchError>) {
    forall k1, k2 :: 0 <= k1 < k2 < |fs| ==> fs[k1].index < fs[k2].index
  }

  /** Each error names a record that was rejected, with that record's index,
      ID and error, and the errors come in input order. */
  lemma {:induction false} FailuresSound(vs: seq<Validator>, ts: seq<Transformer>, records: seq<DataRecord>)
    ensures forall k :: 0 <= k < |Failures(vs, ts, records)| ==>
      DescribesRejection(vs, ts, records, Failures(vs, ts, records)[k])
    ensures InInputOrder(Failures(vs, ts, records))
    ensures forall k :: 0 <= k < |Failures(vs, ts, records)| ==> Failures(vs, ts, records)[k].index < |records|
    decreases |records|
  {
    if records != [] {
      var n := |records| - 1;
      var prefix := records[..n];
      FailuresSound(vs, ts, prefix);
      var fs := Failures(vs, ts, records);
      var ps := Failures(vs, ts, prefix);
      assert fs[..|ps|] == ps;
      forall k | 0 <= k < |fs|
        ensures DescribesRejection(vs, ts, records, fs[k]) && fs[k].index < |records|
        ensures k < |ps| ==> fs[k].index < n
      {
        if k < |ps| {
          assert fs[k] == ps[k];
          assert DescribesRejection(vs, ts, prefix, ps[k]);
          assert records[ps[k].index] == prefix[ps[k].index];
        }
      }
    }
  }

  /** Every rejected record has an error in the list. */
  lemma {:induction false} FailuresComplete(vs: seq<Validator>, ts: seq<Transformer>, records: seq<DataRecord>, i: nat)
    requires i < |records| && Process(vs, ts, records[i]).Err?
    ensures exists k :: 0 <= k < |Failures(vs, ts, records)| && Failures(vs, ts, records)[k].index == i
    decreases |records|
  {
    var n := |records| - 1;
    var prefix := records[..n];
    var fs := Failures(vs, ts, records);
    var ps := Failures(vs, ts, prefix);
    assert fs[..|ps|] == ps;
    if i < n {
      assert records[i] == prefix[i];
      FailuresComplete(vs, ts, prefix, i);
      var k :| 0 <= k < |ps| && ps[k].index == i;
      assert fs[k] == ps[k];
    } else {
      assert fs[|ps|].index == i;
    }
  }

  /** Records are processed independently: the successes of a split batch
      are the successes of its parts. */
  lemma {:induction false} SuccessesAppend(vs: seq<Validator>, ts: seq<Transformer>, a: seq<DataRecord>, b: seq<DataRecord>)
    ensures Successes(vs, ts, a + b) == Successes(vs, ts, a) + Successes(vs, ts, b)
    decreases |b|
  {
    if b == [] {
      assert a + b == a;
    } else {
      var n := |b| - 1;
      assert (a + b)[..|a + b| - 1] == a + b[..n];
      assert (a + b)[|a + b| - 1] == b[n];
      SuccessesAppend(vs, ts, a, b[..n]);
    }
  }

  /** `ProcessRecord`'s pair of results, as the one value `Process` gives. */
  lemma RecordOutcome(vs: seq<Validator>, ts: seq<Transformer>, record: DataRecord, out: DataRecord, err: Option<ProcessError>)
    requires match FirstRejection(vs, record)
      case Some(i) => out == ZeroRecord && err == Some(ValidationFailed(vs[i](record).value))
      case None => err == None && out == ApplyTransformers(ts, record)
    ensures Process(vs, ts, record) == if err.Some? then Err(err.value) else Ok(out)
  {
  }

  /** The batch outputs grow by one record at a time. */
  lemma BatchStep(vs: seq<Validator>, ts: seq<Transformer>, records: seq<DataRecord>, n: nat)
    requires 0 < n <= |records|
    ensures Successes(vs, ts, records[..n]) == Successes(vs, ts, records[..n - 1])
      + match Process(vs, ts, records[n - 1]) case Ok(r) => [r] case Err(_) => []
    ensures Failures(vs, ts, records[..n]) == Failures(vs, ts, records[..n - 1])
      + match Process(vs, ts, records[n - 1]) case Ok(_) => [] case Err(e) => [RecordFailed(n - 1, records[n - 1].id, e)]
  {
    assert records[..n][..n - 1] == records[..n - 1];
  }

  /** The batch outputs after record `i`, given `ProcessRecord`'s pair of
      results for it. */
  lemma BatchGrows(vs: seq<Validator>, ts: seq<Transformer>, records: seq<DataRecord>, i: nat, out: DataRecord, err: Option<ProcessError>)
    requires i < |records|
    requires match FirstRejection(vs, records[i])
      case Some(j) => out == ZeroRecord && err == Some(ValidationFailed(vs[j](records[i]).value))
      case None => err == None && out == ApplyTransformers(ts, records[i])
    ensures Successes(vs, ts, records[..i + 1])
         == Successes(vs, ts, records[..i]) + (if err.Some? then [] else [out])
    ensures Failures(vs, ts, records[..i + 1])
         == Failures(vs, ts, records[..i]) + (if err.Some? then [RecordFailed(i, records[i].id, err.value)] else [])
  {
    BatchStep(vs, ts, records, i + 1);
    RecordOutcome(vs, ts, records[i], out, err);
  }

  /** When every record passes validation, the successes are the
      transformed records one for one and there are no errors. */
  lemma {:induction false} AllValidBatch(vs: seq<Validator>, ts: seq<Transformer>, records: seq<DataRecord>)
    requires forall i, k :: 0 <= i < |records| && 0 <= k < |vs| ==> vs[k](records[i]).None?
    ensures Failures(vs, ts, records) == []
    ensures Successes(vs, ts, records) == seq(|records|, i requires 0 <= i < |records| => ApplyTransformers(ts, records[i]))
    decreases |records|
  {
    if records != [] {
      var n := |records| - 1;
      var prefix := records[..n];
      AllValidBatch(vs, ts, prefix);
      assert FirstRejection(vs, records[n]).None? by {
        assert forall k :: 0 <= k < |vs| ==> vs[k](records[n]).None?;
      }
      var want := seq(|records|, i requires 0 <= i < |records| => ApplyTransformers(ts, records[i]));
      assert want == want[..n] + [ApplyTransformers(ts, records[n])];
    }
  }

  // ---------------------------------------------------------------------
  // The processor object

  /** `DataProcessor`: the rule lists are appended to, then the processor is
      used to process records without changing. */
  class DataProcessor {
    var validators: seq<Validator>
    var transformers: seq<Transformer>

    /** `NewDataProcessor`: both lists start empty. */
    constructor ()
      ensures validators == [] && transformers == []
    {
      validators := [];
      transformers := [];
    }

    /** Appends `v` after the existing validators; no deduplication. */
    method AddValidator(v: Validator)
      modifies this
      ensures validators == old(validators) + [v]
      ensures transformers == old(transformers)
    {
      validators := validators + [v];
    }

    /** Appends `t` after the existing transformers. */
    method AddTransformer(t: Transformer)
      modifies this
      ensures transformers == old(transformers) + [t]
      ensures validators == old(validators)
    {
      transformers := transformers + [t];
    }

    /** Validators run in order and the first rejection stops the record,
        returning the zero record; otherwise each transformer's output is the
        next one's input. Changes nothing (no `modifies`). */
    method ProcessRecord(record: DataRecord) returns (out: DataRecord, err: Option<ProcessError>)
      ensures match FirstRejection(validators, record)
        case Some(i) => out == ZeroRecord && err == Some(ValidationFailed(validators[i](record).value))
        case None => err == None && out == ApplyTransformers(transformers, record)
    {
      var i := 0;
      while i < |validators|
        invariant 0 <= i <= |validators|
        invariant forall k :: 0 <= k < i ==> validators[k](record).None?
      {
        var e := validators[i](record);
        if e.Some? {
          var first := FirstRejection(validators, record);
          assert first.Some? && !(first.value < i) && !(i < first.value);
          return ZeroRecord, Some(ValidationFailed(e.value));
        }
        i := i + 1;
      }
      out := record;
      var j := 0;
      while j < |transformers|
        invariant 0 <= j <= |transformers|
        invariant out == ApplyTransformers(transformers[..j], record)
      {
        assert transformers[..j + 1][..j] == transformers[..j];
        out := transformers[j](out);
        j := j + 1;
      }
      assert transformers[..j] == transformers;
      err := None;
    }

    /** Every record is processed on its own; an error never stops the
        batch. Returns the successes and the errors in input order. */
    method ProcessBatch(records: seq<DataRecord>) returns (processed: seq<DataRecord>, errors: seq<BatchError>)
      ensures processed == Successes(validators, transformers, records)
      ensures errors == Failures(validators, transformers, records)
    {
      var vs, ts := validators, transformers;
      processed, errors := [], [];
      var i := 0;
      while i < |records|
        invariant 0 <= i <= |records|
        invariant processed == Successes(vs, ts, records[..i])
        invariant errors == Failures(vs, ts, records[..i])
      {
        var out, err := ProcessRecord(records[i]);
        BatchGrows(vs, ts, records, i, out, err);
        if err.Some? {
          errors := errors + [RecordFailed(i, records[i].id, err.value)];
        } else {
          processed := processed + [out];
        }
        i := i + 1;
      }
      assert records[..i] == records;
    }
  }

  // ---------------------------------------------------------------------
  // An example of this model's own (the program ships no sample data)

  /** The example's rules: EmailValidator, AgeValidator{18, 120} and
      NameTransformer, registered in that order. */
  const ExampleValidators: seq<Validator> :=
    [r => EmailValidator().Validate(r), r => AgeValidator(18, 120).Validate(r)]
  const ExampleTransformers: seq<Transformer> := [r => NameTransformer().Transform(r)]
  const ExampleRecords: seq<DataRecord> := [
    DataRecord("1", "JOHN", "JOHN@EXAMPLE.COM", 25), DataRecord("2", "jane", "jane@test.org", 30),
    DataRecord("3", "Bob", "invalid-email", 17), DataRecord("4", "Alice", "ALICE@DOMAIN.COM", 150)]

  /** The name transformer applied to the first two example records. */
  lemma ExampleNames()
    ensures NameTransformer().Transform(ExampleRecords[0]) == DataRecord("1", "John", "JOHN@EXAMPLE.COM", 25)
    ensures NameTransformer().Transform(ExampleRecords[1]) == DataRecord("2", "Jane", "jane@test.org", 30)
  {
    var john, jane := ExampleRecords[0].name, ExampleRecords[1].name;
    assert Text.StartsWord(john, 0) && !Text.StartsWord(john, 1) && !Text.StartsWord(john, 2) && !Text.StartsWord(john, 3);
    assert Text.StartsWord(jane, 0) && !Text.StartsWord(jane, 1) && !Text.StartsWord(jane, 2) && !Text.StartsWord(jane, 3);
  }

  /** The first two example records pass both validators and have their
      names title-cased. */
  lemma ExampleAccepted()
    ensures Process(ExampleValidators, ExampleTransformers, ExampleRecords[0]) == Ok(DataRecord("1", "John", "JOHN@EXAMPLE.COM", 25))
    ensures Process(ExampleValidators, ExampleTransformers, ExampleRecords[1]) == Ok(DataRecord("2", "Jane", "jane@test.org", 30))
  {
    ExampleNames();
    assert ExampleTransformers[..0] == [];
    assert '@' in ExampleRecords[0].email && '@' in ExampleRecords[1].email;
  }

  /** The third example record fails on its email, the fourth (whose email
      is fine) on its age. */
  lemma ExampleRejected()
    ensures Process(ExampleValidators, ExampleTransformers, ExampleRecords[2]) == Err(ValidationFailed(InvalidEmailFormat))
    ensures Process(ExampleValidators, ExampleTransformers, ExampleRecords[3]) == Err(ValidationFailed(AgeOutOfRange(150, 18, 120)))
  {
    assert '@' !in ExampleRecords[2].email && '@' in ExampleRecords[3].email;
  }

  /** A batch of four whose first two records pass and last two fail. */
  lemma PassPassFailFail(vs: seq<Validator>, ts: seq<Transformer>, records: seq<DataRecord>,
                         out0: DataRecord, out1: DataRecord, e2: ProcessError, e3: ProcessError)
    requires |records| == 4
    requires Process(vs, ts, records[0]) == Ok(out0) && Process(vs, ts, records[1]) == Ok(out1)
    requires Process(vs, ts, records[2]) == Err(e2) && Process(vs, ts, records[3]) == Err(e3)
    ensures Successes(vs, ts, records) == [out0, out1]
    ensures Failures(vs, ts, records) == [RecordFailed(2, records[2].id, e2), RecordFailed(3, records[3].id, e3)]
  {
    var f2, f3 := RecordFailed(2, records[2].id, e2), RecordFailed(3, records[3].id, e3);
    assert records[..0] == [];
    BatchStep(vs, ts, records, 1);
    assert Successes(vs, ts, records[..1]) == [out0] && Failures(vs, ts, records[..1]) == [];
    BatchStep(vs, ts, records, 2);
    assert Successes(vs, ts, records[..2]) == [out0, out1] && Failures(vs, ts, records[..2]) == [];
    BatchStep(vs, ts, records, 3);
    assert Successes(vs, ts, records[..3]) == [out0, out1] && Failures(vs, ts, records[..3]) == [f2];
    assert Successes(vs, ts, records) == Successes(vs, ts, records[..3]);
    assert Failures(vs, ts, records) == Failures(vs, ts, records[..3]) + [f3];
  }

  /** The example batch: records 1 and 2 come out with their names
      title-cased, record 3 (also under age) fails on its email because that
      validator runs first, and record 4 on its age, in that order. */
  lemma ExampleBatch()
    ensures Successes(ExampleValidators, ExampleTransformers, ExampleRecords)
         == [DataRecord("1", "John", "JOHN@EXAMPLE.COM", 25), DataRecord("2", "Jane", "jane@test.org", 30)]
    ensures Failures(ExampleValidators, ExampleTransformers, ExampleRecords)
         == [RecordFailed(2, "3", ValidationFailed(InvalidEmailFormat)),
             RecordFailed(3, "4", ValidationFailed(AgeOutOfRange(150, 18, 120)))]
  {
    ExampleAccepted();
    ExampleRejected();
    PassPassFailFail(ExampleValidators, ExampleTransformers, ExampleRecords,
      DataRecord("1", "John", "JOHN@EXAMPLE.COM", 25), DataRecord("2", "Jane", "jane@test.org", 30),
      ValidationFailed(InvalidEmailFormat), ValidationFailed(AgeOutOfRange(150, 18, 120)));
  }

}
