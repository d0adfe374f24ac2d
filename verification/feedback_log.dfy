/** `POST /feedback` of the fraud service: the append-only feedback table
    and the retrain signal computed from its line count. */
module FeedbackLog {
  import opened Wrappers
  import opened Artifacts
  import FraudApi

  /** The retrain signal fires every this many feedback rows. */
  const RetrainThreshold: int := 100

  /** A column of the feedback table: `PCA_1` .. `PCA_k`, `target`, `prediction`. */
  datatype Column = PcaColumn(index: nat) | TargetColumn | PredictionColumn

  /** One feedback row: the latent vector, the true class, the predicted class. */
  datatype FeedbackRow = FeedbackRow(components: seq<real>, target: bool, prediction: bool)

  /** One line of the CSV file. */
  datatype Line = Header(columns: seq<Column>) | Data(row: FeedbackRow)

  /** The file on disk, absent until the first feedback. */
  datatype FeedbackFile = NoFile | File(lines: seq<Line>)

  /** The request body of `POST /feedback`. */
  datatype FeedbackInput = FeedbackInput(payload: RawRecord, correctClass: bool, prediction: bool)

  /** The header written for a latent vector of `k` components. */
  function HeaderFor(k: nat): (columns: seq<Column>)
    ensures |columns| == k + 2
    ensures forall i :: 0 <= i < k ==> columns[i] == PcaColumn(i + 1)
    ensures columns[k] == TargetColumn && columns[k + 1] == PredictionColumn
  {
    seq(k, (i: nat) => PcaColumn(i + 1)) + [TargetColumn, PredictionColumn]
  }

  /** `to_csv(mode='a', header=not os.path.exists(...))` for one row. */
  function AppendRow(file: FeedbackFile, row: FeedbackRow): (after: FeedbackFile)
    ensures after.File?
    // the header is written iff the file did not exist
    ensures file.NoFile? ==> after.lines == [Header(HeaderFor(|row.components|)), Data(row)]
    // an existing file keeps every line and gains exactly this row
    ensures file.File? ==> |after.lines| == |file.lines| + 1 &&
                           after.lines[..|file.lines|] == file.lines &&
                           after.lines[|file.lines|] == Data(row)
  {
    match file
    case NoFile => File([Header(HeaderFor(|row.components|)), Data(row)])
    case File(lines) => File(lines + [Data(row)])
  }

  /** Why a feedback request failed; each becomes a 500. */
  datatype FeedbackError = Featurization(cause: FeatureError) | WriteFailed

  /** The reply (`{"status": "recorded"}` or an error), the file afterwards,
      and whether the retrain check was scheduled. */
  datatype FeedbackOutcome = FeedbackOutcome(
    reply: Result<string, FeedbackError>,
    file: FeedbackFile,
    retrainCheckScheduled: bool)

  /** `feedback(feedback_data)`. `writeSucceeds` says whether the disk
      accepts the append; a failed append writes nothing. */
  function Feedback(a: Artifacts, input: FeedbackInput, file: FeedbackFile, writeSucceeds: bool): (o: FeedbackOutcome)
    ensures o.reply.Success? <==>
              AllLoaded(a) && a.preprocessor.value(input.payload).Some? && writeSucceeds
    ensures o.reply.Success? ==> o.reply.value == "recorded" && o.retrainCheckScheduled
    // any failure leaves the file as it was and schedules nothing
    ensures o.reply.Failure? ==> o.file == file && !o.retrainCheckScheduled
    ensures !AllLoaded(a) ==> o.reply == Failure(Featurization(NotLoaded))
    // a success appends exactly one row: the latent vector, then the labels
    ensures o.reply.Success? ==>
              var row := FeedbackRow(ProcessFeatures(a, input.payload).value, input.correctClass, input.prediction);
              o.file == AppendRow(file, row)
  {
    match ProcessFeatures(a, input.payload)
    case Failure(e) => FeedbackOutcome(Failure(Featurization(e)), file, false)
    case Success(x) =>
      if !writeSucceeds then FeedbackOutcome(Failure(WriteFailed), file, false)
      else
        var row := FeedbackRow(x, input.correctClass, input.prediction);
        FeedbackOutcome(Success("recorded"), AppendRow(file, row), true)
  }

  /** Both endpoints featurize through `process_features`: for a record
      `/predict` answered, a written feedback succeeds, and the row it
      appends holds the latent vector behind that verdict. */
  lemma FeedbackStoresScoredVector(
    a: Artifacts, data: RawRecord, correctClass: bool, prediction: bool, file: FeedbackFile)
    requires FraudApi.Predict(a, data).reply.Ok?
    ensures var o := Feedback(a, FeedbackInput(data, correctClass, prediction), file, true);
            var verdict := FraudApi.Predict(a, data).reply.body;
            o.reply.Success? && o.file.File? && |o.file.lines| >= 1 &&
            var last := o.file.lines[|o.file.lines| - 1];
            last.Data? && last.row.target == correctClass && last.row.prediction == prediction &&
            verdict.prediction == (a.model.value.predict(last.row.components) != 0) &&
            verdict.probability in a.model.value.predictProba(last.row.components)
  {
  }

  /** `check_and_retrain`: with the file present, `count` is its number of
      lines minus one, and the signal fires when `count % 100 == 0`.
      Python's `%` floors; for the positive modulus here it agrees with
      Dafny's Euclidean `%`, including at `count == -1`. */
  predicate RetrainSignal(file: FeedbackFile)
    // no file, no signal
    ensures file.NoFile? ==> !RetrainSignal(file)
    // counted in lines, the header included: 1, 101, 201, ... lines fire
    ensures file.File? ==> (RetrainSignal(file) <==> |file.lines| % RetrainThreshold == 1)
  {
    file.File? && (|file.lines| - 1) % RetrainThreshold == 0
  }

  /** The number of data rows among some lines. */
  function RowCount(lines: seq<Line>): (n: nat)
    ensures n <= |lines|
    decreases |lines|
  {
    if |lines| == 0 then 0
    else RowCount(lines[..|lines| - 1]) + (if lines[|lines| - 1].Data? then 1 else 0)
  }

  /** A file as only feedback writes it: one header, then data rows. */
  predicate WellFormed(file: FeedbackFile) {
    file.File? ==>
      |file.lines| >= 1 && file.lines[0].Header? &&
      forall i :: 1 <= i < |file.lines| ==> file.lines[i].Data?
  }

  /** Every feedback request, successful or not, keeps a well-formed file
      well formed. */
  lemma FeedbackKeepsWellFormed(a: Artifacts, input: FeedbackInput, file: FeedbackFile, writeSucceeds: bool)
    requires WellFormed(file)
    ensures WellFormed(Feedback(a, input, file, writeSucceeds).file)
  {
    var after := Feedback(a, input, file, writeSucceeds).file;
    if after.File? && file.File? && after != file {
      assert forall i :: 1 <= i < |file.lines| ==> after.lines[i] == file.lines[i];
    }
  }

  /** Data rows in a well-formed file: every line but the header. */
  lemma {:induction false} RowCountOfDataLines(lines: seq<Line>)
    requires forall i :: 0 <= i < |lines| ==> lines[i].Data?
    ensures RowCount(lines) == |lines|
    decreases |lines|
  {
    if |lines| > 0 {
      RowCountOfDataLines(lines[..|lines| - 1]);
    }
  }

  lemma {:induction false} RowCountSkipsHeader(lines: seq<Line>)
    requires |lines| >= 1 && lines[0].Header?
    ensures RowCount(lines) == RowCount(lines[1..])
    decreases |lines|
  {
    if |lines| > 1 {
      var init := lines[..|lines| - 1];
      RowCountSkipsHeader(init);
      assert init[1..] == lines[1..][..|lines[1..]| - 1];
    }
  }

  /** On a well-formed file the signal fires exactly when the number of
      feedback rows is a multiple of 100. */
  lemma RetrainIffRowsMultiple(file: FeedbackFile)
    requires WellFormed(file) && file.File?
    ensures RetrainSignal(file) <==> RowCount(file.lines) % RetrainThreshold == 0
  {
    RowCountSkipsHeader(file.lines);
    RowCountOfDataLines(file.lines[1..]);
  }

  /** Several successful feedbacks, in order. */
  function AppendAll(file: FeedbackFile, rows: seq<FeedbackRow>): (after: FeedbackFile)
    decreases |rows|
  {
    if |rows| == 0 then file
    else AppendAll(AppendRow(file, rows[0]), rows[1..])
  }

  /** The data lines for some rows. */
  function DataLines(rows: seq<FeedbackRow>): (lines: seq<Line>)
    ensures |lines| == |rows|
    ensures forall i :: 0 <= i < |rows| ==> lines[i] == Data(rows[i])
  {
    seq(|rows|, i requires 0 <= i < |rows| => Data(rows[i]))
  }

  /** Appending to an existing file only adds lines after the old ones. */
  lemma {:induction false} AppendAllToFile(lines: seq<Line>, rows: seq<FeedbackRow>)
    ensures AppendAll(File(lines), rows) == File(lines + DataLines(rows))
    decreases |rows|
  {
    if |rows| > 0 {
      AppendAllToFile(lines + [Data(rows[0])], rows[1..]);
      assert lines + [Data(rows[0])] + DataLines(rows[1..]) == lines + DataLines(rows);
    }
  }

  /** Starting with no file, `n >= 1` feedbacks leave one header (sized by
      the first row) followed by the `n` rows in order. */
  lemma AppendAllFromNothing(rows: seq<FeedbackRow>)
    requires |rows| >= 1
    ensures AppendAll(NoFile, rows) ==
            File([Header(HeaderFor(|rows[0].components|))] + DataLines(rows))
  {
    var first := [Header(HeaderFor(|rows[0].components|)), Data(rows[0])];
    AppendAllToFile(first, rows[1..]);
    assert first + DataLines(rows[1..]) == [Header(HeaderFor(|rows[0].components|))] + DataLines(rows);
  }

  /** From no file, the signal after the `n`-th feedback fires iff `n` is a
      multiple of 100. */
  lemma RetrainAfterAppends(rows: seq<FeedbackRow>)
    requires |rows| >= 1
    ensures RetrainSignal(AppendAll(NoFile, rows)) <==> |rows| % RetrainThreshold == 0
  {
    AppendAllFromNothing(rows);
  }

  /** The signal fires after the 100th and the 200th feedback, not the 150th. */
  lemma RetrainSchedule(rows: seq<FeedbackRow>)
    requires |rows| in {100, 150, 200}
    ensures RetrainSignal(AppendAll(NoFile, rows)) <==> |rows| != 150
  {
    RetrainAfterAppends(rows);
  }
}
