/** `run_pipeline`: read a client's history, window it, ask the predictor,
    and decide whether to send the recommendation email. */
module Pipeline {
  import opened Wrappers
  import opened Processor
  import ModelService

  /** Email is sent only for a confidence strictly above this. */
  const ConfidenceThreshold: real := 0.0

  /** Whatever turns a windowed sequence into a product and a confidence. */
  type Predictor = seq<Slot> -> ModelService.Recommendation

  /** One call of the email sender. Sending never raises: the sender logs
      its own failures and returns. */
  datatype Email = Email(clientId: string, product: string, probability: real)

  /** The dictionary `run_pipeline` returns. */
  datatype Report = Report(
    clientId: string,
    recommendedProduct: string,
    confidence: real,
    emailSent: bool,
    threshold: real)

  /** One run: the returned report (`None` for Python's `None`), every
      sequence the predictor was handed, and every email sent. */
  datatype Run = Run(report: Option<Report>, predictorInputs: seq<seq<Slot>>, outbox: seq<Email>)

  /** `run_pipeline(client_id)` with the transaction file, the predictor and
      the email sender made explicit. */
  function RunPipeline(clientId: string, file: TransactionFile, predictor: Predictor): (run: Run)
    // no history: no report, and neither the predictor nor the sender is used
    ensures ClientHistory(file, clientId) == [] <==> run.report.None?
    ensures run.report.None? ==> run.predictorInputs == [] && run.outbox == []
    // otherwise the predictor sees the windowed history, once
    ensures run.report.Some? ==>
              run.predictorInputs == [PrepareSequence(ClientHistory(file, clientId))] &&
              |run.predictorInputs[0]| == DefaultSeqLength
    // the report echoes the client and the predictor's pair unchanged
    ensures run.report.Some? ==>
              var rec := predictor(run.predictorInputs[0]);
              run.report.value.clientId == clientId &&
              run.report.value.recommendedProduct == rec.product &&
              run.report.value.confidence == rec.probability &&
              run.report.value.threshold == ConfidenceThreshold
    // email goes out iff the confidence is strictly positive, and the flag
    // says the sender was called, not that the mail was delivered
    ensures run.report.Some? ==>
              (run.report.value.emailSent <==> run.report.value.confidence > ConfidenceThreshold) &&
              (run.report.value.emailSent <==> |run.outbox| == 1) &&
              (run.report.value.emailSent ==>
                run.outbox == [Email(clientId, run.report.value.recommendedProduct, run.report.value.confidence)])
    ensures |run.outbox| <= 1
  {
    var rawHistory := ClientHistory(file, clientId);
    if rawHistory == [] then Run(None, [], [])
    else
      var sequence := PrepareSequence(rawHistory);
      var rec := predictor(sequence);
      var send := rec.probability > ConfidenceThreshold;
      var outbox := if send then [Email(clientId, rec.product, rec.probability)] else [];
      Run(Some(Report(clientId, rec.product, rec.probability, send, ConfidenceThreshold)), [sequence], outbox)
  }

  /** With the LSTM recommender as predictor, a missing model or tokenizer
      yields a report with confidence 0.0 and no email. */
  lemma FallbacksSendNothing(clientId: string, file: TransactionFile, rec: ModelService.Recommender)
    requires rec.model.None? || rec.vocabulary.None? || |rec.vocabulary.value.catToInt| == 0
    ensures var run := RunPipeline(clientId, file, s => ModelService.Predict(rec, s));
            run.outbox == [] &&
            (run.report.Some? ==> run.report.value.confidence == 0.0 && !run.report.value.emailSent)
  {
  }
}
