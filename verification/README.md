# Recommendation and fraud-serving control logic, in Dafny

This project models the deterministic control logic of two services:

- A banking-product recommender (`mlops_recommender-main`). It reads a client's
  merchant-category history from the transaction table. It windows the history
  to 80 slots, encodes it, and asks an LSTM for the next category. It maps that
  category to a banking product, and it emails the recommendation when the
  confidence is strictly above 0.0.
- A fraud-scoring HTTP service (`serving/api.py`). Its artifacts are a
  preprocessor, a PCA projection and a classifier. It answers `/predict` with
  503, 500 or a verdict, and schedules an alert when the transaction is flagged
  as fraud or its probability is above 0.7. Each `/feedback` appends one row to
  a CSV table, and a retrain signal fires every 100 rows.

The trained models are abstract. The LSTM is a function from an integer
sequence to a non-empty score vector. The preprocessor, PCA and classifier are
function values held in the artifact record. The transaction table, the
feedback CSV file, the email sender and the alert webhook are explicit values:
a file is a sequence of rows or lines, the sent emails form an outbox, and the
webhook is a function that may fail.

Modules, by source file:

| module | file | models |
|---|---|---|
| `Wrappers` | `wrappers.dfy` | `Option` and `Result` |
| `Scores` | `scores.dfy` | first-maximum argmax and max over scores |
| `Processor` | `processor.dfy` | `get_client_transactions`, `prepare_sequence` |
| `ModelService` | `model_service.dfy` | `LSTMRecommender.predict` |
| `Pipeline` | `pipeline.dfy` | `run_pipeline` |
| `Artifacts` | `artifacts.dfy` | startup loading, the all-loaded gate, `/health`, `process_features` |
| `FraudApi` | `fraud_api.dfy` | `/predict`, the alert rule, `trigger_fraud_alert` |
| `FeedbackLog` | `feedback_log.dfy` | `/feedback`, the CSV append, `check_and_retrain` |

Notes on the code's behaviour, which the model keeps:

- At `seq_length = 0`, `data[-0:]` returns the whole input
  (`Processor.WindowZeroKeepsAll`). The length guarantee of `Processor.Window`
  therefore holds only for lengths of at least 1.
- A missing model or tokenizer returns the pairs `("Modele Non Chargé", 0.0)`
  and `("Erreur Tokenizer", 0.0)` instead of raising.
- The feedback append takes no lock.
- Every exception inside the `try` of `/predict` and `/feedback` becomes a
  500, including one raised by a malformed record.

## Model

| member | source | states |
|---|---|---|
| `Processor.Matching` | mlops_recommender-main/processor.py:22-27 | the reference filter: never longer than the table, and every entry is the category of one of the client's rows |
| `Processor.MatchingConcat` | mlops_recommender-main/processor.py:22-27 | the history filter distributes over splitting the table, so together with its one-row case it keeps exactly the client's rows, in file order |
| `Processor.MatchingMembers` | mlops_recommender-main/processor.py:22-27 | a category is in the history iff some row with that `customer_id` carries it |
| `Processor.ClientHistory` | mlops_recommender-main/processor.py:14-31 | a missing file or any read error yields `[]`, and rows read before the error are discarded; a readable file yields the filtered categories |
| `Processor.GetClientTransactions` | mlops_recommender-main/processor.py:7-33 | the row-by-row scan returns the same history as the filter's reference definition, for every file state |
| `Processor.PySuffix` | mlops_recommender-main/processor.py:51 | Python's `s[start:]` is a suffix, of length `-start` for a start in `[-len, 0)`, and the whole list at `-0` |
| `Processor.Window` | mlops_recommender-main/processor.py:35-58 | for a length of at least 1, the result has exactly that length for every input length, with pads first and the most recent entries after them in order; at length 0 the input comes back unchanged |
| `Processor.WindowExact` | mlops_recommender-main/processor.py:46-47 | an input of exactly the window length is returned unchanged |
| `Processor.WindowKeepsLatest` | mlops_recommender-main/processor.py:49-51 | a longer input yields exactly its last `seq_length` entries; the oldest are dropped |
| `Processor.WindowPadsShort` | mlops_recommender-main/processor.py:53-58 | a shorter input is preceded by `seq_length - len` pads |
| `Processor.WindowEmpty` | mlops_recommender-main/processor.py:53-58 | an empty history becomes a window made only of pads |
| `Processor.WindowZeroKeepsAll` | mlops_recommender-main/processor.py:49-51 | at `seq_length = 0` a non-empty input keeps its own length, so the length guarantee needs a positive length |
| `Processor.WindowIdempotent` | mlops_recommender-main/processor.py:46-58 | windowing a windowed sequence again changes nothing |
| `Processor.PrepareSequence` | mlops_recommender-main/processor.py:35-58 | with the default length, a category history becomes 80 slots, the integer pad first and then the latest categories |
| `Processor.DemoRuns` | mlops_recommender-main/processor.py:61-66 | `range(100)` windows to 80 entries starting with 20; `range(50)` windows to 80 entries starting with 0 |
| `Scores.FirstArgMax` | mlops_recommender-main/model_service.py:61 | the argmax is an index of a maximal score, and every earlier score is strictly smaller |
| `Scores.Max` | serving/api.py:130 | the maximum class probability is one of the probabilities and bounds them all |
| `ModelService.EncodeSlot` | mlops_recommender-main/model_service.py:49 | a known category encodes to its vocabulary code; an unknown one and the integer pad `0` both encode to 0 |
| `ModelService.Encode` | mlops_recommender-main/model_service.py:45-49 | encoding preserves length and works element by element |
| `ModelService.PadSequence` | mlops_recommender-main/model_service.py:54 | `pad_sequences(maxlen=80, padding='pre')` always gives 80 codes: the last 80 of a long input, or zero pads before a short one |
| `ModelService.ModelInput` | mlops_recommender-main/model_service.py:45-54 | the LSTM input has 80 codes, zeros for missing history, then the codes of the most recent slots |
| `ModelService.Resolve` | mlops_recommender-main/model_service.py:65 | an index missing from `int_to_cat` resolves to "Inconnu" rather than failing |
| `ModelService.ProductFor` | mlops_recommender-main/model_service.py:68-81 | a listed category gets its table product; the "Offre Spéciale (cat)" default is produced iff the category is not listed |
| `ModelService.ListedProducts` | mlops_recommender-main/model_service.py:68-78 | each of the nine listed categories maps to its fixed product name |
| `ModelService.UnknownGetsSpecialOffer` | mlops_recommender-main/model_service.py:65-81 | the "Inconnu" sentinel gets "Offre Spéciale (Inconnu)" |
| `ModelService.Predict` | mlops_recommender-main/model_service.py:34-83 | no model gives ("Modele Non Chargé", 0.0); a missing or empty vocabulary gives ("Erreur Tokenizer", 0.0); otherwise the confidence is the highest LSTM score on the 80-code input, and the product is the one for the category at the first index holding it |
| `ModelService.PredictProductShape` | mlops_recommender-main/model_service.py:61-83 | a loaded recommender always returns a listed product or a special offer, never an error |
| `Pipeline.RunPipeline` | mlops_recommender-main/main.py:7-44 | an empty history gives no report, no predictor call and no email; otherwise the predictor gets the 80-slot window once, the report echoes the client, product and confidence with threshold 0.0, and exactly one email goes out iff the confidence is strictly above 0.0, with `email_sent` saying so |
| `Pipeline.FallbacksSendNothing` | mlops_recommender-main/main.py:24-34 | with a missing model or tokenizer the confidence is 0.0, so no email is sent |
| `Artifacts.LoadArtifacts` | serving/api.py:29-47 | all artifacts are loaded iff all three files load; artifacts read before the first failure stay loaded, that failure leaves it and every later artifact unset, and startup still completes |
| `Artifacts.AllLoaded` | serving/api.py:73 | the gate is open only with model, pca and preprocessor all present; one missing artifact closes it |
| `Artifacts.HealthCheck` | serving/api.py:114-116 | health is always "ok"; `artifacts_loaded` holds iff model, pca and preprocessor are all present |
| `Artifacts.HealthAfterStartup` | serving/api.py:29-47 | after startup, health reports loaded iff every artifact file could be read |
| `Artifacts.ProcessFeatures` | serving/api.py:71-84 | featurization fails when any artifact is missing or the transform raises; otherwise it is the PCA of the preprocessed record |
| `FraudApi.ShouldAlert` | serving/api.py:135 | a fraud label always alerts; otherwise an alert needs a probability strictly above 0.7 |
| `FraudApi.Predict` | serving/api.py:118-146 | missing artifacts give 503 with no alert; a raising transform or an empty probability vector gives 500; otherwise the verdict is the label's truth value and the largest class probability, and an alert with the raw record is scheduled iff fraud or probability > 0.7 |
| `FraudApi.AlertBoundary` | serving/api.py:26 | a non-fraud verdict at exactly 0.7 raises no alert; 0.75 does, and so does a fraud label at any probability |
| `FraudApi.DispatchAlert` | serving/api.py:86-97 | a failing webhook is logged as a failure and nothing is raised |
| `FraudApi.ServePredict` | serving/api.py:118-146 | the reply is the endpoint's reply; the background alert task runs iff an alert was scheduled |
| `FraudApi.ReplyIgnoresWebhook` | serving/api.py:86-97 | the reply is the same whatever the webhook does |
| `FeedbackLog.HeaderFor` | serving/api.py:157 | the header is `PCA_1..PCA_k`, then `target`, then `prediction` |
| `FeedbackLog.AppendRow` | serving/api.py:162-164 | the header is written iff the file did not exist; earlier lines are kept and exactly one row is added at the end |
| `FeedbackLog.Feedback` | serving/api.py:148-173 | a missing artifact, a raising transform or a failed write gives a 500, appends nothing and schedules no retrain check; a success appends one row (latent vector, `correct_class`, `prediction`), answers "recorded" and schedules the check |
| `FeedbackLog.FeedbackStoresScoredVector` | serving/api.py:71-84 | for a record `/predict` answered, a written feedback succeeds, and its row holds the labels given and the latent vector behind that verdict |
| `FeedbackLog.FeedbackKeepsWellFormed` | serving/api.py:157-164 | feedback keeps the file shaped as one header followed by data rows |
| `FeedbackLog.RetrainSignal` | serving/api.py:99-112 | no file never signals; a file signals iff its line count, header included, is 1 more than a multiple of 100 |
| `FeedbackLog.RetrainIffRowsMultiple` | serving/api.py:99-112 | on such a file the signal fires iff the number of data rows is a multiple of 100 |
| `FeedbackLog.AppendAllToFile` | serving/api.py:162-164 | successive appends to an existing file only add lines after the old ones, in order |
| `FeedbackLog.AppendAllFromNothing` | serving/api.py:157-164 | from no file, n feedbacks leave one header, sized by the first row, then the n rows in order |
| `FeedbackLog.RetrainAfterAppends` | serving/api.py:99-112 | from no file, the signal after the n-th feedback fires iff n is a multiple of 100 |
| `FeedbackLog.RetrainSchedule` | serving/api.py:27 | the signal fires after 100 and 200 feedbacks, not after 150 |

## Left out

- The LSTM, the column transformer, the PCA and the random forest are function parameters. Their numerics are out of scope. So is unpickling, and so is loading the `.h5` model.
- The LSTM's score vector is assumed non-empty. A softmax layer always has at least one unit, and `np.argmax` on an empty vector would raise an exception that neither `predict` nor `run_pipeline` catches.
- The preprocessor is built with `OneHotEncoder(handle_unknown='ignore')` (scripts/train_model.py:67), so unseen categories never raise. The preprocessor is opaque here, so this is an assumption about it rather than something proved; its `None` result stands only for malformed records.
- Floating point is modelled as `real`. NaN scores, float32 rounding and the exact binary value of 0.7 are not modelled. `np.argmax` and `max` are modelled on totally ordered values.
- `ModelService.PadSequence` ignores the int32 cast of `pad_sequences`; vocabulary codes are small.
- `LSTMRecommender.__init__` reads two files. Its outcome is the two `Option` fields of `Recommender`. The `tokenizer` attribute is never assigned, so the outer guard of `predict` is always entered, and only a missing model returns from it.
- Email sending over SMTP is an outbox entry. The sender never raises, because it returns early or logs on failure.
- Logging, `print` output and the alert timestamp are not modelled.
- The background tasks are modelled as an alert or check that runs after the reply. Their scheduling is not modelled, and neither is concurrency between feedback requests.
- Pydantic validation of the request bodies (422 replies) is not modelled. `/predict` takes the validated record as a field map.
- The feedback CSV is a list of structured lines, not text. The line count assumes one text line per row. A failed write is assumed to write nothing.
- An exception raised while `check_and_retrain` reads the file is not modelled. The signal itself is only a log line.
- The recommender's FastAPI wrapper (mlops_recommender-main/api.py) is not part of this model. Its 404 for a client with no history is raised inside a `try` whose `except Exception` turns it into a 500.
- The Streamlit web app, the training script and the drift reports are not part of this model.
