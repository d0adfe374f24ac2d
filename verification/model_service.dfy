/** `LSTMRecommender.predict`: everything around the sequence model, which
    is kept abstract as a function from an integer sequence to scores. */
module ModelService {
  import opened Wrappers
  import opened Processor
  import Scores

  /** The length the model's input is padded or truncated to. */
  const SeqLength: int := 80

  const ModelMissing: string := "Modele Non Chargé"
  const TokenizerError: string := "Erreur Tokenizer"
  const UnknownCategory: string := "Inconnu"
  const SpecialOfferPrefix: string := "Offre Spéciale ("

  /** The trained LSTM: one score per category index. */
  type Lstm = seq<int> -> Scores.Scores

  /** The two dictionaries of the tokenizer pickle, loaded together. */
  datatype Vocabulary = Vocabulary(catToInt: map<string, int>, intToCat: map<int, string>)

  /** A recommender as its constructor leaves it: either artifact may be
      absent. The `tokenizer` attribute is never assigned, so it is not a
      field here. */
  datatype Recommender = Recommender(model: Option<Lstm>, vocabulary: Option<Vocabulary>)

  /** The pair `predict` returns: product name and confidence. */
  datatype Recommendation = Recommendation(product: string, probability: real)

  /** The business rule table from category to banking product. */
  const ProductTable: map<string, string> := map[
    "Gas" := "Carte Essence Cashback",
    "Entertainment" := "Assurance Loisirs",
    "Grocery" := "Compte Budget Famille",
    "Travel" := "Assurance Voyage Gold",
    "Shopping" := "Carte Premium",
    "Online" := "Assurance Achats Web",
    "Restaurant" := "Carte Restaurant",
    "Transport" := "Pass Mobilité",
    "Utilities" := "Service Paiement Factures"
  ]

  /** The product synthesized for a category outside the table. */
  function SpecialOffer(category: string): (r: string)
    ensures |r| == |SpecialOfferPrefix| + |category| + 1
    ensures r[..|SpecialOfferPrefix|] == SpecialOfferPrefix
  {
    SpecialOfferPrefix + category + ")"
  }

  /** The code of one slot: its vocabulary entry, or `0` for a category the
      vocabulary does not know and for the integer pad (never a key). */
  function EncodeSlot(catToInt: map<string, int>, slot: Slot): (code: int)
    ensures slot.Category? && slot.name in catToInt ==> code == catToInt[slot.name]
    ensures slot.Pad? || slot.name !in catToInt ==> code == 0
  {
    match slot
    case Pad => 0
    case Category(name) => if name in catToInt then catToInt[name] else 0
  }

  /** The encoding loop: one code per slot, appended in order. */
  function Encode(catToInt: map<string, int>, sequence: seq<Slot>): (codes: seq<int>)
    ensures |codes| == |sequence|
    ensures forall i :: 0 <= i < |sequence| ==> codes[i] == EncodeSlot(catToInt, sequence[i])
    decreases |sequence|
  {
    if |sequence| == 0 then []
    else Encode(catToInt, sequence[..|sequence| - 1]) + [EncodeSlot(catToInt, sequence[|sequence| - 1])]
  }

  /** Keras `pad_sequences` with `maxlen=80`, `padding='pre'` and the default
      `truncating='pre'`: the same windowing `prepare_sequence` performs,
      with `0` as the pad. */
  function PadSequence(codes: seq<int>): (r: seq<int>)
    ensures |r| == SeqLength
    ensures |codes| >= SeqLength ==> r == codes[|codes| - SeqLength..]
    ensures |codes| < SeqLength ==>
              (forall i :: 0 <= i < SeqLength - |codes| ==> r[i] == 0) && r[SeqLength - |codes|..] == codes
  {
    var r := Window(codes, SeqLength, 0);
    assert |codes| >= SeqLength ==> r == codes[|codes| - SeqLength..] by {
      if |codes| > SeqLength {
        WindowKeepsLatest(codes, SeqLength, 0);
      }
    }
    assert |codes| < SeqLength ==> r[SeqLength - |codes|..] == codes by {
      if |codes| < SeqLength {
        WindowPadsShort(codes, SeqLength, 0);
      }
    }
    r
  }

  /** The integer sequence handed to the LSTM: always 80 codes, the last
      ones encoding the most recent slots. */
  function ModelInput(catToInt: map<string, int>, sequence: seq<Slot>): (r: seq<int>)
    ensures |r| == SeqLength
    ensures forall i :: 0 <= i < SeqLength ==>
              r[i] == if i < SeqLength - |sequence| then 0
                      else EncodeSlot(catToInt, sequence[|sequence| - SeqLength + i])
  {
    var codes := Encode(catToInt, sequence);
    var r := PadSequence(codes);
    assert forall i :: SeqLength - |sequence| <= i < SeqLength && i >= 0 ==>
      r[i] == codes[|sequence| - SeqLength + i];
    r
  }

  /** The category named by a predicted index, or "Inconnu". */
  function Resolve(intToCat: map<int, string>, index: int): (category: string)
    ensures index in intToCat ==> category == intToCat[index]
    ensures index !in intToCat ==> category == UnknownCategory
  {
    if index in intToCat then intToCat[index] else UnknownCategory
  }

  /** The recommended product: the table's entry, else a special offer
      naming the category. */
  function ProductFor(category: string): (product: string)
    ensures category in ProductTable ==> product == ProductTable[category]
    // the synthesized default never collides with a listed product
    ensures product == SpecialOffer(category) <==> category !in ProductTable
  {
    assert SpecialOffer(category)[0] == 'O';
    if category in ProductTable then ProductTable[category] else SpecialOffer(category)
  }

  /** The nine listed categories get their fixed products. */
  lemma ListedProducts()
    ensures ProductFor("Gas") == "Carte Essence Cashback"
    ensures ProductFor("Entertainment") == "Assurance Loisirs"
    ensures ProductFor("Grocery") == "Compte Budget Famille"
    ensures ProductFor("Travel") == "Assurance Voyage Gold"
    ensures ProductFor("Shopping") == "Carte Premium"
    ensures ProductFor("Online") == "Assurance Achats Web"
    ensures ProductFor("Restaurant") == "Carte Restaurant"
    ensures ProductFor("Transport") == "Pass Mobilité"
    ensures ProductFor("Utilities") == "Service Paiement Factures"
  {
  }

  /** The "unknown" sentinel is not a listed category: it gets a special
      offer naming it. */
  lemma UnknownGetsSpecialOffer()
    ensures ProductFor(UnknownCategory) == "Offre Spéciale (Inconnu)"
  {
    assert UnknownCategory !in ProductTable by {
      assert forall k :: k in ProductTable ==> k[0] != 'I';
    }
  }

  /** `predict(sequence)`. */
  function Predict(rec: Recommender, sequence: seq<Slot>): (r: Recommendation)
    // no model: the fallback pair, whatever the tokenizer
    ensures rec.model.None? ==> r == Recommendation(ModelMissing, 0.0)
    // a model but no usable vocabulary (missing or empty dict is falsy)
    ensures rec.model.Some? && (rec.vocabulary.None? || |rec.vocabulary.value.catToInt| == 0) ==>
              r == Recommendation(TokenizerError, 0.0)
    // otherwise the confidence is the highest score of the LSTM on the model input
    ensures rec.model.Some? && rec.vocabulary.Some? && |rec.vocabulary.value.catToInt| > 0 ==>
              var scores := rec.model.value(ModelInput(rec.vocabulary.value.catToInt, sequence));
              r.probability in scores &&
              (forall j :: 0 <= j < |scores| ==> scores[j] <= r.probability)
    // and the product is the one for the category at the first such index
    ensures rec.model.Some? && rec.vocabulary.Some? && |rec.vocabulary.value.catToInt| > 0 ==>
              var scores := rec.model.value(ModelInput(rec.vocabulary.value.catToInt, sequence));
              exists k :: 0 <= k < |scores| && scores[k] == r.probability &&
                          (forall j :: 0 <= j < k ==> scores[j] < scores[k]) &&
                          r.product == ProductFor(Resolve(rec.vocabulary.value.intToCat, k))
  {
    if rec.model.None? then Recommendation(ModelMissing, 0.0)
    else if rec.vocabulary.None? || |rec.vocabulary.value.catToInt| == 0 then Recommendation(TokenizerError, 0.0)
    else
      var vocabulary := rec.vocabulary.value;
      var scores := rec.model.value(ModelInput(vocabulary.catToInt, sequence));
      var k := Scores.FirstArgMax(scores);
      Recommendation(ProductFor(Resolve(vocabulary.intToCat, k)), scores[k])
  }

  /** Whatever the scores, a loaded recommender's product is either a listed
      product or a special offer: predicting never fails. */
  lemma PredictProductShape(rec: Recommender, sequence: seq<Slot>)
    requires rec.model.Some? && rec.vocabulary.Some? && |rec.vocabulary.value.catToInt| > 0
    ensures var p := Predict(rec, sequence).product;
            p in ProductTable.Values || p[..|SpecialOfferPrefix|] == SpecialOfferPrefix
  {
    var scores := rec.model.value(ModelInput(rec.vocabulary.value.catToInt, sequence));
    var k := Scores.FirstArgMax(scores);
    var category := Resolve(rec.vocabulary.value.intToCat, k);
    if category in ProductTable {
      assert ProductTable[category] in ProductTable.Values;
    }
  }
}
