/** Triage of a classified call in the backend service: the priority tier
    derived from the model's raw class label, and the response that the
    `/predict` endpoint assembles from the model's output. */
module Priority {

  /** Labels that go to the top tier, tested first. */
  const HighLabels: seq<string> := ["angry", "fearful", "disgust"]

  /** Labels that go to the middle tier, tested second. */
  const MediumLabels: seq<string> := ["sad", "surprised"]

  /** The three tiers, as the Spanish strings the service returns. */
  predicate IsTier(t: string)
  {
    t == "ALTA" || t == "MEDIA" || t == "BAJA"
  }

  /** The priority tier of a raw class label. Membership is tested by exact,
      case-sensitive string equality; anything not listed falls to "BAJA". */
  function GetPriority(emotion: string): (tier: string)
    ensures IsTier(tier)
    ensures tier == "ALTA" <==> emotion == "angry" || emotion == "fearful" || emotion == "disgust"
    ensures tier == "MEDIA" <==> emotion == "sad" || emotion == "surprised"
    ensures tier == "BAJA" <==> emotion !in HighLabels + MediumLabels
  {
    if emotion in HighLabels then "ALTA"
    else if emotion in MediumLabels then "MEDIA"
    else "BAJA"
  }

  /** The same rule with the two membership tests in the other order. */
  function GetPriorityMediumFirst(emotion: string): string
  {
    if emotion in MediumLabels then "MEDIA"
    else if emotion in HighLabels then "ALTA"
    else "BAJA"
  }

  /** No label is in both lists. */
  lemma LabelListsDisjoint(name: string)
    ensures !(name in HighLabels && name in MediumLabels)
  {
  }

  /** Because the lists are disjoint, the order of the two tests does not matter. */
  lemma TestOrderIrrelevant(emotion: string)
    ensures GetPriority(emotion) == GetPriorityMediumFirst(emotion)
  {
    LabelListsDisjoint(emotion);
  }

  /** Exactly one tier holds for every label: the rule is a total
      function onto the three tiers, and every tier is reached. */
  lemma EveryLabelHasOneTier(emotion: string)
    ensures (if GetPriority(emotion) == "ALTA" then 1 else 0)
          + (if GetPriority(emotion) == "MEDIA" then 1 else 0)
          + (if GetPriority(emotion) == "BAJA" then 1 else 0) == 1
    ensures exists l :: GetPriority(l) == "ALTA"
    ensures exists l :: GetPriority(l) == "MEDIA"
    ensures exists l :: GetPriority(l) == "BAJA"
  {
    assert GetPriority("angry") == "ALTA";
    assert GetPriority("sad") == "MEDIA";
    assert GetPriority("happy") == "BAJA";
  }

  /** The labels of the classifier that fall outside both lists. */
  lemma DefaultTier()
    ensures GetPriority("happy") == "BAJA"
    ensures GetPriority("neutral") == "BAJA"
    ensures GetPriority("calm") == "BAJA"
    ensures GetPriority("") == "BAJA"
  {
  }

  /** No case folding is done: a label that contains an upper-case ASCII
      letter anywhere, such as "ANGRY" or "Sad", is never ALTA or MEDIA. */
  lemma UpperCaseFallsThrough(emotion: string, k: nat)
    requires k < |emotion| && 'A' <= emotion[k] <= 'Z'
    ensures GetPriority(emotion) == "BAJA"
  {
  }

  /** Two concrete cases of the rule above. */
  lemma CaseSensitiveExamples()
    ensures GetPriority("ANGRY") == "BAJA"
    ensures GetPriority("Sad") == "BAJA"
  {
    UpperCaseFallsThrough("ANGRY", 0);
    UpperCaseFallsThrough("Sad", 0);
  }

  /** What the model returns for one image: the predicted class, the index
      the model chose for it, and its per-class score vector. */
  datatype Prediction = Prediction(predClass: string, predIdx: nat, outputs: seq<real>)

  /** The JSON body of a successful `/predict` call. */
  datatype Response = Response(emotion: string, priority: string, confidence: real)

  /** The response built from the model's prediction. The model always
      returns an index into its own score vector. */
  function Predict(p: Prediction): (r: Response)
    requires p.predIdx < |p.outputs|
    ensures r.emotion == p.predClass
    ensures r.priority == GetPriority(r.emotion) && IsTier(r.priority)
    ensures r.confidence == p.outputs[p.predIdx]
  {
    var name := p.predClass;
    Response(name, GetPriority(name), p.outputs[p.predIdx])
  }

  /** Two predictions with the same class get the same tier, whatever their
      scores: the tier depends on the label alone. */
  lemma PriorityDependsOnLabelOnly(p: Prediction, q: Prediction)
    requires p.predIdx < |p.outputs| && q.predIdx < |q.outputs|
    requires p.predClass == q.predClass
    ensures Predict(p).priority == Predict(q).priority
    ensures Predict(p).emotion == Predict(q).emotion
  {
  }

  /** The confidence is the score at the model's own index, not the largest
      score: whenever some other class scored higher than the model's
      choice, the response reports the smaller score. */
  lemma ConfidenceIsNotRecomputed(p: Prediction, j: nat)
    requires p.predIdx < |p.outputs| && j < |p.outputs|
    requires p.outputs[p.predIdx] < p.outputs[j]
    ensures Predict(p).confidence == p.outputs[p.predIdx] < p.outputs[j]
  {
  }

  /** Such predictions exist: one whose index is not the arg-max. */
  lemma ConfidenceNotMaximumExample()
    ensures var p := Prediction("angry", 0, [0.25, 0.75]);
      Predict(p).confidence == 0.25 && Predict(p).confidence < p.outputs[1]
  {
    ConfidenceIsNotRecomputed(Prediction("angry", 0, [0.25, 0.75]), 1);
  }
}
