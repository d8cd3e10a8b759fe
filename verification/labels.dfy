/** The closed set of mood labels and the lookup that turns the decision
    model's class index into one of them, falling back to "Unknown". */
module Labels {
  import opened Options

  /** Number of entries in the class table. */
  const ClassCount: nat := 7

  /** Class index -> mood name, as fixed at process start. */
  const LabelMapping: map<int, string> :=
    map[
      0 := "Normal",
      1 := "Depression",
      2 := "Suicidal",
      3 := "Anxiety",
      4 := "Bipolar",
      5 := "Stress",
      6 := "Personality disorder"
    ]

  /** The sentinel for an index the table does not know. */
  const Unknown: string := "Unknown"

  /** A mood the table can produce. */
  predicate IsMood(name: string) {
    name in LabelMapping.Values
  }

  /** Everything the prediction step can return: a mood or the sentinel. */
  predicate IsPrediction(name: string) {
    IsMood(name) || name == Unknown
  }

  /** `label_mapping.get(index, "Unknown")`: total over all integers. */
  function ResolveLabel(index: int): (name: string)
    ensures IsPrediction(name)
    ensures index == 0 ==> name == "Normal"
    ensures index == 1 ==> name == "Depression"
    ensures index == 2 ==> name == "Suicidal"
    ensures index == 3 ==> name == "Anxiety"
    ensures index == 4 ==> name == "Bipolar"
    ensures index == 5 ==> name == "Stress"
    ensures index == 6 ==> name == "Personality disorder"
    ensures name == Unknown <==> !(0 <= index < ClassCount)
  {
    if index in LabelMapping then LabelMapping[index] else Unknown
  }

  /** The prediction function: the abstract classifier yields a class index,
      which is resolved through the table. */
  function Predict(classify: string -> int, sentence: string): (name: string)
    ensures IsPrediction(name)
    ensures name == Unknown <==> !(0 <= classify(sentence) < ClassCount)
    ensures name != Unknown ==> LabelMapping[classify(sentence)] == name
  {
    ResolveLabel(classify(sentence))
  }

  /** Search of the table for `name` among the indices `from .. ClassCount - 1`. */
  function IndexFrom(name: string, from: nat): (r: Option<int>)
    requires from <= ClassCount
    ensures r.Some? ==> from <= r.value < ClassCount && LabelMapping[r.value] == name
    ensures r.None? ==> forall j :: from <= j < ClassCount ==> LabelMapping[j] != name
    decreases ClassCount - from
  {
    if from == ClassCount then None
    else if LabelMapping[from] == name then Some(from)
    else IndexFrom(name, from + 1)
  }

  /** The inverse of the table: the class index whose mood is `name`. */
  function LabelIndex(name: string): (r: Option<int>)
    ensures r.Some? <==> IsMood(name)
    ensures r.Some? ==> 0 <= r.value < ClassCount && ResolveLabel(r.value) == name
  {
    IndexFrom(name, 0)
  }

  /** No two class indices share a mood, and the sentinel is not a mood. */
  lemma TableIsInjective()
    ensures forall i, j :: 0 <= i < j < ClassCount ==> LabelMapping[i] != LabelMapping[j]
    ensures !IsMood(Unknown)
  {
  }

  /** Round trip index -> name -> index for every index the table knows. */
  lemma ResolveThenIndex(index: int)
    requires 0 <= index < ClassCount
    ensures LabelIndex(ResolveLabel(index)) == Some(index)
  {
  }

  /** The fallback label has no class index, so it cannot be mistaken for a mood. */
  lemma UnknownHasNoIndex()
    ensures LabelIndex(Unknown) == None
  {
  }
}
