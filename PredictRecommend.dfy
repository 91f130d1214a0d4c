/** Medicine recommendation in the prediction router (`POST /recommend-medicine`): an exact
    lookup in the disease table, then the first key, in table order, that matches the request
    case-insensitively as a substring in either direction, then a generic fallback. */
module PredictRecommend {
  import opened Wrappers
  import opened StringUtil

  datatype Medicine = Medicine(name: string, dosage: string, frequency: string, duration: string)

  type Table = seq<(string, seq<Medicine>)>

  /** The disease table, in its declaration order (which the fallback search follows). */
  const MedicineMap: Table := [
    ("Influenza", [
      Medicine("Oseltamivir (Tamiflu)", "75mg", "BD", "5 days"),
      Medicine("Paracetamol", "500mg", "TID", "3 days"),
      Medicine("Cetirizine", "10mg", "OD", "5 days")]),
    ("Dengue Fever", [
      Medicine("Paracetamol", "500mg", "TID", "5 days"),
      Medicine("ORS (Oral Rehydration)", "1 sachet", "TID", "7 days"),
      Medicine("Platelet-boosting supplements", "As directed", "OD", "7 days")]),
    ("Hypertension", [
      Medicine("Amlodipine", "5mg", "OD", "30 days"),
      Medicine("Losartan", "50mg", "OD", "30 days")]),
    ("Type 2 Diabetes", [
      Medicine("Metformin", "500mg", "BD", "30 days"),
      Medicine("Glimepiride", "1mg", "OD", "30 days")]),
    ("Common Cold", [
      Medicine("Cetirizine", "10mg", "OD", "5 days"),
      Medicine("Paracetamol", "500mg", "TID", "3 days"),
      Medicine("Steam Inhalation", "-", "BD", "5 days")]),
    ("Gastroenteritis", [
      Medicine("ORS", "1 sachet", "TID", "3 days"),
      Medicine("Omeprazole", "20mg", "BD", "5 days"),
      Medicine("Loperamide", "2mg", "SOS", "2 days")]),
    ("Asthma", [
      Medicine("Salbutamol Inhaler", "2 puffs", "SOS", "As needed"),
      Medicine("Montelukast", "10mg", "HS", "30 days")]),
    ("Bronchitis", [
      Medicine("Ambroxol", "30mg", "BD", "5 days"),
      Medicine("Azithromycin", "500mg", "OD", "3 days")]),
    ("Allergic Rhinitis", [
      Medicine("Cetirizine", "10mg", "OD", "7 days"),
      Medicine("Fluticasone Nasal Spray", "2 sprays", "OD", "14 days")]),
    ("Skin Infections", [
      Medicine("Clotrimazole Cream", "Apply thin layer", "BD", "14 days"),
      Medicine("Cetirizine", "10mg", "OD", "5 days")]),
    ("Typhoid", [
      Medicine("Azithromycin", "500mg", "OD", "7 days"),
      Medicine("Paracetamol", "500mg", "TID", "5 days")]),
    ("Malaria", [
      Medicine("Chloroquine", "600mg base", "See schedule", "3 days"),
      Medicine("Primaquine", "15mg", "OD", "14 days")])
  ]

  datatype Recommendation = Recommendation(disease: string, recommended: seq<string>,
                                           detailed: seq<Medicine>, note: string)

  /** `disease.split()[0]` on text with no word in it raises. */
  datatype RecommendError = IndexError

  /** The source literal holds the UTF-8 bytes of an em dash read back as Windows-1252,
      three characters U+00E2 U+20AC U+201D; the model keeps them as written. */
  const NoMatchSuffix: string := " treatment \U{E2}\U{20AC}\U{201D} consult doctor"
  const NoMatchNote: string := "No specific recommendation found. Please consult a specialist."
  const MatchNote: string := "AI-generated recommendation. Always verify with attending physician."

  /** `MEDICINE_MAP.get(disease)`: where the key equal to the request sits. */
  function ExactIndex(table: Table, disease: string): (r: Option<nat>)
    ensures r.Some? ==> r.value < |table| && table[r.value].0 == disease
    ensures r.Some? ==> forall i :: 0 <= i < r.value ==> table[i].0 != disease
    ensures r.None? ==> forall i :: 0 <= i < |table| ==> table[i].0 != disease
  {
    if table == [] then None
    else if table[0].0 == disease then Some(0)
    else match ExactIndex(table[1..], disease)
      case None => None
      case Some(i) => Some(i + 1)
  }

  /** `key.lower() in disease.lower() or disease.lower() in key.lower()`. */
  predicate FuzzyMatch(key: string, disease: string) {
    Contains(Lower(disease), Lower(key)) || Contains(Lower(key), Lower(disease))
  }

  /** The first key in table order that matches fuzzily. */
  function FirstFuzzy(table: Table, disease: string): (r: Option<nat>)
    ensures r.Some? ==> r.value < |table| && FuzzyMatch(table[r.value].0, disease)
    ensures r.Some? ==> forall i :: 0 <= i < r.value ==> !FuzzyMatch(table[i].0, disease)
    ensures r.None? ==> forall i :: 0 <= i < |table| ==> !FuzzyMatch(table[i].0, disease)
  {
    if table == [] then None
    else if FuzzyMatch(table[0].0, disease) then Some(0)
    else match FirstFuzzy(table[1..], disease)
      case None => None
      case Some(i) => Some(i + 1)
  }

  /** `[m["name"] for m in medicines]`. */
  function Names(meds: seq<Medicine>): (r: seq<string>)
    ensures |r| == |meds| && forall k :: 0 <= k < |meds| ==> r[k] == meds[k].name
  {
    if meds == [] then [] else [meds[0].name] + Names(meds[1..])
  }

  /** The answer for a table entry: its key, its medicine names in order and the entries. */
  function Found(key: string, meds: seq<Medicine>): Recommendation {
    Recommendation(key, Names(meds), meds, MatchNote)
  }

  /** The handler's answer, as a function of the table and the request. */
  function Recommend(table: Table, disease: string): Result<Recommendation, RecommendError> {
    match ExactIndex(table, disease)
    case Some(i) => Success(Found(disease, table[i].1))
    case None =>
      match FirstFuzzy(table, disease)
      case Some(i) => Success(Found(table[i].0, table[i].1))
      case None =>
        var words := Split(disease);
        if words == [] then Failure(IndexError)
        else Success(Recommendation(disease, [words[0] + NoMatchSuffix], [], NoMatchNote))
  }

  /** The search loop over the keys in table order, stopping at the first fuzzy match. */
  method SearchFuzzy(table: Table, disease: string) returns (found: Option<nat>)
    ensures found == FirstFuzzy(table, disease)
  {
    found := None;
    var i := 0;
    while i < |table|
      invariant 0 <= i <= |table|
      invariant forall j :: 0 <= j < i ==> !FuzzyMatch(table[j].0, disease)
    {
      if FuzzyMatch(table[i].0, disease) {
        found := Some(i);
        return;
      }
      i := i + 1;
    }
  }

  /** The handler's steps on a given table: the dictionary lookup, then the search, then
      the fallback answer. */
  method RecommendFrom(table: Table, disease: string) returns (r: Result<Recommendation, RecommendError>)
    ensures r == Recommend(table, disease)
  {
    var exact := ExactIndex(table, disease);
    if exact.Some? {
      return Success(Found(disease, table[exact.value].1));
    }
    var found := SearchFuzzy(table, disease);
    if found.Some? {
      return Success(Found(table[found.value].0, table[found.value].1));
    }
    var words := Split(disease);
    if words == [] {
      return Failure(IndexError);
    }
    r := Success(Recommendation(disease, [words[0] + NoMatchSuffix], [], NoMatchNote));
  }
  /** The handler, on the built-in table. */
  method RecommendMedicine(disease: string) returns (r: Result<Recommendation, RecommendError>)
    ensures r == Recommend(MedicineMap, disease)
  {
    r := RecommendFrom(MedicineMap, disease);
  }


  // ---------------------------------------------------------------- properties

  /** A request equal to a key gets that key's entry: the medicine names in table order
      and the entries themselves, even when an earlier key also matches fuzzily. */
  lemma ExactKeyAnswer(table: Table, i: nat)
    requires i < |table| && forall j :: 0 <= j < i ==> table[j].0 != table[i].0
    ensures var r := Recommend(table, table[i].0);
            r.Success? && r.value.disease == table[i].0 && r.value.detailed == table[i].1 &&
            |r.value.recommended| == |table[i].1| &&
            (forall k :: 0 <= k < |table[i].1| ==> r.value.recommended[k] == table[i].1[k].name) &&
            r.value.note == MatchNote
  {
    var e := ExactIndex(table, table[i].0);
    assert e.Some? && e.value == i;
  }

  /** Otherwise the first fuzzily matching key wins and renames the request. */
  lemma FuzzyAnswer(table: Table, disease: string, i: nat)
    requires ExactIndex(table, disease).None?
    requires i < |table| && FuzzyMatch(table[i].0, disease)
    requires forall j :: 0 <= j < i ==> !FuzzyMatch(table[j].0, disease)
    ensures Recommend(table, disease) == Success(Found(table[i].0, table[i].1))
  {
    var f := FirstFuzzy(table, disease);
    assert f.Some?;
    assert f.value == i;
  }

  /** The empty request is inside every key, so it gets the first entry of a table without
      an empty key. */
  lemma EmptyRequestMatchesFirst(table: Table)
    requires table != [] && forall j :: 0 <= j < |table| ==> table[j].0 != ""
    ensures Recommend(table, "") == Success(Found(table[0].0, table[0].1))
  {
    EmptyInEverything(Lower(table[0].0));
    FuzzyAnswer(table, "", 0);
  }

  /** With no match at all the answer recommends "<first word> treatment ..." and lists
      no medicines; a request without a word raises instead. */
  lemma NoMatchAnswer(table: Table, disease: string)
    requires forall j :: 0 <= j < |table| ==> table[j].0 != disease && !FuzzyMatch(table[j].0, disease)
    ensures Split(disease) == [] <==> Recommend(table, disease).Failure?
    ensures Split(disease) != [] ==>
              var r := Recommend(table, disease).value;
              r.disease == disease && r.detailed == [] && r.note == NoMatchNote &&
              r.recommended == [Split(disease)[0] + NoMatchSuffix]
  {
    assert ExactIndex(table, disease).None?;
    assert FirstFuzzy(table, disease).None?;
  }

  /** Every successful answer either lists a table entry under its key (or under the
      request equal to that key) or lists no medicine at all. */
  lemma AnswerFromTable(table: Table, disease: string)
    requires Recommend(table, disease).Success?
    ensures var r := Recommend(table, disease).value;
            r.detailed == [] || exists i :: 0 <= i < |table| && table[i] == (r.disease, r.detailed)
  {
    var r := Recommend(table, disease).value;
    match ExactIndex(table, disease)
    case Some(i) =>
      assert table[i] == (r.disease, r.detailed);
    case None =>
      match FirstFuzzy(table, disease)
      case Some(i) =>
        assert table[i] == (r.disease, r.detailed);
      case None =>
  }

  /** So an empty request is answered with the influenza medicines. */
  lemma EmptyRequestGetsInfluenza()
    ensures Recommend(MedicineMap, "") == Success(Found("Influenza", MedicineMap[0].1))
  {
    forall j | 0 <= j < |MedicineMap| ensures MedicineMap[j].0 != "" {
      assert |MedicineMap[j].0| > 0;
    }
    EmptyRequestMatchesFirst(MedicineMap);
  }
}
