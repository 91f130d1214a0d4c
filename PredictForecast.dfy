/** Disease forecasts in the prediction router (`POST /disease`): per-region predictions
    from a fixed disease profile scaled by a seasonal multiplier, and the "Overall" view that
    merges the five regions disease by disease.

    Fractions are kept exact on scaled integers: base rates and risk factors in hundredths,
    season multipliers in tenths, confidences and shown risk factors in hundredths, average
    daily cases in tenths. */
module PredictForecast {
  import opened Wrappers
  import opened Rounding
  import opened Sorting
  import StringUtil

  /** A region: its disease profile (disease, base rate in hundredths) in declaration
      order, population, hospital count and risk factor in hundredths. */
  datatype Region = Region(name: string, profile: seq<(string, int)>, population: int,
                           hospitals: int, riskFactor: int)

  const Regions: seq<Region> := [
    Region("Neelambur",
      [("Influenza", 22), ("Dengue Fever", 18), ("Gastroenteritis", 12), ("Hypertension", 15),
       ("Asthma", 8), ("Common Cold", 15), ("Type 2 Diabetes", 10)], 35000, 3, 110),
    Region("Saravampatti",
      [("Influenza", 18), ("Dengue Fever", 25), ("Type 2 Diabetes", 14), ("Hypertension", 13),
       ("Malaria", 7), ("Common Cold", 13), ("Gastroenteritis", 10)], 28000, 2, 120),
    Region("Peelamedu",
      [("Hypertension", 20), ("Type 2 Diabetes", 18), ("Common Cold", 15), ("Influenza", 14),
       ("Allergic Rhinitis", 10), ("Bronchitis", 8), ("Gastroenteritis", 15)], 45000, 5, 95),
    Region("Gandhipuram",
      [("Common Cold", 18), ("Hypertension", 17), ("Type 2 Diabetes", 16), ("Influenza", 13),
       ("Anxiety Disorders", 9), ("Dengue Fever", 10), ("Gastroenteritis", 17)], 60000, 8, 90),
    Region("Ukkadam",
      [("Dengue Fever", 22), ("Gastroenteritis", 18), ("Influenza", 15), ("Skin Infections", 12),
       ("Typhoid", 8), ("Common Cold", 13), ("Hypertension", 12)], 38000, 3, 115)
  ]

  /** A calendar month, as the clock reports it. */
  type Month = m: int | 1 <= m <= 12 witness 1

  /** The seasonal multiplier in tenths: raised in a disease's season, lowered outside it,
      and 1.0 for a disease without a season. */
  function SeasonMult(disease: string, month: Month): int {
    if disease == "Influenza" then (if month in {11, 12, 1, 2} then 14 else 8)
    else if disease == "Dengue Fever" then (if 6 <= month <= 10 then 15 else 6)
    else if disease == "Malaria" then (if 7 <= month <= 10 then 13 else 7)
    else if disease == "Common Cold" then (if month in {10, 11, 12, 1} then 13 else 9)
    else if disease == "Gastroenteritis" then (if 4 <= month <= 6 then 12 else 9)
    else 10
  }

  datatype Trend = Rising | Stable | Declining

  /** Above 1.1 rising, below 0.85 declining, otherwise stable (`mult` in tenths). */
  function TrendOf(mult: int): Trend {
    if mult > 11 then Rising else if 2 * mult < 17 then Declining else Stable
  }

  /** One forecast row; `riskFactor` (in hundredths) is absent from the merged rows. */
  datatype Prediction = Prediction(disease: string, region: string, cases: int, avgDaily: int,
                                   trend: Trend, confidence: int, riskFactor: Option<int>)

  /** The daily rate `base * population * risk * mult / 365` is `RateNumerator / RateScale`. */
  const RateScale: int := 36500000

  function Min(a: int, b: int): int {
    if a <= b then a else b
  }

  function Max(a: int, b: int): int {
    if a >= b then a else b
  }

  /** `min(0.95, 0.7 + population / 100000 * 0.15 + (0.05 if more than five diseases))`
      rounded to hundredths. */
  function Confidence(population: int, diseases: int): int {
    RoundHalfEven(Min(7000000 + 15 * population + (if diseases > 5 then 500000 else 0), 9500000), 100000)
  }

  /** The row for one profile entry of a region. */
  function PredictionOf(r: Region, entry: (string, int), daysAhead: int, month: Month): Prediction {
    var mult := SeasonMult(entry.0, month);
    var rate := entry.1 * r.population * r.riskFactor * mult;
    Prediction(entry.0, r.name,
               RoundHalfEven(rate * daysAhead, RateScale),
               RoundHalfEven(rate * 10, RateScale),
               TrendOf(mult),
               Confidence(r.population, |r.profile|),
               Some(RoundHalfEven(r.riskFactor * mult, 10)))
  }

  /** The rows in profile order, before sorting. */
  function RawPredictions(r: Region, daysAhead: int, month: Month): seq<Prediction> {
    seq(|r.profile|, i requires 0 <= i < |r.profile| => PredictionOf(r, r.profile[i], daysAhead, month))
  }

  /** Sorting key for "most cases first". */
  function CasesDesc(p: Prediction): int {
    -p.cases
  }

  /** `compute_predictions`: the rows sorted by predicted cases, largest first, ties in
      profile order. */
  function Predictions(r: Region, daysAhead: int, month: Month): seq<Prediction> {
    SortBy(RawPredictions(r, daysAhead, month), CasesDesc)
  }

  method ComputePredictions(r: Region, daysAhead: int, month: Month) returns (preds: seq<Prediction>)
    ensures preds == Predictions(r, daysAhead, month)
  {
    var rows: seq<Prediction> := [];
    for i := 0 to |r.profile|
      invariant |rows| == i && forall k :: 0 <= k < i ==> rows[k] == PredictionOf(r, r.profile[k], daysAhead, month)
    {
      rows := rows + [PredictionOf(r, r.profile[i], daysAhead, month)];
    }
    assert rows == RawPredictions(r, daysAhead, month);
    preds := SortBy(rows, CasesDesc);
  }

  // ---------------------------------------------------------------- the merged view

  /** A disease's running totals while the regions are merged. */
  datatype Aggregate = Aggregate(disease: string, cases: int, avgDaily: int, confidence: int,
                                 trendScores: seq<int>)

  function Score(t: Trend): int {
    match t
    case Rising => 1
    case Declining => -1
    case Stable => 0
  }

  /** Where the disease's totals sit in the insertion-ordered table. */
  function FindAgg(all: seq<Aggregate>, d: string): (r: Option<nat>)
    ensures r.Some? ==> r.value < |all| && all[r.value].disease == d
    ensures r.Some? ==> forall i :: 0 <= i < r.value ==> all[i].disease != d
    ensures r.None? ==> forall i :: 0 <= i < |all| ==> all[i].disease != d
  {
    if all == [] then None
    else if all[0].disease == d then Some(0)
    else match FindAgg(all[1..], d)
      case None => None
      case Some(i) => Some(i + 1)
  }

  /** One prediction folded into a disease's totals. */
  function Update(a: Aggregate, p: Prediction): Aggregate {
    Aggregate(a.disease, a.cases + p.cases, a.avgDaily + p.avgDaily, Max(a.confidence, p.confidence),
              a.trendScores + [Score(p.trend)])
  }

  /** The body of the inner merge loop: a first sighting appends fresh totals, a later one
      updates them in place. */
  function AddPrediction(all: seq<Aggregate>, p: Prediction): seq<Aggregate> {
    match FindAgg(all, p.disease)
    case None => all + [Update(Aggregate(p.disease, 0, 0, 0, []), p)]
    case Some(i) => all[i := Update(all[i], p)]
  }

  function AddAll(all: seq<Aggregate>, ps: seq<Prediction>): seq<Aggregate>
    decreases |ps|
  {
    if ps == [] then all else AddPrediction(AddAll(all, ps[..|ps| - 1]), ps[|ps| - 1])
  }

  lemma PrefixStep<T>(a: seq<T>, s: seq<T>, k: nat)
    requires k < |s|
    ensures a + s[..k + 1] == (a + s[..k]) + [s[k]]
  {
    assert s[..k + 1] == s[..k] + [s[k]];
  }

  lemma AddAllSnoc(all: seq<Aggregate>, ps: seq<Prediction>, p: Prediction)
    ensures AddAll(all, ps + [p]) == AddPrediction(AddAll(all, ps), p)
  {
    assert (ps + [p])[..|ps|] == ps;
  }

  /** Every region's sorted predictions, one region after the other. */
  function AllPredictions(rs: seq<Region>, daysAhead: int, month: Month): seq<Prediction>
    decreases |rs|
  {
    if rs == [] then []
    else AllPredictions(rs[..|rs| - 1], daysAhead, month) + Predictions(rs[|rs| - 1], daysAhead, month)
  }

  function Sum(s: seq<int>): int {
    if s == [] then 0 else Sum(s[..|s| - 1]) + s[|s| - 1]
  }

  const OverallRegion: string := "Overall (Coimbatore)"

  /** A merged row: the mean trend score over `n` regions above 0.3 is rising, below -0.3
      declining. */
  function Finalize(a: Aggregate, n: int): Prediction {
    var s := Sum(a.trendScores);
    var trend := if 10 * s > 3 * n then Rising else if 10 * s < -3 * n then Declining else Stable;
    Prediction(a.disease, OverallRegion, a.cases, a.avgDaily, trend, a.confidence, None)
  }

  function FinalizeAll(all: seq<Aggregate>, n: int): seq<Prediction> {
    seq(|all|, i requires 0 <= i < |all| => Finalize(all[i], n))
  }

  /** Predictions from `n` regions merged by disease, sorted by cases, first ten. */
  function MergedRows(ps: seq<Prediction>, n: int): seq<Prediction> {
    Take(SortBy(FinalizeAll(AddAll([], ps), n), CasesDesc), 10)
  }

  /** The "Overall" rows. */
  function Overall(rs: seq<Region>, daysAhead: int, month: Month): seq<Prediction> {
    MergedRows(AllPredictions(rs, daysAhead, month), Max(|rs|, 1))
  }

  /** The nested merge loops: over the regions in table order, and over each region's
      sorted predictions. */
  method MergeRegions(rs: seq<Region>, daysAhead: int, month: Month) returns (all: seq<Aggregate>)
    ensures all == AddAll([], AllPredictions(rs, daysAhead, month))
  {
    all := [];
    for r := 0 to |rs|
      invariant all == AddAll([], AllPredictions(rs[..r], daysAhead, month))
    {
      var preds := ComputePredictions(rs[r], daysAhead, month);
      ghost var before := AllPredictions(rs[..r], daysAhead, month);
      assert before + preds[..0] == before;
      for k := 0 to |preds|
        invariant all == AddAll([], before + preds[..k])
      {
        PrefixStep(before, preds, k);
        AddAllSnoc([], before + preds[..k], preds[k]);
        all := AddPrediction(all, preds[k]);
      }
      assert rs[..r + 1][..r] == rs[..r];
      assert preds[..|preds|] == preds;
    }
    assert rs[..|rs|] == rs;
  }

  /** The loop that turns each disease's totals into a row. */
  method FinalizeMerged(all: seq<Aggregate>, n: int) returns (rows: seq<Prediction>)
    ensures rows == FinalizeAll(all, n)
  {
    rows := [];
    for i := 0 to |all|
      invariant |rows| == i && forall k :: 0 <= k < i ==> rows[k] == Finalize(all[k], n)
    {
      var s := Sum(all[i].trendScores);
      var trend := if 10 * s > 3 * n then Rising else if 10 * s < -3 * n then Declining else Stable;
      rows := rows + [Prediction(all[i].disease, OverallRegion, all[i].cases, all[i].avgDaily,
                                 trend, all[i].confidence, None)];
    }
  }

  // ---------------------------------------------------------------- the handler

  datatype ForecastResponse = ForecastResponse(predictions: seq<Prediction>, region: string,
                                               periodDays: int, dataSource: string)

  datatype HttpError = HttpError(status: int, detail: string)

  function FindRegion(rs: seq<Region>, name: string): (r: Option<nat>)
    ensures r.Some? ==> r.value < |rs| && rs[r.value].name == name
    ensures r.None? ==> forall i :: 0 <= i < |rs| ==> rs[i].name != name
  {
    if rs == [] then None
    else if rs[0].name == name then Some(0)
    else match FindRegion(rs[1..], name)
      case None => None
      case Some(i) => Some(i + 1)
  }

  function RegionNames(rs: seq<Region>): seq<string> {
    seq(|rs|, i requires 0 <= i < |rs| => rs[i].name)
  }

  function UnknownRegionDetail(rs: seq<Region>, name: string): string {
    "Unknown region: " + name + ". Available: " + StringUtil.Join(", ", RegionNames(rs) + ["Overall"])
  }

  /** The handler's answer for a requested region. */
  function Forecast(rs: seq<Region>, name: string, daysAhead: int, month: Month): Result<ForecastResponse, HttpError> {
    if name == "Overall" then
      Success(ForecastResponse(Overall(rs, daysAhead, month), OverallRegion, daysAhead, "simulated"))
    else match FindRegion(rs, name)
      case None => Failure(HttpError(400, UnknownRegionDetail(rs, name)))
      case Some(i) =>
        Success(ForecastResponse(Take(Predictions(rs[i], daysAhead, month), 10), name, daysAhead, "simulated"))
  }

  method PredictDisease(name: string, daysAhead: int, month: Month) returns (r: Result<ForecastResponse, HttpError>)
    ensures r == Forecast(Regions, name, daysAhead, month)
  {
    if name == "Overall" {
      var all := MergeRegions(Regions, daysAhead, month);
      var rows := FinalizeMerged(all, Max(|Regions|, 1));
      var sorted := SortBy(rows, CasesDesc);
      return Success(ForecastResponse(Take(sorted, 10), OverallRegion, daysAhead, "simulated"));
    }
    var found := FindRegion(Regions, name);
    if found.None? {
      return Failure(HttpError(400, UnknownRegionDetail(Regions, name)));
    }
    var preds := ComputePredictions(Regions[found.value], daysAhead, month);
    r := Success(ForecastResponse(Take(preds, 10), name, daysAhead, "simulated"));
  }

  // ---------------------------------------------------------------- properties

  /** The trend each seasonal disease shows by month; every other disease is stable. */
  lemma SeasonalTrend(disease: string, month: Month)
    ensures var t := TrendOf(SeasonMult(disease, month));
            (disease == "Influenza" ==> (t == Rising <==> month in {11, 12, 1, 2}) && t != Stable) &&
            (disease == "Dengue Fever" ==> (t == Rising <==> 6 <= month <= 10) && t != Stable) &&
            (disease == "Malaria" ==> (t == Rising <==> 7 <= month <= 10) && t != Stable) &&
            (disease == "Common Cold" ==> (t == Rising <==> month in {10, 11, 12, 1}) && t != Declining) &&
            (disease == "Gastroenteritis" ==> (t == Rising <==> 4 <= month <= 6) && t != Declining) &&
            (disease !in {"Influenza", "Dengue Fever", "Malaria", "Common Cold", "Gastroenteritis"} ==> t == Stable)
  {
  }

  /** Confidence is between 0.70 and 0.95 for any non-negative population. */
  lemma ConfidenceBounds(population: int, diseases: int)
    requires population >= 0
    ensures 70 <= Confidence(population, diseases) <= 95
  {
    var x := Min(7000000 + 15 * population + (if diseases > 5 then 500000 else 0), 9500000);
    var c := RoundHalfEven(x, 100000);
    assert 2 * (x - c * 100000) <= 100000 && 2 * (c * 100000 - x) <= 100000;
  }

  /** Sorting rows by `CasesDesc` puts them in non-increasing order of predicted cases,
      keeps every row, and keeps rows with equal cases in their original order. */
  lemma {:induction false} DescendingByCases(raw: seq<Prediction>)
    ensures var ps := SortBy(raw, CasesDesc);
            multiset(ps) == multiset(raw) &&
            (forall i, j :: 0 <= i < j < |ps| ==> ps[i].cases >= ps[j].cases) &&
            (forall k :: WithKey(ps, CasesDesc, k) == WithKey(raw, CasesDesc, k))
  {
    SortBySorted(raw, CasesDesc);
    forall k ensures WithKey(SortBy(raw, CasesDesc), CasesDesc, k) == WithKey(raw, CasesDesc, k) {
      SortByStable(raw, CasesDesc, k);
    }
    var ps := SortBy(raw, CasesDesc);
    forall i, j | 0 <= i < j < |ps| ensures ps[i].cases >= ps[j].cases {
      assert CasesDesc(ps[i]) <= CasesDesc(ps[j]);
    }
  }

  /** Every row of a region's forecast is labelled with that region. */
  lemma RegionLabels(r: Region, daysAhead: int, month: Month)
    ensures forall p :: p in Predictions(r, daysAhead, month) ==> p.region == r.name && p.riskFactor.Some?
  {
    var raw := RawPredictions(r, daysAhead, month);
    forall p | p in Predictions(r, daysAhead, month) ensures p.region == r.name && p.riskFactor.Some? {
      assert p in multiset(SortBy(raw, CasesDesc));
      assert p in multiset(raw);
      var i :| 0 <= i < |raw| && raw[i] == p;
    }
  }

  /** Every merged row is labelled "Overall (Coimbatore)" and carries no risk factor. */
  lemma OverallLabels(rs: seq<Region>, daysAhead: int, month: Month)
    ensures forall p :: p in Overall(rs, daysAhead, month) ==> p.region == OverallRegion && p.riskFactor.None?
  {
    var merged := FinalizeAll(AddAll([], AllPredictions(rs, daysAhead, month)), Max(|rs|, 1));
    var all := SortBy(merged, CasesDesc);
    var rows := Overall(rs, daysAhead, month);
    assert rows == all[..|rows|];
    forall p | p in rows ensures p.region == OverallRegion && p.riskFactor.None? {
      PrefixMember(all, |rows|, p);
      SortByMember(merged, CasesDesc, p);
      var i :| 0 <= i < |merged| && merged[i] == p;
    }
  }

  /** The first ten of a non-increasing sequence are non-increasing. */
  lemma TakeDescending(ps: seq<Prediction>)
    requires forall i, j :: 0 <= i < j < |ps| ==> ps[i].cases >= ps[j].cases
    ensures var t := Take(ps, 10);
            forall i, j :: 0 <= i < j < |t| ==> t[i].cases >= t[j].cases
  {
    var t := Take(ps, 10);
    forall i, j | 0 <= i < j < |t| ensures t[i].cases >= t[j].cases {
      assert t[i] == ps[i] && t[j] == ps[j];
    }
  }

  /** The region's rows are its profile's rows, most cases first. */
  lemma {:induction false} PredictionsOrdered(r: Region, daysAhead: int, month: Month)
    ensures var ps := Predictions(r, daysAhead, month);
            multiset(ps) == multiset(RawPredictions(r, daysAhead, month)) &&
            (forall i, j :: 0 <= i < j < |ps| ==> ps[i].cases >= ps[j].cases)
  {
    DescendingByCases(RawPredictions(r, daysAhead, month));
  }

  /** A region that is neither in the table nor "Overall" is refused with status 400 and a
      message naming every region and "Overall"; every answer holds at most ten rows, most
      cases first, all labelled with the requested region. */
  lemma {:induction false} ForecastOutcome(rs: seq<Region>, name: string, daysAhead: int, month: Month)
    ensures Forecast(rs, name, daysAhead, month).Failure? <==>
              name != "Overall" && forall i :: 0 <= i < |rs| ==> rs[i].name != name
    ensures Forecast(rs, name, daysAhead, month).Failure? ==>
              Forecast(rs, name, daysAhead, month).error == HttpError(400, UnknownRegionDetail(rs, name))
    ensures Forecast(rs, name, daysAhead, month).Success? ==>
              var resp := Forecast(rs, name, daysAhead, month).value;
              |resp.predictions| <= 10 &&
              resp.region == (if name == "Overall" then OverallRegion else name) &&
              resp.dataSource == "simulated" && resp.periodDays == daysAhead &&
              (forall i, j :: 0 <= i < j < |resp.predictions| ==> resp.predictions[i].cases >= resp.predictions[j].cases) &&
              (forall p :: p in resp.predictions ==> p.region == resp.region)
  {
    if name == "Overall" {
      var merged := FinalizeAll(AddAll([], AllPredictions(rs, daysAhead, month)), Max(|rs|, 1));
      DescendingByCases(merged);
      TakeDescending(SortBy(merged, CasesDesc));
      OverallLabels(rs, daysAhead, month);
    } else if FindRegion(rs, name).Some? {
      var k := FindRegion(rs, name).value;
      var ps := Predictions(rs[k], daysAhead, month);
      PredictionsOrdered(rs[k], daysAhead, month);
      TakeDescending(ps);
      RegionLabels(rs[k], daysAhead, month);
      var t := Take(ps, 10);
      assert forall p :: p in t ==> p in ps;
    }
  }

  // ---------------------------------------------------------------- the merged totals

  predicate UniqueDiseases(all: seq<Aggregate>) {
    forall i, j :: 0 <= i < j < |all| ==> all[i].disease != all[j].disease
  }

  /** The totals the merge table holds for `d`, if any. */
  function TotalsOf(all: seq<Aggregate>, d: string): Option<Aggregate> {
    match FindAgg(all, d)
    case Some(i) => Some(all[i])
    case None => None
  }

  /** Some prediction is about `d`. */
  predicate Seen(ps: seq<Prediction>, d: string) {
    exists i :: 0 <= i < |ps| && ps[i].disease == d
  }

  /** The reference totals of `d` over a list of predictions: the sums of cases and of
      average daily cases, the largest confidence (from 0) and the trend scores in order. */
  function SumCases(ps: seq<Prediction>, d: string): int {
    if ps == [] then 0
    else SumCases(ps[..|ps| - 1], d) + (if ps[|ps| - 1].disease == d then ps[|ps| - 1].cases else 0)
  }

  function SumAvg(ps: seq<Prediction>, d: string): int {
    if ps == [] then 0
    else SumAvg(ps[..|ps| - 1], d) + (if ps[|ps| - 1].disease == d then ps[|ps| - 1].avgDaily else 0)
  }

  function MaxConfidence(ps: seq<Prediction>, d: string): int {
    if ps == [] then 0
    else if ps[|ps| - 1].disease == d then Max(MaxConfidence(ps[..|ps| - 1], d), ps[|ps| - 1].confidence)
    else MaxConfidence(ps[..|ps| - 1], d)
  }

  function ScoresFor(ps: seq<Prediction>, d: string): seq<int> {
    if ps == [] then []
    else ScoresFor(ps[..|ps| - 1], d) + (if ps[|ps| - 1].disease == d then [Score(ps[|ps| - 1].trend)] else [])
  }

  /** The totals record the reference totals describe. */
  function Expected(ps: seq<Prediction>, d: string): Aggregate {
    Aggregate(d, SumCases(ps, d), SumAvg(ps, d), MaxConfidence(ps, d), ScoresFor(ps, d))
  }

  lemma FindAggAt(all: seq<Aggregate>, d: string, i: nat)
    requires i < |all| && all[i].disease == d
    requires forall k :: 0 <= k < i ==> all[k].disease != d
    ensures FindAgg(all, d) == Some(i)
  {
  }

  lemma FindAggAbsent(all: seq<Aggregate>, d: string)
    requires forall k :: 0 <= k < |all| ==> all[k].disease != d
    ensures FindAgg(all, d) == None
  {
  }

  /** The merge table behaves as a dictionary keyed by disease: one prediction changes the
      totals of its own disease only, starting them from zero on a first sighting. */
  lemma AddNewTotals(all: seq<Aggregate>, p: Prediction, d: string)
    requires UniqueDiseases(all) && FindAgg(all, p.disease).None?
    ensures UniqueDiseases(AddPrediction(all, p))
    ensures TotalsOf(AddPrediction(all, p), d) ==
            if p.disease == d then Some(Update(Aggregate(d, 0, 0, 0, []), p)) else TotalsOf(all, d)
  {
    var all' := AddPrediction(all, p);
    assert all' == all + [Update(Aggregate(p.disease, 0, 0, 0, []), p)];
    assert forall k :: 0 <= k < |all| ==> all'[k] == all[k];
    if p.disease == d {
      FindAggAt(all', d, |all|);
    } else {
      match FindAgg(all, d)
      case None => FindAggAbsent(all', d);
      case Some(i) => FindAggAt(all', d, i);
    }
  }

  lemma AddExistingTotals(all: seq<Aggregate>, p: Prediction, d: string, j: nat)
    requires UniqueDiseases(all) && FindAgg(all, p.disease) == Some(j)
    ensures UniqueDiseases(AddPrediction(all, p))
    ensures TotalsOf(AddPrediction(all, p), d) ==
            if p.disease == d then Some(Update(all[j], p)) else TotalsOf(all, d)
  {
    var all' := AddPrediction(all, p);
    assert forall k :: 0 <= k < |all| ==> all'[k].disease == all[k].disease;
    match FindAgg(all, d)
    case None => assert FindAgg(all', d).None?;
    case Some(i) =>
      assert FindAgg(all', d) == Some(i);
      if p.disease == d {
        assert i == j;
      }
  }

  /** Adding a prediction behaves as the dictionary update it models: the disease's totals
      are created or updated, every other disease's are left alone, and no disease gets two
      entries. */
  lemma AddPredictionTotals(all: seq<Aggregate>, p: Prediction, d: string)
    requires UniqueDiseases(all)
    ensures UniqueDiseases(AddPrediction(all, p))
    ensures TotalsOf(AddPrediction(all, p), d) ==
            if p.disease == d then Some(Update(TotalsOf(all, d).GetOr(Aggregate(d, 0, 0, 0, [])), p))
            else TotalsOf(all, d)
  {
    match FindAgg(all, p.disease)
    case None => AddNewTotals(all, p, d);
    case Some(j) => AddExistingTotals(all, p, d, j);
  }


  /** A disease never seen has zero totals. */
  lemma {:induction false} UnseenTotals(ps: seq<Prediction>, d: string)
    requires !Seen(ps, d)
    ensures SumCases(ps, d) == 0 && SumAvg(ps, d) == 0 && MaxConfidence(ps, d) == 0 && ScoresFor(ps, d) == []
  {
    if ps != [] {
      var q := ps[..|ps| - 1];
      assert !Seen(q, d);
      UnseenTotals(q, d);
    }
  }

  /** Merging a list of predictions gives, for every disease seen, exactly its reference
      totals, and nothing for a disease not seen. */
  lemma {:induction false} MergedTotals(ps: seq<Prediction>, d: string)
    ensures UniqueDiseases(AddAll([], ps))
    ensures TotalsOf(AddAll([], ps), d) == if Seen(ps, d) then Some(Expected(ps, d)) else None
    decreases |ps|
  {
    if ps != [] {
      var q := ps[..|ps| - 1];
      var p := ps[|ps| - 1];
      MergedTotals(q, d);
      MergedTotals(q, p.disease);
      AddPredictionTotals(AddAll([], q), p, d);
      assert Seen(ps, d) <==> Seen(q, d) || p.disease == d by {
        if Seen(q, d) {
          var i :| 0 <= i < |q| && q[i].disease == d;
          assert ps[i].disease == d;
        }
        if Seen(ps, d) && p.disease != d {
          var i :| 0 <= i < |ps| && ps[i].disease == d;
          assert q[i].disease == d;
        }
      }
      assert AddAll([], ps) == AddPrediction(AddAll([], q), p);
      if p.disease == d {
        if Seen(q, d) {
          assert Update(Expected(q, d), p) == Expected(ps, d);
        } else {
          UnseenTotals(q, d);
          assert Update(Aggregate(d, 0, 0, 0, []), p) == Expected(ps, d);
        }
      } else {
        assert Expected(q, d) == Expected(ps, d);
      }
    }
  }

  lemma {:induction false} UniqueCountOne(a: seq<Prediction>, x: Prediction)
    requires forall i, j :: 0 <= i < j < |a| ==> a[i].disease != a[j].disease
    ensures multiset(a)[x] <= 1
  {
    if a != [] {
      assert a == [a[0]] + a[1..];
      UniqueCountOne(a[1..], x);
      if a[0] == x {
        assert x !in a[1..];
      }
    }
  }

  /** Reordering keeps the diseases of the rows distinct. */
  lemma DistinctDiseasesPermuted(a: seq<Prediction>, b: seq<Prediction>)
    requires multiset(a) == multiset(b)
    requires forall i, j :: 0 <= i < j < |a| ==> a[i].disease != a[j].disease
    ensures forall i, j :: 0 <= i < j < |b| ==> b[i].disease != b[j].disease
  {
    forall i, j | 0 <= i < j < |b| ensures b[i].disease != b[j].disease {
      if b[i] == b[j] {
        assert b == b[..j] + b[j..];
        assert b[i] in b[..j] && b[j] == b[j..][0];
        assert multiset(b)[b[i]] == multiset(b[..j])[b[i]] + multiset(b[j..])[b[i]];
        UniqueCountOne(a, b[i]);
      } else {
        assert b[i] in multiset(a) && b[j] in multiset(a);
        var i' :| 0 <= i' < |a| && a[i'] == b[i];
        var j' :| 0 <= j' < |a| && a[j'] == b[j];
        if i' < j' {
          assert a[i'].disease != a[j'].disease;
        } else {
          assert i' != j';
          assert a[j'].disease != a[i'].disease;
        }
      }
    }
  }

  /** Row `o` carries the totals of its disease over the predictions `ps` merged from `n`
      regions: cases and average daily cases summed, confidence the largest, trend rising
      when the mean score exceeds 0.3 and declining when it is below -0.3. */
  predicate CarriesTotals(o: Prediction, ps: seq<Prediction>, n: int) {
    Seen(ps, o.disease) && o.cases == SumCases(ps, o.disease) &&
    o.avgDaily == SumAvg(ps, o.disease) && o.confidence == MaxConfidence(ps, o.disease) &&
    (o.trend == Rising <==> 10 * Sum(ScoresFor(ps, o.disease)) > 3 * n) &&
    (o.trend == Declining <==> 10 * Sum(ScoresFor(ps, o.disease)) < -3 * n)
  }

  lemma MergedRowTotals(ps: seq<Prediction>, n: int, i: nat)
    requires n >= 1 && i < |AddAll([], ps)|
    ensures CarriesTotals(FinalizeAll(AddAll([], ps), n)[i], ps, n)
  {
    var aggs := AddAll([], ps);
    var d := aggs[i].disease;
    MergedTotals(ps, d);
    FindAggAt(aggs, d, i);
  }

  lemma MergedRowsCarry(ps: seq<Prediction>, n: int)
    requires n >= 1
    ensures forall o :: o in MergedRows(ps, n) ==> CarriesTotals(o, ps, n)
  {
    var merged := FinalizeAll(AddAll([], ps), n);
    var all := SortBy(merged, CasesDesc);
    var rows := MergedRows(ps, n);
    assert rows == all[..|rows|];
    forall o | o in rows ensures CarriesTotals(o, ps, n) {
      PrefixMember(all, |rows|, o);
      SortByMember(merged, CasesDesc, o);
      var i :| 0 <= i < |merged| && merged[i] == o;
      MergedRowTotals(ps, n, i);
    }
  }

  lemma MergedRowsDistinct(ps: seq<Prediction>, n: int)
    ensures var rows := MergedRows(ps, n);
            forall i, j :: 0 <= i < j < |rows| ==> rows[i].disease != rows[j].disease
  {
    MergedTotals(ps, "");
    var merged := FinalizeAll(AddAll([], ps), n);
    var all := SortBy(merged, CasesDesc);
    var rows := MergedRows(ps, n);
    assert forall i, j :: 0 <= i < j < |merged| ==> merged[i].disease != merged[j].disease;
    DistinctDiseasesPermuted(merged, all);
    forall i, j | 0 <= i < j < |rows| ensures rows[i].disease != rows[j].disease {
      assert rows[i] == all[i] && rows[j] == all[j];
    }
  }

  lemma MergedRowsFigures(ps: seq<Prediction>, n: int)
    requires n >= 1
    ensures var rows := MergedRows(ps, n);
            (forall i, j :: 0 <= i < j < |rows| ==> rows[i].disease != rows[j].disease) &&
            forall o :: o in rows ==> CarriesTotals(o, ps, n)
  {
    MergedRowsDistinct(ps, n);
    MergedRowsCarry(ps, n);
  }


  /** Each "Overall" row is about one disease and carries that disease's totals over all
      the regions' predictions; no disease has two rows. */
  lemma OverallFigures(rs: seq<Region>, daysAhead: int, month: Month)
    ensures var ps := AllPredictions(rs, daysAhead, month);
            var rows := Overall(rs, daysAhead, month);
            (forall i, j :: 0 <= i < j < |rows| ==> rows[i].disease != rows[j].disease) &&
            forall o :: o in rows ==> CarriesTotals(o, ps, Max(|rs|, 1))
  {
    MergedRowsFigures(AllPredictions(rs, daysAhead, month), Max(|rs|, 1));
  }

  lemma PrefixHas<T>(s: seq<T>, r: seq<T>, j: int)
    requires |r| <= |s| && r == s[..|r|] && 0 <= j < |r|
    ensures s[j] in r
  {
    assert r[j] == s[j];
  }

  /** In rows ordered by cases, largest first, a row whose disease is absent from the first
      ten means that ten were kept, none with fewer cases than it. */
  lemma MissingFromTop(all: seq<Prediction>, j: int)
    requires forall a, b :: 0 <= a < b < |all| ==> all[a].cases >= all[b].cases
    requires 0 <= j < |all|
    requires forall o :: o in Take(all, 10) ==> o.disease != all[j].disease
    ensures |Take(all, 10)| == 10
    ensures forall o :: o in Take(all, 10) ==> o.cases >= all[j].cases
  {
    var rows := Take(all, 10);
    if j < |rows| {
      PrefixHas(all, rows, j);
      assert false;
    }
    forall o | o in rows ensures o.cases >= all[j].cases {
      var k :| 0 <= k < |rows| && rows[k] == o;
      assert all[k] == o;
    }
  }

  /** A disease seen in the regions is missing from the merged rows only when all ten rows
      kept have at least as many cases. */
  lemma {:induction false} MergedRowsComplete(ps: seq<Prediction>, n: int, d: string)
    requires Seen(ps, d)
    requires forall o :: o in MergedRows(ps, n) ==> o.disease != d
    ensures |MergedRows(ps, n)| == 10
    ensures forall o :: o in MergedRows(ps, n) ==> o.cases >= SumCases(ps, d)
  {
    var aggs := AddAll([], ps);
    MergedTotals(ps, d);
    var i := FindAgg(aggs, d).value;
    var merged := FinalizeAll(aggs, n);
    var all := SortBy(merged, CasesDesc);
    var rows := MergedRows(ps, n);
    DescendingByCases(merged);
    SortByMember(merged, CasesDesc, merged[i]);
    var j :| 0 <= j < |all| && all[j] == merged[i];
    MissingFromTop(all, j);
  }

  /** So a disease seen in some region is missing from the "Overall" answer only when ten
      diseases with at least as many cases fill it. */
  lemma OverallComplete(rs: seq<Region>, daysAhead: int, month: Month, d: string)
    requires Seen(AllPredictions(rs, daysAhead, month), d)
    requires forall o :: o in Overall(rs, daysAhead, month) ==> o.disease != d
    ensures |Overall(rs, daysAhead, month)| == 10
    ensures forall o :: o in Overall(rs, daysAhead, month) ==> o.cases >= SumCases(AllPredictions(rs, daysAhead, month), d)
  {
    MergedRowsComplete(AllPredictions(rs, daysAhead, month), Max(|rs|, 1), d);
  }
}
