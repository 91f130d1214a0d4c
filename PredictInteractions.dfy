/** The AI service's first drug-interaction check (`POST /interactions` in the prediction
    router): every table entry whose two drug names both occur, as substrings, in the
    stripped and lower-cased drug list. */
module PredictInteractions {
  import opened Wrappers
  import opened StringUtil

  datatype Interaction = Interaction(drug1: string, drug2: string, severity: string, description: string)

  /** The fixed table, in its declaration order. */
  const KnownInteractions: seq<Interaction> := [
    Interaction("Warfarin", "Aspirin", "high", "Increased risk of bleeding. Both drugs thin blood through different mechanisms."),
    Interaction("Metformin", "Alcohol", "high", "Risk of lactic acidosis. Alcohol impairs liver's ability to clear metformin."),
    Interaction("Lisinopril", "Potassium", "medium", "Risk of hyperkalemia. ACE inhibitors can increase potassium levels."),
    Interaction("Simvastatin", "Grapefruit", "medium", "Grapefruit increases statin levels, raising risk of muscle damage."),
    Interaction("Omeprazole", "Clopidogrel", "high", "Omeprazole reduces effectiveness of Clopidogrel antiplatelet action."),
    Interaction("Metformin", "Contrast dye", "high", "Risk of kidney damage and lactic acidosis during contrast imaging."),
    Interaction("Amlodipine", "Simvastatin", "medium", "Amlodipine can increase simvastatin levels, raising muscle damage risk.")
  ]

  /** The response; `totalChecked` is absent from the short answer to fewer than two drugs. */
  datatype Report = Report(safe: bool, warnings: seq<Interaction>, checkedDrugs: seq<string>, totalChecked: Option<nat>)

  /** `any(name in drug for drug in drugs)`. */
  predicate MentionedIn(name: string, drugs: seq<string>) {
    exists k :: 0 <= k < |drugs| && Contains(drugs[k], name)
  }

  /** Both of the entry's drugs, lower-cased, occur in the (possibly same) cleaned drugs. */
  predicate Fires(e: Interaction, cleaned: seq<string>) {
    MentionedIn(Lower(e.drug1), cleaned) && MentionedIn(Lower(e.drug2), cleaned)
  }

  /** Each requested drug stripped and lower-cased. */
  function Cleaned(drugs: seq<string>): (r: seq<string>)
    ensures |r| == |drugs|
  {
    if drugs == [] then [] else Cleaned(drugs[..|drugs| - 1]) + [Lower(Strip(drugs[|drugs| - 1]))]
  }

  /** Entry `k` of the cleaned list is drug `k` stripped and lower-cased. */
  lemma {:induction false} CleanedAt(drugs: seq<string>, k: int)
    requires 0 <= k < |drugs|
    ensures Cleaned(drugs)[k] == Lower(Strip(drugs[k]))
  {
    var init := drugs[..|drugs| - 1];
    if k < |drugs| - 1 {
      CleanedAt(init, k);
      assert init[k] == drugs[k];
    }
  }

  lemma CleanedSnoc(drugs: seq<string>, k: int)
    requires 0 <= k < |drugs|
    ensures Cleaned(drugs[..k + 1]) == Cleaned(drugs[..k]) + [Lower(Strip(drugs[k]))]
  {
    assert drugs[..k + 1][..k] == drugs[..k];
  }

  /** The entries of `table` that fire, in table order. */
  function Firing(table: seq<Interaction>, cleaned: seq<string>): (r: seq<Interaction>)
    ensures forall e :: e in r <==> e in table && Fires(e, cleaned)
    ensures |r| <= |table|
  {
    if table == [] then []
    else (if Fires(table[0], cleaned) then [table[0]] else []) + Firing(table[1..], cleaned)
  }

  /** Filtering keeps table order: the warnings of a split table are those of its parts,
      one after the other. */
  lemma {:induction false} FiringAppend(t1: seq<Interaction>, t2: seq<Interaction>, cleaned: seq<string>)
    ensures Firing(t1 + t2, cleaned) == Firing(t1, cleaned) + Firing(t2, cleaned)
  {
    if t1 != [] {
      assert (t1 + t2)[1..] == t1[1..] + t2;
      FiringAppend(t1[1..], t2, cleaned);
    } else {
      assert t1 + t2 == t2;
    }
  }

  /** What the handler answers for the requested drug names. */
  function Check(drugs: seq<string>): (r: Report)
    ensures r.checkedDrugs == drugs
    ensures |drugs| < 2 ==> r.safe && r.warnings == [] && r.totalChecked == None
    ensures |drugs| >= 2 ==>
              (forall e :: e in r.warnings <==> e in KnownInteractions && Fires(e, Cleaned(drugs))) &&
              (r.safe <==> r.warnings == []) &&
              r.totalChecked == Some(|drugs|)
  {
    if |drugs| < 2 then Report(true, [], drugs, None)
    else
      var w := Firing(KnownInteractions, Cleaned(drugs));
      Report(|w| == 0, w, drugs, Some(|drugs|))
  }

  /** The generator test `any(name in drug for drug in drugs)`. */
  method AnyMentions(name: string, drugs: seq<string>) returns (found: bool)
    ensures found <==> MentionedIn(name, drugs)
  {
    found := false;
    var k := 0;
    while k < |drugs| && !found
      invariant 0 <= k <= |drugs|
      invariant found <==> exists m :: 0 <= m < k && Contains(drugs[m], name)
    {
      if Contains(drugs[k], name) {
        found := true;
      }
      k := k + 1;
    }
  }

  /** `[d.strip().lower() for d in drugs]`. */
  method CleanAll(drugs: seq<string>) returns (drugList: seq<string>)
    ensures drugList == Cleaned(drugs)
  {
    drugList := [];
    for k := 0 to |drugs|
      invariant drugList == Cleaned(drugs[..k])
    {
      CleanedSnoc(drugs, k);
      drugList := drugList + [Lower(Strip(drugs[k]))];
    }
    assert drugs[..|drugs|] == drugs;
  }

  /** One pass over the table, appending each entry that fires. */
  method ScanTable(table: seq<Interaction>, drugList: seq<string>) returns (warnings: seq<Interaction>)
    ensures warnings == Firing(table, drugList)
  {
    warnings := [];
    for i := 0 to |table|
      invariant warnings == Firing(table[..i], drugList)
    {
      var e := table[i];
      var has1 := AnyMentions(Lower(e.drug1), drugList);
      var has2 := false;
      if has1 {
        has2 := AnyMentions(Lower(e.drug2), drugList);
      }
      assert table[..i + 1] == table[..i] + [e];
      FiringAppend(table[..i], [e], drugList);
      assert Firing([e], drugList) == if has1 && has2 then [e] else [];
      if has1 && has2 {
        warnings := warnings + [e];
      }
    }
    assert table[..|table|] == table;
  }

  /** The handler: the short answer for fewer than two drugs, otherwise the cleaned names
      scanned against the table. */
  method CheckInteractions(drugs: seq<string>) returns (r: Report)
    ensures r == Check(drugs)
  {
    if |drugs| < 2 {
      return Report(true, [], drugs, None);
    }
    var drugList := CleanAll(drugs);
    var warnings := ScanTable(KnownInteractions, drugList);
    r := Report(|warnings| == 0, warnings, drugs, Some(|drugs|));
  }
}
