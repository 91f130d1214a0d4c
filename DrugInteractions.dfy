/** The AI service's second, normalising drug-interaction checker: names are lower-cased,
    stripped of dose tokens and resolved through a brand-name table, then every ordered pair
    of requested drugs is tested against the interaction table. */
module DrugInteractions {
  import opened Wrappers
  import opened StringUtil

  // ---------------------------------------------------------------- name normalisation

  /** The dose units tried, in order. */
  const Suffixes: seq<string> := ["mg", "ml", "mcg", "gm", "g"]

  /** Brand names and what they contain. */
  const DrugAliases: map<string, string> := map[
    "crocin" := "paracetamol",
    "tylenol" := "paracetamol",
    "dolo" := "paracetamol",
    "brufen" := "ibuprofen",
    "advil" := "ibuprofen",
    "nurofen" := "ibuprofen",
    "augmentin" := "amoxicillin",
    "mox" := "amoxicillin",
    "zithromax" := "azithromycin",
    "azee" := "azithromycin",
    "norvasc" := "amlodipine",
    "stamlo" := "amlodipine",
    "glucophage" := "metformin",
    "glycomet" := "metformin",
    "prilosec" := "omeprazole",
    "omez" := "omeprazole",
    "zyrtec" := "cetirizine",
    "cetzine" := "cetirizine",
    "ecosprin" := "aspirin",
    "disprin" := "aspirin",
    "coumadin" := "warfarin",
    "cipro" := "ciprofloxacin",
    "ciplox" := "ciprofloxacin",
    "voveran" := "diclofenac",
    "voltaren" := "diclofenac"
  ]

  /** `p.replace(".", "").replace(suffix, "").isdigit()`: the token is a number followed
      or interleaved only with the unit and decimal points. */
  predicate IsDoseToken(p: string, suffix: string) {
    IsDigits(Replace(Replace(p, ".", ""), suffix, ""))
  }

  /** The tokens that are not doses for `suffix`, in their order. */
  function KeepNonDose(parts: seq<string>, suffix: string): (r: seq<string>)
    ensures forall t :: t in r <==> t in parts && !IsDoseToken(t, suffix)
    ensures AllTokens(parts) ==> AllTokens(r)
    ensures |r| <= |parts|
  {
    if parts == [] then []
    else (if IsDoseToken(parts[0], suffix) then [] else [parts[0]]) + KeepNonDose(parts[1..], suffix)
  }

  /** One pass of the suffix loop: split, drop the dose tokens, join with single spaces. */
  function DropDoses(clean: string, suffix: string): string {
    Join(" ", KeepNonDose(Split(clean), suffix))
  }

  /** The passes for the given suffixes, in order. */
  function DropAll(clean: string, sfx: seq<string>): string
    decreases |sfx|
  {
    if sfx == [] then clean else DropDoses(DropAll(clean, sfx[..|sfx| - 1]), sfx[|sfx| - 1])
  }

  /** The name after lower-casing, stripping and dose removal. */
  function Cleaned(name: string): string {
    Strip(DropAll(Strip(Lower(name)), Suffixes))
  }

  /** `normalization_drug_name`: the cleaned name, or what it stands for when it is a brand. */
  function Normalize(name: string): string {
    var c := Cleaned(name);
    if c in DrugAliases then DrugAliases[c] else c
  }

  /** The suffix loop of the normaliser. */
  method DropEachSuffix(start: string, sfx: seq<string>) returns (clean: string)
    ensures clean == DropAll(start, sfx)
  {
    clean := start;
    for k := 0 to |sfx|
      invariant clean == DropAll(start, sfx[..k])
    {
      var parts := Split(clean);
      assert sfx[..k + 1][..k] == sfx[..k];
      clean := Join(" ", KeepNonDose(parts, sfx[k]));
    }
    assert sfx[..|sfx|] == sfx;
  }

  method NormalizeDrugName(name: string) returns (r: string)
    ensures r == Normalize(name)
  {
    var start := Strip(Lower(name));
    var clean := DropEachSuffix(start, Suffixes);
    clean := Strip(clean);
    r := if clean in DrugAliases then DrugAliases[clean] else clean;
  }

  /** Splitting the result of a pass gives back exactly the tokens it kept. */
  lemma SplitDropDoses(clean: string, suffix: string)
    ensures Split(DropDoses(clean, suffix)) == KeepNonDose(Split(clean), suffix)
  {
    SplitJoin(KeepNonDose(Split(clean), suffix));
  }

  lemma ConcatAssoc<T>(x: seq<T>, y: seq<T>, z: seq<T>)
    ensures x + (y + z) == (x + y) + z
  {
  }

  /** One pass keeps order and multiplicity: it filters each token on its own. */
  lemma {:induction false} KeepNonDoseAppend(a: seq<string>, b: seq<string>, suffix: string)
    ensures KeepNonDose(a + b, suffix) == KeepNonDose(a, suffix) + KeepNonDose(b, suffix)
  {
    if a == [] {
      assert a + b == b;
    } else {
      var h := if IsDoseToken(a[0], suffix) then [] else [a[0]];
      assert (a + b)[0] == a[0] && (a + b)[1..] == a[1..] + b;
      assert KeepNonDose(a + b, suffix) == h + KeepNonDose(a[1..] + b, suffix);
      KeepNonDoseAppend(a[1..], b, suffix);
      var ka, kb := KeepNonDose(a[1..], suffix), KeepNonDose(b, suffix);
      assert KeepNonDose(a, suffix) == h + ka;
      ConcatAssoc(h, ka, kb);
    }
  }

  /** `t` is a dose for none of the units `sfx`. */
  predicate NoDose(t: string, sfx: seq<string>) {
    forall k :: 0 <= k < |sfx| ==> !IsDoseToken(t, sfx[k])
  }

  /** Reference for the whole suffix loop as a single filter: the tokens that are a dose
      for none of the units, in their order and with their repetitions. */
  function DoseFree(parts: seq<string>, sfx: seq<string>): (r: seq<string>)
    ensures forall t :: t in r <==> t in parts && NoDose(t, sfx)
  {
    if parts == [] then []
    else (if NoDose(parts[0], sfx) then [parts[0]] else []) + DoseFree(parts[1..], sfx)
  }

  /** With no units, nothing is filtered. */
  lemma {:induction false} DoseFreeNone(parts: seq<string>)
    ensures DoseFree(parts, []) == parts
  {
    if parts != [] {
      DoseFreeNone(parts[1..]);
      assert parts == [parts[0]] + parts[1..];
    }
  }

  /** One more pass over the reference filter's output is the reference filter with one
      more unit. */
  lemma {:induction false} DoseFreeSnoc(parts: seq<string>, init: seq<string>, last: string)
    ensures KeepNonDose(DoseFree(parts, init), last) == DoseFree(parts, init + [last])
  {
    if parts != [] {
      var p := parts[0];
      var sfx := init + [last];
      assert NoDose(p, sfx) <==> NoDose(p, init) && !IsDoseToken(p, last) by {
        assert forall k :: 0 <= k < |init| ==> sfx[k] == init[k];
        assert sfx[|init|] == last;
      }
      DoseFreeSnoc(parts[1..], init, last);
      var rest := DoseFree(parts[1..], init);
      if NoDose(p, init) {
        assert ([p] + rest)[0] == p && ([p] + rest)[1..] == rest;
      } else {
        assert [] + rest == rest;
      }
    }
  }

  /** The passes together keep exactly the tokens that are a dose for none of the units,
      in order: `split()` of the result is the reference filter of `split()` of the input. */
  lemma {:induction false} DropAllDoseFree(clean: string, sfx: seq<string>)
    ensures Split(DropAll(clean, sfx)) == DoseFree(Split(clean), sfx)
    decreases |sfx|
  {
    if sfx == [] {
      DoseFreeNone(Split(clean));
    } else {
      var init := sfx[..|sfx| - 1];
      var last := sfx[|sfx| - 1];
      assert init + [last] == sfx;
      DoseFreeSnoc(Split(clean), init, last);
      DropAllDoseFree(clean, init);
      SplitDropDoses(DropAll(clean, init), last);
    }
  }

  /** After one or more passes the name is its surviving tokens joined by single spaces:
      exactly the tokens of the stripped name that are a dose for none of the suffixes,
      in their order. */
  lemma {:induction false} DropAllTokens(clean: string, sfx: seq<string>)
    requires sfx != []
    ensures DropAll(clean, sfx) == Join(" ", Split(DropAll(clean, sfx)))
    ensures Split(DropAll(clean, sfx)) == DoseFree(Split(clean), sfx)
    ensures forall t :: t in Split(DropAll(clean, sfx)) <==> t in Split(clean) && NoDose(t, sfx)
  {
    var init := sfx[..|sfx| - 1];
    var prev := DropAll(clean, init);
    var last := sfx[|sfx| - 1];
    SplitDropDoses(prev, last);
    DropAllDoseFree(clean, sfx);
  }

  /** The final `strip()` never changes anything: the joined tokens neither start nor end
      with white space. */
  lemma FinalStripRedundant(name: string)
    ensures Cleaned(name) == DropAll(Strip(Lower(name)), Suffixes)
  {
    var d := DropAll(Strip(Lower(name)), Suffixes);
    DropAllTokens(Strip(Lower(name)), Suffixes);
    JoinTokensEnds(Split(d));
    StripNoop(d);
  }

  /** The cleaned name is the words of the lower-cased, stripped name that are a dose in
      no unit, in their order, joined by single spaces. */
  lemma CleanedWords(name: string)
    ensures Split(Cleaned(name)) == DoseFree(Split(Strip(Lower(name))), Suffixes)
    ensures Cleaned(name) == Join(" ", DoseFree(Split(Strip(Lower(name))), Suffixes))
    ensures forall t :: t in Split(Cleaned(name)) <==> t in Split(Strip(Lower(name))) && NoDose(t, Suffixes)
  {
    FinalStripRedundant(name);
    DropAllTokens(Strip(Lower(name)), Suffixes);
  }

  /** The passes run front to back: the first suffix's pass, then the others. */
  lemma {:induction false} DropAllFront(x: string, s: string, rest: seq<string>)
    ensures DropAll(x, [s] + rest) == DropAll(DropDoses(x, s), rest)
    decreases |rest|
  {
    var all := [s] + rest;
    if rest == [] {
      assert all[..0] == [];
    } else {
      var init := rest[..|rest| - 1];
      assert all[..|all| - 1] == [s] + init;
      assert all[|all| - 1] == rest[|rest| - 1];
      DropAllFront(x, s, init);
    }
  }

  /** A single word is one token to `split()`. */
  lemma SplitWord(w: string)
    requires IsToken(w)
    ensures Split(w) == [w]
  {
    assert AllTokens([w]);
    SplitJoin([w]);
  }

  /** A word that is a dose for none of the suffixes survives every pass. */
  lemma {:induction false} DropAllKeeps(w: string, sfx: seq<string>)
    requires IsToken(w)
    requires forall k :: 0 <= k < |sfx| ==> !IsDoseToken(w, sfx[k])
    ensures DropAll(w, sfx) == w
    decreases |sfx|
  {
    if sfx != [] {
      DropAllKeeps(w, sfx[..|sfx| - 1]);
      SplitWord(w);
      assert KeepNonDose([w], sfx[|sfx| - 1]) == [w];
    }
  }

  /** A character that neither a decimal point nor any unit can delete, and that is not
      a digit: a word holding one is never a dose. */
  predicate Marks(c: char) {
    !('0' <= c <= '9') && c !in ".mglc"
  }

  lemma MarkedNotDose(w: string, c: char, suffix: string)
    requires c in w && Marks(c) && suffix != [] && c !in suffix
    ensures !IsDoseToken(w, suffix)
  {
    ReplaceKeeps(w, ".", c);
    ReplaceKeeps(Replace(w, ".", ""), suffix, c);
  }

  /** Digits followed by "mg" lose the unit to `replace("mg", "")`. */
  lemma {:induction false} DropMilligrams(d: string)
    requires forall i :: 0 <= i < |d| ==> '0' <= d[i] <= '9'
    ensures Replace(d + "mg", "mg", "") == d
    decreases |d|
  {
    if d == [] {
      assert d + "mg" == "mg";
      assert !IsPrefix("mg", "");
    } else {
      var t := d + "mg";
      assert !IsPrefix("mg", t) by { assert t[..2][0] == d[0]; }
      assert t[1..] == d[1..] + "mg";
      DropMilligrams(d[1..]);
      assert d == [d[0]] + d[1..];
    }
  }

  /** A number of milligrams such as "500mg" is a dose for "mg". */
  lemma MilligramsDose(n: nat)
    ensures IsDoseToken(NatToString(n) + "mg", "mg")
  {
    var d := NatToString(n);
    AbsentChar(d + "mg", '.');
    ReplaceAbsent(d + "mg", ".", "");
    DropMilligrams(d);
  }

  /** No unit holds a marking character. */
  lemma MarkNotInUnits(c: char)
    requires Marks(c)
    ensures forall k :: 0 <= k < |Suffixes| ==> Suffixes[k] != [] && c !in Suffixes[k]
  {
    forall k | 0 <= k < |Suffixes| ensures Suffixes[k] != [] && c !in Suffixes[k] {
      if k == 0 {
        assert Suffixes[k] == "mg";
      } else if k == 1 {
        assert Suffixes[k] == "ml";
      } else if k == 2 {
        assert Suffixes[k] == "mcg";
      } else if k == 3 {
        assert Suffixes[k] == "gm";
      } else {
        assert Suffixes[k] == "g";
      }
    }
  }

  /** A word that holds a marking character is no dose for any suffix. */
  lemma MarkedSurvives(w: string, c: char)
    requires c in w && Marks(c)
    ensures forall k :: 0 <= k < |Suffixes| ==> !IsDoseToken(w, Suffixes[k])
  {
    MarkNotInUnits(c);
    forall k | 0 <= k < |Suffixes| ensures !IsDoseToken(w, Suffixes[k]) {
      MarkedNotDose(w, c, Suffixes[k]);
    }
  }

  /** The first pass drops the dose after the word and keeps the word. */
  lemma FirstPassDropsDose(w: string, c: char, n: nat)
    requires IsToken(w) && c in w && Marks(c)
    ensures DropDoses(w + " " + NatToString(n) + "mg", "mg") == w
  {
    var dose := NatToString(n) + "mg";
    var name := w + " " + NatToString(n) + "mg";
    assert name == w + " " + dose;
    assert IsToken(dose);
    assert AllTokens([w, dose]);
    assert Join(" ", [w, dose]) == name;
    SplitJoin([w, dose]);
    MarkedNotDose(w, c, "mg");
    MilligramsDose(n);
    assert KeepNonDose([w, dose], "mg") == [w];
    assert Join(" ", [w]) == w;
  }

  /** The passes leave a word followed by a dose in milligrams as the word alone. */
  lemma PassesDropDose(w: string, c: char, n: nat)
    requires IsToken(w) && c in w && Marks(c)
    ensures DropAll(w + " " + NatToString(n) + "mg", Suffixes) == w
  {
    var rest := Suffixes[1..];
    assert Suffixes == ["mg"] + rest;
    DropAllFront(w + " " + NatToString(n) + "mg", "mg", rest);
    FirstPassDropsDose(w, c, n);
    MarkedSurvives(w, c);
    forall k | 0 <= k < |rest| ensures !IsDoseToken(w, rest[k]) {
      assert rest[k] == Suffixes[k + 1];
    }
    DropAllKeeps(w, rest);
  }

  lemma NoUpperWithDose(w: string, d: string)
    requires forall i :: 0 <= i < |w| ==> !('A' <= w[i] <= 'Z')
    requires IsDigits(d)
    ensures var name := w + " " + d + "mg";
            forall i :: 0 <= i < |name| ==> !('A' <= name[i] <= 'Z')
  {
    var name := w + " " + d + "mg";
    forall i | 0 <= i < |name| ensures !('A' <= name[i] <= 'Z') {
      if i < |w| {
        assert name[i] == w[i];
      } else if i > |w| && i < |w| + 1 + |d| {
        assert name[i] == d[i - |w| - 1];
      }
    }
  }

  /** Lower-casing and stripping leave a lower-case word with a dose as it is. */
  lemma WithDoseUnchanged(w: string, n: nat)
    requires IsToken(w)
    requires forall i :: 0 <= i < |w| ==> !('A' <= w[i] <= 'Z')
    ensures Strip(Lower(w + " " + NatToString(n) + "mg")) == w + " " + NatToString(n) + "mg"
  {
    var name := w + " " + NatToString(n) + "mg";
    NoUpperWithDose(w, NatToString(n));
    LowerNoUpper(name);
    assert name[0] == w[0] && name[|name| - 1] == 'g';
    StripNoop(name);
  }

  /** A lower-case word followed by a dose in milligrams cleans to the word alone. */
  lemma WordWithDoseCleaned(w: string, c: char, n: nat)
    requires IsToken(w) && c in w && Marks(c)
    requires forall i :: 0 <= i < |w| ==> !('A' <= w[i] <= 'Z')
    ensures Cleaned(w + " " + NatToString(n) + "mg") == w
  {
    WithDoseUnchanged(w, n);
    PassesDropDose(w, c, n);
    StripNoop(w);
  }

  /** A brand name followed by a dose in milligrams normalises to the drug the brand stands
      for: the dose is dropped by the first pass, the brand survives every pass. */
  lemma BrandWithDose(brand: string, c: char, n: nat)
    requires brand in DrugAliases && IsToken(brand)
    requires forall i :: 0 <= i < |brand| ==> !('A' <= brand[i] <= 'Z')
    requires c in brand && Marks(c)
    ensures Normalize(brand + " " + NatToString(n) + "mg") == DrugAliases[brand]
  {
    WordWithDoseCleaned(brand, c, n);
  }

  lemma CrocinAlias()
    ensures "crocin" in DrugAliases && DrugAliases["crocin"] == "paracetamol"
  {
  }

  lemma CrocinMarked()
    ensures IsToken("crocin") && 'r' in "crocin" && Marks('r')
    ensures forall i :: 0 <= i < |"crocin"| ==> !('A' <= "crocin"[i] <= 'Z')
  {
    assert "crocin"[1] == 'r';
  }

  /** The brand Crocin with its dose is paracetamol. */
  lemma CrocinIsParacetamol()
    ensures Normalize("crocin 500mg") == "paracetamol"
  {
    assert NatToString(500) == "500";
    assert "crocin 500mg" == "crocin" + " " + NatToString(500) + "mg";
    CrocinAlias();
    CrocinMarked();
    BrandWithDose("crocin", 'r', 500);
  }

  /** `[normalization_drug_name(d) for d in drugs]`. */
  function NormalizedAll(drugs: seq<string>): (r: seq<string>)
    ensures |r| == |drugs|
  {
    if drugs == [] then []
    else NormalizedAll(drugs[..|drugs| - 1]) + [Normalize(drugs[|drugs| - 1])]
  }

  /** The normalised list keeps the input order: entry `i` is drug `i` normalised. */
  lemma {:induction false} NormalizedAllAt(drugs: seq<string>, i: int)
    requires 0 <= i < |drugs|
    ensures NormalizedAll(drugs)[i] == Normalize(drugs[i])
  {
    var init := drugs[..|drugs| - 1];
    if i < |drugs| - 1 {
      NormalizedAllAt(init, i);
      assert init[i] == drugs[i];
    }
  }

  lemma NormalizedSnoc(drugs: seq<string>, i: int)
    requires 0 <= i < |drugs|
    ensures NormalizedAll(drugs[..i + 1]) == NormalizedAll(drugs[..i]) + [Normalize(drugs[i])]
  {
    assert drugs[..i + 1][..i] == drugs[..i];
  }

  method NormalizeAll(drugs: seq<string>) returns (normalized: seq<string>)
    ensures normalized == NormalizedAll(drugs)
  {
    normalized := [];
    for i := 0 to |drugs|
      invariant normalized == NormalizedAll(drugs[..i])
    {
      var n := NormalizeDrugName(drugs[i]);
      NormalizedSnoc(drugs, i);
      normalized := normalized + [n];
    }
    assert drugs[..|drugs|] == drugs;
  }

  // ---------------------------------------------------------------- the pairwise matcher

  datatype DbEntry = DbEntry(drug1: string, drug2: string, severity: string, description: string)

  /** The interaction table, in its declaration order. */
  const InteractionsDb: seq<DbEntry> := [
    DbEntry("warfarin", "aspirin", "high",
            "Increased risk of bleeding. Both drugs affect blood clotting."),
    DbEntry("metformin", "alcohol", "high",
            "Risk of lactic acidosis. Avoid alcohol when taking metformin."),
    DbEntry("lisinopril", "potassium", "high",
            "Risk of hyperkalemia. ACE inhibitors increase potassium levels."),
    DbEntry("simvastatin", "erythromycin", "high",
            "Increased risk of rhabdomyolysis (muscle breakdown)."),
    DbEntry("ciprofloxacin", "antacids", "moderate",
            "Antacids reduce absorption of ciprofloxacin. Take 2 hours apart."),
    DbEntry("metformin", "iodinated contrast", "high",
            "Risk of lactic acidosis. Stop metformin 48h before contrast."),
    DbEntry("ssri", "tramadol", "high",
            "Risk of serotonin syndrome. Avoid combination."),
    DbEntry("amlodipine", "simvastatin", "moderate",
            "Amlodipine may increase simvastatin levels. Limit simvastatin to 20mg."),
    DbEntry("omeprazole", "clopidogrel", "high",
            "Omeprazole reduces effectiveness of clopidogrel."),
    DbEntry("ibuprofen", "aspirin", "moderate",
            "Ibuprofen may reduce the cardioprotective effects of aspirin."),
    DbEntry("amoxicillin", "methotrexate", "high",
            "Amoxicillin may increase methotrexate toxicity."),
    DbEntry("fluconazole", "warfarin", "high",
            "Fluconazole increases warfarin effects. Monitor INR closely."),
    DbEntry("paracetamol", "warfarin", "moderate",
            "High doses of paracetamol may enhance warfarin effect."),
    DbEntry("azithromycin", "amiodarone", "high",
            "Risk of QT prolongation and cardiac arrhythmia."),
    DbEntry("cetirizine", "alcohol", "moderate",
            "Enhanced sedation and drowsiness."),
    DbEntry("metformin", "cimetidine", "moderate",
            "Cimetidine increases metformin levels. Monitor blood glucose."),
    DbEntry("amlodipine", "cyclosporine", "moderate",
            "Amlodipine may increase cyclosporine levels."),
    DbEntry("diclofenac", "lithium", "high",
            "NSAIDs increase lithium levels. Risk of lithium toxicity.")
  ]

  datatype Warning = Warning(drug1: string, drug2: string, severity: string, description: string)

  /** The short answer to fewer than two drugs, or the full one. */
  datatype Report =
    | Short(safe: bool, warnings: seq<Warning>, checkedDrugs: seq<string>)
    | Full(safe: bool, warnings: seq<Warning>, checkedDrugs: seq<string>,
           normalizedDrugs: seq<string>, totalFound: nat)

  /** `d in name or name in d or d == name`. */
  predicate SideMatches(tableDrug: string, name: string) {
    Contains(name, tableDrug) || Contains(tableDrug, name) || tableDrug == name
  }

  /** The entry's first drug matches the earlier name and its second the later one. */
  predicate PairMatches(e: DbEntry, earlier: string, later: string) {
    SideMatches(e.drug1, earlier) && SideMatches(e.drug2, later)
  }

  /** The warning for a matched entry: the later requested drug is reported first. */
  function Reported(e: DbEntry, earlierDrug: string, laterDrug: string): Warning {
    Warning(laterDrug, earlierDrug, e.severity, e.description)
  }

  predicate Pairing(drugs: seq<string>, norm: seq<string>, i: int, j: int) {
    |drugs| == |norm| && 0 <= i < j < |norm|
  }

  /** Entry `k` of the table fires for the pair `i < j` and yields warning `w`. */
  predicate WarnedFor(w: Warning, table: seq<DbEntry>, drugs: seq<string>, norm: seq<string>,
                      i: int, j: int, k: int) {
    Pairing(drugs, norm, i, j) && 0 <= k < |table| &&
    PairMatches(table[k], norm[i], norm[j]) && w == Reported(table[k], drugs[i], drugs[j])
  }

  /** The innermost loop: the warnings of entries `0 .. kEnd - 1` for the pair `i < j`. */
  function EntryWarnings(table: seq<DbEntry>, drugs: seq<string>, norm: seq<string>,
                         i: int, j: int, kEnd: int): seq<Warning>
    requires Pairing(drugs, norm, i, j) && 0 <= kEnd <= |table|
    decreases kEnd
  {
    if kEnd == 0 then []
    else EntryWarnings(table, drugs, norm, i, j, kEnd - 1) +
         (if PairMatches(table[kEnd - 1], norm[i], norm[j])
          then [Reported(table[kEnd - 1], drugs[i], drugs[j])] else [])
  }

  /** The middle loop: the pairs `(i, j)` with `i < j < jEnd`. */
  function RowWarnings(table: seq<DbEntry>, drugs: seq<string>, norm: seq<string>,
                       i: int, jEnd: int): seq<Warning>
    requires |drugs| == |norm| && 0 <= i < jEnd <= |norm|
    decreases jEnd
  {
    if jEnd == i + 1 then []
    else RowWarnings(table, drugs, norm, i, jEnd - 1) + EntryWarnings(table, drugs, norm, i, jEnd - 1, |table|)
  }

  /** The outer loop: every pair whose first index is below `iEnd`. */
  function PairWarnings(table: seq<DbEntry>, drugs: seq<string>, norm: seq<string>, iEnd: int): seq<Warning>
    requires |drugs| == |norm| && 0 <= iEnd <= |norm|
    decreases iEnd
  {
    if iEnd == 0 then []
    else PairWarnings(table, drugs, norm, iEnd - 1) + RowWarnings(table, drugs, norm, iEnd - 1, |norm|)
  }

  /** The handler's answer against an interaction table (the service uses `InteractionsDb`),
      with the warnings built from the matched entry. */
  function Check(table: seq<DbEntry>, drugs: seq<string>): (r: Report)
    ensures |drugs| < 2 ==> r == Short(true, [], drugs)
    ensures |drugs| >= 2 ==>
              r.Full? && r.checkedDrugs == drugs &&
              r.normalizedDrugs == NormalizedAll(drugs) &&
              (r.safe <==> r.warnings == []) && r.totalFound == |r.warnings|
  {
    if |drugs| < 2 then Short(true, [], drugs)
    else
      var norm := NormalizedAll(drugs);
      var w := PairWarnings(table, drugs, norm, |norm|);
      Full(|w| == 0, w, drugs, norm, |w|)
  }

  /** The innermost loop: the table scanned for one pair. */
  method ScanEntries(table: seq<DbEntry>, drugs: seq<string>, norm: seq<string>, i: int, j: int)
    returns (found: seq<Warning>)
    requires Pairing(drugs, norm, i, j)
    ensures found == EntryWarnings(table, drugs, norm, i, j, |table|)
  {
    found := [];
    for k := 0 to |table|
      invariant found == EntryWarnings(table, drugs, norm, i, j, k)
    {
      if PairMatches(table[k], norm[i], norm[j]) {
        found := found + [Reported(table[k], drugs[i], drugs[j])];
      }
    }
  }

  /** The middle loop: every later drug paired with drug `i`. */
  method ScanRow(table: seq<DbEntry>, drugs: seq<string>, norm: seq<string>, i: int)
    returns (found: seq<Warning>)
    requires |drugs| == |norm| && 0 <= i < |norm|
    ensures found == RowWarnings(table, drugs, norm, i, |norm|)
  {
    found := [];
    for j := i + 1 to |norm|
      invariant found == RowWarnings(table, drugs, norm, i, j)
    {
      var more := ScanEntries(table, drugs, norm, i, j);
      found := found + more;
    }
  }

  /** The outer loop: every pair `i < j`, in the order the handler visits them. */
  method ScanPairs(table: seq<DbEntry>, drugs: seq<string>, norm: seq<string>) returns (warnings: seq<Warning>)
    requires |drugs| == |norm|
    ensures warnings == PairWarnings(table, drugs, norm, |norm|)
  {
    warnings := [];
    for i := 0 to |norm|
      invariant warnings == PairWarnings(table, drugs, norm, i)
    {
      var row := ScanRow(table, drugs, norm, i);
      warnings := warnings + row;
    }
  }

  /** The handler as its author evidently meant it. */
  method CheckInteractions(drugs: seq<string>) returns (r: Report)
    ensures r == Check(InteractionsDb, drugs)
  {
    if |drugs| < 2 {
      return Short(true, [], drugs);
    }
    var normalized := NormalizeAll(drugs);
    var warnings := ScanPairs(InteractionsDb, drugs, normalized);
    r := Full(|warnings| == 0, warnings, drugs, normalized, |warnings|);
  }

  // ---------------------------------------------------------------- what the matcher reports

  lemma {:induction false} EntryWarningsIff(table: seq<DbEntry>, drugs: seq<string>, norm: seq<string>,
                                            i: int, j: int, kEnd: int, w: Warning)
    requires Pairing(drugs, norm, i, j) && 0 <= kEnd <= |table|
    ensures w in EntryWarnings(table, drugs, norm, i, j, kEnd) <==>
            exists k :: 0 <= k < kEnd && WarnedFor(w, table, drugs, norm, i, j, k)
    decreases kEnd
  {
    if kEnd > 0 {
      EntryWarningsIff(table, drugs, norm, i, j, kEnd - 1, w);
      if WarnedFor(w, table, drugs, norm, i, j, kEnd - 1) {
        assert w in EntryWarnings(table, drugs, norm, i, j, kEnd);
      }
    }
  }

  lemma {:induction false} RowWarningsIff(table: seq<DbEntry>, drugs: seq<string>, norm: seq<string>,
                                          i: int, jEnd: int, w: Warning)
    requires |drugs| == |norm| && 0 <= i < jEnd <= |norm|
    ensures w in RowWarnings(table, drugs, norm, i, jEnd) <==>
            exists j, k :: j < jEnd && WarnedFor(w, table, drugs, norm, i, j, k)
    decreases jEnd
  {
    if jEnd > i + 1 {
      var j := jEnd - 1;
      RowWarningsIff(table, drugs, norm, i, j, w);
      EntryWarningsIff(table, drugs, norm, i, j, |table|, w);
      if exists j', k :: j' < jEnd && WarnedFor(w, table, drugs, norm, i, j', k) {
        var j', k :| j' < jEnd && WarnedFor(w, table, drugs, norm, i, j', k);
        if j' == j {
          assert w in EntryWarnings(table, drugs, norm, i, j, |table|);
        } else {
          assert w in RowWarnings(table, drugs, norm, i, j);
        }
      }
    }
  }

  lemma {:induction false} PairWarningsIff(table: seq<DbEntry>, drugs: seq<string>, norm: seq<string>,
                                           iEnd: int, w: Warning)
    requires |drugs| == |norm| && 0 <= iEnd <= |norm|
    ensures w in PairWarnings(table, drugs, norm, iEnd) <==>
            exists i, j, k :: i < iEnd && WarnedFor(w, table, drugs, norm, i, j, k)
    decreases iEnd
  {
    if iEnd > 0 {
      var i := iEnd - 1;
      var before := PairWarnings(table, drugs, norm, i);
      var row := RowWarnings(table, drugs, norm, i, |norm|);
      assert PairWarnings(table, drugs, norm, iEnd) == before + row;
      PairWarningsIff(table, drugs, norm, i, w);
      RowWarningsIff(table, drugs, norm, i, |norm|, w);
      if exists i', j, k :: i' < iEnd && WarnedFor(w, table, drugs, norm, i', j, k) {
        var i', j, k :| i' < iEnd && WarnedFor(w, table, drugs, norm, i', j, k);
        if i' == i {
          assert w in row;
        } else {
          assert w in before;
        }
      }
    }
  }

  lemma AllPairsIff(table: seq<DbEntry>, drugs: seq<string>, norm: seq<string>, w: Warning)
    requires |drugs| == |norm|
    ensures w in PairWarnings(table, drugs, norm, |norm|) <==>
            exists i, j, k :: WarnedFor(w, table, drugs, norm, i, j, k)
  {
    PairWarningsIff(table, drugs, norm, |norm|, w);
  }

  lemma CheckScansAllPairs(table: seq<DbEntry>, drugs: seq<string>)
    requires |drugs| >= 2
    ensures Check(table, drugs).warnings == PairWarnings(table, drugs, NormalizedAll(drugs), |drugs|)
  {
  }

  /** A warning is reported exactly when some table entry matches the normalised names of
      a pair `i < j`, the first drug of the entry on the earlier name and the second on
      the later one; the warning then names the later requested drug first and carries
      that entry's severity and description. */
  lemma CheckWarnings(table: seq<DbEntry>, drugs: seq<string>, w: Warning)
    requires |drugs| >= 2
    ensures w in Check(table, drugs).warnings <==>
            exists i, j, k :: WarnedFor(w, table, drugs, NormalizedAll(drugs), i, j, k)
  {
    CheckScansAllPairs(table, drugs);
    AllPairsIff(table, drugs, NormalizedAll(drugs), w);
  }

  /** How many entries of the table match the names `a` (first drug) and `b` (second). */
  function Hits(table: seq<DbEntry>, a: string, b: string): nat {
    if table == [] then 0
    else (if PairMatches(table[0], a, b) then 1 else 0) + Hits(table[1..], a, b)
  }

  /** Matching entries summed over the later drugs `j` with `i < j < jEnd`. */
  function LaterHits(table: seq<DbEntry>, norm: seq<string>, i: int, jEnd: int): nat
    requires 0 <= i < jEnd <= |norm|
    decreases jEnd
  {
    if jEnd == i + 1 then 0 else LaterHits(table, norm, i, jEnd - 1) + Hits(table, norm[i], norm[jEnd - 1])
  }

  /** Matching (pair, entry) triples over the pairs whose earlier drug is below `iEnd`. */
  function AllHits(table: seq<DbEntry>, norm: seq<string>, iEnd: int): nat
    requires 0 <= iEnd <= |norm|
    decreases iEnd
  {
    if iEnd == 0 then 0 else AllHits(table, norm, iEnd - 1) + LaterHits(table, norm, iEnd - 1, |norm|)
  }

  /** `Hits` counted from the back of the table. */
  lemma {:induction false} HitsSnoc(table: seq<DbEntry>, a: string, b: string)
    requires table != []
    ensures Hits(table, a, b) ==
            Hits(table[..|table| - 1], a, b) + (if PairMatches(table[|table| - 1], a, b) then 1 else 0)
  {
    if |table| > 1 {
      assert table[1..][..|table[1..]| - 1] == table[..|table| - 1][1..];
      HitsSnoc(table[1..], a, b);
    }
  }

  /** The innermost loop adds one warning for each matching entry. */
  lemma {:induction false} EntryWarningsCount(table: seq<DbEntry>, drugs: seq<string>, norm: seq<string>,
                                              i: int, j: int, kEnd: int)
    requires Pairing(drugs, norm, i, j) && 0 <= kEnd <= |table|
    ensures |EntryWarnings(table, drugs, norm, i, j, kEnd)| == Hits(table[..kEnd], norm[i], norm[j])
    decreases kEnd
  {
    if kEnd > 0 {
      EntryWarningsCount(table, drugs, norm, i, j, kEnd - 1);
      HitsSnoc(table[..kEnd], norm[i], norm[j]);
      assert table[..kEnd][..kEnd - 1] == table[..kEnd - 1];
    }
  }

  lemma {:induction false} RowWarningsCount(table: seq<DbEntry>, drugs: seq<string>, norm: seq<string>,
                                            i: int, jEnd: int)
    requires |drugs| == |norm| && 0 <= i < jEnd <= |norm|
    ensures |RowWarnings(table, drugs, norm, i, jEnd)| == LaterHits(table, norm, i, jEnd)
    decreases jEnd
  {
    if jEnd > i + 1 {
      var before := RowWarnings(table, drugs, norm, i, jEnd - 1);
      var entries := EntryWarnings(table, drugs, norm, i, jEnd - 1, |table|);
      assert RowWarnings(table, drugs, norm, i, jEnd) == before + entries;
      RowWarningsCount(table, drugs, norm, i, jEnd - 1);
      EntryWarningsCount(table, drugs, norm, i, jEnd - 1, |table|);
      assert table[..|table|] == table;
    }
  }

  lemma {:induction false} PairWarningsCount(table: seq<DbEntry>, drugs: seq<string>, norm: seq<string>,
                                             iEnd: int)
    requires |drugs| == |norm| && 0 <= iEnd <= |norm|
    ensures |PairWarnings(table, drugs, norm, iEnd)| == AllHits(table, norm, iEnd)
    decreases iEnd
  {
    if iEnd > 0 {
      var before := PairWarnings(table, drugs, norm, iEnd - 1);
      var row := RowWarnings(table, drugs, norm, iEnd - 1, |norm|);
      assert PairWarnings(table, drugs, norm, iEnd) == before + row;
      PairWarningsCount(table, drugs, norm, iEnd - 1);
      RowWarningsCount(table, drugs, norm, iEnd - 1, |norm|);
    }
  }

  /** The handler reports one warning per matching (pair, entry) triple, so two pairs that
      yield the same warning are both counted, and `total_interactions_found` is that
      number. */
  lemma CheckWarningCount(table: seq<DbEntry>, drugs: seq<string>)
    requires |drugs| >= 2
    ensures |Check(table, drugs).warnings| == AllHits(table, NormalizedAll(drugs), |drugs|)
    ensures Check(table, drugs).totalFound == AllHits(table, NormalizedAll(drugs), |drugs|)
  {
    CheckScansAllPairs(table, drugs);
    PairWarningsCount(table, drugs, NormalizedAll(drugs), |drugs|);
  }

  /** A pair whose normalised names match every entry gets one warning per entry. */
  lemma {:induction false} EntryWarningsAll(table: seq<DbEntry>, drugs: seq<string>, norm: seq<string>,
                                            i: int, j: int, kEnd: int)
    requires Pairing(drugs, norm, i, j) && 0 <= kEnd <= |table|
    requires forall k :: 0 <= k < |table| ==> PairMatches(table[k], norm[i], norm[j])
    ensures |EntryWarnings(table, drugs, norm, i, j, kEnd)| == kEnd
    decreases kEnd
  {
    if kEnd > 0 {
      EntryWarningsAll(table, drugs, norm, i, j, kEnd - 1);
    }
  }

  lemma {:induction false} RowHoldsEntry(table: seq<DbEntry>, drugs: seq<string>, norm: seq<string>,
                                         i: int, j: int, jEnd: int)
    requires Pairing(drugs, norm, i, j) && j < jEnd <= |norm|
    ensures |RowWarnings(table, drugs, norm, i, jEnd)| >= |EntryWarnings(table, drugs, norm, i, j, |table|)|
    decreases jEnd
  {
    if j < jEnd - 1 {
      RowHoldsEntry(table, drugs, norm, i, j, jEnd - 1);
    }
  }

  lemma {:induction false} PairsHoldRow(table: seq<DbEntry>, drugs: seq<string>, norm: seq<string>,
                                        i: int, iEnd: int)
    requires |drugs| == |norm| && 0 <= i < iEnd <= |norm|
    ensures |PairWarnings(table, drugs, norm, iEnd)| >= |RowWarnings(table, drugs, norm, i, |norm|)|
    decreases iEnd
  {
    if i < iEnd - 1 {
      PairsHoldRow(table, drugs, norm, i, iEnd - 1);
    }
  }

  /** Two names that normalise to nothing (bare doses such as "500mg", or blanks) match
      every table entry, since the empty string is in every string: the answer is unsafe
      with at least one warning per entry. */
  lemma EmptyNamesMatchEverything(table: seq<DbEntry>, drugs: seq<string>, i: int, j: int)
    requires 0 <= i < j < |drugs|
    requires Normalize(drugs[i]) == [] && Normalize(drugs[j]) == []
    ensures |Check(table, drugs).warnings| >= |table|
    ensures table != [] ==> !Check(table, drugs).safe
  {
    var norm := NormalizedAll(drugs);
    NormalizedAllAt(drugs, i);
    NormalizedAllAt(drugs, j);
    forall k | 0 <= k < |table| ensures PairMatches(table[k], norm[i], norm[j]) {
      EmptyInEverything(table[k].drug1);
      EmptyInEverything(table[k].drug2);
    }
    EntryWarningsAll(table, drugs, norm, i, j, |table|);
    RowHoldsEntry(table, drugs, norm, i, j, |norm|);
    PairsHoldRow(table, drugs, norm, i, |norm|);
    CheckScansAllPairs(table, drugs);
  }

  lemma {:induction false} DropAllEmpty(sfx: seq<string>)
    ensures DropAll("", sfx) == ""
    decreases |sfx|
  {
    if sfx != [] {
      DropAllEmpty(sfx[..|sfx| - 1]);
      assert Split("") == [];
    }
  }

  lemma BlankCleaned()
    ensures Cleaned("") == ""
  {
    assert Lower("") == "";
    assert Strip("") == "";
    DropAllEmpty(Suffixes);
  }

  lemma NoBlankAlias()
    ensures "" !in DrugAliases
  {
  }

  /** A blank name normalises to the empty string. */
  lemma BlankNormalizesToEmpty()
    ensures Normalize("") == ""
  {
    BlankCleaned();
    NoBlankAlias();
  }

  // ---------------------------------------------------------------- the handler as written

  /** The exceptions the handler can raise. */
  datatype PyError = NameError

  /** Some entry of the table matches some pair `i < j` of normalised names. */
  predicate AnyMatch(table: seq<DbEntry>, norm: seq<string>) {
    exists i, j, k :: 0 <= i < j < |norm| && 0 <= k < |table| && PairMatches(table[k], norm[i], norm[j])
  }

  /** The handler as it is written: the matching branch reads its severity and description
      from `interaction`, a name bound nowhere (the loop variable is `interactions`), so the
      first match raises `NameError`; without any match the answer is the full report with
      no warnings. */
  function CheckAsWritten(table: seq<DbEntry>, drugs: seq<string>): (r: Result<Report, PyError>)
    ensures r.Failure? <==> |drugs| >= 2 && AnyMatch(table, NormalizedAll(drugs))
  {
    if |drugs| < 2 then Success(Short(true, [], drugs))
    else
      var norm := NormalizedAll(drugs);
      if AnyMatch(table, norm) then Failure(NameError)
      else Success(Full(true, [], drugs, norm, 0))
  }

  /** The handler as written fails on exactly the requests the corrected one reports as
      unsafe, and agrees with it on all others. */
  lemma AsWrittenFailsWhenUnsafe(table: seq<DbEntry>, drugs: seq<string>)
    ensures CheckAsWritten(table, drugs).Failure? <==> !Check(table, drugs).safe
    ensures CheckAsWritten(table, drugs).Success? ==> CheckAsWritten(table, drugs).value == Check(table, drugs)
  {
    if |drugs| >= 2 {
      var norm := NormalizedAll(drugs);
      CheckScansAllPairs(table, drugs);
      var warnings := PairWarnings(table, drugs, norm, |norm|);
      if AnyMatch(table, norm) {
        var i, j, k :| 0 <= i < j < |norm| && 0 <= k < |table| && PairMatches(table[k], norm[i], norm[j]);
        var w := Reported(table[k], drugs[i], drugs[j]);
        assert WarnedFor(w, table, drugs, norm, i, j, k);
        AllPairsIff(table, drugs, norm, w);
      } else if warnings != [] {
        var w := warnings[0];
        AllPairsIff(table, drugs, norm, w);
        assert false;
      }
    }
  }

  /** Two names that normalise to nothing make the handler as written raise. */
  lemma EmptyPairRaises(table: seq<DbEntry>, drugs: seq<string>, i: int, j: int)
    requires table != [] && 0 <= i < j < |drugs|
    requires Normalize(drugs[i]) == [] && Normalize(drugs[j]) == []
    ensures CheckAsWritten(table, drugs) == Failure(NameError)
  {
    EmptyNamesMatchEverything(table, drugs, i, j);
    AsWrittenFailsWhenUnsafe(table, drugs);
  }

  /** The request `["", ""]` already makes the handler as written raise. */
  lemma BlankPairRaises()
    ensures CheckAsWritten(InteractionsDb, ["", ""]) == Failure(NameError)
  {
    BlankNormalizesToEmpty();
    EmptyPairRaises(InteractionsDb, ["", ""], 0, 1);
  }
}
