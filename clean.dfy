/**
 * The offline augmentation script: per-state pollution reasons and
 * per-parameter solutions, kept as static lists and rendered as one
 * `'; '`-separated string, and the columns it adds to the loaded table.
 */
module Clean {
  import opened Text
  import Series

  const Separator := "; "

  /** The value used for a key the tables do not know. */
  const Unknown := "Unknown"

  // The reasons of each state (clean.py keeps them as one dict literal).
  const MaharashtraReasons: seq<string> := ["Industrial discharge", "Agricultural runoff", "Urban waste", "Improper sewage treatment"]
  const AndhraPradeshReasons: seq<string> := ["Industrial waste", "Agricultural chemicals", "Sewage discharge", "Sand mining"]
  const UttarPradeshReasons: seq<string> := ["Industrial effluents", "Domestic sewage", "Agricultural runoff", "Religious rituals and festivals"]
  const BiharReasons: seq<string> := ["Sewage discharge", "Industrial pollution", "Agricultural runoff", "Inadequate waste management"]
  const WestBengalReasons: seq<string> := ["Industrial waste", "Agricultural chemicals", "Urban runoff", "Deforestation"]
  const AssamReasons: seq<string> := ["Oil spills", "Tea industry effluents", "Deforestation", "Urban waste"]
  const KarnatakaReasons: seq<string> := ["Industrial waste", "Urban runoff", "Agricultural chemicals", "Sewage discharge"]
  const HimachalPradeshReasons: seq<string> := ["Hydropower projects", "Deforestation", "Urban runoff", "Industrial waste"]
  const KeralaReasons: seq<string> := ["Agricultural runoff", "Industrial waste", "Sewage discharge", "Urban runoff"]
  const TamilnaduReasons: seq<string> := ["Industrial effluents", "Agricultural chemicals", "Urban waste", "Sewage discharge"]
  const MadhyaPradeshReasons: seq<string> := ["Agricultural runoff", "Industrial waste", "Urban waste", "Sewage discharge"]
  const RajasthanReasons: seq<string> := ["Industrial effluents", "Agricultural runoff", "Urban waste", "Desertification"]
  const PunjabReasons: seq<string> := ["Agricultural chemicals", "Industrial waste", "Sewage discharge", "Urban runoff"]
  const GoaReasons: seq<string> := ["Mining waste", "Tourism-related waste", "Industrial discharge", "Urban runoff"]
  const GujaratReasons: seq<string> := ["Industrial effluents", "Agricultural chemicals", "Urban runoff", "Sewage discharge"]

  const PollutionReasons: map<string, seq<string>> := map[
    "MAHARASHTRA" := MaharashtraReasons,
    "ANDHRA PRADESH" := AndhraPradeshReasons,
    "UTTAR PRADESH" := UttarPradeshReasons,
    "BIHAR" := BiharReasons,
    "WEST BENGAL" := WestBengalReasons,
    "ASSAM" := AssamReasons,
    "KARNATAKA" := KarnatakaReasons,
    "HIMACHAL PRADESH" := HimachalPradeshReasons,
    "KERALA" := KeralaReasons,
    "TAMILNADU" := TamilnaduReasons,
    "MADHYA PRADESH" := MadhyaPradeshReasons,
    "RAJASTHAN" := RajasthanReasons,
    "PUNJAB" := PunjabReasons,
    "GOA" := GoaReasons,
    "GUJARAT" := GujaratReasons
  ]

  // The solutions of each parameter (clean.py keeps them as one dict literal).
  const TempSolutions: seq<string> := [
    "Planting trees along water bodies to provide shade and reduce water temperature",
    "Creating artificial lakes and wetlands to absorb heat",
    "Regulating industrial discharge temperatures",
    "Implementing cooling systems in industrial plants"]
  const DoSolutions: seq<string> := [
    "Installing aeration devices in water bodies to increase oxygen levels",
    "Reducing organic waste input by improving waste management practices",
    "Controlling algae growth through chemical or biological means",
    "Restoring river flow regimes to improve oxygenation"]
  const PhSolutions: seq<string> := [
    "Neutralizing acidic or basic water with appropriate chemicals",
    "Regulating industrial discharges to maintain pH balance",
    "Planting vegetation to reduce soil erosion and buffer pH changes",
    "Using limestone to neutralize acidic waters"]
  const ConductivitySolutions: seq<string> := [
    "Reducing the use of salts and chemicals in agriculture",
    "Implementing better wastewater treatment processes",
    "Controlling industrial discharges of salts and chemicals",
    "Monitoring and managing urban runoff"]
  const BodSolutions: seq<string> := [
    "Improving wastewater treatment facilities to reduce organic load",
    "Reducing industrial effluents through better treatment processes",
    "Promoting organic farming practices to reduce chemical runoff",
    "Encouraging community waste management initiatives"]
  const NitrateNNitriteNSolutions: seq<string> := [
    "Implementing buffer strips along water bodies to absorb nitrates",
    "Reducing the use of nitrogen-based fertilizers in agriculture",
    "Improving sewage treatment to reduce nitrate discharges",
    "Promoting organic farming practices"]
  const FecalColiformSolutions: seq<string> := [
    "Improving sanitation and sewage treatment facilities",
    "Promoting the use of toilets and proper waste disposal methods",
    "Implementing disinfection processes in water treatment",
    "Conducting public awareness campaigns on hygiene practices"]
  const TotalColiformSolutions: seq<string> := [
    "Upgrading sewage treatment plants to reduce coliform levels",
    "Implementing chlorination and other disinfection methods in water supply",
    "Ensuring proper waste disposal and reducing open defecation",
    "Monitoring and managing agricultural runoff"]

  const PollutionSolutions: map<string, seq<string>> := map[
    "TEMP" := TempSolutions,
    "DO" := DoSolutions,
    "pH" := PhSolutions,
    "CONDUCTIVITY" := ConductivitySolutions,
    "BOD" := BodSolutions,
    "NITRATE_N_NITRITE_N" := NitrateNNitriteNSolutions,
    "FECAL_COLIFORM" := FecalColiformSolutions,
    "TOTAL_COLIFORM" := TotalColiformSolutions
  ]

  /** `table.get(key, ['Unknown'])`. */
  function Lookup(table: map<string, seq<string>>, key: string): (r: seq<string>)
    ensures key in table ==> r == table[key]
    ensures key !in table ==> r == [Unknown]
  {
    if key in table then table[key] else [Unknown]
  }

  /** The reasons of a state as one string; `Unknown` for a state without an entry. */
  function GetPollutionReasons(state: string): (r: string)
    ensures state !in PollutionReasons ==> r == Unknown
  {
    Join(Lookup(PollutionReasons, state), Separator)
  }

  /** The solutions of a parameter as one string; `Unknown` for a parameter without an entry. */
  function GetPollutionSolutions(parameter: string): (r: string)
    ensures parameter !in PollutionSolutions ==> r == Unknown
  {
    Join(Lookup(PollutionSolutions, parameter), Separator)
  }

  /** A list with more than one entry, none of which holds a `;`. */
  predicate CleanList(l: seq<string>) {
    |l| > 1 && forall j :: 0 <= j < |l| ==> ';' !in l[j]
  }

  /** Every list of a table is clean. */
  predicate WellFormedTable(table: map<string, seq<string>>) {
    forall key :: key in table ==> CleanList(table[key])
  }

  /** Each reasons list of a state is clean. */
  lemma MaharashtraReasonsClean()
    ensures CleanList(MaharashtraReasons)
  {
  }

  lemma AndhraPradeshReasonsClean()
    ensures CleanList(AndhraPradeshReasons)
  {
  }

  lemma UttarPradeshReasonsClean()
    ensures CleanList(UttarPradeshReasons)
  {
  }

  lemma BiharReasonsClean()
    ensures CleanList(BiharReasons)
  {
  }

  lemma WestBengalReasonsClean()
    ensures CleanList(WestBengalReasons)
  {
  }

  lemma AssamReasonsClean()
    ensures CleanList(AssamReasons)
  {
  }

  lemma KarnatakaReasonsClean()
    ensures CleanList(KarnatakaReasons)
  {
  }

  lemma HimachalPradeshReasonsClean()
    ensures CleanList(HimachalPradeshReasons)
  {
  }

  lemma KeralaReasonsClean()
    ensures CleanList(KeralaReasons)
  {
  }

  lemma TamilnaduReasonsClean()
    ensures CleanList(TamilnaduReasons)
  {
  }

  lemma MadhyaPradeshReasonsClean()
    ensures CleanList(MadhyaPradeshReasons)
  {
  }

  lemma RajasthanReasonsClean()
    ensures CleanList(RajasthanReasons)
  {
  }

  lemma PunjabReasonsClean()
    ensures CleanList(PunjabReasons)
  {
  }

  lemma GoaReasonsClean()
    ensures CleanList(GoaReasons)
  {
  }

  lemma GujaratReasonsClean()
    ensures CleanList(GujaratReasons)
  {
  }

  /**
   * Each solutions list of a parameter is clean. The solver cannot unfold a
   * long literal in one go: each entry is checked on its own, and the assert
   * on its leading part walks the solver through the first half.
   */
  lemma TempSolutionsClean0()
    ensures ';' !in TempSolutions[0]
  {
    assert ';' !in "Planting trees along water bodies to pro";
  }

  lemma TempSolutionsClean1()
    ensures ';' !in TempSolutions[1]
  {
    assert ';' !in "Creating artificial lakes and wetlands t";
  }

  lemma TempSolutionsClean2()
    ensures ';' !in TempSolutions[2]
  {
    assert ';' !in "Regulating industrial discharge temperat";
  }

  lemma TempSolutionsClean3()
    ensures ';' !in TempSolutions[3]
  {
    assert ';' !in "Implementing cooling systems in industri";
  }

  lemma TempSolutionsClean()
    ensures CleanList(TempSolutions)
  {
    TempSolutionsClean0();
    TempSolutionsClean1();
    TempSolutionsClean2();
    TempSolutionsClean3();
  }

  lemma DoSolutionsClean0()
    ensures ';' !in DoSolutions[0]
  {
    assert ';' !in "Installing aeration devices in water bod";
  }

  lemma DoSolutionsClean1()
    ensures ';' !in DoSolutions[1]
  {
    assert ';' !in "Reducing organic waste input by improvin";
  }

  lemma DoSolutionsClean2()
    ensures ';' !in DoSolutions[2]
  {
    assert ';' !in "Controlling algae growth through chemica";
  }

  lemma DoSolutionsClean3()
    ensures ';' !in DoSolutions[3]
  {
    assert ';' !in "Restoring river flow regimes to improve ";
  }

  lemma DoSolutionsClean()
    ensures CleanList(DoSolutions)
  {
    DoSolutionsClean0();
    DoSolutionsClean1();
    DoSolutionsClean2();
    DoSolutionsClean3();
  }

  lemma PhSolutionsClean0()
    ensures ';' !in PhSolutions[0]
  {
    assert ';' !in "Neutralizing acidic or basic water with ";
  }

  lemma PhSolutionsClean1()
    ensures ';' !in PhSolutions[1]
  {
    assert ';' !in "Regulating industrial discharges to main";
  }

  lemma PhSolutionsClean2()
    ensures ';' !in PhSolutions[2]
  {
    assert ';' !in "Planting vegetation to reduce soil erosi";
  }

  lemma PhSolutionsClean3()
    ensures ';' !in PhSolutions[3]
  {
    assert ';' !in "Using limestone to neutralize acidic wat";
  }

  lemma PhSolutionsClean()
    ensures CleanList(PhSolutions)
  {
    PhSolutionsClean0();
    PhSolutionsClean1();
    PhSolutionsClean2();
    PhSolutionsClean3();
  }

  lemma ConductivitySolutionsClean0()
    ensures ';' !in ConductivitySolutions[0]
  {
    assert ';' !in "Reducing the use of salts and chemicals ";
  }

  lemma ConductivitySolutionsClean1()
    ensures ';' !in ConductivitySolutions[1]
  {
    assert ';' !in "Implementing better wastewater treatment";
  }

  lemma ConductivitySolutionsClean2()
    ensures ';' !in ConductivitySolutions[2]
  {
    assert ';' !in "Controlling industrial discharges of sal";
  }

  lemma ConductivitySolutionsClean3()
    ensures ';' !in ConductivitySolutions[3]
  {
  }

  lemma ConductivitySolutionsClean()
    ensures CleanList(ConductivitySolutions)
  {
    ConductivitySolutionsClean0();
    ConductivitySolutionsClean1();
    ConductivitySolutionsClean2();
    ConductivitySolutionsClean3();
  }

  lemma BodSolutionsClean0()
    ensures ';' !in BodSolutions[0]
  {
    assert ';' !in "Improving wastewater treatment facilitie";
  }

  lemma BodSolutionsClean1()
    ensures ';' !in BodSolutions[1]
  {
    assert ';' !in "Reducing industrial effluents through be";
  }

  lemma BodSolutionsClean2()
    ensures ';' !in BodSolutions[2]
  {
    assert ';' !in "Promoting organic farming practices to r";
  }

  lemma BodSolutionsClean3()
    ensures ';' !in BodSolutions[3]
  {
    assert ';' !in "Encouraging community waste management i";
  }

  lemma BodSolutionsClean()
    ensures CleanList(BodSolutions)
  {
    BodSolutionsClean0();
    BodSolutionsClean1();
    BodSolutionsClean2();
    BodSolutionsClean3();
  }

  lemma NitrateNNitriteNSolutionsClean0()
    ensures ';' !in NitrateNNitriteNSolutions[0]
  {
    assert ';' !in "Implementing buffer strips along water b";
  }

  lemma NitrateNNitriteNSolutionsClean1()
    ensures ';' !in NitrateNNitriteNSolutions[1]
  {
    assert ';' !in "Reducing the use of nitrogen-based ferti";
  }

  lemma NitrateNNitriteNSolutionsClean2()
    ensures ';' !in NitrateNNitriteNSolutions[2]
  {
    assert ';' !in "Improving sewage treatment to reduce nit";
  }

  lemma NitrateNNitriteNSolutionsClean3()
    ensures ';' !in NitrateNNitriteNSolutions[3]
  {
  }

  lemma NitrateNNitriteNSolutionsClean()
    ensures CleanList(NitrateNNitriteNSolutions)
  {
    NitrateNNitriteNSolutionsClean0();
    NitrateNNitriteNSolutionsClean1();
    NitrateNNitriteNSolutionsClean2();
    NitrateNNitriteNSolutionsClean3();
  }

  lemma FecalColiformSolutionsClean0()
    ensures ';' !in FecalColiformSolutions[0]
  {
    assert ';' !in "Improving sanitation and sewage treatmen";
  }

  lemma FecalColiformSolutionsClean1()
    ensures ';' !in FecalColiformSolutions[1]
  {
    assert ';' !in "Promoting the use of toilets and proper ";
  }

  lemma FecalColiformSolutionsClean2()
    ensures ';' !in FecalColiformSolutions[2]
  {
    assert ';' !in "Implementing disinfection processes in w";
  }

  lemma FecalColiformSolutionsClean3()
    ensures ';' !in FecalColiformSolutions[3]
  {
    assert ';' !in "Conducting public awareness campaigns on";
  }

  lemma FecalColiformSolutionsClean()
    ensures CleanList(FecalColiformSolutions)
  {
    FecalColiformSolutionsClean0();
    FecalColiformSolutionsClean1();
    FecalColiformSolutionsClean2();
    FecalColiformSolutionsClean3();
  }

  lemma TotalColiformSolutionsClean0()
    ensures ';' !in TotalColiformSolutions[0]
  {
    assert ';' !in "Upgrading sewage treatment plants to red";
  }

  lemma TotalColiformSolutionsClean1()
    ensures ';' !in TotalColiformSolutions[1]
  {
    assert ';' !in "Implementing chlorination and other disi";
  }

  lemma TotalColiformSolutionsClean2()
    ensures ';' !in TotalColiformSolutions[2]
  {
    assert ';' !in "Ensuring proper waste disposal and reduc";
  }

  lemma TotalColiformSolutionsClean3()
    ensures ';' !in TotalColiformSolutions[3]
  {
    assert ';' !in "Monitoring and managing agricultural run";
  }

  lemma TotalColiformSolutionsClean()
    ensures CleanList(TotalColiformSolutions)
  {
    TotalColiformSolutionsClean0();
    TotalColiformSolutionsClean1();
    TotalColiformSolutionsClean2();
    TotalColiformSolutionsClean3();
  }

  lemma ReasonsTableWellFormed()
    ensures WellFormedTable(PollutionReasons)
  {
    MaharashtraReasonsClean();
    AndhraPradeshReasonsClean();
    UttarPradeshReasonsClean();
    BiharReasonsClean();
    WestBengalReasonsClean();
    AssamReasonsClean();
    KarnatakaReasonsClean();
    HimachalPradeshReasonsClean();
    KeralaReasonsClean();
    TamilnaduReasonsClean();
    MadhyaPradeshReasonsClean();
    RajasthanReasonsClean();
    PunjabReasonsClean();
    GoaReasonsClean();
    GujaratReasonsClean();
  }

  lemma SolutionsTableWellFormed()
    ensures WellFormedTable(PollutionSolutions)
  {
    TempSolutionsClean();
    DoSolutionsClean();
    PhSolutionsClean();
    ConductivitySolutionsClean();
    BodSolutionsClean();
    NitrateNNitriteNSolutionsClean();
    FecalColiformSolutionsClean();
    TotalColiformSolutionsClean();
  }

  /**
   * Splitting the string of any key on `'; '` gives back the list it was joined
   * from: the table's list for a known key, `['Unknown']` otherwise.
   */
  lemma LookupRoundTrip(table: map<string, seq<string>>, key: string)
    requires WellFormedTable(table)
    ensures Split(Join(Lookup(table, key), Separator), Separator) == Lookup(table, key)
  {
    var parts := Lookup(table, key);
    assert BorderFree(Separator) by {
      assert Separator[..1] == ";" && Separator[1..] == " ";
    }
    forall k | 0 <= k < |parts|
      ensures Free(parts[k], Separator)
    {
      FreeOfFirstChar(parts[k], Separator);
    }
    SplitJoin(parts, Separator);
  }

  lemma ReasonsRoundTrip(state: string)
    ensures Split(GetPollutionReasons(state), Separator) ==
      if state in PollutionReasons then PollutionReasons[state] else [Unknown]
  {
    ReasonsTableWellFormed();
    LookupRoundTrip(PollutionReasons, state);
  }

  lemma SolutionsRoundTrip(parameter: string)
    ensures Split(GetPollutionSolutions(parameter), Separator) ==
      if parameter in PollutionSolutions then PollutionSolutions[parameter] else [Unknown]
  {
    SolutionsTableWellFormed();
    LookupRoundTrip(PollutionSolutions, parameter);
  }

  /** The default string splits back into the default list. */
  lemma UnknownRoundTrip()
    ensures Split(Unknown, Separator) == [Unknown]
  {
    FreeOfFirstChar(Unknown, Separator);
    assert BorderFree(Separator) by {
      assert Separator[..1] == ";" && Separator[1..] == " ";
    }
    SplitJoin([Unknown], Separator);
  }

  /** With a clean table, the default string comes back for exactly the keys that have no entry. */
  lemma LookupUnknownExactlyWhenMissing(table: map<string, seq<string>>, key: string)
    requires WellFormedTable(table)
    ensures Join(Lookup(table, key), Separator) == Unknown <==> key !in table
  {
    if key in table && Join(Lookup(table, key), Separator) == Unknown {
      LookupRoundTrip(table, key);
      UnknownRoundTrip();
    }
  }

  lemma ReasonsUnknownExactlyWhenMissing(state: string)
    ensures GetPollutionReasons(state) == Unknown <==> state !in PollutionReasons
  {
    ReasonsTableWellFormed();
    LookupUnknownExactlyWhenMissing(PollutionReasons, state);
  }

  lemma SolutionsUnknownExactlyWhenMissing(parameter: string)
    ensures GetPollutionSolutions(parameter) == Unknown <==> parameter !in PollutionSolutions
  {
    SolutionsTableWellFormed();
    LookupUnknownExactlyWhenMissing(PollutionSolutions, parameter);
  }

  /** The lookup compares keys exactly: `pH` has solutions, `PH` does not. */
  lemma SolutionsKeyIsCaseSensitive()
    ensures "pH" in PollutionSolutions && "PH" !in PollutionSolutions
    ensures GetPollutionSolutions("PH") == Unknown
  {
  }

  // ---------------------------------------------------------------------------
  // The columns added to the table
  // ---------------------------------------------------------------------------

  /** A cell as read from the file: blank, a number, or text. */
  datatype Cell = Blank | Num(value: real) | Str(text: string)

  /** One row of the file, by column name. */
  type Record = map<string, Cell>

  const StateHeader := "STATE"
  const ReasonsHeader := "Pollution_Reasons"

  /** The eight parameters that get a solutions column, in the order the columns are added. */
  const SolutionParameters: seq<string> :=
    ["TEMP", "DO", "pH", "CONDUCTIVITY", "BOD", "NITRATE_N_NITRITE_N", "FECAL_COLIFORM", "TOTAL_COLIFORM"]

  /** Their column names, in the same order. */
  const SolutionHeaders: seq<string> := [
    "TEMP_Solutions", "DO_Solutions", "pH_Solutions", "CONDUCTIVITY_Solutions", "BOD_Solutions",
    "NITRATE_N_NITRITE_N_Solutions", "FECAL_COLIFORM_Solutions", "TOTAL_COLIFORM_Solutions"]

  /** The columns the script adds, in the order it adds them. */
  const AddedHeaders: seq<string> := [ReasonsHeader] + SolutionHeaders

  /** Each of the eight parameters has a solutions entry, and its text splits back into that list. */
  lemma SolutionParametersKnown()
    ensures forall k :: 0 <= k < |SolutionParameters| ==>
      SolutionParameters[k] in PollutionSolutions &&
      Split(GetPollutionSolutions(SolutionParameters[k]), Separator) == PollutionSolutions[SolutionParameters[k]]
  {
    forall k | 0 <= k < |SolutionParameters|
      ensures SolutionParameters[k] in PollutionSolutions &&
        Split(GetPollutionSolutions(SolutionParameters[k]), Separator) == PollutionSolutions[SolutionParameters[k]]
    {
      SolutionsRoundTrip(SolutionParameters[k]);
    }
  }

  /**
   * The solutions text of each of the eight parameters, in order: each is
   * its parameter's list in table order, never the default.
   */
  function SolutionTexts(): (t: seq<string>)
    ensures |t| == |SolutionParameters|
    ensures forall k :: 0 <= k < |SolutionParameters| ==> t[k] == GetPollutionSolutions(SolutionParameters[k])
    ensures forall k :: 0 <= k < |SolutionParameters| ==>
      SolutionParameters[k] in PollutionSolutions && Split(t[k], Separator) == PollutionSolutions[SolutionParameters[k]]
  {
    SolutionParametersKnown();
    seq(|SolutionParameters|, k requires 0 <= k < |SolutionParameters| => GetPollutionSolutions(SolutionParameters[k]))
  }

  /** The reasons for the STATE cell of a row: a text cell is looked up, any other cell is no key of the table. */
  function ReasonsFor(cell: Cell): (r: string)
    ensures cell.Str? ==> r == GetPollutionReasons(cell.text)
    ensures !cell.Str? ==> r == Unknown
  {
    match cell
    case Str(s) => GetPollutionReasons(s)
    case _ => Unknown
  }

  /** `data[name] = ...` on the column order: a new column goes last, an existing one stays where it is. */
  function AddColumn(columns: seq<string>, name: string): (r: seq<string>)
    ensures columns <= r && |r| <= |columns| + 1
    ensures forall c :: c in r <==> c in columns || c == name
  {
    if name in columns then columns else columns + [name]
  }

  /** The columns `names` added, in order, to `columns`. */
  function AppendNew(columns: seq<string>, names: seq<string>): (r: seq<string>)
    ensures columns <= r && |r| <= |columns| + |names|
    decreases names
  {
    if names == [] then columns
    else AppendNew(AddColumn(columns, names[0]), names[1..])
  }

  /**
   * Adding columns one by one keeps the old ones in front, in their order,
   * ends with exactly the old and the new names, and never duplicates one.
   */
  lemma {:induction false} AppendNewColumns(columns: seq<string>, names: seq<string>)
    ensures columns <= AppendNew(columns, names)
    ensures forall c :: c in AppendNew(columns, names) <==> c in columns || c in names
    ensures Series.Distinct(columns) ==> Series.Distinct(AppendNew(columns, names))
    decreases names
  {
    if names != [] {
      AppendNewColumns(AddColumn(columns, names[0]), names[1..]);
      assert names == [names[0]] + names[1..];
    }
  }

  /** Eight columns added one at a time are the eight added as a block. */
  lemma AppendNewEight(columns: seq<string>, names: seq<string>)
    requires |names| == 8
    ensures AddColumn(AddColumn(AddColumn(AddColumn(AddColumn(AddColumn(AddColumn(AddColumn(columns, names[0]), names[1]), names[2]), names[3]), names[4]), names[5]), names[6]), names[7]) ==
      AppendNew(columns, names)
  {
    var c1, r1 := AddColumn(columns, names[0]), names[1..];
    assert AppendNew(columns, names) == AppendNew(c1, r1);
    var c2, r2 := AddColumn(c1, r1[0]), r1[1..];
    assert AppendNew(c1, r1) == AppendNew(c2, r2);
    var c3, r3 := AddColumn(c2, r2[0]), r2[1..];
    assert AppendNew(c2, r2) == AppendNew(c3, r3);
    var c4, r4 := AddColumn(c3, r3[0]), r3[1..];
    assert AppendNew(c3, r3) == AppendNew(c4, r4);
    var c5, r5 := AddColumn(c4, r4[0]), r4[1..];
    assert AppendNew(c4, r4) == AppendNew(c5, r5);
    var c6, r6 := AddColumn(c5, r5[0]), r5[1..];
    assert AppendNew(c5, r5) == AppendNew(c6, r6);
    var c7, r7 := AddColumn(c6, r6[0]), r6[1..];
    assert AppendNew(c6, r6) == AppendNew(c7, r7);
    var c8, r8 := AddColumn(c7, r7[0]), r7[1..];
    assert AppendNew(c7, r7) == AppendNew(c8, r8);
  }

  /** The cells `names[k]` of a row set, in order, to the texts `texts[k]`; every other cell as it was. */
  function SetCells(r: Record, names: seq<string>, texts: seq<string>): (a: Record)
    requires |texts| == |names|
    ensures a.Keys == r.Keys + set h | h in names
    ensures forall h :: h in r && h !in names ==> a[h] == r[h]
    ensures Series.Distinct(names) ==> forall k :: 0 <= k < |names| ==> a[names[k]] == Str(texts[k])
    decreases names
  {
    if names == [] then r
    else SetCells(r[names[0] := Str(texts[0])], names[1..], texts[1..])
  }

  /** Four cells written one at a time, then the rest of the block. */
  lemma SetCellsFour(r: Record, names: seq<string>, texts: seq<string>)
    requires |names| >= 4 && |texts| == |names|
    ensures SetCells(r[names[0] := Str(texts[0])][names[1] := Str(texts[1])][names[2] := Str(texts[2])][names[3] := Str(texts[3])], names[4..], texts[4..]) ==
      SetCells(r, names, texts)
  {
    var a1, n1, t1 := r[names[0] := Str(texts[0])], names[1..], texts[1..];
    assert SetCells(r, names, texts) == SetCells(a1, n1, t1);
    var a2, n2, t2 := a1[n1[0] := Str(t1[0])], n1[1..], t1[1..];
    assert SetCells(a1, n1, t1) == SetCells(a2, n2, t2);
    var a3, n3, t3 := a2[n2[0] := Str(t2[0])], n2[1..], t2[1..];
    assert SetCells(a2, n2, t2) == SetCells(a3, n3, t3);
    var a4, n4, t4 := a3[n3[0] := Str(t3[0])], n3[1..], t3[1..];
    assert SetCells(a3, n3, t3) == SetCells(a4, n4, t4);
    assert n4 == names[4..] && t4 == texts[4..];
  }

  /** Eight cells written one at a time are the eight written as a block. */
  lemma SetCellsEight(r: Record, names: seq<string>, texts: seq<string>)
    requires |names| == 8 && |texts| == 8
    ensures r[names[0] := Str(texts[0])][names[1] := Str(texts[1])][names[2] := Str(texts[2])][names[3] := Str(texts[3])][names[4] := Str(texts[4])][names[5] := Str(texts[5])][names[6] := Str(texts[6])][names[7] := Str(texts[7])] ==
      SetCells(r, names, texts)
  {
    var r4 := r[names[0] := Str(texts[0])][names[1] := Str(texts[1])][names[2] := Str(texts[2])][names[3] := Str(texts[3])];
    SetCellsFour(r, names, texts);
    SetCellsFour(r4, names[4..], texts[4..]);
  }

  /** The added column names are all different. */
  lemma AddedHeadersDistinct()
    ensures Series.Distinct(SolutionHeaders) && ReasonsHeader !in SolutionHeaders
  {
  }

  /** One cell written, then a block of distinct cells not including it. */
  lemma SetCellsAfter(r: Record, name: string, text: string, names: seq<string>, texts: seq<string>)
    requires |texts| == |names| && Series.Distinct(names) && name !in names
    ensures SetCells(r[name := Str(text)], names, texts).Keys == r.Keys + {name} + set h | h in names
    ensures SetCells(r[name := Str(text)], names, texts)[name] == Str(text)
    ensures forall k :: 0 <= k < |names| ==> SetCells(r[name := Str(text)], names, texts)[names[k]] == Str(texts[k])
    ensures forall h :: h in r && h != name && h !in names ==> SetCells(r[name := Str(text)], names, texts)[h] == r[h]
  {
  }

  /**
   * A row after the whole script: its reasons cell and the eight solutions
   * cells written, every other cell as it was.
   */
  function AugmentRecord(r: Record): (a: Record)
    requires StateHeader in r
    ensures a.Keys == r.Keys + {ReasonsHeader} + set h | h in SolutionHeaders
    ensures a[ReasonsHeader] == Str(ReasonsFor(r[StateHeader]))
    ensures forall k :: 0 <= k < |SolutionParameters| ==>
      a[SolutionHeaders[k]] == Str(GetPollutionSolutions(SolutionParameters[k]))
    ensures forall h :: h in r && h != ReasonsHeader && h !in SolutionHeaders ==> a[h] == r[h]
  {
    AddedHeadersDistinct();
    SetCellsAfter(r, ReasonsHeader, ReasonsFor(r[StateHeader]), SolutionHeaders, SolutionTexts());
    SetCells(r[ReasonsHeader := Str(ReasonsFor(r[StateHeader]))], SolutionHeaders, SolutionTexts())
  }

  /** Every augmented row carries the same text in a solutions column, whatever its other cells. */
  lemma SolutionColumnsConstant(r1: Record, r2: Record, k: nat)
    requires StateHeader in r1 && StateHeader in r2 && k < |SolutionHeaders|
    ensures AugmentRecord(r1)[SolutionHeaders[k]] == AugmentRecord(r2)[SolutionHeaders[k]]
  {
  }

  /** The table being augmented: its column order and its rows. */
  class Frame {
    var columns: seq<string>
    var rows: seq<Record>

    /** Column names are distinct and every row has a cell for exactly those columns. */
    ghost predicate Valid()
      reads this
    {
      Series.Distinct(columns) &&
      forall i :: 0 <= i < |rows| ==> rows[i].Keys == set c | c in columns
    }

    constructor (columns: seq<string>, rows: seq<Record>)
      requires Series.Distinct(columns)
      requires forall i :: 0 <= i < |rows| ==> rows[i].Keys == set c | c in columns
      ensures Valid() && this.columns == columns && this.rows == rows
    {
      this.columns := columns;
      this.rows := rows;
    }

    /** `data[name] = values`: one value per row; a new column goes last, an existing one is overwritten in place. */
    method Assign(name: string, values: seq<string>)
      requires Valid() && |values| == |rows|
      modifies this
      ensures Valid()
      ensures columns == AddColumn(old(columns), name)
      ensures |rows| == old(|rows|)
      ensures forall i :: 0 <= i < |rows| ==> rows[i] == old(rows[i])[name := Str(values[i])]
    {
      var before := rows;
      if name !in columns {
        columns := columns + [name];
      }
      rows := seq(|before|, i requires 0 <= i < |before| => before[i][name := Str(values[i])]);
    }

    /** `data[name] = text`: the same text in every row. */
    method AssignConstant(name: string, text: string)
      requires Valid()
      modifies this
      ensures Valid()
      ensures columns == AddColumn(old(columns), name)
      ensures |rows| == old(|rows|)
      ensures forall i :: 0 <= i < |rows| ==> rows[i] == old(rows[i])[name := Str(text)]
    {
      Assign(name, seq(|rows|, _ => text));
    }

    /** The reasons column: each row gets the reasons of its own state. */
    method AddPollutionReasons()
      requires Valid() && StateHeader in columns
      modifies this
      ensures Valid()
      ensures columns == AddColumn(old(columns), ReasonsHeader)
      ensures |rows| == old(|rows|)
      ensures forall i :: 0 <= i < |rows| ==>
        StateHeader in old(rows[i]) &&
        rows[i] == old(rows[i])[ReasonsHeader := Str(ReasonsFor(old(rows[i])[StateHeader]))]
    {
      var before := rows;
      assert forall i :: 0 <= i < |before| ==> StateHeader in before[i];
      var reasons := seq(|before|, i requires 0 <= i < |before| => ReasonsFor(before[i][StateHeader]));
      Assign(ReasonsHeader, reasons);
    }

    /** The solutions block: one constant column per parameter, in order. */
    method AddSolutionColumns(texts: seq<string>)
      requires Valid() && |texts| == |SolutionHeaders|
      modifies this
      ensures Valid()
      ensures columns == AppendNew(old(columns), SolutionHeaders)
      ensures |rows| == old(|rows|)
      ensures forall i :: 0 <= i < |rows| ==> rows[i] == SetCells(old(rows[i]), SolutionHeaders, texts)
    {
      ghost var c0 := columns;
      AssignConstant(SolutionHeaders[0], texts[0]);
      AssignConstant(SolutionHeaders[1], texts[1]);
      AssignConstant(SolutionHeaders[2], texts[2]);
      AssignConstant(SolutionHeaders[3], texts[3]);
      AssignConstant(SolutionHeaders[4], texts[4]);
      AssignConstant(SolutionHeaders[5], texts[5]);
      AssignConstant(SolutionHeaders[6], texts[6]);
      AssignConstant(SolutionHeaders[7], texts[7]);
      AppendNewEight(c0, SolutionHeaders);
      forall i | 0 <= i < |rows| ensures rows[i] == SetCells(old(rows[i]), SolutionHeaders, texts) {
        SetCellsEight(old(rows[i]), SolutionHeaders, texts);
      }
    }

    /** The script: the reasons column, then the solutions columns. */
    method Augment()
      requires Valid() && StateHeader in columns
      modifies this
      ensures Valid()
      ensures columns == AppendNew(old(columns), AddedHeaders)
      ensures |rows| == old(|rows|)
      ensures forall i :: 0 <= i < |rows| ==> StateHeader in old(rows[i]) && rows[i] == AugmentRecord(old(rows[i]))
    {
      AddPollutionReasons();
      AddSolutionColumns(SolutionTexts());
      assert AddedHeaders[0] == ReasonsHeader && AddedHeaders[1..] == SolutionHeaders;
    }
  }
}
