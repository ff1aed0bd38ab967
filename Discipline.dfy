/** `detectDiscipline`: the filename classifier that tags an uploaded CAD
    file with an engineering discipline. The chat surfaces carry three
    identical copies of it; this one function stands for all of them. */
module Discipline {
  import opened Text
  import opened Classify

  const HvacKeywords: seq<string> := ["hvac", "heating", "ventilation"]
  const ElectricalKeywords: seq<string> := ["electrical", "power", "lighting"]
  const MechanicalKeywords: seq<string> := ["mechanical", "plumbing", "piping"]
  const StructuralKeywords: seq<string> := ["structural", "foundation", "beam"]

  /** The classifier as an ordered table: HVAC, then Electrical, Mechanical, Structural. */
  const DisciplineTable: seq<Rule> := [
    Rule("HVAC", HvacKeywords),
    Rule("Electrical", ElectricalKeywords),
    Rule("Mechanical", MechanicalKeywords),
    Rule("Structural", StructuralKeywords)
  ]

  const Labels: set<string> := {"HVAC", "Electrical", "Mechanical", "Structural", "General"}

  predicate MentionsHvac(name: string)
  {
    Contains(name, "hvac") || Contains(name, "heating") || Contains(name, "ventilation")
  }

  predicate MentionsElectrical(name: string)
  {
    Contains(name, "electrical") || Contains(name, "power") || Contains(name, "lighting")
  }

  predicate MentionsMechanical(name: string)
  {
    Contains(name, "mechanical") || Contains(name, "plumbing") || Contains(name, "piping")
  }

  predicate MentionsStructural(name: string)
  {
    Contains(name, "structural") || Contains(name, "foundation") || Contains(name, "beam")
  }

  /** The if-chain of the source, on the lower-cased name. */
  function DetectDiscipline(filename: string): (r: string)
    ensures r in Labels
  {
    var name := ToLower(filename);
    if MentionsHvac(name) then "HVAC"
    else if MentionsElectrical(name) then "Electrical"
    else if MentionsMechanical(name) then "Mechanical"
    else if MentionsStructural(name) then "Structural"
    else "General"
  }

  lemma MatchesThree(name: string, a: string, b: string, c: string)
    ensures Matches(name, [a, b, c]) <==> Contains(name, a) || Contains(name, b) || Contains(name, c)
  {
    assert Matches(name, [c]) <==> Contains(name, c) by {
      assert [c][1..] == [];
    }
    assert Matches(name, [b, c]) <==> Contains(name, b) || Matches(name, [c]) by {
      assert [b, c][1..] == [c];
    }
    assert Matches(name, [a, b, c]) <==> Contains(name, a) || Matches(name, [b, c]) by {
      assert [a, b, c][1..] == [b, c];
    }
  }

  function DetectStructural(name: string): string
  {
    if MentionsStructural(name) then "Structural" else "General"
  }

  /** The if-chain is the first-match-wins reading of the table. */
  lemma DetectDisciplineIsFirstMatch(filename: string)
    ensures DetectDiscipline(filename) == FirstMatch(DisciplineTable, ToLower(filename), "General")
  {
    var name := ToLower(filename);
    MatchesThree(name, "hvac", "heating", "ventilation");
    MatchesThree(name, "electrical", "power", "lighting");
    MatchesThree(name, "mechanical", "plumbing", "piping");
    MatchesThree(name, "structural", "foundation", "beam");
    var t := DisciplineTable;
    assert FirstMatch(t[3..], name, "General") == DetectStructural(name) by {
      assert t[3..][1..] == [];
    }
    assert FirstMatch(t[2..], name, "General") == if MentionsMechanical(name) then "Mechanical" else DetectStructural(name) by {
      assert t[2..][1..] == t[3..];
    }
    assert FirstMatch(t[1..], name, "General") == if MentionsElectrical(name) then "Electrical"
      else if MentionsMechanical(name) then "Mechanical" else DetectStructural(name) by {
      assert t[1..][1..] == t[2..];
    }
  }

  /** Upper and lower case are not told apart. */
  lemma DetectDisciplineCaseInsensitive(filename: string)
    ensures DetectDiscipline(filename) == DetectDiscipline(ToLower(filename))
  {
    ToLowerIdempotent(filename);
  }

  /** The first group (in table order) that has a keyword in the name decides the label,
      whatever later groups the name also mentions. */
  lemma DetectDisciplinePriority(filename: string, i: nat)
    requires i < |DisciplineTable|
    requires Matches(ToLower(filename), DisciplineTable[i].keywords)
    requires forall j | 0 <= j < i :: !Matches(ToLower(filename), DisciplineTable[j].keywords)
    ensures DetectDiscipline(filename) == DisciplineTable[i].tag
  {
    DetectDisciplineIsFirstMatch(filename);
    FirstMatchIsFirst(DisciplineTable, ToLower(filename), "General", i);
  }

  /** "General" exactly when none of the twelve keywords occurs in the lower-cased name. */
  lemma DetectDisciplineGeneral(filename: string)
    ensures DetectDiscipline(filename) == "General"
            <==> forall j, k | 0 <= j < |DisciplineTable| && 0 <= k < |DisciplineTable[j].keywords|
                   :: !Contains(ToLower(filename), DisciplineTable[j].keywords[k])
  {
    var name := ToLower(filename);
    DetectDisciplineIsFirstMatch(filename);
    FirstMatchFallbackIff(DisciplineTable, name, "General");
    forall j | 0 <= j < |DisciplineTable| {
      MatchesSome(name, DisciplineTable[j].keywords);
    }
  }

  /** A name none of whose lower-cased characters is one of h, v, c, g, p, b, t
      mentions no keyword: every keyword holds one of those letters. */
  lemma GeneralWhenLacking(filename: string)
    requires forall i | 0 <= i < |filename| :: LowerChar(filename[i]) !in "hvcgpbt"
    ensures DetectDiscipline(filename) == "General"
  {
    var name := ToLower(filename);
    assert 'h' !in name && 'v' !in name && 'c' !in name && 'g' !in name;
    assert 'p' !in name && 'b' !in name && 't' !in name;
    if Contains(name, "hvac") { ContainsHasChars(name, "hvac", 'h'); }
    if Contains(name, "heating") { ContainsHasChars(name, "heating", 'h'); }
    if Contains(name, "ventilation") { ContainsHasChars(name, "ventilation", 'v'); }
    if Contains(name, "electrical") { ContainsHasChars(name, "electrical", 'c'); }
    if Contains(name, "power") { ContainsHasChars(name, "power", 'p'); }
    if Contains(name, "lighting") { ContainsHasChars(name, "lighting", 'g'); }
    if Contains(name, "mechanical") { ContainsHasChars(name, "mechanical", 'c'); }
    if Contains(name, "plumbing") { ContainsHasChars(name, "plumbing", 'p'); }
    if Contains(name, "piping") { ContainsHasChars(name, "piping", 'p'); }
    if Contains(name, "structural") { ContainsHasChars(name, "structural", 't'); }
    if Contains(name, "foundation") { ContainsHasChars(name, "foundation", 't'); }
    if Contains(name, "beam") { ContainsHasChars(name, "beam", 'b'); }
  }

  /** "randomfile.dxf" is tagged General. */
  lemma GeneralExample()
    ensures DetectDiscipline("randomfile.dxf") == "General"
  {
    GeneralWhenLacking("randomfile.dxf");
  }

  /** A name that mentions "hvac" is HVAC even when it also mentions "electrical". */
  lemma HvacMentionWins(filename: string)
    requires Contains(ToLower(filename), "hvac")
    ensures DetectDiscipline(filename) == "HVAC"
  {
  }

  /** "hvac_electrical.dxf" is tagged HVAC. */
  lemma HvacElectricalExample()
    ensures DetectDiscipline("hvac_electrical.dxf") == "HVAC"
  {
    var name := ToLower("hvac_electrical.dxf");
    assert name[..4] == "hvac";
  }

  /** "HVAC_Floor_Plan_L1.dxf" is tagged HVAC. */
  lemma HvacFloorPlanExample()
    ensures DetectDiscipline("HVAC_Floor_Plan_L1.dxf") == "HVAC"
  {
    var name := ToLower("HVAC_Floor_Plan_L1.dxf");
    assert name[..4] == "hvac";
  }

  /** Without a 'v' and a 'g' no HVAC keyword can occur, so a name that starts
      with "electrical" is tagged Electrical. */
  lemma ElectricalWhenNoHvac(filename: string)
    requires forall i | 0 <= i < |filename| :: LowerChar(filename[i]) !in "vg"
    requires StartsWith(ToLower(filename), "electrical")
    ensures DetectDiscipline(filename) == "Electrical"
  {
    var name := ToLower(filename);
    assert 'v' !in name && 'g' !in name;
    if Contains(name, "hvac") { ContainsHasChars(name, "hvac", 'v'); }
    if Contains(name, "heating") { ContainsHasChars(name, "heating", 'g'); }
    if Contains(name, "ventilation") { ContainsHasChars(name, "ventilation", 'v'); }
  }

  /** "Electrical_Schematic_Main.dxf" is tagged Electrical. */
  lemma ElectricalExample()
    ensures DetectDiscipline("Electrical_Schematic_Main.dxf") == "Electrical"
  {
    var name := ToLower("Electrical_Schematic_Main.dxf");
    assert name[..10] == "electrical";
    ElectricalWhenNoHvac("Electrical_Schematic_Main.dxf");
  }
}
