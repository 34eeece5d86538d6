/**
 * The rule-based scorer of `predictJob` in server/server.js: every role of a
 * fixed catalogue starts at 0 and independent rules on the field, the
 * degree, the GPA, the experience and each skill token add points to it.
 */
module Scoring {
  import opened Wrappers
  import opened Text

  /** The role catalogue, constructors in declaration order. */
  datatype Role =
    | SoftwareEngineer
    | DataScientist
    | ProductManager
    | BusinessAnalyst
    | MarketingManager
    | FinancialAnalyst
    | ResearchScientist
    | Consultant

  const CATALOG_SIZE: nat := 8

  const Catalog: seq<Role> := [
    SoftwareEngineer, DataScientist, ProductManager, BusinessAnalyst,
    MarketingManager, FinancialAnalyst, ResearchScientist, Consultant
  ]

  /** Position of a role in the catalogue. */
  function Index(r: Role): (i: nat)
    ensures i < CATALOG_SIZE && Catalog[i] == r
  {
    match r
    case SoftwareEngineer => 0
    case DataScientist => 1
    case ProductManager => 2
    case BusinessAnalyst => 3
    case MarketingManager => 4
    case FinancialAnalyst => 5
    case ResearchScientist => 6
    case Consultant => 7
  }

  /** The key under which the source stores the role's score. */
  function RoleName(r: Role): string {
    match r
    case SoftwareEngineer => "Software Engineer"
    case DataScientist => "Data Scientist"
    case ProductManager => "Product Manager"
    case BusinessAnalyst => "Business Analyst"
    case MarketingManager => "Marketing Manager"
    case FinancialAnalyst => "Financial Analyst"
    case ResearchScientist => "Research Scientist"
    case Consultant => "Consultant"
  }

  /** The catalogue lists every role exactly once. */
  lemma CatalogIsEnumeration()
    ensures |Catalog| == CATALOG_SIZE
    ensures forall i :: 0 <= i < CATALOG_SIZE ==> Index(Catalog[i]) == i
    ensures forall r1: Role, r2: Role :: RoleName(r1) == RoleName(r2) ==> r1 == r2
  {
  }

  /** A `skills` value: absent, an array of tokens, or one comma-separated string. */
  datatype Skills = NoSkills | SkillList(items: seq<string>) | SkillText(text: string)

  /** The request body fields `predictJob` reads; `None` is an absent field. */
  datatype Education = Education(
    degree: Option<string>,
    field: Option<string>,
    gpa: Option<real>,
    experience: Option<real>,
    skills: Skills)

  /**
   * The token list: an array as given; a non-empty string split on ',' and
   * trimmed; nothing for an absent value or the (falsy) empty string.
   */
  function SkillTokens(skills: Skills): seq<string> {
    match skills
    case NoSkills => []
    case SkillList(items) => items
    case SkillText(text) => if text == "" then [] else TrimAll(Split(text, ','))
  }

  // ---------------------------------------------------------------------
  // The rule table
  // ---------------------------------------------------------------------

  predicate ComputingField(lf: string) { Contains(lf, "computer") || Contains(lf, "software") }
  predicate DataField(lf: string) { Contains(lf, "data") || Contains(lf, "statistics") }
  predicate BusinessField(lf: string) { Contains(lf, "business") || Contains(lf, "management") }
  predicate MarketingField(lf: string) { Contains(lf, "marketing") }
  predicate FinanceField(lf: string) { Contains(lf, "finance") || Contains(lf, "economics") }
  predicate ScienceField(lf: string) { Contains(lf, "science") || Contains(lf, "research") }

  function ComputingPoints(lf: string, r: Role): int {
    if ComputingField(lf) then (match r case SoftwareEngineer => 30 case DataScientist => 20 case _ => 0) else 0
  }

  function DataPoints(lf: string, r: Role): int {
    if DataField(lf) then (match r case DataScientist => 30 case BusinessAnalyst => 20 case _ => 0) else 0
  }

  function BusinessPoints(lf: string, r: Role): int {
    if BusinessField(lf) then
      (match r case ProductManager => 30 case BusinessAnalyst => 20 case Consultant => 20 case _ => 0)
    else 0
  }

  function MarketingPoints(lf: string, r: Role): int {
    if MarketingField(lf) && r == MarketingManager then 40 else 0
  }

  function FinancePoints(lf: string, r: Role): int {
    if FinanceField(lf) && r == FinancialAnalyst then 40 else 0
  }

  function SciencePoints(lf: string, r: Role): int {
    if ScienceField(lf) && r == ResearchScientist then 30 else 0
  }

  /** Points from the six field rules, each tested on the lower-cased field. */
  function FieldPoints(field: Option<string>, r: Role): int {
    match field
    case None => 0
    case Some(f) =>
      var lf := Lower(f);
      ComputingPoints(lf, r) + DataPoints(lf, r) + BusinessPoints(lf, r)
      + MarketingPoints(lf, r) + FinancePoints(lf, r) + SciencePoints(lf, r)
  }

  /** Exact, case-sensitive degree bonuses. */
  function DegreePoints(degree: Option<string>, r: Role): int {
    if degree == Some("PhD") then
      (match r case ResearchScientist => 20 case DataScientist => 15 case _ => 0)
    else if degree == Some("Master") then 10
    else 0
  }

  /** GPA bands; an absent GPA compares false in both tests. */
  function GpaPoints(gpa: Option<real>): int {
    match gpa
    case None => 0
    case Some(g) => if g >= 3.5 then 15 else if g >= 3.0 then 10 else 0
  }

  function ExperiencePoints(experience: Option<real>): int {
    if experience.Some? && experience.value > 2.0 then 10 else 0
  }

  predicate CodingSkill(ls: string) { Contains(ls, "programming") || Contains(ls, "coding") }
  predicate DataSkill(ls: string) { Contains(ls, "data") || Contains(ls, "analytics") }
  predicate LeadershipSkill(ls: string) { Contains(ls, "leadership") || Contains(ls, "management") }

  /** Points one skill token adds: each of the three skill rules fires at most once. */
  function TokenPoints(token: string, r: Role): int {
    var ls := Lower(token);
    (if CodingSkill(ls) then (match r case SoftwareEngineer => 10 case DataScientist => 5 case _ => 0) else 0)
    + (if DataSkill(ls) then (match r case DataScientist => 10 case BusinessAnalyst => 5 case _ => 0) else 0)
    + (if LeadershipSkill(ls) then (match r case ProductManager => 10 case Consultant => 5 case _ => 0) else 0)
  }

  /** Points from a token list, accumulated token by token. */
  function SkillPoints(tokens: seq<string>, r: Role): int
    decreases |tokens|
  {
    if |tokens| == 0 then 0
    else SkillPoints(tokens[..|tokens| - 1], r) + TokenPoints(tokens[|tokens| - 1], r)
  }

  /** Everything except the skill rules. */
  function BasePoints(e: Education, r: Role): int {
    FieldPoints(e.field, r) + DegreePoints(e.degree, r) + GpaPoints(e.gpa) + ExperiencePoints(e.experience)
  }

  /** The score of one role: the sum of what every rule adds to it. */
  function Score(e: Education, r: Role): int {
    BasePoints(e, r) + SkillPoints(SkillTokens(e.skills), r)
  }

  /** A table holding a score for every role of the catalogue. */
  ghost predicate Complete(table: map<Role, int>) {
    forall r: Role :: r in table
  }

  /** The score table: every role mapped to the sum of what every rule adds to it. */
  function Scores(e: Education): (table: map<Role, int>)
    ensures Complete(table)
    ensures forall r: Role :: table[r] == Score(e, r)
  {
    assert forall r: Role :: r in Catalog by {
      forall r: Role ensures r in Catalog { assert Catalog[Index(r)] == r; }
    }
    map r | r in Catalog :: Score(e, r)
  }

  // ---------------------------------------------------------------------
  // The imperative scorer
  // ---------------------------------------------------------------------

  /** `Object.keys(predictions).forEach(job => predictions[job] += delta)` */
  method AddToAll(predictions: map<Role, int>, delta: int) returns (updated: map<Role, int>)
    requires Complete(predictions)
    ensures Complete(updated)
    ensures forall r: Role :: updated[r] == predictions[r] + delta
  {
    updated := predictions;
    for k := 0 to CATALOG_SIZE
      invariant Complete(updated)
      invariant forall r: Role :: updated[r] == predictions[r] + (if Index(r) < k then delta else 0)
    {
      var job := Catalog[k];
      updated := updated[job := updated[job] + delta];
    }
  }

  /** The table every call starts from: every role at 0. */
  const ZeroTable: map<Role, int> := map[
    SoftwareEngineer := 0, DataScientist := 0, ProductManager := 0, BusinessAnalyst := 0,
    MarketingManager := 0, FinancialAnalyst := 0, ResearchScientist := 0, Consultant := 0]

  lemma ZeroTableComplete()
    ensures Complete(ZeroTable)
    ensures forall r: Role :: ZeroTable[r] == 0
  {
    forall r: Role
      ensures r in ZeroTable && ZeroTable[r] == 0
    {
      match r
      case SoftwareEngineer =>
      case DataScientist =>
      case ProductManager =>
      case BusinessAnalyst =>
      case MarketingManager =>
      case FinancialAnalyst =>
      case ResearchScientist =>
      case Consultant =>
    }
  }

  /** The six field rules, applied in source order to the lower-cased field. */
  method ApplyFieldRules(predictions: map<Role, int>, field: string) returns (updated: map<Role, int>)
    requires Complete(predictions)
    ensures Complete(updated)
    ensures forall r: Role :: updated[r] == predictions[r] + FieldPoints(Some(field), r)
  {
    var lf := Lower(field);
    var step1 := ApplyComputingRule(predictions, lf);
    var step2 := ApplyDataRule(step1, lf);
    var step3 := ApplyBusinessRule(step2, lf);
    var step4 := ApplyMarketingRule(step3, lf);
    var step5 := ApplyFinanceRule(step4, lf);
    updated := ApplyScienceRule(step5, lf);
  }

  /** "computer" or "software": +30 Software Engineer, +20 Data Scientist. */
  method ApplyComputingRule(predictions: map<Role, int>, lf: string) returns (updated: map<Role, int>)
    requires Complete(predictions)
    ensures Complete(updated)
    ensures forall r: Role :: updated[r] == predictions[r] + ComputingPoints(lf, r)
  {
    updated := predictions;
    if ComputingField(lf) {
      updated := updated[SoftwareEngineer := updated[SoftwareEngineer] + 30];
      updated := updated[DataScientist := updated[DataScientist] + 20];
    }
  }

  /** "data" or "statistics": +30 Data Scientist, +20 Business Analyst. */
  method ApplyDataRule(predictions: map<Role, int>, lf: string) returns (updated: map<Role, int>)
    requires Complete(predictions)
    ensures Complete(updated)
    ensures forall r: Role :: updated[r] == predictions[r] + DataPoints(lf, r)
  {
    updated := predictions;
    if DataField(lf) {
      updated := updated[DataScientist := updated[DataScientist] + 30];
      updated := updated[BusinessAnalyst := updated[BusinessAnalyst] + 20];
    }
  }

  /** "business" or "management": +30 Product Manager, +20 Business Analyst, +20 Consultant. */
  method ApplyBusinessRule(predictions: map<Role, int>, lf: string) returns (updated: map<Role, int>)
    requires Complete(predictions)
    ensures Complete(updated)
    ensures forall r: Role :: updated[r] == predictions[r] + BusinessPoints(lf, r)
  {
    updated := predictions;
    if BusinessField(lf) {
      updated := updated[ProductManager := updated[ProductManager] + 30];
      updated := updated[BusinessAnalyst := updated[BusinessAnalyst] + 20];
      updated := updated[Consultant := updated[Consultant] + 20];
    }
  }

  /** "marketing": +40 Marketing Manager. */
  method ApplyMarketingRule(predictions: map<Role, int>, lf: string) returns (updated: map<Role, int>)
    requires Complete(predictions)
    ensures Complete(updated)
    ensures forall r: Role :: updated[r] == predictions[r] + MarketingPoints(lf, r)
  {
    updated := predictions;
    if MarketingField(lf) {
      updated := updated[MarketingManager := updated[MarketingManager] + 40];
    }
  }

  /** "finance" or "economics": +40 Financial Analyst. */
  method ApplyFinanceRule(predictions: map<Role, int>, lf: string) returns (updated: map<Role, int>)
    requires Complete(predictions)
    ensures Complete(updated)
    ensures forall r: Role :: updated[r] == predictions[r] + FinancePoints(lf, r)
  {
    updated := predictions;
    if FinanceField(lf) {
      updated := updated[FinancialAnalyst := updated[FinancialAnalyst] + 40];
    }
  }

  /** "science" or "research": +30 Research Scientist. */
  method ApplyScienceRule(predictions: map<Role, int>, lf: string) returns (updated: map<Role, int>)
    requires Complete(predictions)
    ensures Complete(updated)
    ensures forall r: Role :: updated[r] == predictions[r] + SciencePoints(lf, r)
  {
    updated := predictions;
    if ScienceField(lf) {
      updated := updated[ResearchScientist := updated[ResearchScientist] + 30];
    }
  }

  /** The degree, GPA and experience rules, applied in source order. */
  method ApplyProfileRules(predictions: map<Role, int>, e: Education) returns (updated: map<Role, int>)
    requires Complete(predictions)
    ensures Complete(updated)
    ensures forall r: Role ::
      updated[r] == predictions[r] + DegreePoints(e.degree, r) + GpaPoints(e.gpa) + ExperiencePoints(e.experience)
  {
    updated := predictions;
    // Score based on degree level
    if e.degree == Some("PhD") {
      updated := updated[ResearchScientist := updated[ResearchScientist] + 20];
      updated := updated[DataScientist := updated[DataScientist] + 15];
    } else if e.degree == Some("Master") {
      updated := AddToAll(updated, 10);
    }
    ghost var afterDegree := updated;
    assert forall r: Role :: afterDegree[r] == predictions[r] + DegreePoints(e.degree, r);
    // Score based on GPA
    if e.gpa.Some? && e.gpa.value >= 3.5 {
      updated := AddToAll(updated, 15);
    } else if e.gpa.Some? && e.gpa.value >= 3.0 {
      updated := AddToAll(updated, 10);
    }
    ghost var afterGpa := updated;
    assert forall r: Role :: afterGpa[r] == afterDegree[r] + GpaPoints(e.gpa);
    // Score based on experience
    if e.experience.Some? && e.experience.value > 2.0 {
      updated := AddToAll(updated, 10);
    }
    assert forall r: Role :: updated[r] == afterGpa[r] + ExperiencePoints(e.experience);
  }

  /** The three skill rules for one token, each firing at most once. */
  method ApplySkillRules(predictions: map<Role, int>, token: string) returns (updated: map<Role, int>)
    requires Complete(predictions)
    ensures Complete(updated)
    ensures forall r: Role :: updated[r] == predictions[r] + TokenPoints(token, r)
  {
    var lowerSkill := Lower(token);
    updated := predictions;
    if CodingSkill(lowerSkill) {
      updated := updated[SoftwareEngineer := updated[SoftwareEngineer] + 10];
      updated := updated[DataScientist := updated[DataScientist] + 5];
    }
    if DataSkill(lowerSkill) {
      updated := updated[DataScientist := updated[DataScientist] + 10];
      updated := updated[BusinessAnalyst := updated[BusinessAnalyst] + 5];
    }
    if LeadershipSkill(lowerSkill) {
      updated := updated[ProductManager := updated[ProductManager] + 10];
      updated := updated[Consultant := updated[Consultant] + 5];
    }
  }

  /**
   * `predictJob`'s scoring phase: a table of zeros updated in place rule by
   * rule, then token by token. Its result is the declarative score table.
   */
  method ComputeScores(e: Education) returns (predictions: map<Role, int>)
    ensures predictions == Scores(e)
  {
    predictions := ZeroTable;
    ZeroTableComplete();
    // Score based on field
    if e.field.Some? {
      predictions := ApplyFieldRules(predictions, e.field.value);
    }
    assert forall r: Role :: predictions[r] == FieldPoints(e.field, r);
    predictions := ApplyProfileRules(predictions, e);
    // Score based on skills
    var skillList := SkillTokens(e.skills);
    for k := 0 to |skillList|
      invariant Complete(predictions)
      invariant forall r: Role :: predictions[r] == BasePoints(e, r) + SkillPoints(skillList[..k], r)
    {
      predictions := ApplySkillRules(predictions, skillList[k]);
      assert skillList[..k + 1][..k] == skillList[..k];
      assert forall r: Role :: SkillPoints(skillList[..k + 1], r) == SkillPoints(skillList[..k], r) + TokenPoints(skillList[k], r);
    }
    assert skillList[..|skillList|] == skillList;
    ScoresDetermineTable(predictions, e);
  }

  /** A complete table holding every role's score is the score table. */
  lemma ScoresDetermineTable(table: map<Role, int>, e: Education)
    requires Complete(table)
    requires forall r: Role :: table[r] == Score(e, r)
    ensures table == Scores(e)
  {
    var scores := Scores(e);
    assert table.Keys == scores.Keys by {
      forall r: Role ensures r in table && r in scores {}
    }
  }

  // ---------------------------------------------------------------------
  // Properties of the rule table
  // ---------------------------------------------------------------------

  lemma {:induction false} SkillPointsNonNegative(tokens: seq<string>, r: Role)
    ensures SkillPoints(tokens, r) >= 0
    decreases |tokens|
  {
    if |tokens| > 0 {
      SkillPointsNonNegative(tokens[..|tokens| - 1], r);
    }
  }

  /** Every rule only adds, so no score is ever negative. */
  lemma ScoresNonNegative(e: Education)
    ensures forall r: Role :: Scores(e)[r] >= 0
  {
    forall r: Role
      ensures Scores(e)[r] >= 0
    {
      SkillPointsNonNegative(SkillTokens(e.skills), r);
    }
  }

  /** The submission with every field absent. */
  const NoInput: Education := Education(None, None, None, None, NoSkills)

  /** With every field absent, every role stays at 0. */
  lemma NoInputScoresZero()
    ensures Scores(NoInput) == ZeroTable
  {
  }

  /**
   * The field rules are not exclusive: "Data Science", in any letter case,
   * fires both the data rule and the science rule.
   */
  lemma DataScienceFiresTwoRules(f: string, r: Role)
    requires Lower(f) == "data science"
    ensures FieldPoints(Some(f), r)
         == (match r
             case DataScientist => 30
             case BusinessAnalyst => 20
             case ResearchScientist => 30
             case _ => 0)
  {
    DataScienceMatches(Lower(f));
    DataScienceMisses(Lower(f));
  }

  lemma DataScienceMatches(lf: string)
    requires lf == "data science"
    ensures DataField(lf) && ScienceField(lf)
  {
    assert OccursAt(lf, "data", 0);
    assert OccursAt(lf, "science", 5);
    ContainsIffOccurs(lf, "data");
    ContainsIffOccurs(lf, "science");
  }

  lemma DataScienceMisses(lf: string)
    requires lf == "data science"
    ensures !ComputingField(lf) && !BusinessField(lf) && !MarketingField(lf) && !FinanceField(lf)
  {
    DataScienceNotComputing(lf);
    NotContained(lf, "business", 0, 'b');
    NotContained(lf, "management", 0, 'm');
    NotContained(lf, "marketing", 0, 'm');
    NotContained(lf, "finance", 0, 'f');
    NotContained(lf, "economics", 5, 'm');
  }

  lemma DataScienceNotComputing(lf: string)
    requires lf == "data science"
    ensures !ComputingField(lf)
  {
    NotContained(lf, "computer", 1, 'o');
    NotContained(lf, "software", 1, 'o');
  }

  /** Degree bonuses, isolated from every other rule. */
  lemma DegreeBonus(e: Education, d: string, r: Role)
    ensures Score(e.(degree := Some(d)), r)
         == Score(e.(degree := None), r)
            + (if d == "PhD" then (if r == ResearchScientist then 20 else if r == DataScientist then 15 else 0)
               else if d == "Master" then 10
               else 0)
  {
  }

  /** GPA bands, isolated from every other rule. */
  lemma GpaBonus(e: Education, g: real, r: Role)
    ensures Score(e.(gpa := Some(g)), r)
         == Score(e.(gpa := None), r) + (if g >= 3.5 then 15 else if g >= 3.0 then 10 else 0)
  {
  }

  /** Experience above two years adds 10 to every role, independently of the rest. */
  lemma ExperienceBonus(e: Education, x: real, r: Role)
    ensures Score(e.(experience := Some(x)), r)
         == Score(e.(experience := None), r) + (if x > 2.0 then 10 else 0)
  {
  }

  /** One more token adds exactly its own points, so it never lowers a score. */
  lemma {:induction false} AddingTokenNeverLowers(e: Education, tokens: seq<string>, t: string, r: Role)
    ensures Score(e.(skills := SkillList(tokens + [t])), r)
         == Score(e.(skills := SkillList(tokens)), r) + TokenPoints(t, r)
    ensures TokenPoints(t, r) >= 0
    ensures Score(e.(skills := SkillList(tokens + [t])), r) >= Score(e.(skills := SkillList(tokens)), r)
  {
    assert (tokens + [t])[..|tokens|] == tokens;
  }

  /** A repeated token counts every time it occurs. */
  lemma {:induction false} RepeatedTokensCompound(tokens: seq<string>, t: string, r: Role)
    ensures SkillPoints(tokens + [t, t], r) == SkillPoints(tokens, r) + 2 * TokenPoints(t, r)
  {
    assert (tokens + [t, t])[..|tokens| + 1] == tokens + [t];
    assert (tokens + [t])[..|tokens|] == tokens;
  }

  /**
   * A list of non-empty, trimmed, comma-free skills scores the same whether
   * it arrives as an array or joined with ", " into one string.
   */
  lemma JoinedSkillsScoreAsList(e: Education, tokens: seq<string>)
    requires forall i :: 0 <= i < |tokens| ==>
      tokens[i] != "" && ',' !in tokens[i] && IsTrimmed(tokens[i])
    ensures SkillTokens(SkillText(Join(tokens, ", "))) == tokens
    ensures Scores(e.(skills := SkillText(Join(tokens, ", ")))) == Scores(e.(skills := SkillList(tokens)))
  {
    var e1 := e.(skills := SkillText(Join(tokens, ", ")));
    var e2 := e.(skills := SkillList(tokens));
    if |tokens| > 0 {
      SplitTrimJoinRoundTrip(tokens);
      JoinLength(tokens, ", ");
    }
    assert SkillTokens(e1.skills) == SkillTokens(e2.skills);
    assert forall r: Role :: Score(e1, r) == Score(e2, r);
    ScoresDetermineTable(Scores(e1), e2);
  }

  lemma {:induction false} JoinLength(parts: seq<string>, sep: string)
    requires |parts| > 0
    ensures |Join(parts, sep)| >= |parts[0]|
  {
  }
}
