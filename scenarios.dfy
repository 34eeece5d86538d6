/**
 * Two submissions worked through the scorer and the ranking of
 * `predictJob` in server/server.js.
 */
module Scenarios {
  import opened Wrappers
  import opened Text
  import opened Scoring
  import opened Ranking

  /** Whatever its letter case, "Data Analytics" fires only the data skill rule. */
  lemma DataAnalyticsToken(t: string, r: Role)
    requires Lower(t) == "data analytics"
    ensures TokenPoints(t, r) == (match r case DataScientist => 10 case BusinessAnalyst => 5 case _ => 0)
  {
    Matches(Lower(t), "data");
    DataAnalyticsMisses(Lower(t));
  }

  /** A string contains itself followed by anything. */
  lemma Matches(s: string, prefix: string)
    requires StartsWith(s, prefix)
    ensures Contains(s, prefix)
  {
  }

  lemma DataAnalyticsMisses(ls: string)
    requires ls == "data analytics"
    ensures !CodingSkill(ls) && !LeadershipSkill(ls)
  {
    DataAnalyticsNotCoding(ls);
    NotContained(ls, "leadership", 1, 'e');
    NotContained(ls, "management", 0, 'm');
  }

  lemma DataAnalyticsNotCoding(ls: string)
    requires ls == "data analytics"
    ensures !CodingSkill(ls)
  {
    NotContained(ls, "programming", 0, 'p');
    NotContained(ls, "coding", 1, 'o');
  }

  /** Whatever its letter case, "Leadership" fires only the leadership skill rule. */
  lemma LeadershipToken(t: string, r: Role)
    requires Lower(t) == "leadership"
    ensures TokenPoints(t, r) == (match r case ProductManager => 10 case Consultant => 5 case _ => 0)
  {
    Matches(Lower(t), "leadership");
    LeadershipMisses(Lower(t));
  }

  lemma LeadershipMisses(ls: string)
    requires ls == "leadership"
    ensures !CodingSkill(ls) && !DataSkill(ls)
  {
    NotContained(ls, "programming", 2, 'o');
    NotContained(ls, "coding", 0, 'c');
    NotContained(ls, "data", 2, 't');
    NotContained(ls, "analytics", 1, 'n');
  }

  /** Whatever its letter case, "Marketing" fires only the marketing field rule. */
  lemma MarketingFiresOneRule(f: string, r: Role)
    requires Lower(f) == "marketing"
    ensures FieldPoints(Some(f), r) == if r == MarketingManager then 40 else 0
  {
    Matches(Lower(f), "marketing");
    MarketingMissesOthers(Lower(f));
    MarketingMissesSciences(Lower(f));
  }

  lemma MarketingMissesOthers(lf: string)
    requires lf == "marketing"
    ensures !ComputingField(lf) && !BusinessField(lf)
  {
    NotContained(lf, "computer", 0, 'c');
    NotContained(lf, "software", 0, 's');
    NotContained(lf, "business", 0, 'b');
    LongerNotContained(lf, "management");
  }

  lemma MarketingMissesSciences(lf: string)
    requires lf == "marketing"
    ensures !DataField(lf) && !FinanceField(lf) && !ScienceField(lf)
  {
    MarketingMissesData(lf);
    NotContained(lf, "finance", 0, 'f');
    NotContained(lf, "economics", 1, 'c');
    NotContained(lf, "science", 0, 's');
    NotContained(lf, "research", 2, 's');
  }

  lemma MarketingMissesData(lf: string)
    requires lf == "marketing"
    ensures !DataField(lf)
  {
    NotContained(lf, "data", 0, 'd');
    NotContained(lf, "statistics", 0, 's');
  }

  // ---------------------------------------------------------------------
  // A PhD in Data Science with a high GPA, experience and two skills
  // ---------------------------------------------------------------------

  const SubmissionA: Education :=
    Education(Some("PhD"), Some("Data Science"), Some(3.8), Some(3.0), SkillList(["data analytics", "leadership"]))

  /** The score table `predictJob` builds for submission A. */
  function TableA(r: Role): int {
    match r
    case SoftwareEngineer => 25
    case DataScientist => 80
    case ProductManager => 35
    case BusinessAnalyst => 50
    case MarketingManager => 25
    case FinancialAnalyst => 25
    case ResearchScientist => 75
    case Consultant => 30
  }

  lemma SubmissionAScores(r: Role)
    ensures Scores(SubmissionA)[r] == TableA(r)
  {
    assert FieldPoints(Some("Data Science"), r) == (match r
      case DataScientist => 30 case BusinessAnalyst => 20 case ResearchScientist => 30 case _ => 0) by {
      SubmissionALowered();
      DataScienceFiresTwoRules("Data Science", r);
    }
    assert SkillPoints(["data analytics", "leadership"], r) == (match r
      case DataScientist => 10 case BusinessAnalyst => 5 case ProductManager => 10 case Consultant => 5 case _ => 0) by {
      SubmissionALowered();
      DataAnalyticsToken("data analytics", r);
      LeadershipToken("leadership", r);
      TwoTokens("data analytics", "leadership", r);
    }
  }

  lemma SubmissionALowered()
    ensures Lower("Data Science") == "data science"
    ensures Lower("data analytics") == "data analytics"
    ensures Lower("leadership") == "leadership"
  {
  }

  lemma TwoTokens(a: string, b: string, r: Role)
    ensures SkillPoints([a, b], r) == TokenPoints(a, r) + TokenPoints(b, r)
  {
    assert [a, b][..1] == [a];
    assert [a][..0] == [];
    assert SkillPoints([a], r) == SkillPoints([], r) + TokenPoints(a, r);
    assert SkillPoints([a, b], r) == SkillPoints([a], r) + TokenPoints(b, r);
  }

  lemma TopOfTableA(table: map<Role, int>)
    requires Complete(table)
    requires forall r: Role :: table[r] == TableA(r)
    ensures Rank(table)
         == Prediction(Guess(DataScientist, 80), [Guess(ResearchScientist, 75), Guess(BusinessAnalyst, 50)])
  {
    assert IsTopThree(table, DataScientist, ResearchScientist, BusinessAnalyst) by {
      forall r: Role | r != DataScientist && r != ResearchScientist && r != BusinessAnalyst
        ensures table[r] < table[BusinessAnalyst]
      {
      }
    }
    RankCharacterised(table, DataScientist, ResearchScientist, BusinessAnalyst);
  }

  /** Data Scientist leads with 80, ahead of Research Scientist (75) and Business Analyst (50). */
  lemma SubmissionAPrediction()
    ensures Predicted(SubmissionA)
         == Prediction(Guess(DataScientist, 80), [Guess(ResearchScientist, 75), Guess(BusinessAnalyst, 50)])
  {
    forall r: Role
      ensures Scores(SubmissionA)[r] == TableA(r)
    {
      SubmissionAScores(r);
    }
    TopOfTableA(Scores(SubmissionA));
  }

  // ---------------------------------------------------------------------
  // A Marketing field with a low GPA and nothing else
  // ---------------------------------------------------------------------

  const SubmissionB: Education := Education(None, Some("Marketing"), Some(2.0), None, NoSkills)

  lemma SubmissionBScores(r: Role)
    ensures Scores(SubmissionB)[r] == if r == MarketingManager then 40 else 0
  {
    assert Lower("Marketing") == "marketing";
    MarketingFiresOneRule("Marketing", r);
  }

  lemma TopOfTableB(table: map<Role, int>)
    requires Complete(table)
    requires forall r: Role :: table[r] == if r == MarketingManager then 40 else 0
    ensures Rank(table)
         == Prediction(Guess(MarketingManager, 40), [Guess(SoftwareEngineer, 0), Guess(DataScientist, 0)])
  {
    assert IsTopThree(table, MarketingManager, SoftwareEngineer, DataScientist) by {
      forall r: Role | r != MarketingManager && r != SoftwareEngineer && r != DataScientist
        ensures table[r] == table[DataScientist] && Index(DataScientist) < Index(r)
      {
      }
    }
    RankCharacterised(table, MarketingManager, SoftwareEngineer, DataScientist);
  }

  /**
   * Marketing Manager leads with 40; the other roles tie at 0, so the
   * alternatives are the first two of them in catalogue order.
   */
  lemma SubmissionBPrediction()
    ensures Predicted(SubmissionB)
         == Prediction(Guess(MarketingManager, 40), [Guess(SoftwareEngineer, 0), Guess(DataScientist, 0)])
  {
    forall r: Role
      ensures Scores(SubmissionB)[r] == if r == MarketingManager then 40 else 0
    {
      SubmissionBScores(r);
    }
    TopOfTableB(Scores(SubmissionB));
  }
}
