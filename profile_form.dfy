/**
 * The education form of my-app/src/components/ProfileForm.tsx: the
 * `validateEducation` chain, the gate in `handleSubmit`, and the skill list
 * edited by `addSkill` and `removeSkill`. The form's `Number(...)` fields
 * are numbers here; the current calendar year arrives as a parameter.
 */
module ProfileForm {
  import opened Wrappers
  import opened Text
  import opened Tally

  /** The form's `profile` state. */
  datatype FormProfile = FormProfile(
    degree: string,
    specialization: string,
    cgpa: real,
    graduationYear: real,
    university: string,
    skills: seq<string>)

  /** The degrees `validateEducation` accepts. */
  const DEGREES: seq<string> := ["B.Tech", "B.Sc", "M.Sc", "MCA", "MBA"]

  /** The specializations `validateEducation` accepts. */
  const SPECS: seq<string> := ["CSE", "ECE", "IT", "Data Science", "AI", "Mechanical"]

  /** The options the degree dropdown offers. */
  const DEGREE_OPTIONS: seq<string> := ["B.Tech", "B.Sc", "M.Sc", "MCA", "MBA", "BBA", "B.COM", "M.TECH", "BCA", "BA", "MA"]

  /** The options the specialization dropdown offers. */
  const SPEC_OPTIONS: seq<string> := ["CSE", "ECE", "IT", "Data Science", "AI", "Mechanical", "Physics", "Chemistry",
                                      "EEE", "Statistics", "Geography", "cyber security", "Maths", "English", "Civil"]

  /** How many years past the current one a graduation year may lie. */
  const YEARS_AHEAD: int := 6

  predicate DegreeOk(p: FormProfile) { p.degree in DEGREES }
  predicate SpecializationOk(p: FormProfile) { p.specialization in SPECS }
  predicate CgpaOk(p: FormProfile) { 0.0 <= p.cgpa <= 10.0 }
  predicate YearOk(p: FormProfile, currentYear: int) { 2000.0 <= p.graduationYear <= (currentYear + YEARS_AHEAD) as real }
  predicate UniversityOk(p: FormProfile) { Trim(p.university) != "" }

  /**
   * `validateEducation`: the message of the first failing check, in the
   * order degree, specialization, CGPA, graduation year, university, or
   * `None` when every check passes.
   */
  function ValidateEducation(p: FormProfile, currentYear: int): (err: Option<string>)
    ensures err.None? <==>
      DegreeOk(p) && SpecializationOk(p) && CgpaOk(p) && YearOk(p, currentYear) && UniversityOk(p)
    ensures !DegreeOk(p) ==> err == Some("Invalid degree selection")
    ensures DegreeOk(p) && !SpecializationOk(p) ==> err == Some("Invalid specialization")
    ensures DegreeOk(p) && SpecializationOk(p) && !CgpaOk(p) ==> err == Some("CGPA must be between 0 and 10")
    ensures DegreeOk(p) && SpecializationOk(p) && CgpaOk(p) && !YearOk(p, currentYear) ==>
      err == Some("Invalid graduation year")
    ensures DegreeOk(p) && SpecializationOk(p) && CgpaOk(p) && YearOk(p, currentYear) && !UniversityOk(p) ==>
      err == Some("University / College is required")
  {
    if p.degree !in DEGREES then Some("Invalid degree selection")
    else if p.specialization !in SPECS then Some("Invalid specialization")
    else if p.cgpa < 0.0 || p.cgpa > 10.0 then Some("CGPA must be between 0 and 10")
    else if p.graduationYear < 2000.0 || p.graduationYear > (currentYear + YEARS_AHEAD) as real then Some("Invalid graduation year")
    else if Trim(p.university) == "" then Some("University / College is required")
    else None
  }

  /**
   * Every dropdown degree outside the accepted list, "BBA" among them, is
   * rejected with the degree message whatever the other fields hold.
   */
  lemma OfferedDegreesRejected(p: FormProfile, currentYear: int)
    requires p.degree in DEGREE_OPTIONS[|DEGREES|..]
    ensures ValidateEducation(p, currentYear) == Some("Invalid degree selection")
  {
    assert p.degree !in DEGREES by {
      forall i | 0 <= i < |DEGREES| ensures DEGREES[i] != p.degree {
        var j :| 0 <= j < 6 && DEGREE_OPTIONS[|DEGREES|..][j] == p.degree;
        assert |DEGREES[i]| != |p.degree| || DEGREES[i][0] != p.degree[0] || DEGREES[i][1] != p.degree[1]
          || DEGREES[i][|DEGREES[i]| - 1] != p.degree[|p.degree| - 1];
      }
    }
  }

  /** Every dropdown specialization outside the accepted list, "Physics" among them, is rejected. */
  lemma OfferedSpecializationsRejected(p: FormProfile, currentYear: int)
    requires p.degree in DEGREES
    requires p.specialization in SPEC_OPTIONS[|SPECS|..]
    ensures ValidateEducation(p, currentYear) == Some("Invalid specialization")
  {
    assert p.specialization !in SPECS by {
      forall i | 0 <= i < |SPECS| ensures SPECS[i] != p.specialization {
        var j :| 0 <= j < 9 && SPEC_OPTIONS[|SPECS|..][j] == p.specialization;
        assert |SPECS[i]| != |p.specialization| || SPECS[i][0] != p.specialization[0]
          || SPECS[i][1] != p.specialization[1]
          || SPECS[i][|SPECS[i]| - 1] != p.specialization[|p.specialization| - 1];
      }
    }
  }

  // ---------------------------------------------------------------------
  // handleSubmit
  // ---------------------------------------------------------------------

  /** What `handleSubmit` does: shows an error, or sends the profile to `updateProfile`. */
  datatype Submit = ShowError(message: string) | SendProfile(profile: FormProfile)

  /** `handleSubmit`: a failed validation shows its message and never reaches `updateProfile`. */
  function HandleSubmit(p: FormProfile, currentYear: int): (s: Submit)
    ensures s.ShowError? <==> ValidateEducation(p, currentYear).Some?
    ensures s.ShowError? ==> s.message == ValidateEducation(p, currentYear).value
    ensures s.SendProfile? ==> s.profile == p && UniversityOk(p) && CgpaOk(p)
  {
    match ValidateEducation(p, currentYear)
    case Some(message) => ShowError(message)
    case None => SendProfile(p)
  }

  // ---------------------------------------------------------------------
  // addSkill and removeSkill
  // ---------------------------------------------------------------------

  /** The skill list together with the text of the skill input box. */
  datatype SkillEditor = SkillEditor(skills: seq<string>, input: string)

  /**
   * `addSkill`: the trimmed input joins the list when it is non-empty and
   * not already there; the input box is cleared either way.
   */
  function AddSkill(ed: SkillEditor): (next: SkillEditor)
    ensures next.input == ""
    ensures forall x :: x in next.skills <==> x in ed.skills || (x == Trim(ed.input) && x != "")
    ensures |ed.skills| <= |next.skills| <= |ed.skills| + 1
    ensures next.skills[..|ed.skills|] == ed.skills
    ensures Trim(ed.input) == "" || Trim(ed.input) in ed.skills ==> next.skills == ed.skills
    ensures Trim(ed.input) != "" && Trim(ed.input) !in ed.skills ==> next.skills == ed.skills + [Trim(ed.input)]
  {
    var skill := Trim(ed.input);
    if skill != "" && skill !in ed.skills then SkillEditor(ed.skills + [skill], "") else SkillEditor(ed.skills, "")
  }

  /** A duplicate-free list stays duplicate-free under `addSkill`. */
  lemma AddSkillKeepsDistinct(ed: SkillEditor)
    requires Distinct(ed.skills)
    ensures Distinct(AddSkill(ed).skills)
  {
  }

  /** Every skill `addSkill` adds is already trimmed, and pressing Add again with the same text changes nothing. */
  lemma AddSkillTrimmedAndIdempotent(ed: SkillEditor)
    ensures forall x :: x in AddSkill(ed).skills && x !in ed.skills ==> IsTrimmed(x)
    ensures AddSkill(SkillEditor(AddSkill(ed).skills, ed.input)) == AddSkill(ed)
  {
    TrimIsTrimmed(ed.input);
  }

  /** `skills.filter(s => s !== skill)` */
  function RemoveSkill(skills: seq<string>, skill: string): (rest: seq<string>)
    ensures skill !in rest
    ensures forall x :: x in rest <==> x in skills && x != skill
    ensures |rest| == |skills| - Count(skills, skill)
    decreases |skills|
  {
    if |skills| == 0 then []
    else
      var init := skills[..|skills| - 1];
      var last := skills[|skills| - 1];
      assert skills == init + [last];
      RemoveSkill(init, skill) + (if last == skill then [] else [last])
  }

  /** Every other skill keeps its number of occurrences. */
  lemma {:induction false} RemoveSkillKeepsOthers(skills: seq<string>, skill: string, x: string)
    requires x != skill
    ensures Count(RemoveSkill(skills, skill), x) == Count(skills, x)
    decreases |skills|
  {
    if |skills| > 0 {
      var init := skills[..|skills| - 1];
      var last := skills[|skills| - 1];
      RemoveSkillKeepsOthers(init, skill, x);
      var rest := RemoveSkill(skills, skill);
      assert Count(skills, x) == Count(init, x) + (if last == x then 1 else 0);
      if last != skill {
        assert rest == RemoveSkill(init, skill) + [last];
        assert rest[..|rest| - 1] == RemoveSkill(init, skill) && rest[|rest| - 1] == last;
      } else {
        assert rest == RemoveSkill(init, skill);
      }
    }
  }

  /** Filtering works piecewise, so the remaining skills keep their relative order. */
  lemma {:induction false} RemoveSkillAppend(a: seq<string>, b: seq<string>, skill: string)
    ensures RemoveSkill(a + b, skill) == RemoveSkill(a, skill) + RemoveSkill(b, skill)
    decreases |b|
  {
    if |b| == 0 {
      assert a + b == a;
    } else {
      var init := b[..|b| - 1];
      assert (a + b)[..|a + b| - 1] == a + init;
      assert (a + b)[|a + b| - 1] == b[|b| - 1];
      RemoveSkillAppend(a, init, skill);
    }
  }

  /** Removing a skill just added restores the list it was added to. */
  lemma RemoveUndoesAdd(ed: SkillEditor)
    requires Trim(ed.input) !in ed.skills
    ensures RemoveSkill(AddSkill(ed).skills, Trim(ed.input)) == RemoveSkill(ed.skills, Trim(ed.input)) == ed.skills
  {
    RemoveSkillAppend(ed.skills, [Trim(ed.input)], Trim(ed.input));
    RemoveAbsent(ed.skills, Trim(ed.input));
    assert [Trim(ed.input)][..0] == [];
  }

  /** Removing a skill that is not there changes nothing. */
  lemma {:induction false} RemoveAbsent(skills: seq<string>, skill: string)
    requires skill !in skills
    ensures RemoveSkill(skills, skill) == skills
    decreases |skills|
  {
    if |skills| > 0 {
      RemoveAbsent(skills[..|skills| - 1], skill);
    }
  }
}
