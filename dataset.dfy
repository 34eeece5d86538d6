/**
 * The synthetic training data of backend/api/ml/generate_dataset.py: each
 * row draws a degree, a field, a graduation year, a GPA and two skills of
 * the field, derives the experience, and labels the row with a role by a
 * fixed decision table. The random draws arrive as input; writing the CSV
 * file is outside the model.
 */
module Dataset {
  import opened Wrappers
  import opened Tally

  /** `TOTAL_ROWS` */
  const TOTAL_ROWS: nat := 20000

  /** The year the experience is counted up to. */
  const REFERENCE_YEAR: int := 2025

  /** `degrees` */
  const DEGREES: seq<string> := ["BTech", "BSc", "MTech", "MCA", "MBA"]

  /** `fields` */
  const FIELDS: seq<string> := ["CSE", "IT", "ECE", "Mechanical", "Civil", "EEE", "Data Science", "AI/ML", "HR"]

  /** `skill_bank` */
  const SKILL_BANK: map<string, seq<string>> := map[
    "CSE" := ["python", "java", "dsa", "sql"],
    "IT" := ["html", "css", "js", "react"],
    "Data Science" := ["python", "ml", "sql", "statistics"],
    "AI/ML" := ["python", "ml", "deep learning"],
    "ECE" := ["signals", "embedded", "c"],
    "EEE" := ["power systems", "circuits"],
    "Mechanical" := ["solidworks", "design"],
    "Civil" := ["autocad", "construction"],
    "HR" := ["communication", "recruitment"]]

  /** `ALLOWED_ROLES` of backend/api/ml/train_model.py, the roles training keeps. */
  const ALLOWED_ROLES: seq<string> := ["Data Scientist", "Software Engineer", "Web Developer", "ML Engineer",
                                       "Mechanical Engineer", "Civil Engineer", "Electrical Engineer",
                                       "Business Analyst", "System Analyst", "AI Specialist"]

  /** `generate_experience`: years since graduation up to 2025, never negative. */
  function GenerateExperience(year: int): (e: int)
    ensures e >= 0 && e >= REFERENCE_YEAR - year
    ensures e == 0 || e == REFERENCE_YEAR - year
  {
    if REFERENCE_YEAR - year > 0 then REFERENCE_YEAR - year else 0
  }

  /** Experience grows by one for every year earlier the graduation lies, until it reaches 0. */
  lemma ExperienceDecreasesWithYear(a: int, b: int)
    requires a <= b
    ensures GenerateExperience(a) >= GenerateExperience(b)
    ensures b <= REFERENCE_YEAR ==> GenerateExperience(a) - GenerateExperience(b) == b - a
  {
  }

  /**
   * The label chain: the role of the first branch `field` falls into, or
   * `None` when it falls into none (the loop would then keep a stale label).
   * Every field the generator draws from falls into a branch, and only those do.
   */
  function TargetRole(field: string, gpa: real): (role: Option<string>)
    ensures role.Some? <==> field in FIELDS
  {
    if field == "Data Science" || field == "AI/ML" then Some(if gpa >= 7.5 then "Data Scientist" else "Software Engineer")
    else if field == "CSE" || field == "IT" then Some(if gpa >= 8.0 then "Software Engineer" else "Web Developer")
    else if field == "ECE" || field == "EEE" then Some("Electrical Engineer")
    else if field == "Mechanical" then Some("Mechanical Engineer")
    else if field == "Civil" then Some("Civil Engineer")
    else if field == "HR" then Some("Business Analyst")
    else None
  }

  /** No branch labels a row "Product Manager", and every label survives the training filter. */
  lemma TargetRoleAllowed(field: string, gpa: real)
    requires TargetRole(field, gpa).Some?
    ensures TargetRole(field, gpa).value in ALLOWED_ROLES
    ensures TargetRole(field, gpa).value != "Product Manager"
  {
    var r := TargetRole(field, gpa).value;
    assert r == ALLOWED_ROLES[0] || r == ALLOWED_ROLES[1] || r == ALLOWED_ROLES[2] || r == ALLOWED_ROLES[4]
        || r == ALLOWED_ROLES[5] || r == ALLOWED_ROLES[6] || r == ALLOWED_ROLES[7];
    assert |r| != |"Product Manager"|;
  }

  /** The GPA matters only for the data and computing fields, where a higher GPA gives the first-named role. */
  lemma GpaOnlyDecidesTwoFamilies(field: string, low: real, high: real)
    requires low <= high
    ensures field !in ["Data Science", "AI/ML", "CSE", "IT"] ==> TargetRole(field, low) == TargetRole(field, high)
    ensures field in ["Data Science", "AI/ML"] ==>
      (TargetRole(field, low) == Some("Data Scientist") ==> TargetRole(field, high) == Some("Data Scientist"))
    ensures field in ["CSE", "IT"] ==>
      (TargetRole(field, low) == Some("Software Engineer") ==> TargetRole(field, high) == Some("Software Engineer"))
  {
  }

  /** Every field has a skill list of at least two distinct skills, so `sample(k=2)` always succeeds. */
  lemma SkillBankCoversFields()
    ensures forall f :: f in FIELDS ==> f in SKILL_BANK && |SKILL_BANK[f]| >= 2 && Distinct(SKILL_BANK[f])
  {
  }

  /** The random choices of one iteration; `first` and `second` are the positions `sample` picked. */
  datatype Draw = Draw(degree: string, field: string, graduationYear: int, gpa: real, first: nat, second: nat)

  /** What the random calls can return. */
  predicate ValidDraw(d: Draw) {
    d.degree in DEGREES && d.field in FIELDS && 2018 <= d.graduationYear <= 2025 && 5.5 <= d.gpa <= 9.8
    && d.field in SKILL_BANK && d.first < |SKILL_BANK[d.field]| && d.second < |SKILL_BANK[d.field]|
    && d.first != d.second
  }

  /** One CSV row: the seven columns, in order. */
  datatype Row = Row(
    degree: string,
    field: string,
    gpa: real,
    experience: int,
    graduationYear: int,
    skills: string,
    targetRole: string)

  /**
   * The row one iteration appends: the drawn degree, field, GPA and year,
   * the experience of that year, the two sampled skills of the field joined
   * by a comma, and the field's label.
   */
  function MakeRow(d: Draw): (row: Row)
    requires ValidDraw(d)
    ensures row.degree == d.degree && row.field == d.field && row.gpa == d.gpa
    ensures row.graduationYear == d.graduationYear && row.experience == GenerateExperience(d.graduationYear)
    ensures TargetRole(d.field, d.gpa) == Some(row.targetRole)
  {
    var bank := SKILL_BANK[d.field];
    Row(d.degree, d.field, d.gpa, GenerateExperience(d.graduationYear), d.graduationYear,
        bank[d.first] + "," + bank[d.second], TargetRole(d.field, d.gpa).value)
  }

  /**
   * The invariants of a generated row: its experience is its years since
   * graduation, its label is a training role, and its skills are two
   * different skills of its field.
   */
  predicate GoodRow(row: Row) {
    row.degree in DEGREES && row.field in FIELDS
    && 0 <= row.experience <= REFERENCE_YEAR - 2018
    && row.experience == REFERENCE_YEAR - row.graduationYear
    && row.targetRole in ALLOWED_ROLES && row.targetRole != "Product Manager"
    && exists a, b :: a in SKILL_BANK[row.field] && b in SKILL_BANK[row.field] && a != b && row.skills == a + "," + b
  }

  /**
   * A row's experience is its years since graduation, its label is a
   * training role, and its skills are two different skills of its field.
   */
  lemma MakeRowGood(d: Draw)
    requires ValidDraw(d)
    ensures GoodRow(MakeRow(d))
  {
    SkillBankCoversFields();
    TargetRoleAllowed(d.field, d.gpa);
    var bank := SKILL_BANK[d.field];
    assert bank[d.first] in bank && bank[d.second] in bank && bank[d.first] != bank[d.second];
  }

  /** The main loop: one row per iteration, `TOTAL_ROWS` iterations. */
  method GenerateDataset(draws: seq<Draw>) returns (data: seq<Row>)
    requires |draws| == TOTAL_ROWS
    requires forall i :: 0 <= i < |draws| ==> ValidDraw(draws[i])
    ensures |data| == TOTAL_ROWS
    ensures forall i :: 0 <= i < |data| ==> data[i] == MakeRow(draws[i]) && GoodRow(data[i])
  {
    data := [];
    for i := 0 to |draws|
      invariant |data| == i
      invariant forall j :: 0 <= j < i ==> data[j] == MakeRow(draws[j]) && GoodRow(data[j])
    {
      MakeRowGood(draws[i]);
      data := data + [MakeRow(draws[i])];
    }
  }
}
