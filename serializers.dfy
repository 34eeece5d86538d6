/**
 * The field validators of backend/api/serializers.py. Each one returns its
 * value unchanged when the value is allowed and raises a validation error
 * otherwise; the raise is an `Err` carrying the message.
 */
module Serializers {
  import opened Wrappers
  import ProfileForm

  /** `ALLOWED_DEGREES` */
  const ALLOWED_DEGREES: seq<string> := ["B.Tech", "B.Sc", "M.Sc", "MCA", "MBA", "BBA", "B.COM", "M.TECH", "BCA", "BA", "MA"]

  /** `ALLOWED_SPECIALIZATIONS` */
  const ALLOWED_SPECIALIZATIONS: seq<string> := ["CSE", "ECE", "IT", "Data Science", "AI", "Mechanical", "Physics",
                                                 "Chemistry", "EEE", "Statistics", "Geography", "cyber security",
                                                 "Maths", "English"]

  /** The latest graduation year `EducationSerializer` accepts. */
  const EDUCATION_LAST_YEAR: int := 2030

  /** The code an administrator registers with. */
  const ADMIN_CODE: string := "ADMIN123"

  /** `ProfileSerializer.validate_degree` */
  function ValidateDegree(value: string): (r: Result<string, string>)
    ensures r.Ok? <==> value in ALLOWED_DEGREES
    ensures r.Ok? ==> r.value == value
    ensures r.Err? ==> r.error == "Invalid degree"
  {
    if value !in ALLOWED_DEGREES then Err("Invalid degree") else Ok(value)
  }

  /** `ProfileSerializer.validate_specialization` */
  function ValidateSpecialization(value: string): (r: Result<string, string>)
    ensures r.Ok? <==> value in ALLOWED_SPECIALIZATIONS
    ensures r.Ok? ==> r.value == value
    ensures r.Err? ==> r.error == "Invalid specialization"
  {
    if value !in ALLOWED_SPECIALIZATIONS then Err("Invalid specialization") else Ok(value)
  }

  /** `ProfileSerializer.validate_cgpa` */
  function ValidateProfileCgpa(value: real): (r: Result<real, string>)
    ensures r.Ok? <==> 0.0 <= value <= 10.0
    ensures r.Ok? ==> r.value == value
    ensures r.Err? ==> r.error == "CGPA must be between 0 and 10"
  {
    if !(0.0 <= value <= 10.0) then Err("CGPA must be between 0 and 10") else Ok(value)
  }

  /** `ProfileSerializer.validate_graduation_year`, with the current year as a parameter. */
  function ValidateProfileGraduationYear(value: int, currentYear: int): (r: Result<int, string>)
    ensures r.Ok? <==> 2000 <= value <= currentYear + 6
    ensures r.Ok? ==> r.value == value
    ensures r.Err? ==> r.error == "Invalid graduation year"
  {
    if value < 2000 || value > currentYear + 6 then Err("Invalid graduation year") else Ok(value)
  }

  /** `EducationSerializer.validate_cgpa`: the same range, another message. */
  function ValidateEducationCgpa(value: real): (r: Result<real, string>)
    ensures r.Ok? <==> 0.0 <= value <= 10.0
    ensures r.Ok? ==> r.value == value
    ensures r.Err? ==> r.error == "Invalid CGPA"
  {
    if !(0.0 <= value <= 10.0) then Err("Invalid CGPA") else Ok(value)
  }

  /** `EducationSerializer.validate_graduation_year`: a fixed window. */
  function ValidateEducationGraduationYear(value: int): (r: Result<int, string>)
    ensures r.Ok? <==> 2000 <= value <= EDUCATION_LAST_YEAR
    ensures r.Ok? ==> r.value == value
    ensures r.Err? ==> r.error == "Invalid graduation year"
  {
    if value < 2000 || value > EDUCATION_LAST_YEAR then Err("Invalid graduation year") else Ok(value)
  }

  /** `AdminRegisterSerializer.validate_admin_code` */
  function ValidateAdminCode(value: string): (r: Result<string, string>)
    ensures r.Ok? <==> value == ADMIN_CODE
    ensures r.Ok? ==> r.value == value
    ensures r.Err? ==> r.error == "Invalid admin code"
  {
    if value != ADMIN_CODE then Err("Invalid admin code") else Ok(value)
  }

  /** The two CGPA validators accept the same values and differ only in their message. */
  lemma CgpaValidatorsAgree(value: real)
    ensures ValidateProfileCgpa(value).Ok? <==> ValidateEducationCgpa(value).Ok?
    ensures ValidateProfileCgpa(value).Err? ==> ValidateProfileCgpa(value).error != ValidateEducationCgpa(value).error
  {
  }

  /**
   * From 2024 on, every year the education serializer accepts the profile
   * serializer accepts as well; the converse holds only up to 2030.
   */
  lemma EducationYearsWithinProfileYears(value: int, currentYear: int)
    requires currentYear >= EDUCATION_LAST_YEAR - 6
    ensures ValidateEducationGraduationYear(value).Ok? ==> ValidateProfileGraduationYear(value, currentYear).Ok?
    ensures ValidateProfileGraduationYear(value, currentYear).Ok? && value <= EDUCATION_LAST_YEAR ==>
      ValidateEducationGraduationYear(value).Ok?
  {
  }

  /** Whatever the profile form lets through passes the server's degree and specialization checks. */
  lemma FormValuesAccepted(p: ProfileForm.FormProfile, currentYear: int)
    requires ProfileForm.ValidateEducation(p, currentYear).None?
    ensures ValidateDegree(p.degree) == Ok(p.degree)
    ensures ValidateSpecialization(p.specialization) == Ok(p.specialization)
    ensures ValidateProfileCgpa(p.cgpa) == Ok(p.cgpa)
  {
    assert ProfileForm.DEGREES == ALLOWED_DEGREES[..5];
    assert ProfileForm.SPECS == ALLOWED_SPECIALIZATIONS[..6];
  }

  /**
   * The form's degree dropdown offers exactly the allowed degrees; its
   * specialization dropdown offers the allowed ones plus "Civil", which
   * the server rejects.
   */
  lemma DropdownsAgainstAllowLists()
    ensures ProfileForm.DEGREE_OPTIONS == ALLOWED_DEGREES
    ensures ProfileForm.SPEC_OPTIONS == ALLOWED_SPECIALIZATIONS + ["Civil"]
    ensures ValidateSpecialization("Civil") == Err("Invalid specialization")
  {
    CivilNotAllowed("Civil");
  }

  lemma CivilNotAllowed(s: string)
    requires s == "Civil"
    ensures s !in ALLOWED_SPECIALIZATIONS
  {
    forall i | 0 <= i < |ALLOWED_SPECIALIZATIONS| ensures ALLOWED_SPECIALIZATIONS[i] != s {
      var a := ALLOWED_SPECIALIZATIONS[i];
      assert |a| != 5 || a[0] != 'C' || a[4] != 'l';
    }
  }
}
