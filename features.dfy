/**
 * The feature encoding of backend/api/utils.py: `preprocess` turns a raw
 * request body into the numeric vector the trained model reads, by label
 * encoding (tree models) or one-hot encoding (linear models). Python's
 * `float(...)` and `int(...)` on strings are parameters; numbers are reals.
 */
module Features {
  import opened Wrappers
  import opened Tally

  /** `MODEL_TYPE` */
  const MODEL_TYPE: string := "tree"

  /** `DEGREE_MAP` */
  const DEGREE_MAP: map<string, int> := map["B.Tech" := 1, "B.Sc" := 2, "M.Tech" := 3, "M.Sc" := 4, "MBA" := 5, "MCA" := 6]

  /** `SPECIALIZATION_MAP` */
  const SPECIALIZATION_MAP: map<string, int> :=
    map["CSE" := 1, "IT" := 2, "ECE" := 3, "EEE" := 4, "Data Science" := 5, "AI" := 6, "Mechanical" := 7]

  /** `DEGREES = list(DEGREE_MAP.keys())`, in insertion order. */
  const DEGREES: seq<string> := ["B.Tech", "B.Sc", "M.Tech", "M.Sc", "MBA", "MCA"]

  /** `SPECIALIZATIONS = list(SPECIALIZATION_MAP.keys())`, in insertion order. */
  const SPECIALIZATIONS: seq<string> := ["CSE", "IT", "ECE", "EEE", "Data Science", "AI", "Mechanical"]

  /** The defaults `data.get` supplies for a missing CGPA and graduation year. */
  const DEFAULT_CGPA: real := 0.0
  const DEFAULT_YEAR: int := 2024

  /**
   * Each map lists its keys in insertion order with codes 1, 2, 3, ...:
   * the codes are distinct and none is the unknown code 0.
   */
  lemma MapsAreEnumerations()
    ensures DEGREE_MAP.Keys == set d | d in DEGREES
    ensures SPECIALIZATION_MAP.Keys == set s | s in SPECIALIZATIONS
    ensures forall i :: 0 <= i < |DEGREES| ==> DEGREE_MAP[DEGREES[i]] == i + 1
    ensures forall i :: 0 <= i < |SPECIALIZATIONS| ==> SPECIALIZATION_MAP[SPECIALIZATIONS[i]] == i + 1
  {
  }

  /** Distinct keys get distinct codes, and every code is positive. */
  lemma CodesDistinctAndPositive()
    ensures forall a, b :: a in DEGREE_MAP && b in DEGREE_MAP && a != b ==> DEGREE_MAP[a] != DEGREE_MAP[b]
    ensures forall a, b :: a in SPECIALIZATION_MAP && b in SPECIALIZATION_MAP && a != b ==>
      SPECIALIZATION_MAP[a] != SPECIALIZATION_MAP[b]
    ensures forall a :: a in DEGREE_MAP ==> DEGREE_MAP[a] > 0
    ensures forall a :: a in SPECIALIZATION_MAP ==> SPECIALIZATION_MAP[a] > 0
  {
    MapsAreEnumerations();
    forall a, b | a in DEGREE_MAP && b in DEGREE_MAP && a != b
      ensures DEGREE_MAP[a] != DEGREE_MAP[b]
    {
      var i :| 0 <= i < |DEGREES| && DEGREES[i] == a;
      var j :| 0 <= j < |DEGREES| && DEGREES[j] == b;
    }
    forall a, b | a in SPECIALIZATION_MAP && b in SPECIALIZATION_MAP && a != b
      ensures SPECIALIZATION_MAP[a] != SPECIALIZATION_MAP[b]
    {
      var i :| 0 <= i < |SPECIALIZATIONS| && SPECIALIZATIONS[i] == a;
      var j :| 0 <= j < |SPECIALIZATIONS| && SPECIALIZATIONS[j] == b;
    }
  }

  /** `m.get(key, 0)`, where a missing or `None` key gives 0. */
  function Code(m: map<string, int>, key: Option<string>): int {
    if key.Some? && key.value in m then m[key.value] else 0
  }

  /** The key of a code: the inverse of `Code` on an enumeration. */
  function KeyOf(keys: seq<string>, code: int): (key: Option<string>)
    ensures key.Some? <==> 1 <= code <= |keys|
  {
    if 1 <= code <= |keys| then Some(keys[code - 1]) else None
  }

  /** `label_encode`: degree code, specialization code, CGPA, graduation year. */
  function LabelEncode(degree: Option<string>, specialization: Option<string>, cgpa: real, year: int): (v: seq<real>)
    ensures |v| == 4
    ensures v[2] == cgpa && v[3] == year as real
    ensures !(degree.Some? && degree.value in DEGREE_MAP) ==> v[0] == 0.0
    ensures !(specialization.Some? && specialization.value in SPECIALIZATION_MAP) ==> v[1] == 0.0
  {
    [Code(DEGREE_MAP, degree) as real, Code(SPECIALIZATION_MAP, specialization) as real, cgpa, year as real]
  }

  /**
   * The label encoding gives a known category its position in the key
   * list, counted from 1, and every unknown one, `None` included, the code
   * 0; so decoding the code gives back the known degree or specialization,
   * and nothing for an unknown one.
   */
  lemma LabelEncodeRoundTrip(degree: Option<string>, specialization: Option<string>, cgpa: real, year: int)
    ensures var v := LabelEncode(degree, specialization, cgpa, year);
      degree.Some? && degree.value in DEGREE_MAP ==>
        exists i :: 0 <= i < |DEGREES| && DEGREES[i] == degree.value && v[0] == (i + 1) as real
    ensures var v := LabelEncode(degree, specialization, cgpa, year);
      !(degree.Some? && degree.value in DEGREE_MAP) ==> v[0] == 0.0
    ensures var v := LabelEncode(degree, specialization, cgpa, year);
      specialization.Some? && specialization.value in SPECIALIZATION_MAP ==>
        exists i :: 0 <= i < |SPECIALIZATIONS| && SPECIALIZATIONS[i] == specialization.value && v[1] == (i + 1) as real
    ensures var v := LabelEncode(degree, specialization, cgpa, year);
      !(specialization.Some? && specialization.value in SPECIALIZATION_MAP) ==> v[1] == 0.0
    ensures var v := LabelEncode(degree, specialization, cgpa, year);
      KeyOf(DEGREES, v[0].Floor) == (if degree.Some? && degree.value in DEGREE_MAP then degree else None)
    ensures var v := LabelEncode(degree, specialization, cgpa, year);
      KeyOf(SPECIALIZATIONS, v[1].Floor)
      == (if specialization.Some? && specialization.value in SPECIALIZATION_MAP then specialization else None)
  {
    MapsAreEnumerations();
    if degree.Some? && degree.value in DEGREE_MAP {
      var i :| 0 <= i < |DEGREES| && DEGREES[i] == degree.value;
    }
    if specialization.Some? && specialization.value in SPECIALIZATION_MAP {
      var i :| 0 <= i < |SPECIALIZATIONS| && SPECIALIZATIONS[i] == specialization.value;
    }
  }

  /** `[1 if k == key else 0 for k in keys]` */
  function Indicator(keys: seq<string>, key: Option<string>): (v: seq<real>)
    ensures |v| == |keys|
    ensures forall i :: 0 <= i < |keys| ==> v[i] == if key == Some(keys[i]) then 1.0 else 0.0
  {
    seq(|keys|, i requires 0 <= i < |keys| => if key == Some(keys[i]) then 1.0 else 0.0)
  }

  /** An indicator over distinct keys holds one 1 when the key is among them and none otherwise. */
  lemma {:induction false} IndicatorOnes(keys: seq<string>, key: Option<string>)
    requires Distinct(keys)
    ensures Count(Indicator(keys, key), 1.0) == if key.Some? && key.value in keys then 1 else 0
    ensures forall i :: 0 <= i < |keys| && Indicator(keys, key)[i] != 1.0 ==> Indicator(keys, key)[i] == 0.0
    decreases |keys|
  {
    if |keys| > 0 {
      var init := keys[..|keys| - 1];
      assert Distinct(init) by {
        forall i, j | 0 <= i < j < |init| ensures init[i] != init[j] {
          assert init[i] == keys[i] && init[j] == keys[j];
        }
      }
      IndicatorOnes(init, key);
      var v := Indicator(keys, key);
      assert v[..|v| - 1] == Indicator(init, key);
      assert key.Some? && key.value in keys <==> (key.Some? && key.value in init) || key == Some(keys[|keys| - 1]);
      if key == Some(keys[|keys| - 1]) {
        assert key.value !in init;
      }
    }
  }

  /** `one_hot_encode`: the degree block, the specialization block, then CGPA and year. */
  function OneHot(degree: Option<string>, specialization: Option<string>, cgpa: real, year: int): (v: seq<real>)
    ensures |v| == |DEGREES| + |SPECIALIZATIONS| + 2
    ensures v[..|DEGREES|] == Indicator(DEGREES, degree)
    ensures v[|DEGREES|..|DEGREES| + |SPECIALIZATIONS|] == Indicator(SPECIALIZATIONS, specialization)
    ensures v[|DEGREES| + |SPECIALIZATIONS|..] == [cgpa, year as real]
  {
    var v := Indicator(DEGREES, degree) + Indicator(SPECIALIZATIONS, specialization) + [cgpa, year as real];
    assert v[..|DEGREES|] == Indicator(DEGREES, degree);
    v
  }

  lemma KeysDistinct()
    ensures Distinct(DEGREES) && Distinct(SPECIALIZATIONS)
  {
    MapsAreEnumerations();
  }

  /**
   * Each block of the one-hot vector holds exactly one 1, at the position
   * the label encoding names, when its category is known, and only zeros
   * when it is not.
   */
  lemma OneHotAgreesWithLabels(degree: Option<string>, specialization: Option<string>, cgpa: real, year: int)
    ensures var v := OneHot(degree, specialization, cgpa, year);
      Count(v[..|DEGREES|], 1.0) == (if degree.Some? && degree.value in DEGREE_MAP then 1 else 0)
    ensures var v := OneHot(degree, specialization, cgpa, year);
      Count(v[|DEGREES|..|DEGREES| + |SPECIALIZATIONS|], 1.0)
      == (if specialization.Some? && specialization.value in SPECIALIZATION_MAP then 1 else 0)
    ensures degree.Some? && degree.value in DEGREE_MAP ==>
      OneHot(degree, specialization, cgpa, year)[DEGREE_MAP[degree.value] - 1] == 1.0
    ensures specialization.Some? && specialization.value in SPECIALIZATION_MAP ==>
      OneHot(degree, specialization, cgpa, year)[|DEGREES| + SPECIALIZATION_MAP[specialization.value] - 1] == 1.0
  {
    KeysDistinct();
    MapsAreEnumerations();
    IndicatorOnes(DEGREES, degree);
    IndicatorOnes(SPECIALIZATIONS, specialization);
    var v := OneHot(degree, specialization, cgpa, year);
    if degree.Some? && degree.value in DEGREE_MAP {
      var i :| 0 <= i < |DEGREES| && DEGREES[i] == degree.value;
      assert v[i] == v[..|DEGREES|][i];
    }
    if specialization.Some? && specialization.value in SPECIALIZATION_MAP {
      var i :| 0 <= i < |SPECIALIZATIONS| && SPECIALIZATIONS[i] == specialization.value;
      assert v[|DEGREES| + i] == v[|DEGREES|..|DEGREES| + |SPECIALIZATIONS|][i];
    }
  }

  // ---------------------------------------------------------------------
  // preprocess
  // ---------------------------------------------------------------------

  /** A value in the request body, as Python sees it. */
  datatype Raw = Number(n: real) | Text(s: string) | Null

  /** `int(x)` on a float: truncation toward zero. */
  function Truncate(x: real): (t: int)
    ensures 0.0 <= x ==> t as real <= x < t as real + 1.0
    ensures x < 0.0 ==> t as real - 1.0 < x <= t as real
  {
    if x >= 0.0 then x.Floor else -((-x).Floor)
  }

  /**
   * `float(cgpa)` inside `try`, the `except` giving 0.0; a missing key is the
   * default 0. The value read is the number given, the parse of the text
   * given, or the fallback 0.0.
   */
  function ReadCgpa(cgpa: Option<Raw>, parseFloat: string -> Option<real>): (c: real)
    ensures cgpa.Some? && cgpa.value.Number? ==> c == cgpa.value.n
    ensures cgpa.Some? && cgpa.value.Text? && parseFloat(cgpa.value.s).Some? ==> c == parseFloat(cgpa.value.s).value
    ensures cgpa.Some? && cgpa.value.Text? && parseFloat(cgpa.value.s).None? ==> c == 0.0
    ensures cgpa.None? || cgpa == Some(Null) ==> c == 0.0
  {
    match cgpa
    case None => DEFAULT_CGPA
    case Some(Number(n)) => n
    case Some(Text(s)) => parseFloat(s).GetOr(0.0)
    case Some(Null) => 0.0
  }

  /**
   * `int(graduation_year)` inside `try`, the `except` giving 2024; a missing
   * key is the default 2024. The year read is the number given truncated
   * toward zero, the parse of the text given, or the fallback 2024.
   */
  function ReadYear(year: Option<Raw>, parseInt: string -> Option<int>): (y: int)
    ensures year.Some? && year.value.Number? ==> y == Truncate(year.value.n)
    ensures year.Some? && year.value.Number? && year.value.n >= 0.0 ==>
      y as real <= year.value.n < y as real + 1.0
    ensures year.Some? && year.value.Text? && parseInt(year.value.s).Some? ==> y == parseInt(year.value.s).value
    ensures year.Some? && year.value.Text? && parseInt(year.value.s).None? ==> y == DEFAULT_YEAR
    ensures year.None? || year == Some(Null) ==> y == DEFAULT_YEAR
  {
    match year
    case None => DEFAULT_YEAR
    case Some(Number(n)) => Truncate(n)
    case Some(Text(s)) => parseInt(s).GetOr(DEFAULT_YEAR)
    case Some(Null) => DEFAULT_YEAR
  }

  /** The request fields `preprocess` reads; `None` is a missing key. */
  datatype Request = Request(
    degree: Option<string>,
    specialization: Option<string>,
    cgpa: Option<Raw>,
    graduationYear: Option<Raw>)

  /** `preprocess`: the fallbacks, then the encoding `modelType` selects, or a `ValueError`. */
  function Preprocess(data: Request, modelType: string, parseFloat: string -> Option<real>,
                      parseInt: string -> Option<int>): (r: Result<seq<real>, string>)
    ensures r.Err? <==> modelType != "tree" && modelType != "linear"
    ensures r.Err? ==> r.error == "Invalid MODEL_TYPE"
    ensures modelType == "tree" ==> |r.value| == 4
    ensures modelType == "linear" ==> |r.value| == |DEGREES| + |SPECIALIZATIONS| + 2
    ensures r.Ok? ==> r.value[|r.value| - 2] == ReadCgpa(data.cgpa, parseFloat)
    ensures r.Ok? ==> r.value[|r.value| - 1] == ReadYear(data.graduationYear, parseInt) as real
    ensures modelType == "tree" ==>
      r == Ok(LabelEncode(data.degree, data.specialization, ReadCgpa(data.cgpa, parseFloat),
                          ReadYear(data.graduationYear, parseInt)))
    ensures modelType == "linear" ==>
      r == Ok(OneHot(data.degree, data.specialization, ReadCgpa(data.cgpa, parseFloat),
                     ReadYear(data.graduationYear, parseInt)))
  {
    var cgpa := ReadCgpa(data.cgpa, parseFloat);
    var year := ReadYear(data.graduationYear, parseInt);
    if modelType == "tree" then Ok(LabelEncode(data.degree, data.specialization, cgpa, year))
    else if modelType == "linear" then Ok(OneHot(data.degree, data.specialization, cgpa, year))
    else Err("Invalid MODEL_TYPE")
  }

  /** With the configured model type the result is always the four label-encoded features. */
  lemma ConfiguredPreprocess(data: Request, parseFloat: string -> Option<real>, parseInt: string -> Option<int>)
    ensures Preprocess(data, MODEL_TYPE, parseFloat, parseInt)
         == Ok(LabelEncode(data.degree, data.specialization, ReadCgpa(data.cgpa, parseFloat),
                           ReadYear(data.graduationYear, parseInt)))
  {
  }

  /**
   * The numeric fallbacks: a missing, null or unparseable CGPA becomes 0.0
   * and a missing, null or unparseable year becomes 2024.
   */
  lemma Fallbacks(data: Request, parseFloat: string -> Option<real>, parseInt: string -> Option<int>)
    ensures (data.cgpa.None? || data.cgpa == Some(Null) || (data.cgpa.value.Text? && parseFloat(data.cgpa.value.s).None?))
      ==> ReadCgpa(data.cgpa, parseFloat) == 0.0
    ensures (data.graduationYear.None? || data.graduationYear == Some(Null)
             || (data.graduationYear.value.Text? && parseInt(data.graduationYear.value.s).None?))
      ==> ReadYear(data.graduationYear, parseInt) == 2024
    ensures data.graduationYear.Some? && data.graduationYear.value.Number? && data.graduationYear.value.n == 2022.9 ==>
      ReadYear(data.graduationYear, parseInt) == 2022
  {
  }
}
