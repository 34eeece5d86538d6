/**
 * The data the dashboard page (my-app/src/pages/DashboardPage.tsx) derives
 * from the prediction history: the history mapping, the per-year role
 * counts, the distinct roles, the three most frequent roles, the most recent
 * year and its role counts, and the required-field gate of the predict form.
 *
 * `new Date(createdAt).getFullYear()` is a parameter `yearOf`, whose result
 * is a `Year`: a calendar year, or `Invalid` for the NaN of an unparseable
 * date. `Number(...)` on a string is a parameter `parse`.
 */
module Dashboard {
  import opened Wrappers
  import opened Tally
  import opened StableSort

  // ---------------------------------------------------------------------
  // Loading the history
  // ---------------------------------------------------------------------

  /** A confidence as the server sent it: a JSON number or a string. */
  datatype Raw = RawNumber(n: real) | RawText(t: string)

  /** One element of the history response. */
  datatype RawItem = RawItem(role: string, confidence: Raw, created_at: Option<string>, createdAt: Option<string>)

  /** The outcome of `api.getPredictionHistory()`. */
  datatype Response = Failed | NotArray | Items(items: seq<RawItem>)

  /** One history entry of the page. */
  datatype Item = Item(role: string, confidence: real, createdAt: Option<string>)

  /** `Number(raw)` */
  function ToNumber(raw: Raw, parse: string -> real): real {
    match raw
    case RawNumber(n) => n
    case RawText(t) => parse(t)
  }

  /** A string is truthy when present and non-empty. */
  predicate Truthy(s: Option<string>) {
    s.Some? && s.value != ""
  }

  /**
   * `loadHistory`: an array response is mapped item by item, anything else
   * (a non-array body or a failed request) leaves the history empty.
   */
  function LoadHistory(response: Response, parse: string -> real): (history: seq<Item>)
    ensures !response.Items? ==> history == []
    ensures response.Items? ==> |history| == |response.items|
    ensures response.Items? ==> forall i :: 0 <= i < |history| ==>
      var raw := response.items[i];
      history[i].role == raw.role
      && history[i].confidence == ToNumber(raw.confidence, parse)
      && history[i].createdAt == (if Truthy(raw.created_at) then raw.created_at else raw.createdAt)
  {
    match response
    case Items(items) =>
      seq(|items|, i requires 0 <= i < |items| =>
        Item(items[i].role, ToNumber(items[i].confidence, parse),
             if Truthy(items[i].created_at) then items[i].created_at else items[i].createdAt))
    case _ => []
  }

  // ---------------------------------------------------------------------
  // Role counts
  // ---------------------------------------------------------------------

  /** `getFullYear()`: a year, or NaN. */
  datatype Year = Known(value: int) | Invalid

  function Roles(h: seq<Item>): (roles: seq<string>)
    ensures |roles| == |h| && forall i :: 0 <= i < |h| ==> roles[i] == h[i].role
  {
    seq(|h|, i requires 0 <= i < |h| => h[i].role)
  }

  /** `acc[role] = (acc[role] || 0) + 1` */
  function Bump(acc: map<string, nat>, role: string): map<string, nat> {
    acc[role := (if role in acc then acc[role] else 0) + 1]
  }

  /** The `reduce` that counts roles, one item at a time. */
  function CountRoles(roles: seq<string>): map<string, nat>
    decreases |roles|
  {
    if |roles| == 0 then map[]
    else Bump(CountRoles(roles[..|roles| - 1]), roles[|roles| - 1])
  }

  /** The tally holds exactly the roles that occur, each with its number of occurrences. */
  lemma {:induction false} CountRolesCounts(roles: seq<string>)
    ensures forall r :: r in CountRoles(roles) <==> r in roles
    ensures forall r :: r in CountRoles(roles) ==> CountRoles(roles)[r] == Count(roles, r)
    decreases |roles|
  {
    if |roles| > 0 {
      var init := roles[..|roles| - 1];
      CountRolesCounts(init);
      assert roles == init + [roles[|roles| - 1]];
      forall r | r in CountRoles(roles)
        ensures CountRoles(roles)[r] == Count(roles, r)
      {
        CountPositive(init, r);
      }
    }
  }

  // ---------------------------------------------------------------------
  // careerTrendData
  // ---------------------------------------------------------------------

  /** Role counts per year; `Invalid` stands for the "NaN" key. */
  type Trend = map<Year, map<string, nat>>

  /** One step of the `forEach`: count `role` once under `year`. */
  function BumpTrend(trend: Trend, year: Year, role: string): Trend {
    trend[year := Bump(if year in trend then trend[year] else map[], role)]
  }

  /** `careerTrendData` as a left fold over the history. */
  function TrendOf(h: seq<Item>, yearOf: Option<string> -> Year): Trend
    decreases |h|
  {
    if |h| == 0 then map[]
    else BumpTrend(TrendOf(h[..|h| - 1], yearOf), yearOf(h[|h| - 1].createdAt), h[|h| - 1].role)
  }

  /** `careerTrendData`, built by the page's loop. */
  method CareerTrend(h: seq<Item>, yearOf: Option<string> -> Year) returns (trend: Trend)
    ensures trend == TrendOf(h, yearOf)
  {
    trend := map[];
    for k := 0 to |h|
      invariant trend == TrendOf(h[..k], yearOf)
    {
      var year := yearOf(h[k].createdAt);
      if year !in trend {
        trend := trend[year := map[]];
      }
      var row := trend[year];
      trend := trend[year := row[h[k].role := (if h[k].role in row then row[h[k].role] else 0) + 1]];
      assert h[..k + 1][..k] == h[..k];
    }
    assert h[..|h|] == h;
  }

  /** The (year, role) pair of every item. */
  function Pairs(h: seq<Item>, yearOf: Option<string> -> Year): (pairs: seq<(Year, string)>)
    ensures |pairs| == |h| && forall i :: 0 <= i < |h| ==> pairs[i] == (yearOf(h[i].createdAt), h[i].role)
  {
    seq(|h|, i requires 0 <= i < |h| => (yearOf(h[i].createdAt), h[i].role))
  }

  /** `careerTrendData[year][role] || 0` */
  function Cell(trend: Trend, year: Year, role: string): nat {
    if year in trend && role in trend[year] then trend[year][role] else 0
  }

  /** Counting one more item adds one to its own cell and to no other. */
  lemma CellBump(trend: Trend, year: Year, role: string, y: Year, r: string)
    ensures Cell(BumpTrend(trend, year, role), y, r) == Cell(trend, y, r) + (if (y, r) == (year, role) then 1 else 0)
    ensures (y in BumpTrend(trend, year, role) && r in BumpTrend(trend, year, role)[y])
        <==> (y in trend && r in trend[y]) || (y, r) == (year, role)
  {
  }

  /** Every cell counts the items with that year and role. */
  lemma {:induction false} TrendCells(h: seq<Item>, yearOf: Option<string> -> Year)
    ensures forall y, r :: Cell(TrendOf(h, yearOf), y, r) == Count(Pairs(h, yearOf), (y, r))
    decreases |h|
  {
    if |h| > 0 {
      var init := h[..|h| - 1];
      TrendCells(init, yearOf);
      var pairs := Pairs(h, yearOf);
      assert pairs[..|h| - 1] == Pairs(init, yearOf);
      forall y, r
        ensures Cell(TrendOf(h, yearOf), y, r) == Count(pairs, (y, r))
      {
        CellBump(TrendOf(init, yearOf), yearOf(h[|h| - 1].createdAt), h[|h| - 1].role, y, r);
      }
    }
  }

  /** A cell is present exactly when some item has that year and role. */
  lemma {:induction false} TrendCellsPresent(h: seq<Item>, yearOf: Option<string> -> Year)
    ensures forall y, r :: (y in TrendOf(h, yearOf) && r in TrendOf(h, yearOf)[y]) <==> (y, r) in Pairs(h, yearOf)
    decreases |h|
  {
    if |h| > 0 {
      var init := h[..|h| - 1];
      TrendCellsPresent(init, yearOf);
      var pairs := Pairs(h, yearOf);
      assert pairs == Pairs(init, yearOf) + [pairs[|h| - 1]];
      forall y, r
        ensures (y in TrendOf(h, yearOf) && r in TrendOf(h, yearOf)[y]) <==> (y, r) in pairs
      {
        CellBump(TrendOf(init, yearOf), yearOf(h[|h| - 1].createdAt), h[|h| - 1].role, y, r);
      }
    }
  }

  /** A year has a row exactly when some item has that year. */
  lemma {:induction false} TrendYears(h: seq<Item>, yearOf: Option<string> -> Year)
    ensures forall y :: y in TrendOf(h, yearOf) <==> y in Years(h, yearOf)
    decreases |h|
  {
    if |h| > 0 {
      var init := h[..|h| - 1];
      TrendYears(init, yearOf);
      assert Years(h, yearOf) == Years(init, yearOf) + [yearOf(h[|h| - 1].createdAt)];
    }
  }

  /** Sum of the cells named by `keys`. */
  function SumCells(trend: Trend, keys: seq<(Year, string)>): nat
    decreases |keys|
  {
    if |keys| == 0 then 0 else Cell(trend, keys[0].0, keys[0].1) + SumCells(trend, keys[1..])
  }

  /**
   * The cells of `careerTrendData`, each visited once through the distinct
   * (year, role) pairs, add up to the length of the history.
   */
  lemma TrendTotal(h: seq<Item>, yearOf: Option<string> -> Year)
    ensures Distinct(Dedup(Pairs(h, yearOf)))
    ensures forall y, r :: Cell(TrendOf(h, yearOf), y, r) > 0 <==> (y, r) in Dedup(Pairs(h, yearOf))
    ensures SumCells(TrendOf(h, yearOf), Dedup(Pairs(h, yearOf))) == |h|
  {
    var pairs := Pairs(h, yearOf);
    var keys := Dedup(pairs);
    TrendCells(h, yearOf);
    forall y, r
      ensures Cell(TrendOf(h, yearOf), y, r) > 0 <==> (y, r) in keys
    {
      CountPositive(pairs, (y, r));
      if (y, r) in pairs {
        var i :| 0 <= i < |pairs| && pairs[i] == (y, r);
      }
      if (y, r) in keys {
        var i :| 0 <= i < |keys| && keys[i] == (y, r);
      }
    }
    forall p | p in pairs
      ensures p in keys
    {
      var i :| 0 <= i < |pairs| && pairs[i] == p;
    }
    CellsAreCounts(TrendOf(h, yearOf), keys, pairs);
    SumCountsCoversAll(keys, pairs);
  }

  lemma {:induction false} CellsAreCounts(trend: Trend, keys: seq<(Year, string)>, pairs: seq<(Year, string)>)
    requires forall y, r :: Cell(trend, y, r) == Count(pairs, (y, r))
    ensures SumCells(trend, keys) == SumCounts(keys, pairs)
    decreases |keys|
  {
    if |keys| > 0 {
      CellsAreCounts(trend, keys[1..], pairs);
    }
  }

  // ---------------------------------------------------------------------
  // allJobs and topRoles
  // ---------------------------------------------------------------------

  /** `Array.from(new Set(history.map(h => h.role)))`: the distinct roles, first appearance first. */
  function AllJobs(h: seq<Item>): (jobs: seq<string>)
    ensures Distinct(jobs)
    ensures forall r :: r in jobs <==> r in Roles(h)
    ensures forall i, j :: 0 <= i < j < |jobs| ==> FirstIndex(Roles(h), jobs[i]) < FirstIndex(Roles(h), jobs[j])
  {
    var roles := Roles(h);
    DedupFirstAppearance(roles);
    assert forall r :: r in Dedup(roles) ==> r in roles by {
      forall r | r in Dedup(roles) ensures r in roles {
        var i :| 0 <= i < |Dedup(roles)| && Dedup(roles)[i] == r;
      }
    }
    assert forall r :: r in roles ==> r in Dedup(roles) by {
      forall r | r in roles ensures r in Dedup(roles) {
        var i :| 0 <= i < |roles| && roles[i] == r;
      }
    }
    Dedup(roles)
  }

  /** `Object.entries` of the role tally: keys in insertion order, which is first appearance. */
  function Tallies(roles: seq<string>): (tallies: seq<(string, nat)>)
    ensures |tallies| == |Dedup(roles)|
    ensures forall i :: 0 <= i < |tallies| ==> tallies[i] == (Dedup(roles)[i], Count(roles, Dedup(roles)[i]))
  {
    var d := Dedup(roles);
    CountRolesCounts(roles);
    seq(|d|, i requires 0 <= i < |d| => (d[i], CountRoles(roles)[d[i]]))
  }

  function TallyCount(t: (string, nat)): int { t.1 }

  /** `slice(0, 3)` keeps at most this many roles. */
  const TOP_ROLES: nat := 3

  /** `topRoles`: the tally sorted by count, stably, cut to three, keys only. */
  function TopRoles(h: seq<Item>): (top: seq<string>)
    ensures |top| <= TOP_ROLES
  {
    var sorted := SortDesc(Tallies(Roles(h)), TallyCount);
    var n := if |sorted| < TOP_ROLES then |sorted| else TOP_ROLES;
    seq(n, i requires 0 <= i < n => sorted[i].0)
  }

  /** `a` is listed before `b` in the role ranking: more occurrences, or as many and seen earlier. */
  predicate RanksBefore(roles: seq<string>, a: string, b: string)
    requires a in roles && b in roles
  {
    Count(roles, a) > Count(roles, b)
    || (Count(roles, a) == Count(roles, b) && FirstIndex(roles, a) < FirstIndex(roles, b))
  }

  function FirstSeen(roles: seq<string>, t: (string, nat)): int {
    if t.0 in roles then FirstIndex(roles, t.0) else 0
  }

  /** The sorted tally: every role that occurs once, by count, ties by first appearance. */
  lemma SortedTallies(roles: seq<string>, sorted: seq<(string, nat)>)
    requires sorted == SortDesc(Tallies(roles), TallyCount)
    ensures forall i :: 0 <= i < |sorted| ==> sorted[i].0 in roles && sorted[i].1 == Count(roles, sorted[i].0)
    ensures forall r :: r in roles ==> (r, Count(roles, r)) in sorted
    ensures forall i, j :: 0 <= i < j < |sorted| ==> RanksBefore(roles, sorted[i].0, sorted[j].0)
  {
    var tallies := Tallies(roles);
    var d := Dedup(roles);
    var rank := t => FirstSeen(roles, t);
    DedupFirstAppearance(roles);
    assert TiesRanked(tallies, TallyCount, rank) by {
      forall i, j | 0 <= i < j < |tallies|
        ensures rank(tallies[i]) < rank(tallies[j])
      {
        assert tallies[i].0 == d[i] && tallies[j].0 == d[j];
      }
    }
    SortKeepsTieRanks(tallies, TallyCount, rank);
    forall i | 0 <= i < |sorted|
      ensures sorted[i].0 in roles && sorted[i].1 == Count(roles, sorted[i].0)
    {
      assert sorted[i] in multiset(tallies);
      var k :| 0 <= k < |tallies| && tallies[k] == sorted[i];
      assert d[k] in roles;
    }
    forall r | r in roles
      ensures (r, Count(roles, r)) in sorted
    {
      var k :| 0 <= k < |roles| && roles[k] == r;
      assert r in d;
      var m :| 0 <= m < |d| && d[m] == r;
      assert tallies[m] == (r, Count(roles, r));
      assert tallies[m] in multiset(sorted);
    }
    forall i, j | 0 <= i < j < |sorted|
      ensures RanksBefore(roles, sorted[i].0, sorted[j].0)
    {
      assert TallyCount(sorted[i]) >= TallyCount(sorted[j]);
    }
  }

  /** `topRoles` is the first keys of the sorted tally. */
  lemma TopRolesPrefix(h: seq<Item>, sorted: seq<(string, nat)>)
    requires sorted == SortDesc(Tallies(Roles(h)), TallyCount)
    ensures |TopRoles(h)| == if |sorted| < TOP_ROLES then |sorted| else TOP_ROLES
    ensures forall i :: 0 <= i < |TopRoles(h)| ==> TopRoles(h)[i] == sorted[i].0
  {
  }

  /**
   * `topRoles` holds at most three distinct roles of the history, ordered
   * by count and, on equal counts, by first appearance.
   */
  lemma TopRolesOrdered(h: seq<Item>)
    ensures forall i :: 0 <= i < |TopRoles(h)| ==> TopRoles(h)[i] in Roles(h)
    ensures Distinct(TopRoles(h))
    ensures forall i, j :: 0 <= i < j < |TopRoles(h)| ==> RanksBefore(Roles(h), TopRoles(h)[i], TopRoles(h)[j])
  {
    var roles := Roles(h);
    var sorted := SortDesc(Tallies(roles), TallyCount);
    var top := TopRoles(h);
    SortedTallies(roles, sorted);
    TopRolesPrefix(h, sorted);
    forall i, j | 0 <= i < j < |top|
      ensures top[i] != top[j]
    {
      assert RanksBefore(roles, sorted[i].0, sorted[j].0);
    }
  }

  /** A role of the history left out of `topRoles` ranks after all three kept. */
  lemma TopRolesLeaveOutOnlyLower(h: seq<Item>)
    ensures forall r :: r in Roles(h) && r !in TopRoles(h) ==>
      |TopRoles(h)| == TOP_ROLES && TopRoles(h)[TOP_ROLES - 1] in Roles(h)
      && RanksBefore(Roles(h), TopRoles(h)[TOP_ROLES - 1], r)
  {
    var roles := Roles(h);
    var sorted := SortDesc(Tallies(roles), TallyCount);
    var top := TopRoles(h);
    SortedTallies(roles, sorted);
    TopRolesPrefix(h, sorted);
    forall r | r in roles && r !in top
      ensures |top| == TOP_ROLES && top[TOP_ROLES - 1] in roles && RanksBefore(roles, top[TOP_ROLES - 1], r)
    {
      var k :| 0 <= k < |sorted| && sorted[k] == (r, Count(roles, r));
      assert k >= |top|;
      assert TOP_ROLES - 1 < k;
    }
  }

  // ---------------------------------------------------------------------
  // mostRecentYear and latestYearTrend
  // ---------------------------------------------------------------------

  /** `Math.max` of two years: NaN if either is NaN. */
  function MaxYear(a: Year, b: Year): Year {
    if a.Invalid? || b.Invalid? then Invalid
    else if a.value >= b.value then a else b
  }

  function Years(h: seq<Item>, yearOf: Option<string> -> Year): (years: seq<Year>)
    ensures |years| == |h| && forall i :: 0 <= i < |h| ==> years[i] == yearOf(h[i].createdAt)
  {
    seq(|h|, i requires 0 <= i < |h| => yearOf(h[i].createdAt))
  }

  /** `Math.max(...years)` over a non-empty list, left to right. */
  function Latest(years: seq<Year>): (m: Year)
    requires |years| > 0
    ensures m.Known? <==> forall i :: 0 <= i < |years| ==> years[i].Known?
    ensures m.Known? ==> m in years && forall i :: 0 <= i < |years| ==> years[i].value <= m.value
    decreases |years|
  {
    if |years| == 1 then years[0]
    else
      var init := years[..|years| - 1];
      assert forall i :: 0 <= i < |years| - 1 ==> years[i] == init[i];
      MaxYear(Latest(init), years[|years| - 1])
  }

  /** `mostRecentYear`: `null` for an empty history, else the largest year. */
  function MostRecentYear(h: seq<Item>, yearOf: Option<string> -> Year): (m: Option<Year>)
    ensures m.None? <==> |h| == 0
  {
    if |h| > 0 then Some(Latest(Years(h, yearOf))) else None
  }

  /** `year === mostRecentYear`: never true for `null`, nor for NaN. */
  predicate SameYear(year: Year, m: Option<Year>) {
    m.Some? && year.Known? && year == m.value
  }

  /** The roles of the items whose year is `m`, in history order. */
  function RolesIn(h: seq<Item>, yearOf: Option<string> -> Year, m: Option<Year>): seq<string>
    decreases |h|
  {
    if |h| == 0 then []
    else
      var last := h[|h| - 1];
      RolesIn(h[..|h| - 1], yearOf, m) + (if SameYear(yearOf(last.createdAt), m) then [last.role] else [])
  }

  /**
   * `latestYearTrend`: the role counts of the items of the most recent
   * year. Every role it lists is the role of some item, counted at least
   * once and at most once per item; an empty history lists nothing.
   */
  function LatestYearTrend(h: seq<Item>, yearOf: Option<string> -> Year): (t: map<string, nat>)
    ensures |h| == 0 ==> t == map[]
    ensures forall r :: r in t ==> 1 <= t[r] <= |h|
    ensures forall r :: r in t ==> exists i :: 0 <= i < |h| && h[i].role == r
  {
    var roles := RolesIn(h, yearOf, MostRecentYear(h, yearOf));
    RolesInFromHistory(h, yearOf, MostRecentYear(h, yearOf));
    CountRolesCounts(roles);
    forall r | r in CountRoles(roles)
      ensures 1 <= CountRoles(roles)[r] <= |h|
    {
      CountPositive(roles, r);
      CountAtMostLength(roles, r);
    }
    CountRoles(roles)
  }

  /** The items of one year are drawn from the history, in order. */
  lemma {:induction false} RolesInFromHistory(h: seq<Item>, yearOf: Option<string> -> Year, m: Option<Year>)
    ensures |RolesIn(h, yearOf, m)| <= |h|
    ensures forall r :: r in RolesIn(h, yearOf, m) ==> exists i :: 0 <= i < |h| && h[i].role == r
    decreases |h|
  {
    if |h| > 0 {
      var init := h[..|h| - 1];
      RolesInFromHistory(init, yearOf, m);
      forall r | r in RolesIn(h, yearOf, m)
        ensures exists i :: 0 <= i < |h| && h[i].role == r
      {
        if r in RolesIn(init, yearOf, m) {
          var i :| 0 <= i < |init| && init[i].role == r;
          assert h[i].role == r;
        } else {
          assert h[|h| - 1].role == r;
        }
      }
    }
  }

  /** A known year's row of `careerTrendData` counts the roles of that year's items. */
  lemma {:induction false} TrendRow(h: seq<Item>, yearOf: Option<string> -> Year, y: int)
    ensures Known(y) in TrendOf(h, yearOf) ==> TrendOf(h, yearOf)[Known(y)] == CountRoles(RolesIn(h, yearOf, Some(Known(y))))
    ensures Known(y) !in TrendOf(h, yearOf) ==> RolesIn(h, yearOf, Some(Known(y))) == []
    decreases |h|
  {
    if |h| > 0 {
      var init := h[..|h| - 1];
      TrendRow(init, yearOf, y);
      var last := h[|h| - 1];
      TrendRowStep(TrendOf(init, yearOf), RolesIn(init, yearOf, Some(Known(y))), yearOf(last.createdAt), last.role, y);
    }
  }

  /** One more item keeps a year's row equal to the tally of that year's roles. */
  lemma TrendRowStep(trend: Trend, rs: seq<string>, year: Year, role: string, y: int)
    requires Known(y) in trend ==> trend[Known(y)] == CountRoles(rs)
    requires Known(y) !in trend ==> rs == []
    ensures var next := BumpTrend(trend, year, role);
      var rs' := rs + (if year == Known(y) then [role] else []);
      (Known(y) in next ==> next[Known(y)] == CountRoles(rs')) && (Known(y) !in next ==> rs' == [])
  {
    if year == Known(y) {
      assert (rs + [role])[..|rs|] == rs;
      assert CountRoles(rs + [role]) == Bump(CountRoles(rs), role);
    } else {
      assert rs + [] == rs;
    }
  }

  /**
   * `latestYearTrend` is `careerTrendData[mostRecentYear]` when every date
   * parses; it is empty for an empty history and whenever some date is
   * unparseable (NaN is then the maximum and equals nothing).
   */
  lemma LatestYearIsTrendRow(h: seq<Item>, yearOf: Option<string> -> Year)
    ensures |h| == 0 ==> LatestYearTrend(h, yearOf) == map[]
    ensures (forall i :: 0 <= i < |h| ==> yearOf(h[i].createdAt).Known?) && |h| > 0 ==>
      var y := MostRecentYear(h, yearOf).value;
      y in TrendOf(h, yearOf) && LatestYearTrend(h, yearOf) == TrendOf(h, yearOf)[y]
    ensures (exists i :: 0 <= i < |h| && yearOf(h[i].createdAt).Invalid?) ==> LatestYearTrend(h, yearOf) == map[]
  {
    if |h| > 0 {
      var years := Years(h, yearOf);
      var m := Latest(years);
      if m.Known? {
        TrendYears(h, yearOf);
        TrendRow(h, yearOf, m.value);
      } else {
        NaNMatchesNothing(h, yearOf);
      }
    }
  }

  lemma {:induction false} NaNMatchesNothing(h: seq<Item>, yearOf: Option<string> -> Year)
    ensures RolesIn(h, yearOf, Some(Invalid)) == []
    decreases |h|
  {
    if |h| > 0 {
      NaNMatchesNothing(h[..|h| - 1], yearOf);
    }
  }

  /** The distinct roles of `a, a, b`. */
  lemma DedupOfAAB(a: string, b: string)
    requires a != b
    ensures Dedup([a, a, b]) == [a, b]
  {
    var s := [a, a, b];
    assert s[..2] == [a, a] && s[..2][..1] == [a] && [a][..0] == [];
    assert Dedup([a]) == [a];
    assert Dedup([a, a]) == [a];
  }

  /** The role tally of `a, a, b`. */
  lemma TallyOfAAB(a: string, b: string)
    requires a != b
    ensures CountRoles([a, a, b]) == map[a := 2, b := 1]
  {
    var s := [a, a, b];
    assert s[..2] == [a, a] && s[..2][..1] == [a] && [a][..0] == [];
    assert CountRoles([a]) == map[a := 1];
    assert CountRoles([a, a]) == map[a := 2];
  }

  /** Three records with roles `a`, `a`, `b`: the top roles are `a` then `b`. */
  lemma ThreeRecordsTopRoles(h: seq<Item>, a: string, b: string)
    requires |h| == 3 && a != b
    requires h[0].role == a && h[1].role == a && h[2].role == b
    ensures TopRoles(h) == [a, b]
  {
    var roles := Roles(h);
    assert roles == [a, a, b];
    TalliesOfAAB(a, b);
    SortOfSorted(Tallies(roles), TallyCount);
  }

  /** The tally of `a, a, b`, in first-appearance order. */
  lemma TalliesOfAAB(a: string, b: string)
    requires a != b
    ensures Tallies([a, a, b]) == [(a, 2), (b, 1)]
  {
    var roles := [a, a, b];
    DedupOfAAB(a, b);
    assert roles[..2] == [a, a] && [a, a][..1] == [a] && [a][..0] == [];
    assert Count([a], a) == 1 && Count([a], b) == 0;
    assert Count([a, a], a) == 2 && Count([a, a], b) == 0;
  }

  /**
   * Three records of one year with roles `a`, `a`, `b`: the latest year
   * counts `a` twice and `b` once.
   */
  lemma ThreeRecordsOneYear(h: seq<Item>, yearOf: Option<string> -> Year, a: string, b: string, y: int)
    requires |h| == 3 && a != b
    requires h[0].role == a && h[1].role == a && h[2].role == b
    requires forall i :: 0 <= i < 3 ==> yearOf(h[i].createdAt) == Known(y)
    ensures LatestYearTrend(h, yearOf) == map[a := 2, b := 1]
  {
    assert MostRecentYear(h, yearOf) == Some(Known(y)) by {
      var years := Years(h, yearOf);
      assert years == [Known(y), Known(y), Known(y)];
      assert years[..2] == [Known(y), Known(y)] && years[..2][..1] == [Known(y)];
    }
    assert RolesIn(h, yearOf, Some(Known(y))) == [a, a, b] by {
      var m := Some(Known(y));
      assert h[..2][..1] == h[..1] && h[..1][..0] == [] && h[..1][0] == h[0] && h[..2][1] == h[1];
      assert RolesIn(h[..1], yearOf, m) == [a];
      assert RolesIn(h[..2], yearOf, m) == [a, a];
    }
    TallyOfAAB(a, b);
  }

  // ---------------------------------------------------------------------
  // The predict form
  // ---------------------------------------------------------------------

  /** The body `handlePredict` posts. */
  datatype Payload = Payload(
    degree: string,
    specialization: string,
    university: string,
    graduation_year: real,
    cgpa: real,
    skills: seq<string>)

  /**
   * `handlePredict` up to the request: any empty field stops it with
   * "Please fill all fields"; otherwise the payload carries the form values,
   * the numbers converted and the specialization as the only skill.
   */
  function HandlePredict(degree: string, specialization: string, university: string,
                         graduationYear: string, cgpa: string, parse: string -> real): (r: Result<Payload, string>)
    ensures r.Err? <==> degree == "" || specialization == "" || university == "" || graduationYear == "" || cgpa == ""
    ensures r.Err? ==> r.error == "Please fill all fields"
    ensures r.Ok? ==> r.value.skills == [specialization]
    ensures r.Ok? ==> r.value.degree == degree && r.value.specialization == specialization
    ensures r.Ok? ==> r.value.university == university
    ensures r.Ok? ==> r.value.graduation_year == parse(graduationYear) && r.value.cgpa == parse(cgpa)
  {
    if degree == "" || specialization == "" || university == "" || graduationYear == "" || cgpa == "" then
      Err("Please fill all fields")
    else
      Ok(Payload(degree, specialization, university, parse(graduationYear), parse(cgpa), [specialization]))
  }
}
