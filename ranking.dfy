/**
 * The ranking phase of `predictJob` in server/server.js: the score table's
 * entries, in key-insertion (catalogue) order, are stably sorted by score
 * descending, the first three are kept and each score is capped at 100.
 */
module Ranking {
  import opened Scoring
  import opened StableSort

  /** One `[job, score]` pair of `Object.entries(predictions)`. */
  datatype Entry = Entry(role: Role, score: int)

  /** One `{ job, confidence }` object of the result. */
  datatype Guess = Guess(job: Role, confidence: int)

  /** The returned `{ primary, alternatives }` object. */
  datatype Prediction = Prediction(primary: Guess, alternatives: seq<Guess>)

  /** How many entries `slice(0, 3)` keeps. */
  const TOP_N: nat := 3

  function ScoreOf(e: Entry): int { e.score }

  function CatalogRank(e: Entry): int { Index(e.role) }

  /**
   * `Object.entries(predictions)`: the keys are not integer-like, so they come
   * back in insertion order, which is the catalogue order.
   */
  function Entries(table: map<Role, int>): (es: seq<Entry>)
    requires Complete(table)
    ensures |es| == CATALOG_SIZE
    ensures forall i :: 0 <= i < |es| ==> es[i] == Entry(Catalog[i], table[Catalog[i]])
  {
    seq(CATALOG_SIZE, i requires 0 <= i < CATALOG_SIZE => Entry(Catalog[i], table[Catalog[i]]))
  }

  /** `.sort((a, b) => b[1] - a[1])`, a stable sort. */
  function Ranked(table: map<Role, int>): (ranked: seq<Entry>)
    requires Complete(table)
    ensures |ranked| == CATALOG_SIZE
  {
    SortDesc(Entries(table), ScoreOf)
  }

  /** `Math.min(100, score)`. */
  function Clamp(score: int): (c: int)
    ensures c <= 100 && c <= score
    ensures c == score || c == 100
  {
    if 100 <= score then 100 else score
  }

  function ToGuess(e: Entry): Guess {
    Guess(e.role, Clamp(e.score))
  }

  /** The top three entries as guesses: the first is primary, the rest are alternatives. */
  function Rank(table: map<Role, int>): (p: Prediction)
    requires Complete(table)
    ensures |p.alternatives| == TOP_N - 1
  {
    var top := Ranked(table)[..TOP_N];
    var guesses := seq(TOP_N, i requires 0 <= i < TOP_N => ToGuess(top[i]));
    Prediction(guesses[0], guesses[1..])
  }

  /** All three guesses, primary first. */
  function Guesses(p: Prediction): seq<Guess> {
    [p.primary] + p.alternatives
  }

  /** What `predictJob` returns for a submission. */
  function Predicted(e: Education): Prediction {
    Rank(Scores(e))
  }

  /** `predictJob`: the imperative scoring phase followed by the ranking pipeline. */
  method PredictJob(e: Education) returns (p: Prediction)
    ensures p == Predicted(e)
  {
    var predictions := ComputeScores(e);
    p := Rank(predictions);
  }

  // ---------------------------------------------------------------------
  // The order the ranking follows
  // ---------------------------------------------------------------------

  /** `a` is listed before `b`: a higher score, or an equal score and an earlier catalogue position. */
  predicate Precedes(table: map<Role, int>, a: Role, b: Role)
    requires Complete(table)
  {
    table[a] > table[b] || (table[a] == table[b] && Index(a) < Index(b))
  }

  /** `Precedes` is a strict total order on roles. */
  lemma PrecedesIsStrictTotal(table: map<Role, int>, a: Role, b: Role, c: Role)
    requires Complete(table)
    ensures !Precedes(table, a, a)
    ensures a != b ==> (Precedes(table, a, b) <==> !Precedes(table, b, a))
    ensures Precedes(table, a, b) && Precedes(table, b, c) ==> Precedes(table, a, c)
  {
    assert Catalog[Index(a)] == a && Catalog[Index(b)] == b;
  }

  /** The entries, in catalogue order, tie-ranked by catalogue position. */
  lemma EntriesTiesRanked(table: map<Role, int>)
    requires Complete(table)
    ensures TiesRanked(Entries(table), ScoreOf, CatalogRank)
  {
    var es := Entries(table);
    CatalogIsEnumeration();
    forall i, j | 0 <= i < j < |es| && ScoreOf(es[i]) == ScoreOf(es[j])
      ensures CatalogRank(es[i]) < CatalogRank(es[j])
    {
      assert CatalogRank(es[i]) == Index(Catalog[i]) == i;
      assert CatalogRank(es[j]) == Index(Catalog[j]) == j;
    }
  }

  /**
   * The sorted entries list every role once, with its score, ordered by
   * score descending and, on equal scores, by catalogue position.
   */
  lemma {:induction false} RankedOrder(table: map<Role, int>)
    requires Complete(table)
    ensures forall i :: 0 <= i < |Ranked(table)| ==> Ranked(table)[i].score == table[Ranked(table)[i].role]
    ensures forall r: Role :: Entry(r, table[r]) in Ranked(table)
    ensures forall i, j :: 0 <= i < j < |Ranked(table)| ==>
      Precedes(table, Ranked(table)[i].role, Ranked(table)[j].role)
  {
    var es := Entries(table);
    var ranked := Ranked(table);
    EntriesTiesRanked(table);
    SortKeepsTieRanks(es, ScoreOf, CatalogRank);
    forall i | 0 <= i < |ranked|
      ensures ranked[i].score == table[ranked[i].role]
    {
      assert ranked[i] in multiset(es);
    }
    forall r: Role
      ensures Entry(r, table[r]) in ranked
    {
      assert es[Index(r)] == Entry(r, table[r]);
      assert Entry(r, table[r]) in multiset(ranked);
    }
    forall i, j | 0 <= i < j < |ranked|
      ensures Precedes(table, ranked[i].role, ranked[j].role)
    {
      assert ScoreOf(ranked[i]) >= ScoreOf(ranked[j]);
    }
  }

  /** `a`, `b`, `c` are listed first, in this order, and every other role after them. */
  predicate IsTopThree(table: map<Role, int>, a: Role, b: Role, c: Role)
    requires Complete(table)
  {
    Precedes(table, a, b) && Precedes(table, b, c)
    && forall r: Role :: r != a && r != b && r != c ==> Precedes(table, c, r)
  }

  /**
   * The result holds the three highest-ranked roles, in rank order, each
   * with its score capped at 100.
   */
  lemma {:induction false} RankIsTopThree(table: map<Role, int>)
    requires Complete(table)
    ensures IsTopThree(table, Rank(table).primary.job, Rank(table).alternatives[0].job, Rank(table).alternatives[1].job)
    ensures forall g :: g in Guesses(Rank(table)) ==> g.confidence == Clamp(table[g.job])
  {
    var ranked := Ranked(table);
    var p := Rank(table);
    RankedOrder(table);
    assert p.primary == ToGuess(ranked[0]);
    assert p.alternatives == [ToGuess(ranked[1]), ToGuess(ranked[2])];
    ThirdPrecedesRest(table);
  }

  /** Every role outside the first three sorted entries comes after the third. */
  lemma ThirdPrecedesRest(table: map<Role, int>)
    requires Complete(table)
    ensures forall r: Role :: r != Ranked(table)[0].role && r != Ranked(table)[1].role && r != Ranked(table)[2].role ==>
      Precedes(table, Ranked(table)[2].role, r)
  {
    var ranked := Ranked(table);
    RankedOrder(table);
    forall r: Role | r != ranked[0].role && r != ranked[1].role && r != ranked[2].role
      ensures Precedes(table, ranked[2].role, r)
    {
      var k :| 0 <= k < |ranked| && ranked[k] == Entry(r, table[r]);
      assert 2 < k;
    }
  }

  /** The top three are distinct, and each precedes every role listed after it. */
  lemma TopThreePrecedes(table: map<Role, int>, a: Role, b: Role, c: Role)
    requires Complete(table)
    requires IsTopThree(table, a, b, c)
    ensures a != b && b != c && a != c
    ensures forall r: Role :: r != a ==> Precedes(table, a, r)
    ensures forall r: Role :: r != a && r != b ==> Precedes(table, b, r)
  {
    PrecedesIsStrictTotal(table, a, b, c);
    PrecedesIsStrictTotal(table, b, c, a);
    PrecedesIsStrictTotal(table, c, a, b);
    forall r: Role | r != a && r != b && r != c
      ensures Precedes(table, a, r) && Precedes(table, b, r)
    {
      PrecedesIsStrictTotal(table, b, c, r);
      PrecedesIsStrictTotal(table, a, b, r);
    }
  }

  /** At most one triple of roles is the top three. */
  lemma TopThreeUnique(table: map<Role, int>, a: Role, b: Role, c: Role, x: Role, y: Role, z: Role)
    requires Complete(table)
    requires IsTopThree(table, a, b, c) && IsTopThree(table, x, y, z)
    ensures a == x && b == y && c == z
  {
    SameFirst(table, a, b, c, x, y, z);
    SameSecond(table, a, b, c, y, z);
    SameThird(table, a, b, c, z);
  }

  lemma SameFirst(table: map<Role, int>, a: Role, b: Role, c: Role, x: Role, y: Role, z: Role)
    requires Complete(table)
    requires IsTopThree(table, a, b, c) && IsTopThree(table, x, y, z)
    ensures a == x
  {
    TopThreePrecedes(table, a, b, c);
    TopThreePrecedes(table, x, y, z);
    PrecedesIsStrictTotal(table, a, x, a);
  }

  lemma SameSecond(table: map<Role, int>, a: Role, b: Role, c: Role, y: Role, z: Role)
    requires Complete(table)
    requires IsTopThree(table, a, b, c) && IsTopThree(table, a, y, z)
    ensures b == y
  {
    TopThreePrecedes(table, a, b, c);
    TopThreePrecedes(table, a, y, z);
    PrecedesIsStrictTotal(table, b, y, b);
  }

  lemma SameThird(table: map<Role, int>, a: Role, b: Role, c: Role, z: Role)
    requires Complete(table)
    requires IsTopThree(table, a, b, c) && IsTopThree(table, a, b, z)
    ensures c == z
  {
    TopThreePrecedes(table, a, b, c);
    TopThreePrecedes(table, a, b, z);
    PrecedesIsStrictTotal(table, c, z, c);
  }

  /**
   * The ranking by reference: whenever `a`, `b`, `c` come first, in this
   * order, the result is exactly those three with their capped scores.
   */
  lemma RankCharacterised(table: map<Role, int>, a: Role, b: Role, c: Role)
    requires Complete(table)
    requires IsTopThree(table, a, b, c)
    ensures Rank(table)
         == Prediction(Guess(a, Clamp(table[a])), [Guess(b, Clamp(table[b])), Guess(c, Clamp(table[c]))])
  {
    var p := Rank(table);
    RankIsTopThree(table);
    TopThreeUnique(table, a, b, c, p.primary.job, p.alternatives[0].job, p.alternatives[1].job);
    assert p.primary in Guesses(p);
    assert p.alternatives[0] in Guesses(p);
    assert p.alternatives[1] in Guesses(p);
  }

  /** Confidences never increase along the result, so the primary's is the largest. */
  lemma ConfidenceNonIncreasing(table: map<Role, int>)
    requires Complete(table)
    ensures Rank(table).primary.confidence >= Rank(table).alternatives[0].confidence
    ensures Rank(table).alternatives[0].confidence >= Rank(table).alternatives[1].confidence
  {
    var p := Rank(table);
    RankIsTopThree(table);
    assert p.primary in Guesses(p);
    assert p.alternatives[0] in Guesses(p);
    assert p.alternatives[1] in Guesses(p);
  }

  /** Every reported confidence lies in [0, 100]. */
  lemma ConfidenceInRange(e: Education)
    ensures forall g :: g in Guesses(Predicted(e)) ==> 0 <= g.confidence <= 100
  {
    ScoresNonNegative(e);
    RankIsTopThree(Scores(e));
  }

  /** With every field absent all scores tie at 0, so the first three catalogue roles win. */
  lemma NoInputPrediction()
    ensures Predicted(NoInput)
         == Prediction(Guess(SoftwareEngineer, 0), [Guess(DataScientist, 0), Guess(ProductManager, 0)])
  {
    NoInputScoresZero();
    ZeroTableComplete();
    assert IsTopThree(ZeroTable, SoftwareEngineer, DataScientist, ProductManager);
    RankCharacterised(ZeroTable, SoftwareEngineer, DataScientist, ProductManager);
  }
}
