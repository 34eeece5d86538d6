/**
 * The JavaScript string operations the core relies on: `toLowerCase`,
 * `includes`, `trim`, `split(',')` and `join`.
 * Lower-casing covers ASCII letters only; trimming covers the ASCII white
 * space characters plus NO-BREAK SPACE and the byte order mark.
 */
module Text {

  function LowerChar(c: char): char {
    if 'A' <= c <= 'Z' then (c as int + 32) as char else c
  }

  /** `s.toLowerCase()` */
  function Lower(s: string): string {
    seq(|s|, i requires 0 <= i < |s| => LowerChar(s[i]))
  }

  predicate StartsWith(s: string, prefix: string) {
    |prefix| <= |s| && s[..|prefix|] == prefix
  }

  /** `s.includes(sub)`, searched from the left. */
  predicate Contains(s: string, sub: string)
    decreases |s|
  {
    StartsWith(s, sub) || (|s| > 0 && Contains(s[1..], sub))
  }

  /** `sub` occurs in `s` starting at position `i`. */
  predicate OccursAt(s: string, sub: string, i: int) {
    0 <= i <= |s| - |sub| && s[i..i + |sub|] == sub
  }

  /** `includes` holds exactly when `sub` occurs at some position of `s`. */
  lemma {:induction false} ContainsIffOccurs(s: string, sub: string)
    ensures Contains(s, sub) <==> exists i :: OccursAt(s, sub, i)
    decreases |s|
  {
    if |s| > 0 {
      ContainsIffOccurs(s[1..], sub);
      if Contains(s[1..], sub) {
        var i :| OccursAt(s[1..], sub, i);
        assert s[i + 1..i + 1 + |sub|] == sub;
        assert OccursAt(s, sub, i + 1);
      }
      if exists i :: OccursAt(s, sub, i) {
        var i :| OccursAt(s, sub, i);
        if i == 0 {
          assert StartsWith(s, sub);
        } else {
          assert s[1..][i - 1..i - 1 + |sub|] == sub;
          assert OccursAt(s[1..], sub, i - 1);
        }
      }
      if StartsWith(s, sub) {
        assert OccursAt(s, sub, 0);
      }
    } else {
      if exists i :: OccursAt(s, sub, i) {
        assert |sub| == 0 && StartsWith(s, sub);
      }
      if Contains(s, sub) {
        assert OccursAt(s, sub, 0);
      }
    }
  }

  /** A character of `sub` that `s` lacks rules `sub` out. */
  lemma NotContained(s: string, sub: string, k: nat, c: char)
    requires k < |sub| && sub[k] == c
    requires c !in s
    ensures !Contains(s, sub)
  {
    ContainsIffOccurs(s, sub);
    forall i | OccursAt(s, sub, i)
      ensures false
    {
    }
  }

  /** A `sub` longer than `s` never occurs in it. */
  lemma LongerNotContained(s: string, sub: string)
    requires |s| < |sub|
    ensures !Contains(s, sub)
  {
    ContainsIffOccurs(s, sub);
  }

  /** The characters `String.prototype.trim` removes, as far as this model goes. */
  predicate IsSpace(c: char) {
    c == ' ' || c == '\t' || c == '\n' || c == '\r' || c == '\U{000B}' || c == '\U{000C}'
    || c == '\U{00A0}' || c == '\U{FEFF}'
  }

  function TrimStart(s: string): (r: string)
    ensures |r| <= |s|
    decreases |s|
  {
    if |s| > 0 && IsSpace(s[0]) then TrimStart(s[1..]) else s
  }

  function TrimEnd(s: string): (r: string)
    ensures |r| <= |s|
    decreases |s|
  {
    if |s| > 0 && IsSpace(s[|s| - 1]) then TrimEnd(s[..|s| - 1]) else s
  }

  /** `s.trim()` */
  function Trim(s: string): string {
    TrimEnd(TrimStart(s))
  }

  /** A string that `trim` leaves as it is. */
  predicate IsTrimmed(s: string) {
    |s| == 0 || (!IsSpace(s[0]) && !IsSpace(s[|s| - 1]))
  }

  lemma {:induction false} TrimStartShape(s: string)
    ensures |TrimStart(s)| == 0 || !IsSpace(TrimStart(s)[0])
    ensures TrimStart(s) == s[|s| - |TrimStart(s)|..]
    decreases |s|
  {
    if |s| > 0 && IsSpace(s[0]) {
      TrimStartShape(s[1..]);
    }
  }

  lemma {:induction false} TrimEndShape(s: string)
    ensures |TrimEnd(s)| == 0 || !IsSpace(TrimEnd(s)[|TrimEnd(s)| - 1])
    ensures TrimEnd(s) == s[..|TrimEnd(s)|]
    decreases |s|
  {
    if |s| > 0 && IsSpace(s[|s| - 1]) {
      TrimEndShape(s[..|s| - 1]);
      assert s[..|s| - 1][..|TrimEnd(s)|] == s[..|TrimEnd(s)|];
    }
  }

  /** `trim` returns a trimmed string, and trimming again changes nothing. */
  lemma TrimIsTrimmed(s: string)
    ensures IsTrimmed(Trim(s))
    ensures Trim(Trim(s)) == Trim(s)
  {
    var t := TrimStart(s);
    TrimStartShape(s);
    TrimEndShape(t);
    var u := TrimEnd(t);
    if |u| > 0 {
      assert u[0] == t[0];
    }
    TrimOfTrimmed(u);
  }

  /** A trimmed string is its own `trim`. */
  lemma TrimOfTrimmed(s: string)
    requires IsTrimmed(s)
    ensures Trim(s) == s
  {
    assert TrimStart(s) == s;
    assert TrimEnd(s) == s;
  }

  /** Leading white space does not survive `trim`. */
  lemma {:induction false} TrimLeadingSpace(c: char, s: string)
    requires IsSpace(c)
    ensures Trim([c] + s) == Trim(s)
  {
    assert ([c] + s)[1..] == s;
  }

  /**
   * `s.split(c)` for a one-character separator: the pieces between
   * occurrences of `c`, always at least one piece (`"".split(',')` is `[""]`).
   */
  function Split(s: string, c: char): (parts: seq<string>)
    ensures |parts| >= 1
    decreases |s|
  {
    if |s| == 0 then [""]
    else
      var rest := Split(s[1..], c);
      if s[0] == c then [""] + rest
      else [[s[0]] + rest[0]] + rest[1..]
  }

  /** `parts.join(sep)` */
  function Join(parts: seq<string>, sep: string): string
    decreases |parts|
  {
    if |parts| == 0 then ""
    else if |parts| == 1 then parts[0]
    else parts[0] + sep + Join(parts[1..], sep)
  }

  function TrimAll(parts: seq<string>): (r: seq<string>)
    ensures |r| == |parts|
    ensures forall i :: 0 <= i < |parts| ==> r[i] == Trim(parts[i])
  {
    seq(|parts|, i requires 0 <= i < |parts| => Trim(parts[i]))
  }

  /** Splitting a separator-free prefix followed by more text. */
  lemma {:induction false} SplitPrefix(a: string, rest: string, c: char)
    requires c !in a
    ensures Split(a + rest, c)[0] == a + Split(rest, c)[0]
    ensures Split(a + rest, c)[1..] == Split(rest, c)[1..]
    decreases |a|
  {
    if |a| > 0 {
      assert (a + rest)[1..] == a[1..] + rest;
      SplitPrefix(a[1..], rest, c);
      assert [a[0]] + (a[1..] + Split(rest, c)[0]) == a + Split(rest, c)[0];
    } else {
      assert a + rest == rest;
    }
  }

  /** A separator-free string splits into itself alone. */
  lemma SplitNoSeparator(a: string, c: char)
    requires c !in a
    ensures Split(a, c) == [a]
  {
    SplitPrefix(a, "", c);
    assert a + "" == a;
  }

  /** Splitting at a separator that follows a separator-free prefix. */
  lemma SplitAtSeparator(a: string, rest: string, c: char)
    requires c !in a
    ensures Split(a + [c] + rest, c) == [a] + Split(rest, c)
  {
    SplitPrefix(a, [c] + rest, c);
    assert a + [c] + rest == a + ([c] + rest);
    assert ([c] + rest)[1..] == rest;
    assert Split([c] + rest, c) == [""] + Split(rest, c);
    assert a + "" == a;
  }

  /**
   * Round trip between the client, which sends a skill list joined with
   * `", "`, and the server, which splits on `','` and trims every piece:
   * a non-empty list of trimmed, comma-free tokens comes back unchanged.
   */
  lemma {:induction false} SplitTrimJoinRoundTrip(tokens: seq<string>)
    requires |tokens| >= 1
    requires forall i :: 0 <= i < |tokens| ==> ',' !in tokens[i] && IsTrimmed(tokens[i])
    ensures TrimAll(Split(Join(tokens, ", "), ',')) == tokens
    decreases |tokens|
  {
    if |tokens| == 1 {
      SplitNoSeparator(tokens[0], ',');
      TrimOfTrimmed(tokens[0]);
    } else {
      var tail := Join(tokens[1..], ", ");
      assert Join(tokens, ", ") == tokens[0] + [','] + (" " + tail);
      SplitAtSeparator(tokens[0], " " + tail, ',');
      SplitTrimJoinRoundTrip(tokens[1..]);
      LeadingSpaceTrimmedAway(tail);
      TrimOfTrimmed(tokens[0]);
      assert TrimAll(Split(Join(tokens, ", "), ',')) == [tokens[0]] + TrimAll(Split(" " + tail, ','));
    }
  }

  /** The space after each comma of the joined text disappears once every piece is trimmed. */
  lemma LeadingSpaceTrimmedAway(tail: string)
    ensures TrimAll(Split(" " + tail, ',')) == TrimAll(Split(tail, ','))
  {
    SplitPrefix(" ", tail, ',');
    var ps := Split(tail, ',');
    var qs := Split(" " + tail, ',');
    assert |qs| == |ps|;
    forall i | 0 <= i < |ps|
      ensures Trim(qs[i]) == Trim(ps[i])
    {
      if i == 0 {
        TrimLeadingSpace(' ', ps[0]);
      } else {
        assert qs[i] == qs[1..][i - 1] == ps[1..][i - 1];
      }
    }
  }
}
