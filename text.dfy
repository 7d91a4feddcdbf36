/**
 * String primitives shared by the rule checkers: substring tests, ASCII case
 * folding, splitting on a separator, trimming and decimal rendering.
 * Strings are `seq<char>`; character classes are ASCII-only.
 */
module Text {

  /** `p` occurs in `s` starting at index `i`. */
  predicate OccursAt(s: string, p: string, i: int) {
    0 <= i && i + |p| <= |s| && s[i..i + |p|] == p
  }

  /** Rust `str::contains` / Python `in` on strings. */
  predicate Contains(s: string, p: string) {
    exists i | 0 <= i <= |s| - |p| :: OccursAt(s, p, i)
  }

  /** Rust `str::starts_with`. */
  predicate StartsWith(s: string, p: string) {
    OccursAt(s, p, 0)
  }

  /** `p` is contained in at least one of `ps` applied to `s`: `patterns.iter().any(|p| s.contains(p))`. */
  predicate ContainsAny(s: string, ps: seq<string>) {
    exists k | 0 <= k < |ps| :: Contains(s, ps[k])
  }

  lemma ContainsWitness(s: string, p: string, i: int)
    requires OccursAt(s, p, i)
    ensures Contains(s, p)
  {
  }

  /** Every character of an occurrence is a character of `s`. */
  lemma ContainsChar(s: string, p: string, j: int)
    requires Contains(s, p) && 0 <= j < |p|
    ensures p[j] in s
  {
    var i :| 0 <= i <= |s| - |p| && OccursAt(s, p, i);
    assert s[i..i + |p|][j] == s[i + j];
  }

  /** A pattern holding a character absent from `s` is not contained in it. */
  lemma NotContainedByChar(s: string, p: string, j: int)
    requires 0 <= j < |p| && p[j] !in s
    ensures !Contains(s, p)
  {
    if Contains(s, p) {
      ContainsChar(s, p, j);
    }
  }

  /** Every pattern of `ps` is non-empty and starts with a character absent from `s`. */
  lemma NoneContainedByLead(s: string, ps: seq<string>)
    requires forall k | 0 <= k < |ps| :: |ps[k]| > 0 && ps[k][0] !in s
    ensures !ContainsAny(s, ps)
  {
    forall k | 0 <= k < |ps|
      ensures !Contains(s, ps[k])
    {
      NotContainedByChar(s, ps[k], 0);
    }
  }

  lemma ContainsInMiddle(a: string, p: string, b: string)
    ensures Contains(a + p + b, p)
  {
    assert (a + p + b)[|a|..|a| + |p|] == p;
    ContainsWitness(a + p + b, p, |a|);
  }

  // ---------------------------------------------------------------- case

  predicate IsUpper(c: char) {
    'A' <= c <= 'Z'
  }

  function LowerChar(c: char): (r: char)
    ensures !IsUpper(r)
    ensures !IsUpper(c) ==> r == c
  {
    if IsUpper(c) then (c as int + 32) as char else c
  }

  /** `to_lowercase` / `str.lower()`, restricted to the ASCII letters. */
  function ToLower(s: string): (r: string)
    ensures |r| == |s|
    ensures forall i | 0 <= i < |s| :: r[i] == LowerChar(s[i])
  {
    seq(|s|, i requires 0 <= i < |s| => LowerChar(s[i]))
  }

  predicate IsLower(s: string) {
    forall i | 0 <= i < |s| :: !IsUpper(s[i])
  }

  lemma LowerIsLower(s: string)
    ensures IsLower(ToLower(s))
  {
  }

  /** Lowercasing is idempotent and leaves already-lowercase text alone. */
  lemma LowerFixesLower(s: string)
    requires IsLower(s)
    ensures ToLower(s) == s
  {
  }

  lemma ToLowerAppend(a: string, b: string)
    ensures ToLower(a + b) == ToLower(a) + ToLower(b)
  {
  }

  // ---------------------------------------------------------------- classes

  /** ASCII white space: the part of `char::is_whitespace` / regex `\s` the model covers. */
  predicate IsSpace(c: char) {
    c == ' ' || c == '\t' || c == '\n' || c == '\r' || c == '\U{B}' || c == '\U{C}'
  }

  predicate IsDigit(c: char) {
    '0' <= c <= '9'
  }

  /** Regex `\w`, ASCII part. */
  predicate IsWordChar(c: char) {
    'a' <= c <= 'z' || 'A' <= c <= 'Z' || IsDigit(c) || c == '_'
  }

  /** End of the maximal run of white space starting at `i`. */
  function SpaceRunEnd(s: string, i: nat): (j: nat)
    requires i <= |s|
    ensures i <= j <= |s|
    ensures forall t | i <= t < j :: IsSpace(s[t])
    ensures j == |s| || !IsSpace(s[j])
    decreases |s| - i
  {
    if i < |s| && IsSpace(s[i]) then SpaceRunEnd(s, i + 1) else i
  }

  /** End of the maximal run of decimal digits starting at `i`. */
  function DigitRunEnd(s: string, i: nat): (j: nat)
    requires i <= |s|
    ensures i <= j <= |s|
    ensures forall t | i <= t < j :: IsDigit(s[t])
    ensures j == |s| || !IsDigit(s[j])
    decreases |s| - i
  {
    if i < |s| && IsDigit(s[i]) then DigitRunEnd(s, i + 1) else i
  }

  // ---------------------------------------------------------------- split / join

  /** `str::split(sep)`: the pieces between occurrences of `sep`, always at least one. */
  function Split(s: string, sep: char): (parts: seq<string>)
    ensures |parts| >= 1
    ensures forall k | 0 <= k < |parts| :: sep !in parts[k]
    decreases |s|
  {
    if |s| == 0 then [""]
    else
      var rest := Split(s[1..], sep);
      if s[0] == sep then [""] + rest
      else [[s[0]] + rest[0]] + rest[1..]
  }

  /** `parts.join(sep)`. */
  function Join(parts: seq<string>, sep: char): string
    requires |parts| >= 1
  {
    if |parts| == 1 then parts[0] else parts[0] + [sep] + Join(parts[1..], sep)
  }

  lemma {:induction false} JoinSplit(s: string, sep: char)
    ensures Join(Split(s, sep), sep) == s
    decreases |s|
  {
    if |s| > 0 {
      var rest := Split(s[1..], sep);
      JoinSplit(s[1..], sep);
      if s[0] == sep {
        assert s == [sep] + s[1..];
      } else {
        var parts := Split(s, sep);
        assert parts[1..] == rest[1..];
        if |rest| == 1 {
          assert s == [s[0]] + rest[0];
        } else {
          assert Join(rest, sep) == rest[0] + [sep] + Join(rest[1..], sep);
          assert s == [s[0]] + rest[0] + [sep] + Join(rest[1..], sep);
        }
      }
    }
  }

  /** Splitting a join of separator-free pieces gives the pieces back. */
  lemma {:induction false} SplitJoin(parts: seq<string>, sep: char)
    requires |parts| >= 1
    requires forall k | 0 <= k < |parts| :: sep !in parts[k]
    ensures Split(Join(parts, sep), sep) == parts
    decreases |parts|, |parts[0]|
  {
    if |parts[0]| > 0 {
      var tail := [parts[0][1..]] + parts[1..];
      assert tail[1..] == parts[1..];
      SplitJoin(tail, sep);
      var j := Join(parts, sep);
      if |parts| == 1 {
        assert j[1..] == Join(tail, sep);
      } else {
        assert Join(tail, sep) == parts[0][1..] + [sep] + Join(parts[1..], sep);
        assert j[1..] == Join(tail, sep);
      }
      assert j[0] == parts[0][0];
      assert [parts[0][0]] + parts[0][1..] == parts[0];
    } else if |parts| > 1 {
      SplitJoin(parts[1..], sep);
      var j := Join(parts, sep);
      assert j == [sep] + Join(parts[1..], sep);
      assert j[1..] == Join(parts[1..], sep);
      assert [""] + parts[1..] == parts;
    }
  }

  // ---------------------------------------------------------------- trim

  function TrimStart(s: string): (r: string)
    ensures |r| <= |s| && r == s[|s| - |r|..]
    ensures r == [] || !IsSpace(r[0])
    ensures forall t | 0 <= t < |s| - |r| :: IsSpace(s[t])
    decreases |s|
  {
    if |s| > 0 && IsSpace(s[0]) then TrimStart(s[1..]) else s
  }

  function TrimEnd(s: string): (r: string)
    ensures |r| <= |s| && r == s[..|r|]
    ensures r == [] || !IsSpace(r[|r| - 1])
    ensures forall t | |r| <= t < |s| :: IsSpace(s[t])
    decreases |s|
  {
    if |s| > 0 && IsSpace(s[|s| - 1]) then TrimEnd(s[..|s| - 1]) else s
  }

  /** `str::trim`: drops leading and trailing white space. */
  function Trim(s: string): (r: string)
    ensures r == [] || (!IsSpace(r[0]) && !IsSpace(r[|r| - 1]))
    ensures exists a, b | 0 <= a <= b <= |s| :: r == s[a..b]
  {
    var t := TrimStart(s);
    var r := TrimEnd(t);
    assert r == s[|s| - |t|..|s| - |t| + |r|];
    r
  }

  // ---------------------------------------------------------------- decimal

  function DigitChar(d: nat): (c: char)
    requires d < 10
    ensures IsDigit(c)
  {
    ('0' as int + d) as char
  }

  /** Value of a run of decimal digits, most significant first. */
  function DigitsValue(s: string): nat
    requires forall t | 0 <= t < |s| :: IsDigit(s[t])
    decreases |s|
  {
    if |s| == 0 then 0
    else
      assert IsDigit(s[|s| - 1]);
      DigitsValue(s[..|s| - 1]) * 10 + (s[|s| - 1] as int - '0' as int)
  }

  /** Decimal rendering of a natural number, as `{}` formats an unsigned integer. */
  function NatToString(n: nat): (s: string)
    ensures |s| >= 1
    ensures forall t | 0 <= t < |s| :: IsDigit(s[t])
    ensures DigitsValue(s) == n
    decreases n
  {
    if n < 10 then [DigitChar(n)]
    else
      var s := NatToString(n / 10) + [DigitChar(n % 10)];
      assert s[..|s| - 1] == NatToString(n / 10);
      s
  }

  /** Concatenation of a sequence of strings. */
  function Concat(parts: seq<string>): string
    decreases |parts|
  {
    if parts == [] then "" else Concat(parts[..|parts| - 1]) + parts[|parts| - 1]
  }

  lemma ConcatAppend(parts: seq<string>, last: string)
    ensures Concat(parts + [last]) == Concat(parts) + last
  {
    assert (parts + [last])[..|parts|] == parts;
  }

  /** Appending the next part to a text built from the first `k` parts builds it from `k + 1`. */
  lemma ConcatPrefixStep(head: string, parts: seq<string>, k: nat, built: string)
    requires k < |parts| && built == head + Concat(parts[..k])
    ensures built + parts[k] == head + Concat(parts[..k + 1])
  {
    assert parts[..k + 1] == parts[..k] + [parts[k]];
    ConcatAppend(parts[..k], parts[k]);
  }

  /** Text contained in a string is contained in anything that string ends. */
  lemma ContainsAfter(pre: string, s: string, p: string)
    requires Contains(s, p)
    ensures Contains(pre + s, p)
  {
    var i :| 0 <= i <= |s| - |p| && OccursAt(s, p, i);
    assert (pre + s)[|pre| + i..|pre| + i + |p|] == s[i..i + |p|];
    ContainsWitness(pre + s, p, |pre| + i);
  }

  /** A string begins with each of its prefixes. */
  lemma StartsWithAppend(s: string, post: string)
    ensures StartsWith(s + post, s)
  {
    assert (s + post)[..|s|] == s;
  }

  /** Text contained in a string is contained in anything that string begins. */
  lemma ContainsBefore(s: string, post: string, p: string)
    requires Contains(s, p)
    ensures Contains(s + post, p)
  {
    var i :| 0 <= i <= |s| - |p| && OccursAt(s, p, i);
    assert (s + post)[i..i + |p|] == s[i..i + |p|];
    ContainsWitness(s + post, p, i);
  }

  /** Text contained in one of the parts is contained in their concatenation. */
  lemma {:induction false} ConcatContains(parts: seq<string>, k: nat, p: string)
    requires k < |parts| && Contains(parts[k], p)
    ensures Contains(Concat(parts), p)
    decreases |parts|
  {
    var n := |parts| - 1;
    var front := Concat(parts[..n]);
    var whole := Concat(parts);
    if k == n {
      ContainsAfter(front, parts[n], p);
    } else {
      assert parts[..n][k] == parts[k];
      ConcatContains(parts[..n], k, p);
      var i :| 0 <= i <= |front| - |p| && OccursAt(front, p, i);
      assert whole[i..i + |p|] == front[i..i + |p|];
      ContainsWitness(whole, p, i);
    }
  }
}
