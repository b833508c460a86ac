/**
  The JavaScript string and value primitives the scaffolding tool relies on,
  defined after their ECMAScript counterparts on strings of characters (a
  JavaScript string is a sequence of UTF-16 code units instead): `String.prototype.indexOf`
  (first match, or -1), `String.prototype.slice` with one argument (a negative
  start counts from the end), `String.prototype.replace` with a string pattern
  (first match only), `Array.prototype.join('')`, and the truthiness / strict
  equality tests applied to command-line flag values.
 */
module JsText {

  /** A value a parsed command-line flag can hold: commander leaves an unset
      boolean option `undefined` and sets a given one to `true`. */
  datatype JsValue = Undefined | Bool(b: bool) | Str(s: string) {

    /** `if (v)`: JavaScript truthiness. */
    predicate Truthy() {
      match this
      case Undefined => false
      case Bool(b) => b
      case Str(s) => |s| > 0
    }

    /** `v === true`: strict equality with the boolean `true`. */
    predicate StrictlyTrue() {
      this == Bool(true)
    }
  }

  /** The truth table of `if (v)` on flag values: `undefined`, `false` and
      the empty string are falsy, `true` and every non-empty string truthy. */
  lemma Truthiness(s: string)
    ensures !Undefined.Truthy() && !Bool(false).Truthy() && !Str("").Truthy()
    ensures Bool(true).Truthy()
    ensures |s| > 0 ==> Str(s).Truthy()
  {
  }

  /** `v === true` holds for the boolean `true` alone: every strictly true
      value is truthy, and no string, not even `"true"`, is strictly true. */
  lemma StrictTrueOnlyForTrue(v: JsValue, s: string)
    ensures v.StrictlyTrue() <==> v == Bool(true)
    ensures v.StrictlyTrue() ==> v.Truthy()
    ensures !Str(s).StrictlyTrue() && !Undefined.StrictlyTrue() && !Bool(false).StrictlyTrue()
  {
  }

  /** `t` occurs in `s` starting at index `i`. */
  predicate ContainsAt(s: string, t: string, i: int) {
    0 <= i && i + |t| <= |s| && s[i..i + |t|] == t
  }

  /** `s.includes(t)` */
  predicate Contains(s: string, t: string) {
    exists i :: 0 <= i <= |s| && ContainsAt(s, t, i)
  }

  /** `i` is the first index at which `t` occurs in `s`. */
  predicate FirstOccurrence(s: string, t: string, i: int) {
    ContainsAt(s, t, i) && forall k :: 0 <= k < i ==> !ContainsAt(s, t, k)
  }

  lemma ContainsMiddle(a: string, t: string, b: string)
    ensures ContainsAt(a + t + b, t, |a|)
  {
    assert (a + t + b)[|a|..|a| + |t|] == t;
  }

  /** The search behind IndexOf: the first index at or after `from` where
      `t` occurs, or -1 when there is none. It matches `s.indexOf(t, from)`
      for `from <= |s|` only; JavaScript clamps a larger `from` to `|s|`. */
  function IndexOfFrom(s: string, t: string, from: nat): (r: int)
    decreases |s| - from
    ensures r == -1 || (from <= r && ContainsAt(s, t, r))
    ensures r == -1 <==> forall k :: from <= k ==> !ContainsAt(s, t, k)
    ensures r != -1 ==> forall k :: from <= k < r ==> !ContainsAt(s, t, k)
  {
    if from + |t| > |s| then -1
    else if s[from..from + |t|] == t then from
    else IndexOfFrom(s, t, from + 1)
  }

  /** `s.indexOf(t)` */
  function IndexOf(s: string, t: string): (r: int)
    ensures r == -1 <==> !Contains(s, t)
    ensures r != -1 ==> FirstOccurrence(s, t, r)
  {
    IndexOfFrom(s, t, 0)
  }

  /** `s.slice(start)`: a negative start counts back from the end (clamped at
      the beginning), a start past the end gives the empty string. */
  function Slice(s: string, start: int): (r: string)
    ensures |r| <= |s| && r == s[|s| - |r|..]
    ensures 0 <= start <= |s| ==> |r| == |s| - start
    ensures start > |s| ==> r == ""
    ensures -|s| <= start < 0 ==> |r| == -start
    ensures start < -|s| ==> r == s
  {
    if start < 0 then
      (if |s| + start < 0 then s else s[|s| + start..])
    else if start > |s| then ""
    else s[start..]
  }

  /** `s.replace(pattern, replacement)` with a string pattern: only the first
      occurrence is replaced; no occurrence leaves `s` as it is. The
      replacement is taken literally (its `$` patterns are not interpreted). */
  function ReplaceFirst(s: string, pattern: string, replacement: string): (r: string)
    ensures !Contains(s, pattern) ==> r == s
    ensures forall i :: FirstOccurrence(s, pattern, i) ==>
              r == s[..i] + replacement + s[i + |pattern|..]
  {
    var i := IndexOf(s, pattern);
    if i == -1 then s
    else
      assert forall j :: FirstOccurrence(s, pattern, j) ==> j == i;
      s[..i] + replacement + s[i + |pattern|..]
  }

  /** Only the first occurrence is replaced: an occurrence of the pattern that
      starts after the first one has ended survives, shifted by the change in
      length. */
  lemma ReplaceKeepsLaterOccurrences(s: string, pattern: string, replacement: string, i: int, j: int)
    requires FirstOccurrence(s, pattern, i)
    requires i + |pattern| <= j && ContainsAt(s, pattern, j)
    ensures ContainsAt(ReplaceFirst(s, pattern, replacement), pattern, j - |pattern| + |replacement|)
  {
    ReplaceFirstAt(s, pattern, replacement, i);
    SpliceKeepsLaterOccurrence(s, pattern, replacement, i, j);
  }

  /** Splicing `replacement` in place of `s[i..i + |pattern|]` keeps an
      occurrence of `pattern` that starts at or after `i + |pattern|`. */
  lemma SpliceKeepsLaterOccurrence(s: string, pattern: string, replacement: string, i: int, j: int)
    requires 0 <= i && i + |pattern| <= j && ContainsAt(s, pattern, j)
    ensures ContainsAt(s[..i] + replacement + s[i + |pattern|..], pattern, j - |pattern| + |replacement|)
  {
    ContainsInSuffix(s, pattern, i + |pattern|, j);
    ContainsAfter(s[..i] + replacement, s[i + |pattern|..], pattern, j - (i + |pattern|));
  }

  lemma ContainsInSuffix(s: string, t: string, start: int, j: int)
    requires 0 <= start <= j && ContainsAt(s, t, j)
    ensures ContainsAt(s[start..], t, j - start)
  {
    assert s[start..][j - start..j - start + |t|] == s[j..j + |t|];
  }

  /** The splice ReplaceFirst performs, for one given first occurrence. */
  lemma ReplaceFirstAt(s: string, pattern: string, replacement: string, i: int)
    requires FirstOccurrence(s, pattern, i)
    ensures ReplaceFirst(s, pattern, replacement) == (s[..i] + replacement) + s[i + |pattern|..]
  {
  }

  lemma ContainsAfter(a: string, b: string, t: string, d: int)
    requires ContainsAt(b, t, d)
    ensures ContainsAt(a + b, t, |a| + d)
  {
    assert (a + b)[|a| + d..|a| + d + |t|] == b[d..d + |t|];
  }

  /** Each part of a separator join occurs in the joined text. */
  lemma {:induction false} JoinWithContainsPart(parts: seq<string>, separator: string, k: int)
    requires 0 <= k < |parts|
    ensures Contains(JoinWith(parts, separator), parts[k])
    decreases |parts|
  {
    if |parts| == 1 {
      assert parts[0][0..|parts[0]|] == parts[0];
      assert ContainsAt(JoinWith(parts, separator), parts[k], 0);
    } else {
      var rest := JoinWith(parts[1..], separator);
      assert JoinWith(parts, separator) == parts[0] + separator + rest;
      if k == 0 {
        ContainsMiddle("", parts[0], separator + rest);
        assert "" + parts[0] + (separator + rest) == JoinWith(parts, separator);
        assert ContainsAt(JoinWith(parts, separator), parts[k], 0);
      } else {
        JoinWithContainsPart(parts[1..], separator, k - 1);
        var d :| 0 <= d <= |rest| && ContainsAt(rest, parts[k], d);
        ContainsAfter(parts[0] + separator, rest, parts[k], d);
        assert ContainsAt(JoinWith(parts, separator), parts[k], |parts[0] + separator| + d);
      }
    }
  }

  /** `parts.join('')`: the parts one after another. */
  function Concat(parts: seq<string>): string {
    if parts == [] then "" else parts[0] + Concat(parts[1..])
  }

  lemma {:induction false} ConcatAppend(a: seq<string>, b: seq<string>)
    ensures Concat(a + b) == Concat(a) + Concat(b)
  {
    if a == [] {
      assert a + b == b;
    } else {
      assert (a + b)[1..] == a[1..] + b;
      ConcatAppend(a[1..], b);
    }
  }

  /** `join('')` is the separator join with the empty separator. */
  lemma {:induction false} ConcatIsJoinWithEmpty(parts: seq<string>)
    ensures Concat(parts) == JoinWith(parts, "")
  {
    if |parts| > 1 {
      ConcatIsJoinWithEmpty(parts[1..]);
      assert parts[0] + "" == parts[0];
    } else if |parts| == 1 {
      assert parts[1..] == [];
    }
  }

  /** Joining with a separator between consecutive parts and none after the
      last one: the conventional `join(separator)`. */
  function JoinWith(parts: seq<string>, separator: string): string {
    if |parts| == 0 then ""
    else if |parts| == 1 then parts[0]
    else parts[0] + separator + JoinWith(parts[1..], separator)
  }
}
