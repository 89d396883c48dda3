/**
 * The few string operations of Go's `strings` package the core relies on:
 * `Split` with a one-character separator, `Contains`, and ASCII `ToLower`.
 */
module Strings {

  /** `strings.Split(s, string(sep))`: the pieces between separators, never an empty list. */
  function Split(s: string, sep: char): (parts: seq<string>)
    ensures |parts| >= 1
    decreases |s|
  {
    if |s| == 0 then [""]
    else if s[0] == sep then [""] + Split(s[1..], sep)
    else
      var rest := Split(s[1..], sep);
      [[s[0]] + rest[0]] + rest[1..]
  }

  /** `strings.Join(parts, string(sep))`. */
  function Join(parts: seq<string>, sep: char): string
    decreases |parts|
  {
    if |parts| == 0 then ""
    else if |parts| == 1 then parts[0]
    else parts[0] + [sep] + Join(parts[1..], sep)
  }

  /** The text before the first occurrence of `sep` (all of `s` when there is none). */
  function Before(s: string, sep: char): (p: string)
    ensures p <= s && sep !in p
    ensures |p| < |s| ==> s[|p|] == sep
  {
    if |s| == 0 || s[0] == sep then "" else [s[0]] + Before(s[1..], sep)
  }

  function Count(s: string, c: char): nat
  {
    if |s| == 0 then 0 else (if s[0] == c then 1 else 0) + Count(s[1..], c)
  }

  lemma {:induction false} SplitShape(s: string, sep: char)
    ensures |Split(s, sep)| == Count(s, sep) + 1
    ensures forall i :: 0 <= i < |Split(s, sep)| ==> sep !in Split(s, sep)[i]
    ensures Split(s, sep)[0] == Before(s, sep)
    decreases |s|
  {
    if |s| > 0 {
      SplitShape(s[1..], sep);
    }
  }

  /** Joining the pieces of a split restores the string. */
  lemma {:induction false} JoinSplit(s: string, sep: char)
    ensures Join(Split(s, sep), sep) == s
    decreases |s|
  {
    if |s| > 0 {
      var rest := Split(s[1..], sep);
      JoinSplit(s[1..], sep);
      if s[0] == sep {
        assert Split(s, sep) == [""] + rest;
      } else {
        var parts := Split(s, sep);
        assert parts[1..] == rest[1..];
        if |rest| == 1 {
          assert Join(parts, sep) == [s[0]] + rest[0];
        } else {
          assert Join(parts, sep) == [s[0]] + rest[0] + [sep] + Join(rest[1..], sep);
          assert Join(rest, sep) == rest[0] + [sep] + Join(rest[1..], sep);
        }
      }
    }
  }

  /** Splitting a join of separator-free pieces gives the pieces back. */
  lemma {:induction false} SplitJoin(parts: seq<string>, sep: char)
    requires |parts| >= 1
    requires forall i :: 0 <= i < |parts| ==> sep !in parts[i]
    ensures Split(Join(parts, sep), sep) == parts
    decreases |parts|, |parts[0]|
  {
    var p := parts[0];
    if |p| > 0 {
      var parts' := [p[1..]] + parts[1..];
      assert forall i :: 0 <= i < |parts'| ==> sep !in parts'[i] by {
        forall i | 0 <= i < |parts'| ensures sep !in parts'[i] {
          if i == 0 { assert p == [p[0]] + p[1..]; } else { assert parts'[i] == parts[i]; }
        }
      }
      SplitJoin(parts', sep);
      var s := Join(parts, sep);
      assert s == [p[0]] + Join(parts', sep) by {
        if |parts| == 1 {
          assert p == [p[0]] + p[1..];
        } else {
          assert parts'[1..] == parts[1..];
          assert p == [p[0]] + p[1..];
        }
      }
      assert s[1..] == Join(parts', sep);
      assert s[0] == p[0] && s[0] != sep;
      assert [p[0]] + p[1..] == p;
    } else if |parts| > 1 {
      SplitJoin(parts[1..], sep);
      var s := Join(parts, sep);
      assert s == [sep] + Join(parts[1..], sep);
      assert s[1..] == Join(parts[1..], sep);
      assert [""] + parts[1..] == parts;
    }
  }

  predicate IsPrefix(p: string, s: string)
  {
    |p| <= |s| && s[..|p|] == p
  }

  /** `strings.Contains(s, sub)`: `sub` occurs in `s` at some offset. */
  predicate Contains(s: string, sub: string)
    decreases |s|
  {
    IsPrefix(sub, s) || (|s| > 0 && Contains(s[1..], sub))
  }

  lemma {:induction false} ContainsAt(s: string, sub: string)
    ensures Contains(s, sub) <==> exists i :: 0 <= i <= |s| - |sub| && IsPrefix(sub, s[i..])
    decreases |s|
  {
    if |s| > 0 {
      ContainsAt(s[1..], sub);
      forall i | 1 <= i <= |s| - |sub| ensures s[i..] == s[1..][i - 1..] { }
      if IsPrefix(sub, s) {
        assert s[0..] == s;
        assert IsPrefix(sub, s[0..]);
      }
      if Contains(s[1..], sub) {
        var j :| 0 <= j <= |s| - 1 - |sub| && IsPrefix(sub, s[1..][j..]);
        assert s[j + 1..] == s[1..][j..];
      }
      if exists i :: 0 <= i <= |s| - |sub| && IsPrefix(sub, s[i..]) {
        var i :| 0 <= i <= |s| - |sub| && IsPrefix(sub, s[i..]);
        if i > 0 {
          assert IsPrefix(sub, s[1..][i - 1..]);
        } else {
          assert s[0..] == s;
        }
      }
    } else {
      assert s[0..] == s;
    }
  }

  function LowerChar(c: char): char
  {
    if 'A' <= c <= 'Z' then (c as int + 32) as char else c
  }

  /** `strings.ToLower`, on ASCII letters. */
  function ToLower(s: string): (r: string)
    ensures |r| == |s|
    ensures forall i :: 0 <= i < |s| ==> r[i] == LowerChar(s[i])
  {
    seq(|s|, i requires 0 <= i < |s| => LowerChar(s[i]))
  }

  lemma ToLowerIdempotent(s: string)
    ensures ToLower(ToLower(s)) == ToLower(s)
  {
  }
}
