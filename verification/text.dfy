/** String operations the services apply to action names and to the external
    assessment's reply: ASCII lower-casing (`toLowerCase`, the `i` regex flag),
    substring search (`includes`, regex scanning), whitespace trimming and
    splitting on a separator. */
module Text {
  import opened Basics

  function LowerChar(c: char): char
  {
    if 'A' <= c <= 'Z' then (c as int + 32) as char else c
  }

  function Lower(s: string): (r: string)
    ensures |r| == |s|
    ensures forall i :: 0 <= i < |s| ==> r[i] == LowerChar(s[i])
  {
    seq(|s|, i requires 0 <= i < |s| => LowerChar(s[i]))
  }

  /** `pat` occurs in `s` starting at index `i`. */
  predicate StartsAt(s: string, i: int, pat: string)
  {
    0 <= i && i + |pat| <= |s| && s[i..i + |pat|] == pat
  }

  /** First index at or after `from` where `pat` occurs in `s`. */
  function FindFrom(s: string, pat: string, from: nat): (r: Option<nat>)
    ensures r.Some? ==> from <= r.value && StartsAt(s, r.value, pat)
    ensures r.Some? ==> forall j :: from <= j < r.value ==> !StartsAt(s, j, pat)
    ensures r.None? ==> forall j :: from <= j ==> !StartsAt(s, j, pat)
    decreases |s| - from
  {
    if from + |pat| > |s| then None
    else if StartsAt(s, from, pat) then Some(from)
    else FindFrom(s, pat, from + 1)
  }

  /** JavaScript `s.includes(pat)`. */
  predicate Contains(s: string, pat: string)
  {
    FindFrom(s, pat, 0).Some?
  }

  lemma ContainsAt(s: string, pat: string, i: int)
    requires StartsAt(s, i, pat)
    ensures Contains(s, pat)
  {
  }

  /** The whitespace class of JavaScript (`\s`, `trim`): white space and line
      terminators. */
  predicate IsSpace(c: char)
  {
    || c == ' ' || c == '\t' || c == '\n' || c == '\r'
    || c as int == 0x0B || c as int == 0x0C || c as int == 0xA0
    || c as int == 0x1680 || 0x2000 <= c as int <= 0x200A
    || c as int == 0x2028 || c as int == 0x2029 || c as int == 0x202F
    || c as int == 0x205F || c as int == 0x3000 || c as int == 0xFEFF
  }

  /** Length of the run of whitespace starting at `i`. */
  function SpaceRun(s: string, i: nat): (n: nat)
    requires i <= |s|
    ensures i + n <= |s|
    ensures forall k :: i <= k < i + n ==> IsSpace(s[k])
    ensures i + n == |s| || !IsSpace(s[i + n])
    decreases |s| - i
  {
    if i < |s| && IsSpace(s[i]) then 1 + SpaceRun(s, i + 1) else 0
  }

  /** End of `s[..j]` once its trailing whitespace is dropped. */
  function TrailEnd(s: string, j: nat): (e: nat)
    requires j <= |s|
    ensures e <= j
    ensures forall k :: e <= k < j ==> IsSpace(s[k])
    ensures e == 0 || !IsSpace(s[e - 1])
    decreases j
  {
    if j > 0 && IsSpace(s[j - 1]) then TrailEnd(s, j - 1) else j
  }

  /** JavaScript `s.trim()`: the text between the leading and the trailing
      whitespace. */
  function Trim(s: string): (r: string)
    ensures |r| == 0 || (!IsSpace(r[0]) && !IsSpace(r[|r| - 1]))
    ensures SpaceRun(s, 0) + |r| <= |s| && r == s[SpaceRun(s, 0)..SpaceRun(s, 0) + |r|]
    ensures forall k :: SpaceRun(s, 0) + |r| <= k < |s| ==> IsSpace(s[k])
  {
    var a := SpaceRun(s, 0);
    var e := TrailEnd(s, |s|);
    if e <= a then "" else s[a..e]
  }

  /** JavaScript `s.split(sep)` for a one-character separator: n separators
      give n + 1 pieces, none of which contains the separator. */
  function Split(s: string, sep: char): (r: seq<string>)
    ensures |r| >= 1
    ensures forall k :: 0 <= k < |r| ==> sep !in r[k]
    decreases |s|
  {
    var i := FindFrom(s, [sep], 0);
    if i.None? then
      assert forall k :: 0 <= k < |s| ==> s[k] != sep by {
        forall k | 0 <= k < |s| ensures s[k] != sep {
          assert s[k..k + 1] == [s[k]];
          assert !StartsAt(s, k, [sep]);
        }
      }
      [s]
    else
      var j := i.value;
      assert forall k :: 0 <= k < j ==> s[k] != sep by {
        forall k | 0 <= k < j ensures s[k] != sep {
          assert s[k..k + 1] == [s[k]];
          assert !StartsAt(s, k, [sep]);
        }
      }
      [s[..j]] + Split(s[j + 1..], sep)
  }

  /** Joining with the separator, the inverse of Split. */
  function Join(parts: seq<string>, sep: char): string
    requires |parts| >= 1
  {
    if |parts| == 1 then parts[0] else parts[0] + [sep] + Join(parts[1..], sep)
  }

  /** A join starts with its first piece. */
  lemma JoinHead(parts: seq<string>, sep: char)
    requires |parts| >= 1
    ensures |Join(parts, sep)| >= |parts[0]| && Join(parts, sep)[..|parts[0]|] == parts[0]
  {
  }

  /** Splitting loses nothing: joining the pieces restores the text. */
  lemma {:induction false} JoinSplit(s: string, sep: char)
    ensures Join(Split(s, sep), sep) == s
    decreases |s|
  {
    var i := FindFrom(s, [sep], 0);
    if i.Some? {
      var j := i.value;
      assert s[j..j + 1] == [sep];
      JoinSplit(s[j + 1..], sep);
      assert s == s[..j] + [sep] + s[j + 1..];
    }
  }

  /** Splitting the joined pieces gives the pieces back, when none of them
      contains the separator. */
  lemma {:induction false} SplitJoin(parts: seq<string>, sep: char)
    requires |parts| >= 1
    requires forall k :: 0 <= k < |parts| ==> sep !in parts[k]
    ensures Split(Join(parts, sep), sep) == parts
    decreases |parts|
  {
    var s := Join(parts, sep);
    var p0 := parts[0];
    var i := FindFrom(s, [sep], 0);
    if |parts| == 1 {
      forall k | 0 <= k
        ensures !StartsAt(s, k, [sep])
      {
        if k + 1 <= |s| {
          assert s[k..k + 1] == [s[k]];
        }
      }
    } else {
      var rest := Join(parts[1..], sep);
      assert s == p0 + [sep] + rest;
      assert s[|p0|..|p0| + 1] == [sep];
      assert StartsAt(s, |p0|, [sep]);
      forall k | 0 <= k < |p0|
        ensures !StartsAt(s, k, [sep])
      {
        assert s[k] == p0[k];
        assert s[k..k + 1] == [s[k]];
      }
      assert i == Some(|p0|);
      assert s[..|p0|] == p0;
      assert s[|p0| + 1..] == rest;
      SplitJoin(parts[1..], sep);
    }
  }

  lemma LowerAppend(x: string, y: string)
    ensures Lower(x + y) == Lower(x) + Lower(y)
  {
  }

  /** A pattern with a character the text lacks does not occur in it. */
  lemma MissingChar(s: string, pat: string, i: nat)
    requires i < |pat|
    requires forall k :: 0 <= k < |s| ==> s[k] != pat[i]
    ensures FindFrom(s, pat, 0).None?
  {
    forall k | 0 <= k
      ensures !StartsAt(s, k, pat)
    {
      if k + |pat| <= |s| {
        assert s[k..k + |pat|][i] == s[k + i];
      }
    }
  }

  /** Behind a prefix that does not contain the pattern and ends with a
      character foreign to it, the first occurrence is the first occurrence
      in the remainder, shifted. */
  lemma FindAfterPrefix(x: string, y: string, pat: string)
    requires |x| >= 1 && x[|x| - 1] !in pat
    requires FindFrom(x, pat, 0).None?
    ensures FindFrom(y, pat, 0).None? ==> FindFrom(x + y, pat, 0).None?
    ensures FindFrom(y, pat, 0).Some? ==>
              FindFrom(x + y, pat, 0) == Some(|x| + FindFrom(y, pat, 0).value)
  {
    var s := x + y;
    forall k | 0 <= k < |x|
      ensures !StartsAt(s, k, pat)
    {
      if k + |pat| <= |x| {
        assert s[k..k + |pat|] == x[k..k + |pat|];
        assert !StartsAt(x, k, pat);
      } else if k + |pat| <= |s| {
        assert s[k..k + |pat|][|x| - 1 - k] == x[|x| - 1];
      }
    }
    forall k | |x| <= k
      ensures StartsAt(s, k, pat) <==> StartsAt(y, k - |x|, pat)
    {
      if k + |pat| <= |s| {
        assert s[k..k + |pat|] == y[k - |x|..k - |x| + |pat|];
      }
    }
    var r := FindFrom(y, pat, 0);
    if r.Some? {
      var j := |x| + r.value;
      assert StartsAt(s, j, pat);
      assert forall k :: 0 <= k < j ==> !StartsAt(s, k, pat) by {
        forall k | 0 <= k < j ensures !StartsAt(s, k, pat) {
          if k >= |x| { assert !StartsAt(y, k - |x|, pat); }
        }
      }
      var f := FindFrom(s, pat, 0);
      assert f.Some?;
      assert f.value == j;
    } else {
      assert forall k :: 0 <= k ==> !StartsAt(s, k, pat) by {
        forall k | 0 <= k ensures !StartsAt(s, k, pat) {
          if k >= |x| { assert !StartsAt(y, k - |x|, pat); }
        }
      }
    }
  }

  /** Trimming text that neither starts nor ends with whitespace changes
      nothing. */
  lemma TrimTrimmed(s: string)
    requires |s| == 0 || (!IsSpace(s[0]) && !IsSpace(s[|s| - 1]))
    ensures Trim(s) == s
  {
    if |s| > 0 {
      assert SpaceRun(s, 0) == 0;
      assert TrailEnd(s, |s|) == |s|;
      assert s[0..|s|] == s;
    }
  }

  /** A pattern found in neither half of a text does not occur in the text
      when the halves meet at a character foreign to the pattern. */
  lemma NoneAcross(x: string, y: string, pat: string)
    requires FindFrom(x, pat, 0).None? && FindFrom(y, pat, 0).None?
    requires (|x| >= 1 && x[|x| - 1] !in pat) || (|y| >= 1 && y[0] !in pat)
    ensures FindFrom(x + y, pat, 0).None?
  {
    var s := x + y;
    forall k | 0 <= k
      ensures !StartsAt(s, k, pat)
    {
      if k + |pat| <= |s| {
        if k + |pat| <= |x| {
          assert s[k..k + |pat|] == x[k..k + |pat|];
          assert !StartsAt(x, k, pat);
        } else if k >= |x| {
          assert s[k..k + |pat|] == y[k - |x|..k - |x| + |pat|];
          assert !StartsAt(y, k - |x|, pat);
        } else if |x| >= 1 && x[|x| - 1] !in pat {
          assert s[k..k + |pat|][|x| - 1 - k] == x[|x| - 1];
        } else {
          assert s[k..k + |pat|][|x| - k] == y[0];
        }
      }
    }
  }
}
