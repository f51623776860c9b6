/**
 * The parts of Rust's `str` API that the expense tracker uses: `trim`,
 * `split` on one character, `join` with one character and `to_lowercase`.
 * Strings are sequences of Unicode scalar values (Dafny's `char`).
 */
module Text {

  /** The characters with the Unicode White_Space property, which `str::trim` strips. */
  const WHITESPACE: set<char> := {
    '\U{9}', '\U{A}', '\U{B}', '\U{C}', '\U{D}', ' ', '\U{85}', '\U{A0}', '\U{1680}',
    '\U{2000}', '\U{2001}', '\U{2002}', '\U{2003}', '\U{2004}', '\U{2005}', '\U{2006}',
    '\U{2007}', '\U{2008}', '\U{2009}', '\U{200A}', '\U{2028}', '\U{2029}', '\U{202F}',
    '\U{205F}', '\U{3000}'}

  /** `char::is_whitespace`. */
  predicate IsWhitespace(c: char)
  {
    c in WHITESPACE
  }

  /** The first character of `s`, if any, is not whitespace. */
  predicate NoLeadingSpace(s: string)
  {
    |s| == 0 || !IsWhitespace(s[0])
  }

  /** The last character of `s`, if any, is not whitespace. */
  predicate NoTrailingSpace(s: string)
  {
    |s| == 0 || !IsWhitespace(s[|s| - 1])
  }

  /** Neither the first nor the last character of `s` is whitespace. */
  predicate NoEdgeSpace(s: string)
  {
    NoLeadingSpace(s) && NoTrailingSpace(s)
  }

  /** `str::trim_start`: `s` without its leading whitespace. */
  function TrimStart(s: string): (r: string)
    ensures |r| <= |s| && NoLeadingSpace(r)
  {
    if |s| > 0 && IsWhitespace(s[0]) then TrimStart(s[1..]) else s
  }

  /** `str::trim_end`: `s` without its trailing whitespace. */
  function TrimEnd(s: string): (r: string)
    ensures |r| <= |s| && NoTrailingSpace(r)
    ensures |r| > 0 ==> r[0] == s[0]
  {
    if |s| > 0 && IsWhitespace(s[|s| - 1]) then TrimEnd(s[..|s| - 1]) else s
  }

  /** `str::trim`. */
  function Trim(s: string): (r: string)
    ensures NoEdgeSpace(r)
  {
    TrimEnd(TrimStart(s))
  }

  /** `trim_start` removes a run of whitespace from the front and nothing else. */
  lemma {:induction false} TrimStartIsSuffix(s: string)
    ensures TrimStart(s) == s[|s| - |TrimStart(s)|..]
    ensures forall i :: 0 <= i < |s| - |TrimStart(s)| ==> IsWhitespace(s[i])
  {
    if |s| > 0 && IsWhitespace(s[0]) {
      TrimStartIsSuffix(s[1..]);
    }
  }

  /** `trim_end` removes a run of whitespace from the back and nothing else. */
  lemma {:induction false} TrimEndIsPrefix(s: string)
    ensures TrimEnd(s) == s[..|TrimEnd(s)|]
    ensures forall i :: |TrimEnd(s)| <= i < |s| ==> IsWhitespace(s[i])
  {
    if |s| > 0 && IsWhitespace(s[|s| - 1]) {
      TrimEndIsPrefix(s[..|s| - 1]);
    }
  }

  /** Trimming a string that has no whitespace at its edges changes nothing. */
  lemma {:induction false} TrimNoEdgeSpace(s: string)
    requires NoEdgeSpace(s)
    ensures Trim(s) == s
  {
  }

  /** `trim_end` strips exactly a whitespace tail `w` from a string `x` that does not end in whitespace. */
  lemma {:induction false} TrimEndDropsTail(x: string, w: string)
    requires NoTrailingSpace(x)
    requires forall i :: 0 <= i < |w| ==> IsWhitespace(w[i])
    ensures TrimEnd(x + w) == x
  {
    if |w| == 0 {
      assert x + w == x;
    } else {
      var s := x + w;
      assert s[|s| - 1] == w[|w| - 1];
      assert s[..|s| - 1] == x + w[..|w| - 1];
      TrimEndDropsTail(x, w[..|w| - 1]);
    }
  }

  /** Trimming strips exactly a whitespace tail `w` from a string `x` that has no whitespace at its edges. */
  lemma {:induction false} TrimDropsTail(x: string, w: string)
    requires |x| > 0 && NoEdgeSpace(x)
    requires forall i :: 0 <= i < |w| ==> IsWhitespace(w[i])
    ensures Trim(x + w) == x
  {
    assert (x + w)[0] == x[0];
    assert TrimStart(x + w) == x + w;
    TrimEndDropsTail(x, w);
  }

  /** `str::split(d)`: the pieces of `s` between occurrences of `d`; never empty. */
  function Split(s: string, d: char): (r: seq<string>)
    ensures |r| >= 1
  {
    if |s| == 0 then [""]
    else
      var rest := Split(s[1..], d);
      if s[0] == d then [""] + rest else [[s[0]] + rest[0]] + rest[1..]
  }

  /** `[String]::join`: the pieces separated by `d`. */
  function Join(parts: seq<string>, d: char): string
  {
    if |parts| == 0 then ""
    else if |parts| == 1 then parts[0]
    else parts[0] + [d] + Join(parts[1..], d)
  }

  /** Splitting `a + t` where `a` holds no delimiter glues `a` onto the first piece of `t`. */
  lemma {:induction false} SplitPrefix(a: string, t: string, d: char)
    requires d !in a
    ensures Split(a + t, d) == [a + Split(t, d)[0]] + Split(t, d)[1..]
  {
    var st := Split(t, d);
    if |a| == 0 {
      assert a + t == t;
      assert a + st[0] == st[0];
      assert st == [st[0]] + st[1..];
    } else {
      SplitPrefix(a[1..], t, d);
      assert (a + t)[0] == a[0] && a[0] != d;
      assert (a + t)[1..] == a[1..] + t;
      var rest := Split(a[1..] + t, d);
      assert rest[0] == a[1..] + st[0] && rest[1..] == st[1..];
      assert [a[0]] + (a[1..] + st[0]) == a + st[0];
    }
  }

  /** Joining the pieces of a split gives back the original string. */
  lemma {:induction false} JoinSplit(s: string, d: char)
    ensures Join(Split(s, d), d) == s
  {
    if |s| > 0 {
      JoinSplit(s[1..], d);
      var rest := Split(s[1..], d);
      if s[0] == d {
        assert Join([""] + rest, d) == "" + [d] + Join(rest, d);
      } else {
        var r := [[s[0]] + rest[0]] + rest[1..];
        if |rest| == 1 {
          assert r == [[s[0]] + rest[0]];
        } else {
          assert r[1..] == rest[1..];
          assert Join(rest, d) == rest[0] + [d] + Join(rest[1..], d);
        }
      }
    }
  }

  /** Splitting a join gives back the pieces, provided no piece holds the delimiter. */
  lemma {:induction false} SplitJoin(parts: seq<string>, d: char)
    requires |parts| >= 1
    requires forall i :: 0 <= i < |parts| ==> d !in parts[i]
    ensures Split(Join(parts, d), d) == parts
  {
    if |parts| == 1 {
      SplitPrefix(parts[0], "", d);
      assert parts[0] + "" == parts[0];
    } else {
      SplitJoin(parts[1..], d);
      var tail := [d] + Join(parts[1..], d);
      assert parts[0] + [d] + Join(parts[1..], d) == parts[0] + tail;
      SplitPrefix(parts[0], tail, d);
      assert tail[1..] == Join(parts[1..], d);
      assert tail[0] == d;
      assert Split(tail, d) == [""] + parts[1..];
      assert parts[0] + "" == parts[0];
      assert parts == [parts[0]] + parts[1..];
    }
  }

  /**
   * Pieces free of a non-whitespace delimiter, with no whitespace at the two
   * outer ends, come back from trimming and splitting their join.
   */
  lemma {:induction false} SplitTrimmedJoin(parts: seq<string>, d: char)
    requires |parts| >= 1 && !IsWhitespace(d)
    requires forall i :: 0 <= i < |parts| ==> d !in parts[i]
    requires NoLeadingSpace(parts[0]) && NoTrailingSpace(parts[|parts| - 1])
    ensures Split(Trim(Join(parts, d)), d) == parts
  {
    JoinEdges(parts, d);
    TrimNoEdgeSpace(Join(parts, d));
    SplitJoin(parts, d);
  }

  /** Joining pieces followed by one more piece. */
  lemma {:induction false} JoinSnoc(parts: seq<string>, x: string, d: char)
    requires |parts| >= 1
    ensures Join(parts + [x], d) == Join(parts, d) + [d] + x
  {
    if |parts| == 1 {
      assert (parts + [x])[1..] == [x];
    } else {
      assert (parts + [x])[1..] == parts[1..] + [x];
      JoinSnoc(parts[1..], x, d);
    }
  }

  /**
   * A join starts like its first piece and ends like its last one (or with the
   * delimiter, where that piece is empty).
   */
  lemma {:induction false} JoinEdges(parts: seq<string>, d: char)
    requires |parts| >= 1
    requires !IsWhitespace(d) || (|parts[0]| > 0 && |parts[|parts| - 1]| > 0)
    requires NoLeadingSpace(parts[0]) && NoTrailingSpace(parts[|parts| - 1])
    ensures NoEdgeSpace(Join(parts, d))
    ensures |Join(parts, d)| >= |parts[0]| && (|parts| > 1 ==> |Join(parts, d)| > 0)
  {
    if |parts| > 1 {
      var n := |parts|;
      JoinSnoc(parts[..n - 1], parts[n - 1], d);
      assert parts[..n - 1] + [parts[n - 1]] == parts;
      var j := Join(parts, d);
      assert j == parts[0] + [d] + Join(parts[1..], d);
      assert j == Join(parts[..n - 1], d) + [d] + parts[n - 1];
      assert !IsWhitespace(j[0]) by {
        if |parts[0]| == 0 { assert j[0] == d; } else { assert j[0] == parts[0][0]; }
      }
      assert !IsWhitespace(j[|j| - 1]) by {
        if |parts[n - 1]| == 0 { assert j[|j| - 1] == d; }
        else { assert j[|j| - 1] == parts[n - 1][|parts[n - 1]| - 1]; }
      }
    }
  }

  /** A character that occurs in no piece and is not the delimiter does not occur in the join. */
  lemma {:induction false} JoinAvoids(parts: seq<string>, d: char, c: char)
    requires c != d
    requires forall i :: 0 <= i < |parts| ==> c !in parts[i]
    ensures c !in Join(parts, d)
  {
    if |parts| > 1 {
      JoinAvoids(parts[1..], d, c);
    }
  }

  /** The ASCII case mapping of `char::to_lowercase`. */
  function LowerChar(c: char): (r: char)
    ensures !('A' <= c <= 'Z') ==> r == c
  {
    if 'A' <= c <= 'Z' then (c as int + 32) as char else c
  }

  /** `str::to_lowercase`, restricted to ASCII letters. */
  function ToLower(s: string): (r: string)
    ensures |r| == |s|
    ensures forall i :: 0 <= i < |s| ==> r[i] == LowerChar(s[i])
  {
    seq(|s|, i requires 0 <= i < |s| => LowerChar(s[i]))
  }

  /** A string is lower case when lowercasing leaves it as it is. */
  predicate IsLower(s: string)
  {
    ToLower(s) == s
  }

  /** Only upper-case ASCII letters are changed by lowercasing, and only into lower-case ones. */
  lemma {:induction false} LowerCharKeeps(c: char, x: char)
    requires !('a' <= x <= 'z') && !('A' <= x <= 'Z')
    ensures LowerChar(c) == x <==> c == x
  {
    if 'A' <= c <= 'Z' {
      assert 'a' <= LowerChar(c) <= 'z';
    }
  }

  /** Lowercasing neither adds nor removes a character that is not an ASCII letter. */
  lemma {:induction false} ToLowerAvoids(s: string, x: char)
    requires !('a' <= x <= 'z') && !('A' <= x <= 'Z')
    ensures x in ToLower(s) <==> x in s
  {
    var r := ToLower(s);
    if x in s {
      var i :| 0 <= i < |s| && s[i] == x;
      LowerCharKeeps(s[i], x);
      assert r[i] == x;
    }
    if x in r {
      var i :| 0 <= i < |r| && r[i] == x;
      LowerCharKeeps(s[i], x);
    }
  }

  /** Lowercasing keeps each end of a string free of whitespace. */
  lemma {:induction false} ToLowerEdges(s: string)
    ensures NoLeadingSpace(s) ==> NoLeadingSpace(ToLower(s))
    ensures NoTrailingSpace(s) ==> NoTrailingSpace(ToLower(s))
  {
  }

  /** A string without upper-case ASCII letters is lower case. */
  lemma {:induction false} LowerWithoutCapitals(s: string)
    requires forall i :: 0 <= i < |s| ==> !('A' <= s[i] <= 'Z')
    ensures IsLower(s)
  {
  }

  /** Lowercasing is idempotent. */
  lemma {:induction false} ToLowerIdempotent(s: string)
    ensures IsLower(ToLower(s))
  {
  }

  /** Each piece lowercased. */
  function MapLower(parts: seq<string>): (r: seq<string>)
    ensures |r| == |parts|
    ensures forall i :: 0 <= i < |parts| ==> r[i] == ToLower(parts[i])
  {
    seq(|parts|, i requires 0 <= i < |parts| => ToLower(parts[i]))
  }

  /** Lowercasing a join with a non-letter delimiter is joining the lowercased pieces. */
  lemma {:induction false} ToLowerJoin(parts: seq<string>, d: char)
    requires !('A' <= d <= 'Z')
    ensures ToLower(Join(parts, d)) == Join(MapLower(parts), d)
  {
    if |parts| > 1 {
      ToLowerJoin(parts[1..], d);
      assert MapLower(parts)[1..] == MapLower(parts[1..]);
      var j := Join(parts[1..], d);
      assert ToLower(parts[0] + [d] + j) == ToLower(parts[0]) + [d] + ToLower(j);
    }
  }
}
