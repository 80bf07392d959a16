/** The few Python string operations the command-line and stream code use. */
module Text {

  /** Python's `str.isspace` for a single character (the characters `str.strip()` removes). */
  predicate IsSpace(c: char)
  {
    || ('\t' <= c <= '\r')
    || ('\U{1c}' <= c <= ' ')
    || c == '\U{85}' || c == '\U{a0}' || c == '\U{1680}'
    || ('\U{2000}' <= c <= '\U{200a}')
    || c == '\U{2028}' || c == '\U{2029}' || c == '\U{202f}' || c == '\U{205f}' || c == '\U{3000}'
  }

  /** Drops leading whitespace. */
  function TrimLeft(s: string): string
  {
    if |s| > 0 && IsSpace(s[0]) then TrimLeft(s[1..]) else s
  }

  /** Drops trailing whitespace. */
  function TrimRight(s: string): string
  {
    if |s| > 0 && IsSpace(s[|s| - 1]) then TrimRight(s[..|s| - 1]) else s
  }

  /** `TrimLeft` keeps a suffix that does not start with whitespace, and everything it drops is whitespace. */
  lemma {:induction false} TrimLeftSpec(s: string)
    ensures var r := TrimLeft(s);
      && |r| <= |s| && r == s[|s| - |r|..]
      && (|r| > 0 ==> !IsSpace(r[0]))
      && (forall k :: 0 <= k < |s| - |r| ==> IsSpace(s[k]))
  {
    if |s| > 0 && IsSpace(s[0]) {
      TrimLeftSpec(s[1..]);
    }
  }

  /** `TrimRight` keeps a prefix that does not end with whitespace, and everything it drops is whitespace. */
  lemma {:induction false} TrimRightSpec(s: string)
    ensures var r := TrimRight(s);
      && |r| <= |s| && r == s[..|r|]
      && (|r| > 0 ==> !IsSpace(r[|r| - 1]))
      && (forall k :: |r| <= k < |s| ==> IsSpace(s[k]))
  {
    if |s| > 0 && IsSpace(s[|s| - 1]) {
      TrimRightSpec(s[..|s| - 1]);
    }
  }

  /** Python's `str.strip()`. */
  function Strip(s: string): (r: string)
  {
    TrimRight(TrimLeft(s))
  }

  /**
   * `Strip` keeps the middle `s[i..j]` untouched, where everything before `i`
   * and from `j` on is whitespace and the kept part neither starts nor ends
   * with whitespace.
   */
  lemma StripIsTrimmedInfix(s: string)
    ensures var i, j := |s| - |TrimLeft(s)|, |s| - |TrimLeft(s)| + |Strip(s)|;
      && 0 <= i <= j <= |s| && Strip(s) == s[i..j]
      && (forall k :: 0 <= k < i ==> IsSpace(s[k]))
      && (forall k :: j <= k < |s| ==> IsSpace(s[k]))
      && (i < j ==> !IsSpace(s[i]) && !IsSpace(s[j - 1]))
  {
    var l := TrimLeft(s);
    var r := TrimRight(l);
    TrimLeftSpec(s);
    TrimRightSpec(l);
    StripInfix(s, l, r);
    StripRightSpace(s, l, r, |s| - |l|);
    if |r| > 0 {
      assert s[|s| - |l|] == r[0];
      assert s[|s| - |l| + |r| - 1] == r[|r| - 1];
    }
  }

  /** A prefix of a suffix is an infix. */
  lemma StripInfix(s: string, l: string, r: string)
    requires |l| <= |s| && l == s[|s| - |l|..]
    requires |r| <= |l| && r == l[..|r|]
    ensures r == s[|s| - |l|..|s| - |l| + |r|]
  {
    DropTake(s, |s| - |l|, |r|);
  }

  lemma DropTake(s: string, i: nat, n: nat)
    requires i + n <= |s|
    ensures s[i..][..n] == s[i..i + n]
  {
  }

  lemma StripRightSpace(s: string, l: string, r: string, i: nat)
    requires i <= |s| && l == s[i..] && |r| <= |l|
    requires forall k :: |r| <= k < |l| ==> IsSpace(l[k])
    ensures forall k :: i + |r| <= k < |s| ==> IsSpace(s[k])
  {
    forall k | i + |r| <= k < |s| ensures IsSpace(s[k]) {
      assert s[k] == l[k - i];
    }
  }

  function UpperChar(c: char): char
  {
    if 'a' <= c <= 'z' then (c as int - 32) as char else c
  }

  function LowerChar(c: char): char
  {
    if 'A' <= c <= 'Z' then (c as int + 32) as char else c
  }

  /** Python's `str.upper()` restricted to ASCII letters. */
  function Upper(s: string): (r: string)
    ensures |r| == |s|
    ensures forall k :: 0 <= k < |r| ==> !('a' <= r[k] <= 'z')
    ensures forall k :: 0 <= k < |r| && !('a' <= s[k] <= 'z') ==> r[k] == s[k]
    ensures forall k :: 0 <= k < |r| && 'a' <= s[k] <= 'z' ==> 'A' <= r[k] <= 'Z' && r[k] as int == s[k] as int - 32
  {
    seq(|s|, k requires 0 <= k < |s| => UpperChar(s[k]))
  }

  /** Python's `str.lower()` restricted to ASCII letters. */
  function Lower(s: string): (r: string)
    ensures |r| == |s|
    ensures forall k :: 0 <= k < |r| ==> !('A' <= r[k] <= 'Z')
    ensures forall k :: 0 <= k < |r| && !('A' <= s[k] <= 'Z') ==> r[k] == s[k]
    ensures forall k :: 0 <= k < |r| && 'A' <= s[k] <= 'Z' ==> 'a' <= r[k] <= 'z' && r[k] as int == s[k] as int + 32
  {
    seq(|s|, k requires 0 <= k < |s| => LowerChar(s[k]))
  }

  /** Upper-casing ignores a prior lower-casing and vice versa: the two differ only in the letters' case. */
  lemma CaseRoundTrip(s: string)
    ensures Upper(Lower(s)) == Upper(s)
    ensures Lower(Upper(s)) == Lower(s)
  {
    var u, l := Upper(s), Lower(s);
    assert forall k :: 0 <= k < |s| ==> Upper(l)[k] == u[k];
    assert forall k :: 0 <= k < |s| ==> Lower(u)[k] == l[k];
  }

  /** Python's `s.split(sep)` for a one-character separator. */
  function Split(s: string, sep: char): (r: seq<string>)
    ensures |r| >= 1
  {
    if |s| == 0 then [""]
    else
      var rest := Split(s[1..], sep);
      if s[0] == sep then [""] + rest else [[s[0]] + rest[0]] + rest[1..]
  }

  /** Python's `sep.join(parts)`. */
  function Join(parts: seq<string>, sep: string): string
  {
    if |parts| == 0 then ""
    else if |parts| == 1 then parts[0]
    else parts[0] + sep + Join(parts[1..], sep)
  }

  /** Splitting then joining with the same separator gives the input back. */
  lemma {:induction false} JoinSplit(s: string, sep: char)
    ensures Join(Split(s, sep), [sep]) == s
  {
    if |s| > 0 {
      var rest := Split(s[1..], sep);
      JoinSplit(s[1..], sep);
      if s[0] == sep {
        assert Split(s, sep) == [""] + rest;
        assert Join([""] + rest, [sep]) == "" + [sep] + Join(rest, [sep]);
        assert s == [s[0]] + s[1..];
      } else {
        var parts := [[s[0]] + rest[0]] + rest[1..];
        if |rest| == 1 {
          assert Join(parts, [sep]) == [s[0]] + rest[0];
          assert Join(rest, [sep]) == rest[0];
        } else {
          assert parts[1..] == rest[1..];
          assert Join(parts, [sep]) == [s[0]] + rest[0] + [sep] + Join(rest[1..], [sep]);
          assert Join(rest, [sep]) == rest[0] + [sep] + Join(rest[1..], [sep]);
        }
        assert s == [s[0]] + s[1..];
      }
    }
  }

  /** No piece of a split contains the separator. */
  lemma {:induction false} SplitPiecesFree(s: string, sep: char)
    ensures forall k :: 0 <= k < |Split(s, sep)| ==> sep !in Split(s, sep)[k]
  {
    if |s| > 0 {
      SplitPiecesFree(s[1..], sep);
    }
  }

  /** `needle` occurs somewhere in `hay` (Python's `needle in hay`). */
  predicate Contains(hay: string, needle: string)
    decreases |hay|
  {
    if |needle| > |hay| then false
    else hay[..|needle|] == needle || (|hay| > 0 && Contains(hay[1..], needle))
  }
}
