/** Python string operations the viewer relies on: substring test, "\n".join,
    str.split("\n") and str() of a non-negative int. */
module Text {

  /** Python's `m in s` for strings: m occurs in s at some position. */
  predicate Contains(s: string, m: string)
    decreases |s|
  {
    m <= s || (|s| > 0 && Contains(s[1..], m))
  }

  lemma {:induction false} ContainsInfix(a: string, m: string, b: string)
    ensures Contains(a + m + b, m)
    decreases |a|
  {
    if |a| == 0 {
      assert a + m + b == m + b;
      assert m <= m + b;
    } else {
      assert (a + m + b)[1..] == a[1..] + m + b;
      ContainsInfix(a[1..], m, b);
    }
  }

  lemma {:induction false} ContainsAppend(s: string, m: string, t: string)
    requires Contains(s, m)
    ensures Contains(s + t, m)
    decreases |s|
  {
    if m <= s {
      assert (s + t)[..|m|] == s[..|m|];
    } else {
      assert (s + t)[1..] == s[1..] + t;
      ContainsAppend(s[1..], m, t);
    }
  }

  /** Python's "\n".join(lines). */
  function Join(lines: seq<string>): string
  {
    if |lines| == 0 then ""
    else if |lines| == 1 then lines[0]
    else lines[0] + "\n" + Join(lines[1..])
  }

  /** Python's s.split("\n"): always at least one piece, "" gives [""]. */
  function Split(s: string): (pieces: seq<string>)
    ensures |pieces| >= 1
  {
    if |s| == 0 then [""]
    else if s[0] == '\n' then [""] + Split(s[1..])
    else
      var rest := Split(s[1..]);
      [[s[0]] + rest[0]] + rest[1..]
  }

  predicate NoNewline(s: string)
  {
    '\n' !in s
  }

  lemma {:induction false} SplitSingle(w: string)
    requires NoNewline(w)
    ensures Split(w) == [w]
  {
    if |w| > 0 {
      assert w[0] in w;
      SplitSingle(w[1..]);
      assert [w[0]] + w[1..] == w;
    }
  }

  lemma {:induction false} SplitFirst(w: string, rest: string)
    requires NoNewline(w)
    ensures Split(w + "\n" + rest) == [w] + Split(rest)
  {
    if |w| == 0 {
      assert w + "\n" + rest == "\n" + rest;
    } else {
      assert w[0] in w;
      assert (w + "\n" + rest)[1..] == w[1..] + "\n" + rest;
      SplitFirst(w[1..], rest);
      assert [w[0]] + w[1..] == w;
    }
  }

  /** Splitting a joined text on newlines gives the lines back, provided
      there is at least one line and no line holds a newline itself. */
  lemma {:induction false} SplitJoin(lines: seq<string>)
    requires |lines| >= 1
    requires forall i :: 0 <= i < |lines| ==> NoNewline(lines[i])
    ensures Split(Join(lines)) == lines
  {
    if |lines| == 1 {
      SplitSingle(lines[0]);
    } else {
      SplitFirst(lines[0], Join(lines[1..]));
      SplitJoin(lines[1..]);
    }
  }

  /** A newline splits a text in two: the pieces of what precedes it, then
      the pieces of what follows it. */
  lemma {:induction false} SplitNewline(a: string, b: string)
    ensures Split(a + "\n" + b) == Split(a) + Split(b)
  {
    if |a| == 0 {
      assert a + "\n" + b == "\n" + b;
    } else {
      assert (a + "\n" + b)[1..] == a[1..] + "\n" + b;
      SplitNewline(a[1..], b);
    }
  }

  /** The pieces of every text of `texts`, one text after the other. */
  function SplitAll(texts: seq<string>): (pieces: seq<string>)
  {
    if |texts| == 0 then [] else Split(texts[0]) + SplitAll(texts[1..])
  }

  /** Splitting joined lines gives the pieces of each line in turn, whatever
      newlines the lines themselves hold. */
  lemma {:induction false} SplitJoinAll(lines: seq<string>)
    requires |lines| >= 1
    ensures Split(Join(lines)) == SplitAll(lines)
  {
    if |lines| == 1 {
      assert SplitAll(lines[1..]) == [];
    } else {
      SplitNewline(lines[0], Join(lines[1..]));
      SplitJoinAll(lines[1..]);
    }
  }

  /** Newline-free lines are their own pieces. */
  lemma {:induction false} SplitAllSingles(lines: seq<string>)
    requires forall i :: 0 <= i < |lines| ==> NoNewline(lines[i])
    ensures SplitAll(lines) == lines
  {
    if |lines| > 0 {
      SplitSingle(lines[0]);
      SplitAllSingles(lines[1..]);
    }
  }

  /** `pieces` with `suffix` appended to its last piece. */
  function ExtendLast(pieces: seq<string>, suffix: string): (r: seq<string>)
    requires |pieces| >= 1
    ensures |r| == |pieces| && r[..|r| - 1] == pieces[..|pieces| - 1]
    ensures r[|r| - 1] == pieces[|pieces| - 1] + suffix
  {
    pieces[..|pieces| - 1] + [pieces[|pieces| - 1] + suffix]
  }

  /** Extending the last piece commutes with prepending a character to the
      first piece. */
  lemma ExtendLastCons(c: char, pieces: seq<string>, suffix: string)
    requires |pieces| >= 1
    ensures ExtendLast([[c] + pieces[0]] + pieces[1..], suffix) ==
            [[c] + ExtendLast(pieces, suffix)[0]] + ExtendLast(pieces, suffix)[1..]
  {
    var n := |pieces| - 1;
    if n == 0 {
      assert [c] + (pieces[0] + suffix) == ([c] + pieces[0]) + suffix;
    } else {
      assert ([[c] + pieces[0]] + pieces[1..])[..n] == [[c] + pieces[0]] + pieces[1..n];
    }
  }

  /** Appending newline-free text to `w` extends the last piece of `w`. */
  lemma {:induction false} SplitAppend(w: string, suffix: string)
    requires NoNewline(suffix)
    ensures Split(w + suffix) == Split(w)[..|Split(w)| - 1] + [Split(w)[|Split(w)| - 1] + suffix]
  {
    if |w| == 0 {
      assert w + suffix == suffix;
      SplitSingle(suffix);
    } else {
      assert (w + suffix)[1..] == w[1..] + suffix;
      SplitAppend(w[1..], suffix);
      var tail := Split(w[1..]);
      assert Split(w[1..] + suffix) == ExtendLast(tail, suffix);
      if w[0] == '\n' {
        assert ([""] + tail)[..|tail|] == [""] + tail[..|tail| - 1];
      } else {
        ExtendLastCons(w[0], tail, suffix);
      }
    }
  }

  function DigitChar(d: nat): char
    requires d < 10
  {
    "0123456789"[d]
  }

  /** Python's str(n) for a non-negative int: its decimal digits. */
  function NatToString(n: nat): (s: string)
    ensures |s| >= 1
    ensures forall i :: 0 <= i < |s| ==> '0' <= s[i] <= '9'
  {
    if n < 10 then [DigitChar(n)] else NatToString(n / 10) + [DigitChar(n % 10)]
  }

  /** Reads a run of decimal digits back as a number (Python's int(s)). */
  function ParseNat(s: string): nat
    requires forall i :: 0 <= i < |s| ==> '0' <= s[i] <= '9'
  {
    if |s| == 0 then 0
    else 10 * ParseNat(s[..|s| - 1]) + (s[|s| - 1] as int - '0' as int)
  }

  lemma {:induction false} ParseNatToString(n: nat)
    ensures ParseNat(NatToString(n)) == n
  {
    var s := NatToString(n);
    if n >= 10 {
      assert s[..|s| - 1] == NatToString(n / 10);
      ParseNatToString(n / 10);
    }
  }

  lemma NatToStringNoNewline(n: nat)
    ensures NoNewline(NatToString(n))
  {
  }
}
