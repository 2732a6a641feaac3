/** pandas tables as the viewer uses them: a frame is a set of column names
    and a sequence of rows, a row maps column names to cells. */
module Tables {

  datatype Option<T> = None | Some(value: T)

  /** A table cell: text, a number, or pandas' missing value (NaN). */
  datatype Value = Str(s: string) | Num(r: real) | Null

  type Row = map<string, Value>

  datatype Frame = Frame(columns: set<string>, rows: seq<Row>)

  /** The cell of `row` in column `col`; a row without that column reads as NaN. */
  function Cell(row: Row, col: string): Value
  {
    if col in row then row[col] else Null
  }

  /** pandas' element-wise `==`: NaN equals nothing, not even NaN. */
  predicate Same(a: Value, b: Value)
  {
    a == b && !a.Null?
  }

  /** Python truthiness of a cell (`if value:`); NaN is truthy. */
  predicate Truthy(v: Value)
  {
    match v
    case Str(s) => s != ""
    case Num(r) => r != 0.0
    case Null => true
  }

  /** The cells of one column, top to bottom. */
  function Column(f: Frame, col: string): seq<Value>
  {
    seq(|f.rows|, i requires 0 <= i < |f.rows| => Cell(f.rows[i], col))
  }

  /** Every row of `f` holds a number in column `col`. */
  predicate NumericColumn(f: Frame, col: string)
  {
    forall i :: 0 <= i < |f.rows| ==> Cell(f.rows[i], col).Num?
  }

  /** The numbers of a numeric column, top to bottom (`np.asarray(df[col])`). */
  function Numbers(f: Frame, col: string): (xs: seq<real>)
    requires NumericColumn(f, col)
    ensures |xs| == |f.rows|
  {
    seq(|f.rows|, i requires 0 <= i < |f.rows| => Cell(f.rows[i], col).r)
  }

  /** `a` is `b` with some elements dropped, the rest in their order. */
  ghost predicate Subsequence<T>(a: seq<T>, b: seq<T>)
    decreases |b|
  {
    if |a| == 0 then true
    else if |b| == 0 then false
    else if a[0] == b[0] then Subsequence(a[1..], b[1..])
    else Subsequence(a, b[1..])
  }

  /** The pieces one after the other (Python's list `+=` over a loop). */
  function Concat<T>(pieces: seq<seq<T>>): seq<T>
  {
    if |pieces| == 0 then [] else Concat(pieces[..|pieces| - 1]) + pieces[|pieces| - 1]
  }

  lemma ConcatAppend<T>(pieces: seq<seq<T>>, piece: seq<T>)
    ensures Concat(pieces + [piece]) == Concat(pieces) + piece
  {
    assert (pieces + [piece])[..|pieces|] == pieces;
  }

  /** Boolean-mask selection `rows[mask]`: the rows satisfying `p`, in order. */
  function Keep<T(!new)>(rows: seq<T>, p: T -> bool): (kept: seq<T>)
    ensures |kept| <= |rows|
    ensures forall x :: x in kept <==> x in rows && p(x)
  {
    if |rows| == 0 then []
    else (if p(rows[0]) then [rows[0]] else []) + Keep(rows[1..], p)
  }

  /** A mask keeps every copy of a row it passes and no copy of the others. */
  lemma {:induction false} KeepCount<T(!new)>(rows: seq<T>, p: T -> bool)
    ensures forall x :: multiset(Keep(rows, p))[x] == if p(x) then multiset(rows)[x] else 0
  {
    if |rows| > 0 {
      KeepCount(rows[1..], p);
      assert rows == [rows[0]] + rows[1..];
    }
  }

  lemma {:induction false} KeepSubsequence<T(!new)>(rows: seq<T>, p: T -> bool)
    ensures Subsequence(Keep(rows, p), rows)
  {
    if |rows| > 0 {
      KeepSubsequence(rows[1..], p);
      if p(rows[0]) {
        assert Keep(rows, p)[1..] == Keep(rows[1..], p);
      } else {
        assert Keep(rows, p) == Keep(rows[1..], p);
        SubsequenceSkip(Keep(rows, p), rows);
      }
    }
  }

  lemma SubsequenceSkip<T>(a: seq<T>, b: seq<T>)
    requires |b| > 0 && Subsequence(a, b[1..])
    ensures Subsequence(a, b)
    decreases |b|, 0
  {
    if |a| > 0 && a[0] == b[0] {
      SubsequenceTail(a, b[1..]);
    }
  }

  lemma SubsequenceTail<T>(a: seq<T>, b: seq<T>)
    requires |a| > 0 && Subsequence(a, b)
    ensures Subsequence(a[1..], b)
    decreases |b|, 1
  {
    if a[0] == b[0] {
      SubsequenceSkip(a[1..], b);
    } else {
      SubsequenceTail(a, b[1..]);
      SubsequenceSkip(a[1..], b);
    }
  }

  lemma {:induction false} SubsequenceReflexive<T>(a: seq<T>)
    ensures Subsequence(a, a)
  {
    if |a| > 0 {
      SubsequenceReflexive(a[1..]);
    }
  }

  lemma {:induction false} SubsequenceTransitive<T>(a: seq<T>, b: seq<T>, c: seq<T>)
    requires Subsequence(a, b) && Subsequence(b, c)
    ensures Subsequence(a, c)
    decreases |c|
  {
    if |a| > 0 {
      if b[0] == c[0] {
        if a[0] == b[0] {
          SubsequenceTransitive(a[1..], b[1..], c[1..]);
        } else {
          SubsequenceTransitive(a, b[1..], c[1..]);
        }
      } else {
        SubsequenceTransitive(a, b, c[1..]);
        SubsequenceSkip(a, c);
      }
    }
  }

  /** A mask every row passes keeps the whole table. */
  lemma {:induction false} KeepAll<T(!new)>(rows: seq<T>, p: T -> bool)
    requires forall i :: 0 <= i < |rows| ==> p(rows[i])
    ensures Keep(rows, p) == rows
  {
    if |rows| > 0 {
      KeepAll(rows[1..], p);
    }
  }

  /** `df[df[col] == v]`: the rows whose cell in `col` equals `v`. */
  function Where(f: Frame, col: string, v: Value): (g: Frame)
    ensures g.columns == f.columns
    ensures forall r :: r in g.rows <==> r in f.rows && Same(Cell(r, col), v)
  {
    Frame(f.columns, Keep(f.rows, Matches(col, v)))
  }

  /** The mask of `df[col] == v`. */
  function Matches(col: string, v: Value): Row -> bool
  {
    (r: Row) => Same(Cell(r, col), v)
  }

  /** Position of the first occurrence of `x` in `s`. */
  function FirstIndex<T(==)>(s: seq<T>, x: T): (k: nat)
    requires x in s
    ensures k < |s| && s[k] == x
    ensures forall j :: 0 <= j < k ==> s[j] != x
  {
    if s[0] == x then 0 else 1 + FirstIndex(s[1..], x)
  }

  lemma FirstIndexPrefix<T>(s: seq<T>, n: nat, x: T)
    requires n <= |s| && x in s[..n]
    ensures FirstIndex(s, x) == FirstIndex(s[..n], x)
  {
    var a := FirstIndex(s, x);
    var b := FirstIndex(s[..n], x);
    assert s[b] == x;
    assert a <= b;
    assert s[..n][a] == s[a];
  }

  predicate NoDuplicates<T(==)>(s: seq<T>)
  {
    forall i, j :: 0 <= i < j < |s| ==> s[i] != s[j]
  }

  /** The distinct elements of `s` in first-occurrence order
      (`pd.Series.unique()`, or `np.unique(..., return_index=True)` re-sorted by index). */
  function Distinct<T(==,!new)>(s: seq<T>): (d: seq<T>)
    ensures NoDuplicates(d)
    ensures forall x :: x in d <==> x in s
    ensures forall i, j :: 0 <= i < j < |d| ==> FirstIndex(s, d[i]) < FirstIndex(s, d[j])
  {
    if |s| == 0 then []
    else
      var n := |s| - 1;
      var d := Distinct(s[..n]);
      assert forall y :: y in s <==> y in s[..n] || y == s[n] by {
        assert s == s[..n] + [s[n]];
      }
      forall y | y in d ensures FirstIndex(s, y) == FirstIndex(s[..n], y) {
        FirstIndexPrefix(s, n, y);
      }
      if s[n] in d then d
      else
        assert FirstIndex(s, s[n]) == n;
        d + [s[n]]
  }

  // ---- the order np.unique sorts by ----

  /** Lexicographic order of texts by character code (Python's `<` on str). */
  predicate TextLess(a: string, b: string)
  {
    if |a| == 0 then |b| > 0
    else |b| > 0 && (a[0] < b[0] || (a[0] == b[0] && TextLess(a[1..], b[1..])))
  }

  function Rank(v: Value): nat
  {
    match v
    case Num(_) => 0
    case Str(_) => 1
    case Null => 2
  }

  /** The order `np.unique` sorts cells by: numbers ascending, then texts
      lexicographically, NaN last. */
  predicate Less(a: Value, b: Value)
  {
    if Rank(a) != Rank(b) then Rank(a) < Rank(b)
    else match a
      case Num(x) => x < b.r
      case Str(x) => TextLess(x, b.s)
      case Null => false
  }

  lemma {:induction false} TextLessIrreflexive(a: string)
    ensures !TextLess(a, a)
  {
    if |a| > 0 {
      TextLessIrreflexive(a[1..]);
    }
  }

  lemma {:induction false} TextLessTransitive(a: string, b: string, c: string)
    requires TextLess(a, b) && TextLess(b, c)
    ensures TextLess(a, c)
  {
    if |a| > 0 && a[0] == b[0] && b[0] == c[0] {
      TextLessTransitive(a[1..], b[1..], c[1..]);
    }
  }

  lemma {:induction false} TextLessTotal(a: string, b: string)
    requires a != b
    ensures TextLess(a, b) || TextLess(b, a)
  {
    if |a| > 0 && |b| > 0 && a[0] == b[0] {
      TextLessTotal(a[1..], b[1..]);
    }
  }

  lemma LessIrreflexive(a: Value)
    ensures !Less(a, a)
  {
    if a.Str? {
      TextLessIrreflexive(a.s);
    }
  }

  lemma LessTransitive(a: Value, b: Value, c: Value)
    requires Less(a, b) && Less(b, c)
    ensures Less(a, c)
  {
    if a.Str? && b.Str? && c.Str? {
      TextLessTransitive(a.s, b.s, c.s);
    }
  }

  lemma LessTotal(a: Value, b: Value)
    requires a != b
    ensures Less(a, b) || Less(b, a)
  {
    if a.Str? && b.Str? {
      TextLessTotal(a.s, b.s);
    }
  }

  predicate StrictlySorted(s: seq<Value>)
  {
    forall i, j :: 0 <= i < j < |s| ==> Less(s[i], s[j])
  }

  function Insert(x: Value, s: seq<Value>): (r: seq<Value>)
    requires StrictlySorted(s)
    ensures StrictlySorted(r)
    ensures forall y :: y in r <==> y in s || y == x
  {
    if |s| == 0 then [x]
    else if x == s[0] then s
    else if Less(x, s[0]) then
      assert forall j :: 0 <= j < |s| ==> Less(x, s[j]) by {
        forall j | 0 < j < |s| ensures Less(x, s[j]) {
          LessTransitive(x, s[0], s[j]);
        }
      }
      [x] + s
    else
      LessTotal(x, s[0]);
      var t := Insert(x, s[1..]);
      assert forall y :: y in t ==> Less(s[0], y);
      [s[0]] + t
  }

  /** `np.unique(values)`: the distinct cells in ascending order. */
  function Unique(s: seq<Value>): (u: seq<Value>)
    ensures StrictlySorted(u)
    ensures forall x :: x in u <==> x in s
  {
    if |s| == 0 then []
    else
      var n := |s| - 1;
      assert s == s[..n] + [s[n]];
      Insert(s[n], Unique(s[..n]))
  }

  lemma StrictlySortedNoDuplicates(s: seq<Value>)
    requires StrictlySorted(s)
    ensures NoDuplicates(s)
  {
    forall i, j | 0 <= i < j < |s| ensures s[i] != s[j] {
      if s[i] == s[j] {
        LessIrreflexive(s[i]);
      }
    }
  }
}
