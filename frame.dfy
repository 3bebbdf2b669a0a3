/** The table the three scripts work on: a sequence of rows, each with its
    grouping keys as typed fields and every other column keyed by name.
    A missing value (pandas' NaN) is the absence of the column's key in a row. */
module Frame {

  datatype Option<T> = None | Some(value: T)

  /** A value of one column of one row, as read from the feed or computed. */
  datatype Cell = Num(n: real) | Text(s: string)

  datatype Row = Row(player: string, position: string, week: int, cells: map<string, Cell>)

  /** The value of column `col` in `r`, or None when it is missing. */
  function Get(r: Row, col: string): Option<Cell>
  {
    if col in r.cells then Some(r.cells[col]) else None
  }

  /** Assigns column `col` of `r` (None makes it missing); nothing else changes. */
  function Put(r: Row, col: string, v: Option<Cell>): (r': Row)
    ensures Get(r', col) == v
    ensures forall c :: c != col ==> Get(r', c) == Get(r, c)
    ensures r'.player == r.player && r'.position == r.position && r'.week == r.week
  {
    match v
    case Some(c) => r.(cells := r.cells[col := c])
    case None => r.(cells := r.cells - {col})
  }

  /** The numeric value of column `col`, or None when it is missing or not a number. */
  function NumberAt(r: Row, col: string): Option<real>
  {
    match Get(r, col)
    case Some(Num(n)) => Some(n)
    case _ => None
  }

  /** A number (or NaN) as a cell to be stored. */
  function NumCell(v: Option<real>): Option<Cell>
  {
    match v
    case Some(n) => Some(Num(n))
    case None => None
  }

  /** The name under which both training scripts store a counter's season average. */
  function AvgName(col: string): string
  {
    col + "_season_avg"
  }

  /** Whether `c` ends like a season-average column name. */
  predicate HasAvgSuffix(c: string)
  {
    |c| >= 11 && c[|c| - 11..] == "_season_avg"
  }

  lemma {:induction false} AvgNameHasSuffix(a: string)
    ensures HasAvgSuffix(AvgName(a))
  {
    assert AvgName(a)[|AvgName(a)| - 11..] == "_season_avg";
  }

  lemma {:induction false} AvgNameInjective(a: string, b: string)
    ensures AvgName(a) == AvgName(b) <==> a == b
  {
    if AvgName(a) == AvgName(b) {
      assert |a| == |b|;
      assert a == AvgName(a)[..|a|];
      assert b == AvgName(b)[..|b|];
    }
  }

  function AvgNames(cols: seq<string>): (names: seq<string>)
    ensures |names| == |cols|
    ensures forall i :: 0 <= i < |cols| ==> names[i] == AvgName(cols[i])
  {
    seq(|cols|, i requires 0 <= i < |cols| => AvgName(cols[i]))
  }

  /** A name without the suffix is none of the average names. */
  lemma {:induction false} PlainNotAvgName(c: string, cols: seq<string>)
    requires !HasAvgSuffix(c)
    ensures c !in AvgNames(cols)
  {
    forall j | 0 <= j < |cols| ensures c != AvgName(cols[j]) {
      AvgNameHasSuffix(cols[j]);
    }
  }

  /** `row[cols]`: one row's numeric values of `cols`, in order (missing or text as None). */
  function Values(r: Row, cols: seq<string>): (x: seq<Option<real>>)
    ensures |x| == |cols|
    ensures forall j :: 0 <= j < |cols| ==> x[j] == NumberAt(r, cols[j])
  {
    seq(|cols|, j requires 0 <= j < |cols| => NumberAt(r, cols[j]))
  }

  /** Every column of `cols` is present (the test of `dropna(subset=cols)`). */
  predicate Complete(r: Row, cols: seq<string>)
  {
    forall k :: 0 <= k < |cols| ==> cols[k] in r.cells
  }

  /** The elements of `s` that satisfy `p`, in their order (a boolean mask). */
  function Filter<T(!new)>(s: seq<T>, p: T -> bool): (kept: seq<T>)
    ensures forall x :: x in kept <==> x in s && p(x)
    ensures |kept| <= |s|
  {
    if s == [] then []
    else
      var rest := Filter(s[1..], p);
      if p(s[0]) then [s[0]] + rest else rest
  }

  /** Filtering keeps every passing element as often as it occurs and drops the others. */
  lemma {:induction false} FilterCounts<T(!new)>(s: seq<T>, p: T -> bool)
    ensures forall x :: multiset(Filter(s, p))[x] == if p(x) then multiset(s)[x] else 0
  {
    if s != [] {
      FilterCounts(s[1..], p);
      assert s == [s[0]] + s[1..];
    }
  }

  /** Filtering a concatenation filters each part. */
  lemma {:induction false} FilterAppend<T(!new)>(a: seq<T>, b: seq<T>, p: T -> bool)
    ensures Filter(a + b, p) == Filter(a, p) + Filter(b, p)
  {
    if a == [] {
      assert a + b == b;
    } else {
      var ab := a + b;
      assert ab[0] == a[0] && ab[1..] == a[1..] + b;
      FilterAppend(a[1..], b, p);
      if p(a[0]) {
        assert Filter(ab, p) == [a[0]] + Filter(ab[1..], p);
        assert Filter(a, p) == [a[0]] + Filter(a[1..], p);
        assert [a[0]] + (Filter(a[1..], p) + Filter(b, p)) == ([a[0]] + Filter(a[1..], p)) + Filter(b, p);
      } else {
        assert Filter(ab, p) == Filter(ab[1..], p);
        assert Filter(a, p) == Filter(a[1..], p);
      }
    }
  }

  /** A filter that every element passes keeps the sequence, one that none passes empties it. */
  lemma {:induction false} FilterAllOrNone<T(!new)>(s: seq<T>, p: T -> bool)
    ensures (forall i :: 0 <= i < |s| ==> p(s[i])) ==> Filter(s, p) == s
    ensures (forall i :: 0 <= i < |s| ==> !p(s[i])) ==> Filter(s, p) == []
  {
    if s != [] {
      FilterAllOrNone(s[1..], p);
      assert forall i :: 0 <= i < |s[1..]| ==> s[1..][i] == s[i + 1];
    }
  }

  /** The index of the first element of `s` that satisfies `p`. */
  function FirstIndex<T>(s: seq<T>, p: T -> bool): (r: Option<nat>)
    ensures r.Some? ==> r.value < |s| && p(s[r.value]) && forall j :: 0 <= j < r.value ==> !p(s[j])
    ensures r.None? <==> forall j :: 0 <= j < |s| ==> !p(s[j])
  {
    if s == [] then None
    else if p(s[0]) then Some(0)
    else
      match FirstIndex(s[1..], p)
      case Some(i) => Some(i + 1)
      case None => None
  }

  /** `rows.dropna(subset=cols)`. */
  function DropNa(rows: seq<Row>, cols: seq<string>): (kept: seq<Row>)
    ensures forall r :: multiset(kept)[r] == if Complete(r, cols) then multiset(rows)[r] else 0
    ensures forall r :: r in kept <==> r in rows && Complete(r, cols)
  {
    FilterCounts(rows, r => Complete(r, cols));
    Filter(rows, r => Complete(r, cols))
  }

  /** The rows after one column assignment that computes each new row from the old one. */
  function Mapped(s: seq<Row>, f: Row --> Row): (t: seq<Row>)
    requires forall i :: 0 <= i < |s| ==> f.requires(s[i])
    ensures |t| == |s|
    ensures forall i :: 0 <= i < |s| ==> t[i] == f(s[i])
  {
    seq(|s|, i requires 0 <= i < |s| => f(s[i]))
  }

  /** A vectorised column assignment over the whole table, row by row. */
  method MapRows(df: array<Row>, f: Row --> Row)
    requires forall i :: 0 <= i < df.Length ==> f.requires(df[i])
    modifies df
    ensures df[..] == Mapped(old(df[..]), f)
  {
    for i := 0 to df.Length
      invariant forall j :: 0 <= j < i ==> df[j] == f(old(df[j]))
      invariant forall j :: i <= j < df.Length ==> df[j] == old(df[j])
    {
      df[i] := f(df[i]);
    }
  }

  /** The sum of the numeric values of `col` over the rows of one group. */
  function SumIn(rows: seq<Row>, member: Row -> bool, col: string): real
  {
    if rows == [] then 0.0
    else
      var rest := SumIn(rows[1..], member, col);
      match NumberAt(rows[0], col)
      case Some(n) => if member(rows[0]) then n + rest else rest
      case None => rest
  }

  /** How many rows of one group have a numeric value in `col`. */
  function CountIn(rows: seq<Row>, member: Row -> bool, col: string): nat
  {
    if rows == [] then 0
    else
      var rest := CountIn(rows[1..], member, col);
      if member(rows[0]) && NumberAt(rows[0], col).Some? then rest + 1 else rest
  }

  /** pandas' `mean` of `col` over one group: missing values are skipped, and a
      group without any value has a missing mean. */
  function MeanIn(rows: seq<Row>, member: Row -> bool, col: string): (m: Option<real>)
    ensures m.Some? <==> exists r :: r in rows && member(r) && NumberAt(r, col).Some?
  {
    CountPositive(rows, member, col);
    var k := CountIn(rows, member, col);
    if k == 0 then None else Some(SumIn(rows, member, col) / k as real)
  }

  lemma {:induction false} CountPositive(rows: seq<Row>, member: Row -> bool, col: string)
    ensures CountIn(rows, member, col) > 0 <==> exists r :: r in rows && member(r) && NumberAt(r, col).Some?
  {
    if rows != [] {
      CountPositive(rows[1..], member, col);
      assert forall r :: r in rows <==> r == rows[0] || r in rows[1..];
    }
  }

  /** When every value of a group is `v`, the group's sum is `v` times its count. */
  lemma {:induction false} SumOfConstant(rows: seq<Row>, member: Row -> bool, col: string, v: real)
    requires forall r :: r in rows && member(r) && NumberAt(r, col).Some? ==> NumberAt(r, col) == Some(v)
    ensures SumIn(rows, member, col) == v * CountIn(rows, member, col) as real
  {
    if rows != [] {
      var tail := rows[1..];
      forall r | r in tail && member(r) && NumberAt(r, col).Some? ensures NumberAt(r, col) == Some(v) {
        assert r in rows;
      }
      SumOfConstant(tail, member, col, v);
      if member(rows[0]) && NumberAt(rows[0], col).Some? {
        assert rows[0] in rows;
        ProductStep(v, SumIn(tail, member, col), CountIn(tail, member, col));
      }
    }
  }

  lemma {:induction false} ProductStep(v: real, s: real, c: nat)
    requires s == v * c as real
    ensures v + s == v * (c + 1) as real
  {
  }

  lemma {:induction false} ProductQuotient(s: real, v: real, k: real)
    requires k > 0.0 && s == v * k
    ensures s / k == v
  {
  }

  /** When every value of a group is `v`, its mean is `v`. */
  lemma {:induction false} MeanOfConstant(rows: seq<Row>, member: Row -> bool, col: string, v: real)
    requires forall r :: r in rows && member(r) && NumberAt(r, col).Some? ==> NumberAt(r, col) == Some(v)
    requires exists r :: r in rows && member(r) && NumberAt(r, col).Some?
    ensures MeanIn(rows, member, col) == Some(v)
  {
    SumOfConstant(rows, member, col, v);
    CountPositive(rows, member, col);
    var k := CountIn(rows, member, col);
    var s := SumIn(rows, member, col);
    ProductQuotient(s, v, k as real);
  }

  /** Restricting the rows to the group first changes neither its sum nor its count. */
  lemma {:induction false} SumOfMembers(rows: seq<Row>, member: Row -> bool, col: string)
    ensures SumIn(Filter(rows, member), member, col) == SumIn(rows, member, col)
    ensures CountIn(Filter(rows, member), member, col) == CountIn(rows, member, col)
  {
    if rows != [] {
      SumOfMembers(rows[1..], member, col);
      var rest := Filter(rows[1..], member);
      if member(rows[0]) {
        assert ([rows[0]] + rest)[0] == rows[0] && ([rows[0]] + rest)[1..] == rest;
      }
    }
  }

  /** A group's mean is the mean over the group's own rows: rows outside the group
      play no part. */
  lemma {:induction false} MeanOfMembers(rows: seq<Row>, member: Row -> bool, col: string)
    ensures MeanIn(Filter(rows, member), member, col) == MeanIn(rows, member, col)
  {
    SumOfMembers(rows, member, col);
  }

  /** A group's mean depends only on which rows belong to the group and on their
      values of `col`: assigning other columns does not change it. */
  lemma {:induction false} MeanDependsOnColumn(rows: seq<Row>, rows': seq<Row>, member: Row -> bool, member': Row -> bool, col: string)
    requires |rows| == |rows'|
    requires forall i :: 0 <= i < |rows| ==> member(rows[i]) == member'(rows'[i])
    requires forall i :: 0 <= i < |rows| ==> NumberAt(rows[i], col) == NumberAt(rows'[i], col)
    ensures SumIn(rows, member, col) == SumIn(rows', member', col)
    ensures CountIn(rows, member, col) == CountIn(rows', member', col)
    ensures MeanIn(rows, member, col) == MeanIn(rows', member', col)
  {
    if rows != [] {
      MeanDependsOnColumn(rows[1..], rows'[1..], member, member', col);
    }
  }
}
