/**
 * Tables of jets, as the scripts hold them in pandas DataFrames.
 *
 * A table has a number of rows and named columns. A column holds one real per
 * row, one boolean per row (a label such as `is_quark`), or one variable-length
 * array of reals per row (the track and tower arrays read from ROOT).
 * `Table` is the value a pickle file holds; `Frame` is a DataFrame that a
 * script changes in place by assigning and deleting columns.
 */
module Frames {

  datatype Column = Reals(xs: seq<real>) | Flags(bs: seq<bool>) | Lists(vs: seq<seq<real>>)

  function Length(c: Column): nat
  {
    match c
    case Reals(xs) => |xs|
    case Flags(bs) => |bs|
    case Lists(vs) => |vs|
  }

  predicate SameKind(a: Column, b: Column)
  {
    (a.Reals? && b.Reals?) || (a.Flags? && b.Flags?) || (a.Lists? && b.Lists?)
  }

  /** The rows of `a` followed by the rows of `b`. */
  function Append(a: Column, b: Column): (c: Column)
    requires SameKind(a, b)
    ensures SameKind(a, c) && Length(c) == Length(a) + Length(b)
  {
    match a
    case Reals(xs) => Reals(xs + b.xs)
    case Flags(bs) => Flags(bs + b.bs)
    case Lists(vs) => Lists(vs + b.vs)
  }

  /** A boolean column holding `b` on each of `n` rows: what `df[name] = b` stores. */
  function Constant(b: bool, n: nat): (c: Column)
    ensures c.Flags? && Length(c) == n
    ensures forall i :: 0 <= i < n ==> c.bs[i] == b
  {
    Flags(seq(n, _ => b))
  }

  /** Row-by-row difference of two real columns. */
  function Minus(xs: seq<real>, ys: seq<real>): (zs: seq<real>)
    requires |xs| == |ys|
    ensures |zs| == |xs| && forall i :: 0 <= i < |xs| ==> zs[i] == xs[i] - ys[i]
  {
    seq(|xs|, i requires 0 <= i < |xs| => xs[i] - ys[i])
  }

  /** Row-by-row quotient of two real columns, the divisor nonzero on every row. */
  function Over(xs: seq<real>, ys: seq<real>): (zs: seq<real>)
    requires |xs| == |ys| && forall i :: 0 <= i < |ys| ==> ys[i] != 0.0
    ensures |zs| == |xs| && forall i :: 0 <= i < |xs| ==> zs[i] == xs[i] / ys[i]
  {
    seq(|xs|, i requires 0 <= i < |xs| => xs[i] / ys[i])
  }

  datatype Table = Table(nrows: nat, cols: map<string, Column>)

  /** Every column has one entry per row. */
  ghost predicate WellFormed(t: Table)
  {
    forall name :: name in t.cols ==> Length(t.cols[name]) == t.nrows
  }

  /** Two tables have the same column names, and the same kind of column under each. */
  predicate SameSchema(a: Table, b: Table)
  {
    a.cols.Keys == b.cols.Keys && forall name :: name in a.cols ==> SameKind(a.cols[name], b.cols[name])
  }

  /** `pandas.concat([a, b])`: the rows of `a` followed by the rows of `b`, column by column. */
  function Concat(a: Table, b: Table): (r: Table)
    requires SameSchema(a, b)
    ensures SameSchema(a, r) && r.nrows == a.nrows + b.nrows
    ensures WellFormed(a) && WellFormed(b) ==> WellFormed(r)
  {
    Table(a.nrows + b.nrows, map name | name in a.cols :: Append(a.cols[name], b.cols[name]))
  }

  /**
   * A DataFrame that a script changes in place. `nrows` and `cols` are its
   * state; `Snapshot` is the table it holds.
   */
  class Frame {
    var nrows: nat
    var cols: map<string, Column>

    ghost predicate Valid()
      reads this
    {
      WellFormed(Table(nrows, cols))
    }

    function Snapshot(): Table
      reads this
    {
      Table(nrows, cols)
    }

    /** `pandas.read_pickle`: a frame holding the table stored in the file. */
    constructor Read(t: Table)
      requires WellFormed(t)
      ensures Valid() && Snapshot() == t
    {
      nrows := t.nrows;
      cols := t.cols;
    }

    /** `df[name] = column`: adds the column, or replaces the one of that name. */
    method Assign(name: string, c: Column)
      requires Valid() && Length(c) == nrows
      modifies this
      ensures Valid() && nrows == old(nrows) && cols == old(cols)[name := c]
    {
      cols := cols[name := c];
    }

    /** `df[name] = b` for a boolean `b`: the value is repeated on every row. */
    method AssignConstant(name: string, b: bool)
      requires Valid()
      modifies this
      ensures Valid() && nrows == old(nrows) && cols == old(cols)[name := Constant(b, nrows)]
    {
      cols := cols[name := Constant(b, nrows)];
    }

    /** `df[name] -= df[other]` on two real columns. */
    method Subtract(name: string, other: string)
      requires Valid() && name in cols && other in cols && cols[name].Reals? && cols[other].Reals?
      modifies this
      ensures Valid() && nrows == old(nrows)
      ensures cols == old(cols)[name := Reals(Minus(old(cols)[name].xs, old(cols)[other].xs))]
    {
      cols := cols[name := Reals(Minus(cols[name].xs, cols[other].xs))];
    }

    /** `df[name] /= df[other]` on two real columns, `other` nonzero on every row. */
    method Divide(name: string, other: string)
      requires Valid() && name in cols && other in cols && cols[name].Reals? && cols[other].Reals?
      requires forall i :: 0 <= i < |cols[other].xs| ==> cols[other].xs[i] != 0.0
      modifies this
      ensures Valid() && nrows == old(nrows)
      ensures cols == old(cols)[name := Reals(Over(old(cols)[name].xs, old(cols)[other].xs))]
    {
      cols := cols[name := Reals(Over(cols[name].xs, cols[other].xs))];
    }

    /** `del df[name]`. */
    method Delete(name: string)
      requires Valid() && name in cols
      modifies this
      ensures Valid() && nrows == old(nrows) && cols == old(cols) - {name}
    {
      cols := cols - {name};
    }
  }
}
