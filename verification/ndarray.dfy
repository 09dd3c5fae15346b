/** The numpy operations the core applies to two-dimensional grids.
    Each vectorised operation is one `forall` statement: numpy evaluates the whole
    right-hand side (and, for `a[sel] = v`, the whole selection) before it writes. */
module NdArray {
  import opened Bits
  import opened Floats

  predicate SameShape<A, B>(a: array2<A>, b: array2<B>)
  {
    a.Length0 == b.Length0 && a.Length1 == b.Length1
  }

  predicate InGrid<A>(a: array2<A>, i: int, j: int)
  {
    0 <= i < a.Length0 && 0 <= j < a.Length1
  }

  /** The axes that `squeeze()` keeps of a rows x cols grid: it drops every axis of length 1. */
  function SqueezedShape(rows: nat, cols: nat): seq<nat>
  {
    (if rows == 1 then [] else [rows]) + (if cols == 1 then [] else [cols])
  }

  /** A grid keeps both axes through `squeeze()` exactly when neither has length 1, and
      then its shape is unchanged. */
  lemma SqueezedShapeTwoAxes(rows: nat, cols: nat)
    ensures |SqueezedShape(rows, cols)| <= 2
    ensures |SqueezedShape(rows, cols)| == 2 <==> rows != 1 && cols != 1
    ensures |SqueezedShape(rows, cols)| == 2 ==> SqueezedShape(rows, cols) == [rows, cols]
  {
  }

  /** A rectangular grid value with the given number of rows and columns. */
  predicate HasShape<T>(g: seq<seq<T>>, rows: nat, cols: nat)
  {
    |g| == rows && forall i :: 0 <= i < |g| ==> |g[i]| == cols
  }

  /** The current contents of an array, row by row. */
  function Rows<T>(a: array2<T>): (g: seq<seq<T>>)
    reads a
    ensures HasShape(g, a.Length0, a.Length1)
    ensures forall i, j :: InGrid(a, i, j) ==> g[i][j] == a[i, j]
  {
    seq(a.Length0, i requires 0 <= i < a.Length0 reads a =>
      seq(a.Length1, j requires 0 <= j < a.Length1 reads a => a[i, j]))
  }

  /** `np.zeros_like(a)` for a uint8 grid. */
  method ZerosLike<A>(a: array2<A>) returns (z: array2<byte>)
    ensures fresh(z) && SameShape(z, a)
    ensures forall i, j :: InGrid(z, i, j) ==> z[i, j] == 0
  {
    z := new byte[a.Length0, a.Length1]((i, j) => 0);
  }

  /** `a[...] = v`. */
  method Fill<T>(a: array2<T>, v: T)
    modifies a
    ensures forall i, j :: InGrid(a, i, j) ==> a[i, j] == v
  {
    forall i, j | 0 <= i < a.Length0 && 0 <= j < a.Length1 {
      a[i, j] := v;
    }
  }

  /** `np.bitwise_and(a, b)` on two uint8 grids of one shape: a new grid. */
  method BitwiseAnd(a: array2<byte>, b: array2<byte>) returns (c: array2<byte>)
    requires SameShape(a, b)
    ensures fresh(c) && SameShape(c, a)
    ensures forall i, j :: InGrid(c, i, j) ==> c[i, j] == AndBytes(a[i, j], b[i, j])
  {
    c := new byte[a.Length0, a.Length1];
    forall i, j | 0 <= i < c.Length0 && 0 <= j < c.Length1 {
      c[i, j] := AndBytes(a[i, j], b[i, j]);
    }
  }

  /** An elementwise comparison such as `a > 0` or `a == 9`: a new boolean grid. */
  method Where<T>(a: array2<T>, p: T -> bool) returns (sel: array2<bool>)
    ensures fresh(sel) && SameShape(sel, a)
    ensures forall i, j :: InGrid(sel, i, j) ==> sel[i, j] == p(a[i, j])
  {
    sel := new bool[a.Length0, a.Length1];
    forall i, j | 0 <= i < sel.Length0 && 0 <= j < sel.Length1 {
      sel[i, j] := p(a[i, j]);
    }
  }

  /** Boolean-index assignment `a[sel] = v`; cells outside the selection keep their value. */
  method AssignWhere<T>(a: array2<T>, sel: array2<bool>, v: T)
    requires SameShape(a, sel)
    modifies a
    ensures forall i, j :: InGrid(a, i, j) ==> a[i, j] == (if old(sel[i, j]) then v else old(a[i, j]))
  {
    forall i, j | 0 <= i < a.Length0 && 0 <= j < a.Length1 {
      a[i, j] := if sel[i, j] then v else a[i, j];
    }
  }

  /** `a.astype(np.float32)` for a uint8 grid: a new grid. */
  method AsFloat(a: array2<byte>) returns (f: array2<Float>)
    ensures fresh(f) && SameShape(f, a)
    ensures forall i, j :: InGrid(f, i, j) ==> f[i, j] == Num(a[i, j] as real)
  {
    f := new Float[a.Length0, a.Length1]((i, j) => NaN);
    forall i, j | 0 <= i < f.Length0 && 0 <= j < f.Length1 {
      f[i, j] := Num(a[i, j] as real);
    }
  }

  /** Elementwise `a * b` of two floating-point grids of one shape: a new grid. */
  method Multiply(a: array2<Float>, b: array2<Float>) returns (c: array2<Float>)
    requires SameShape(a, b)
    ensures fresh(c) && SameShape(c, a)
    ensures forall i, j :: InGrid(c, i, j) ==> c[i, j] == Mul(a[i, j], b[i, j])
  {
    c := new Float[a.Length0, a.Length1]((i, j) => NaN);
    forall i, j | 0 <= i < c.Length0 && 0 <= j < c.Length1 {
      c[i, j] := Mul(a[i, j], b[i, j]);
    }
  }
}
