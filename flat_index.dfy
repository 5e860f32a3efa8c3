/**
 * C-order (row-major) flat offsets of a three-dimensional grid. Offsets are built by repeated
 * addition and split by repeated subtraction, so that reasoning about them stays linear; one
 * lemma ties them to the products numpy uses.
 */
module FlatIndex {

  /** Offset of element x of row t when rows of length n are laid end to end (t * n + x). */
  function RowOff(n: nat, t: nat, x: nat): nat {
    if t == 0 then x else n + RowOff(n, t - 1, x)
  }

  /** Multiplying by a non-negative factor keeps the order. */
  lemma MulMonotone(i: int, j: int, w: int)
    requires i <= j && w >= 0
    ensures i * w <= j * w
  {
    assert (j - i) * w >= 0;
  }

  lemma {:induction false} RowOffIsProduct(n: nat, t: nat, x: nat)
    ensures RowOff(n, t, x) == t * n + x
  {
    if t > 0 {
      RowOffIsProduct(n, t - 1, x);
    }
  }

  lemma {:induction false} RowOffShift(n: nat, t: nat, x: nat)
    ensures RowOff(n, t, x) == RowOff(n, t, 0) + x
  {
    if t > 0 {
      RowOffShift(n, t - 1, x);
    }
  }

  lemma {:induction false} RowOffMonotone(n: nat, t: nat, u: nat)
    requires t <= u
    ensures RowOff(n, t, 0) <= RowOff(n, u, 0)
  {
    if t < u {
      RowOffMonotone(n, t, u - 1);
    }
  }

  /** Element x < n of row t lies before the start of every later row. */
  lemma RowOffBelow(n: nat, t: nat, x: nat, rows: nat)
    requires x < n && t < rows
    ensures RowOff(n, t, x) + n - x <= RowOff(n, rows, 0)
  {
    RowOffShift(n, t, x);
    RowOffMonotone(n, t + 1, rows);
  }

  /** Row of flat position p, in rows of length n. */
  function RowIndex(n: nat, p: nat): nat
    requires n > 0
    decreases p
  {
    if p < n then 0 else 1 + RowIndex(n, p - n)
  }

  /** Position of flat position p within its row, in rows of length n. */
  function Column(n: nat, p: nat): nat
    requires n > 0
    decreases p
  {
    if p < n then p else Column(n, p - n)
  }

  lemma {:induction false} Split(n: nat, p: nat)
    requires n > 0
    ensures Column(n, p) < n && RowOff(n, RowIndex(n, p), Column(n, p)) == p
  {
    if p >= n {
      Split(n, p - n);
    }
  }

  lemma {:induction false} SplitOf(n: nat, t: nat, x: nat)
    requires x < n
    ensures RowIndex(n, RowOff(n, t, x)) == t && Column(n, RowOff(n, t, x)) == x
  {
    if t > 0 {
      SplitOf(n, t - 1, x);
    }
  }

  lemma RowIndexBelow(n: nat, p: nat, rows: nat)
    requires n > 0 && p < RowOff(n, rows, 0)
    ensures RowIndex(n, p) < rows
  {
    Split(n, p);
    if RowIndex(n, p) >= rows {
      RowOffMonotone(n, rows, RowIndex(n, p));
      RowOffShift(n, RowIndex(n, p), Column(n, p));
    }
  }

  lemma {:induction false} EmptyRows(t: nat)
    ensures RowOff(0, t, 0) == 0
  {
    if t > 0 {
      EmptyRows(t - 1);
    }
  }

  /** Number of elements of a d0 x d1 x d2 grid. */
  function Volume(d0: nat, d1: nat, d2: nat): nat {
    RowOff(d2, RowOff(d1, d0, 0), 0)
  }

  lemma VolumeIsProduct(d0: nat, d1: nat, d2: nat)
    ensures Volume(d0, d1, d2) == d0 * d1 * d2
  {
    RowOffIsProduct(d1, d0, 0);
    RowOffIsProduct(d2, RowOff(d1, d0, 0), 0);
  }

  /** C-order offset of element (a, b, c) of a grid whose two inner extents are d1 and d2. */
  function Off(d1: nat, d2: nat, a: nat, b: nat, c: nat): nat {
    RowOff(d2, RowOff(d1, a, b), c)
  }

  /** Every in-range coordinate triple lands inside the flat buffer. */
  lemma OffBelow(d0: nat, d1: nat, d2: nat, a: nat, b: nat, c: nat)
    requires a < d0 && b < d1 && c < d2
    ensures Off(d1, d2, a, b, c) < Volume(d0, d1, d2)
  {
    RowOffBelow(d1, a, b, d0);
    RowOffBelow(d2, RowOff(d1, a, b), c, RowOff(d1, d0, 0));
  }

  /** The coordinates of flat position p of a grid with inner extents d1 and d2. */
  function C0(d1: nat, d2: nat, p: nat): nat
    requires d1 > 0 && d2 > 0
  {
    RowIndex(d1, RowIndex(d2, p))
  }

  function C1(d1: nat, d2: nat, p: nat): nat
    requires d1 > 0 && d2 > 0
  {
    Column(d1, RowIndex(d2, p))
  }

  function C2(d1: nat, d2: nat, p: nat): nat
    requires d1 > 0 && d2 > 0
  {
    Column(d2, p)
  }

  /** Every flat position of a d0 x d1 x d2 grid is the offset of its coordinates, which are in range. */
  lemma Coords(d0: nat, d1: nat, d2: nat, p: nat)
    requires p < Volume(d0, d1, d2)
    ensures d1 > 0 && d2 > 0
    ensures C0(d1, d2, p) < d0 && C1(d1, d2, p) < d1 && C2(d1, d2, p) < d2
    ensures Off(d1, d2, C0(d1, d2, p), C1(d1, d2, p), C2(d1, d2, p)) == p
  {
    EmptyRows(RowOff(d1, d0, 0));
    EmptyRows(d0);
    Split(d2, p);
    RowIndexBelow(d2, p, RowOff(d1, d0, 0));
    Split(d1, RowIndex(d2, p));
    RowIndexBelow(d1, RowIndex(d2, p), d0);
  }

  /** The coordinates of an offset are the triple it was built from. */
  lemma CoordsOfOff(d1: nat, d2: nat, a: nat, b: nat, c: nat)
    requires b < d1 && c < d2
    ensures C0(d1, d2, Off(d1, d2, a, b, c)) == a
    ensures C1(d1, d2, Off(d1, d2, a, b, c)) == b
    ensures C2(d1, d2, Off(d1, d2, a, b, c)) == c
  {
    SplitOf(d2, RowOff(d1, a, b), c);
    SplitOf(d1, a, b);
  }
}
