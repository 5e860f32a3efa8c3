/**
 * `generateAngles(size, maxDistance)`: the offsets (z, y, x) from a voxel to its neighbours up
 * to Chebyshev distance maxDistance, one of each opposite pair, in the order the nested
 * loops append them; then those that cannot fit in a bounding box of extents `size`
 * removed.
 */
module Angles {
  import opened Errors

  /** An offset triple, in the order the source appends its components. */
  type Angle = (int, int, int)

  function Abs(n: int): nat {
    if n < 0 then -n else n
  }

  /** The x loop for one (z, y) (imageoperations.py:84-85): (z, y, x) for x from -m to m. */
  function Line(z: int, y: int, m: nat): (s: seq<Angle>)
    ensures |s| == 2 * m + 1
  {
    seq(2 * m + 1, i requires 0 <= i < 2 * m + 1 => (z, y, i - m))
  }

  /** One pass of the y loop (imageoperations.py:82-85): (0, z, y), then the line of (z, y). */
  function Row(z: int, y: int, m: nat): seq<Angle> {
    [(0, z, y)] + Line(z, y, m)
  }

  /** The first c passes of the y loop for plane z: y from -m to c - 1 - m. */
  function Rows(z: int, m: nat, c: nat): seq<Angle> {
    if c == 0 then [] else Rows(z, m, c - 1) + Row(z, c - 1 - m, m)
  }

  /** One pass of the z loop (imageoperations.py:80-85): (0, 0, z), then every row of plane z. */
  function Plane(z: int, m: nat): seq<Angle> {
    [(0, 0, z)] + Rows(z, m, 2 * m + 1)
  }

  /** Planes 1 .. c laid end to end, plane z being plane(z). */
  function Concat(plane: nat -> seq<Angle>, c: nat): seq<Angle> {
    if c == 0 then [] else Concat(plane, c - 1) + plane(c)
  }

  /** The planes of the z loop for distance m. */
  function PlaneOf(m: nat): nat -> seq<Angle> {
    z => Plane(z, m)
  }

  /** The first c passes of the z loop: planes 1 .. c. */
  function Planes(m: nat, c: nat): seq<Angle> {
    Concat(PlaneOf(m), c)
  }

  /** The list the loops build for maxDistance (imageoperations.py:78-85); empty when it is below 1. */
  function Candidates(maxDistance: int): seq<Angle> {
    if maxDistance < 1 then [] else Planes(maxDistance, maxDistance)
  }

  function Min3(a: int, b: int, c: int): int {
    if a <= b && a <= c then a else if b <= c then b else c
  }

  /**
   * The deletion test of imageoperations.py:89: an angle goes when the smallest of
   * size - |angle|, taken per axis, is not positive.
   */
  predicate Deleted(size: Angle, a: Angle) {
    Min3(size.0 - Abs(a.0), size.1 - Abs(a.1), size.2 - Abs(a.2)) <= 0
  }

  /** `numpy.delete(angles, numpy.where(...), 0)`: the rows not deleted, in their order. */
  function Kept(s: seq<Angle>, size: Angle): seq<Angle> {
    if |s| == 0 then []
    else Kept(s[..|s| - 1], size) + (if Deleted(size, s[|s| - 1]) then [] else [s[|s| - 1]])
  }

  /**
   * Reference definition of `generateAngles`: with maxDistance below 1 the list is empty,
   * `numpy.array([])` has shape (0,), and subtracting it from the three extents raises
   * numpy's broadcasting ValueError; otherwise the candidates that fit.
   */
  function GeneratedAngles(size: Angle, maxDistance: int): Result<seq<Angle>> {
    if |Candidates(maxDistance)| == 0 then Failure(ValueError("operands could not be broadcast together with shapes (3,) (0,)"))
    else Success(Kept(Candidates(maxDistance), size))
  }

  /** The component the loops count by: the first nonzero one (0 for the zero offset). */
  function FirstNonzero(a: Angle): int {
    if a.0 != 0 then a.0 else if a.1 != 0 then a.1 else a.2
  }

  /** Every component lies within distance m. */
  predicate InBox(a: Angle, m: int) {
    Abs(a.0) <= m && Abs(a.1) <= m && Abs(a.2) <= m
  }

  predicate Distinct(s: seq<Angle>) {
    forall i, j | 0 <= i < j < |s| :: s[i] != s[j]
  }

  // ---- Counting

  lemma {:induction false} RowsLength(z: int, m: nat, c: nat)
    ensures |Rows(z, m, c)| == c * (2 * m + 2)
  {
    if c > 0 {
      RowsLength(z, m, c - 1);
    }
  }

  lemma {:induction false} ConcatLength(plane: nat -> seq<Angle>, c: nat, n: nat)
    requires forall z | 1 <= z <= c :: |plane(z)| == n
    ensures |Concat(plane, c)| == c * n
  {
    if c > 0 {
      ConcatLength(plane, c - 1, n);
    }
  }

  lemma PlanesLength(m: nat, c: nat)
    ensures |Planes(m, c)| == c * (1 + (2 * m + 1) + (2 * m + 1) * (2 * m + 1))
  {
    var n := 1 + (2 * m + 1) + (2 * m + 1) * (2 * m + 1);
    forall z | 1 <= z <= c
      ensures |PlaneOf(m)(z)| == n
    {
      RowsLength(z, m, 2 * m + 1);
      assert (2 * m + 1) * (2 * m + 2) == (2 * m + 1) + (2 * m + 1) * (2 * m + 1);
    }
    ConcatLength(PlaneOf(m), c, n);
  }

  /**
   * Before filtering there are m * (1 + (2m + 1) + (2m + 1)^2) angles: 13 for distance 1,
   * 62 for distance 2 (the counts the docstring of imageoperations.py:62-66 gives).
   */
  lemma CandidatesCount(m: int)
    ensures |Candidates(m)| == if m < 1 then 0 else m * (1 + (2 * m + 1) + (2 * m + 1) * (2 * m + 1))
    ensures |Candidates(1)| == 13 && |Candidates(2)| == 62
  {
    if m >= 1 {
      PlanesLength(m, m);
    }
    PlanesLength(1, 1);
    PlanesLength(2, 2);
  }

  // ---- Membership

  lemma LineMembers(z: int, y: int, m: nat, a: Angle)
    ensures a in Line(z, y, m) <==> a.0 == z && a.1 == y && Abs(a.2) <= m
  {
    if a.0 == z && a.1 == y && Abs(a.2) <= m {
      assert Line(z, y, m)[a.2 + m] == a;
    }
  }

  lemma {:induction false} RowsMembers(z: int, m: nat, c: nat, a: Angle)
    ensures a in Rows(z, m, c) <==>
              || (a.0 == 0 && a.1 == z && -(m as int) <= a.2 < c as int - m)
              || (a.0 == z && -(m as int) <= a.1 < c as int - m && Abs(a.2) <= m)
  {
    if c > 0 {
      RowsMembers(z, m, c - 1, a);
      LineMembers(z, c - 1 - m, m, a);
    }
  }

  /** Plane z holds exactly the offsets within distance m whose first nonzero component is z. */
  lemma PlaneMembers(z: int, m: nat, a: Angle)
    requires 1 <= z <= m
    ensures a in Plane(z, m) <==> InBox(a, m) && FirstNonzero(a) == z
  {
    RowsMembers(z, m, 2 * m + 1, a);
  }

  /** Counting up to c is counting up to c - 1 or counting c. */
  lemma UpToNext(all: bool, before: bool, last: bool, box: bool, f: int, c: int)
    requires all <==> before || last
    requires before <==> box && 1 <= f <= c - 1
    requires last <==> box && f == c
    requires c >= 1
    ensures all <==> box && 1 <= f <= c
  {
  }

  /** When plane z holds the offsets counted by z, planes 1 .. c hold those counted by 1 .. c. */
  lemma {:induction false} ConcatMembers(plane: nat -> seq<Angle>, c: nat, m: nat, a: Angle)
    requires forall z | 1 <= z <= c :: a in plane(z) <==> InBox(a, m) && FirstNonzero(a) == z
    ensures a in Concat(plane, c) <==> InBox(a, m) && 1 <= FirstNonzero(a) <= c
  {
    if c > 0 {
      var init, last := Concat(plane, c - 1), plane(c);
      assert Concat(plane, c) == init + last;
      ConcatMembers(plane, c - 1, m, a);
      UpToNext(a in init + last, a in init, a in last, InBox(a, m), FirstNonzero(a), c);
    }
  }

  lemma PlanesMembers(m: nat, c: nat, a: Angle)
    requires c <= m
    ensures a in Planes(m, c) <==> InBox(a, m) && 1 <= FirstNonzero(a) <= c
  {
    forall z | 1 <= z <= c
      ensures a in PlaneOf(m)(z) <==> InBox(a, m) && FirstNonzero(a) == z
    {
      PlaneMembers(z, m, a);
    }
    ConcatMembers(PlaneOf(m), c, m, a);
  }

  /**
   * Before filtering, the angles are exactly the offsets within distance maxDistance whose
   * first nonzero component is positive: one of each pair a, -a, and never the zero offset.
   */
  lemma CandidatesMembers(m: int, a: Angle)
    ensures a in Candidates(m) <==> InBox(a, m) && FirstNonzero(a) > 0
  {
    if m >= 1 {
      PlanesMembers(m, m, a);
    }
  }

  // ---- No duplicates

  lemma DistinctConcat(s: seq<Angle>, t: seq<Angle>)
    requires Distinct(s) && Distinct(t)
    requires forall i | 0 <= i < |s| :: s[i] !in t
    ensures Distinct(s + t)
  {
    forall i, j | 0 <= i < j < |s + t|
      ensures (s + t)[i] != (s + t)[j]
    {
      if i < |s| && j >= |s| {
        assert (s + t)[j] == t[j - |s|];
      }
    }
  }

  lemma RowDistinct(z: int, y: int, m: nat)
    requires z != 0
    ensures Distinct(Row(z, y, m))
  {
    LineMembers(z, y, m, (0, z, y));
    DistinctConcat([(0, z, y)], Line(z, y, m));
  }

  lemma {:induction false} RowsDistinct(z: int, m: nat, c: nat)
    requires z != 0
    ensures Distinct(Rows(z, m, c))
  {
    if c > 0 {
      RowsDistinct(z, m, c - 1);
      RowDistinct(z, c - 1 - m, m);
      var init, row := Rows(z, m, c - 1), Row(z, c - 1 - m, m);
      forall i | 0 <= i < |init|
        ensures init[i] !in row
      {
        RowsMembers(z, m, c - 1, init[i]);
        LineMembers(z, c - 1 - m, m, init[i]);
      }
      DistinctConcat(init, row);
    }
  }

  lemma PlaneDistinct(z: int, m: nat)
    requires z != 0
    ensures Distinct(Plane(z, m))
  {
    RowsDistinct(z, m, 2 * m + 1);
    RowsMembers(z, m, 2 * m + 1, (0, 0, z));
    DistinctConcat([(0, 0, z)], Rows(z, m, 2 * m + 1));
  }

  /** The angles of plane z count by z. */
  lemma PlaneFirst(z: int, m: nat, a: Angle)
    requires 1 <= z <= m && a in Plane(z, m)
    ensures FirstNonzero(a) == z
  {
    PlaneMembers(z, m, a);
  }

  /** Plane z is free of repeats and all its angles count by z. */
  predicate CountedBy(plane: nat -> seq<Angle>, z: nat) {
    Distinct(plane(z)) && forall j | 0 <= j < |plane(z)| :: FirstNonzero(plane(z)[j]) == z
  }

  /** The angles of planes 1 .. c count by a component between 1 and c. */
  lemma {:induction false} ConcatBelow(plane: nat -> seq<Angle>, c: nat, i: nat)
    requires forall z | 1 <= z <= c :: CountedBy(plane, z)
    requires i < |Concat(plane, c)|
    ensures 1 <= FirstNonzero(Concat(plane, c)[i]) <= c
  {
    var init, last := Concat(plane, c - 1), plane(c);
    assert Concat(plane, c) == init + last;
    if i < |init| {
      ConcatBelow(plane, c - 1, i);
    } else {
      assert CountedBy(plane, c);
      assert Concat(plane, c)[i] == last[i - |init|];
    }
  }

  /** Planes free of repeats, each counted by its own z, concatenate to a list free of repeats. */
  lemma {:induction false} ConcatDistinct(plane: nat -> seq<Angle>, c: nat)
    requires forall z | 1 <= z <= c :: CountedBy(plane, z)
    ensures Distinct(Concat(plane, c))
  {
    if c > 0 {
      ConcatDistinct(plane, c - 1);
      var init, last := Concat(plane, c - 1), plane(c);
      assert CountedBy(plane, c);
      forall i | 0 <= i < |init|
        ensures init[i] !in last
      {
        ConcatBelow(plane, c - 1, i);
      }
      DistinctConcat(init, last);
    }
  }

  lemma PlanesDistinct(m: nat, c: nat)
    requires c <= m
    ensures Distinct(Planes(m, c))
  {
    forall z | 1 <= z <= c
      ensures CountedBy(PlaneOf(m), z)
    {
      PlaneDistinct(z, m);
      forall j | 0 <= j < |Plane(z, m)|
        ensures FirstNonzero(Plane(z, m)[j]) == z
      {
        PlaneFirst(z, m, Plane(z, m)[j]);
      }
    }
    ConcatDistinct(PlaneOf(m), c);
  }

  /** The loops never append the same angle twice. */
  lemma CandidatesDistinct(m: int)
    ensures Distinct(Candidates(m))
  {
    if m >= 1 {
      PlanesDistinct(m, m);
    }
  }

  // ---- The filter

  /** The deletion test keeps exactly the angles that fit: |a_d| < size_d on every axis. */
  lemma DeletedIff(size: Angle, a: Angle)
    ensures !Deleted(size, a) <==> Abs(a.0) < size.0 && Abs(a.1) < size.1 && Abs(a.2) < size.2
  {
  }

  lemma {:induction false} KeptMembers(s: seq<Angle>, size: Angle, a: Angle)
    ensures a in Kept(s, size) <==> a in s && !Deleted(size, a)
  {
    if |s| > 0 {
      var init := s[..|s| - 1];
      KeptMembers(init, size, a);
      assert s == init + [s[|s| - 1]];
    }
  }

  /** Filtering keeps the order: a concatenation is filtered piece by piece. */
  lemma {:induction false} KeptConcat(s: seq<Angle>, t: seq<Angle>, size: Angle)
    ensures Kept(s + t, size) == Kept(s, size) + Kept(t, size)
    decreases |t|
  {
    if |t| > 0 {
      var init := t[..|t| - 1];
      assert (s + t)[..|s + t| - 1] == s + init;
      KeptConcat(s, init, size);
    } else {
      assert s + t == s;
    }
  }

  lemma {:induction false} KeptDistinct(s: seq<Angle>, size: Angle)
    requires Distinct(s)
    ensures Distinct(Kept(s, size))
  {
    if |s| > 0 {
      var init, last := s[..|s| - 1], s[|s| - 1];
      assert Distinct(init) by {
        forall i, j | 0 <= i < j < |init|
          ensures init[i] != init[j]
        {
          assert init[i] == s[i] && init[j] == s[j];
        }
      }
      KeptDistinct(init, size);
      if !Deleted(size, last) {
        var kept := Kept(init, size);
        forall i | 0 <= i < |kept|
          ensures kept[i] !in [last]
        {
          KeptMembers(init, size, kept[i]);
        }
        DistinctConcat(kept, [last]);
      }
    }
  }

  /** `generateAngles` raises exactly when maxDistance is below 1. */
  lemma GeneratedAnglesFails(size: Angle, m: int)
    ensures GeneratedAngles(size, m).Failure? <==> m < 1
  {
    CandidatesCount(m);
    if m >= 1 {
      assert m * (1 + (2 * m + 1) + (2 * m + 1) * (2 * m + 1)) >= 1 * 1;
    }
  }

  /**
   * Otherwise it returns distinct angles: exactly the offsets within distance maxDistance
   * whose first nonzero component is positive and that fit the box on every axis.
   */
  lemma GeneratedAnglesMembers(size: Angle, m: int)
    requires m >= 1
    ensures GeneratedAngles(size, m).Success?
    ensures Distinct(GeneratedAngles(size, m).value)
    ensures forall a: Angle :: a in GeneratedAngles(size, m).value <==>
              InBox(a, m) && FirstNonzero(a) > 0
              && Abs(a.0) < size.0 && Abs(a.1) < size.1 && Abs(a.2) < size.2
  {
    GeneratedAnglesFails(size, m);
    var c := Candidates(m);
    CandidatesDistinct(m);
    KeptDistinct(c, size);
    forall a: Angle
      ensures a in Kept(c, size) <==>
              InBox(a, m) && FirstNonzero(a) > 0 && Abs(a.0) < size.0 && Abs(a.1) < size.1 && Abs(a.2) < size.2
    {
      KeptMembers(c, size, a);
      CandidatesMembers(m, a);
    }
  }

  /**
   * `generateAngles(size, maxDistance)` (imageoperations.py:61-93): the three nested loops
   * append the candidates in order, then the vectorised deletion removes those that do not fit.
   */
  method GenerateAngles(size: Angle, maxDistance: int) returns (r: Result<seq<Angle>>)
    ensures r == GeneratedAngles(size, maxDistance)
  {
    var angles: seq<Angle> := [];
    if maxDistance >= 1 {
      var m: nat := maxDistance;
      for z := 1 to m + 1
        invariant angles == Planes(m, z - 1)
      {
        var plane := PlaneLoop(z, m);
        angles := angles + plane;
      }
    }
    if |angles| == 0 {
      return Failure(ValueError("operands could not be broadcast together with shapes (3,) (0,)"));
    }
    r := Success(Kept(angles, size));
  }

  /** One pass of the z loop (imageoperations.py:80-85). */
  method PlaneLoop(z: int, m: nat) returns (plane: seq<Angle>)
    ensures plane == Plane(z, m)
  {
    plane := [(0, 0, z)];
    for y := -(m as int) to m + 1
      invariant plane == [(0, 0, z)] + Rows(z, m, y + m)
    {
      plane := plane + [(0, z, y)];
      for x := -(m as int) to m + 1
        invariant plane == [(0, 0, z)] + Rows(z, m, y + m) + [(0, z, y)] + Line(z, y, m)[..x + m]
      {
        plane := plane + [(z, y, x)];
      }
    }
  }
}
