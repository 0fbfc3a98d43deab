/**
 * `levenshteinDistance` (app.js:859-885): the edit distance between two
 * strings, filled row by row into a dynamic-programming matrix.
 */
module EditDistance {
  import opened Numbers

  function Min3(x: nat, y: nat, z: nat): (m: nat)
    ensures m <= x && m <= y && m <= z
    ensures m == x || m == y || m == z
  {
    if x <= y && x <= z then x else if y <= z then y else z
  }

  /**
   * The distance between `a` (the source's `str1`, the matrix columns) and
   * `b` (`str2`, the rows), defined by the recurrence the matrix follows:
   * equal last characters take the diagonal, otherwise one plus the cheapest
   * of substitution, insertion and deletion. It lies between the length
   * difference and the longer length.
   */
  function Dist(a: string, b: string): (d: nat)
    ensures d <= IMax(|a|, |b|)
    ensures d >= |a| - |b| && d >= |b| - |a|
    decreases |a| + |b|
  {
    if |a| == 0 then |b|
    else if |b| == 0 then |a|
    else if a[|a| - 1] == b[|b| - 1] then Dist(a[..|a| - 1], b[..|b| - 1])
    else 1 + Min3(Dist(a[..|a| - 1], b[..|b| - 1]), Dist(a[..|a| - 1], b), Dist(a, b[..|b| - 1]))
  }

  /** The distance does not depend on which string is `str1`. */
  lemma {:induction false} DistSymmetric(a: string, b: string)
    ensures Dist(a, b) == Dist(b, a)
    decreases |a| + |b|
  {
    if |a| > 0 && |b| > 0 {
      DistSymmetric(a[..|a| - 1], b[..|b| - 1]);
      DistSymmetric(a[..|a| - 1], b);
      DistSymmetric(a, b[..|b| - 1]);
    }
  }

  /** The distance is zero exactly when the strings are equal. */
  lemma {:induction false} DistZeroIff(a: string, b: string)
    ensures Dist(a, b) == 0 <==> a == b
    decreases |a| + |b|
  {
    if |a| > 0 && |b| > 0 {
      DistZeroIff(a[..|a| - 1], b[..|b| - 1]);
      assert a == a[..|a| - 1] + [a[|a| - 1]];
      assert b == b[..|b| - 1] + [b[|b| - 1]];
    }
  }

  /** The distance between the first `j` characters of `a` and the first `i` of `b`: matrix cell `(i, j)`. */
  ghost function Cell(a: string, b: string, i: nat, j: nat): nat
    requires i <= |b| && j <= |a|
  {
    Dist(a[..j], b[..i])
  }

  /** One step of the recurrence, on prefixes of `a` and `b`. */
  lemma DistStep(a: string, b: string, i: nat, j: nat)
    requires 1 <= i <= |b| && 1 <= j <= |a|
    ensures Cell(a, b, i, j) ==
      if b[i - 1] == a[j - 1] then Cell(a, b, i - 1, j - 1)
      else 1 + Min3(Cell(a, b, i - 1, j - 1), Cell(a, b, i, j - 1), Cell(a, b, i - 1, j))
  {
    assert a[..j][..j - 1] == a[..j - 1];
    assert b[..i][..i - 1] == b[..i - 1];
  }

  /** A matrix whose rows below `rows` hold the distances of the matching prefixes. */
  ghost predicate RowsFilled(matrix: array2<nat>, str1: string, str2: string, rows: nat)
    reads matrix
    requires matrix.Length0 == |str2| + 1 && matrix.Length1 == |str1| + 1 && rows <= matrix.Length0
  {
    forall i, j :: 0 <= i < rows && 0 <= j <= |str1| ==> matrix[i, j] == Cell(str1, str2, i, j)
  }

  /**
   * The source's matrix computation. Row `i` stands for the first `i`
   * characters of `str2`, column `j` for the first `j` characters of `str1`;
   * the result is the bottom-right cell.
   */
  method LevenshteinDistance(str1: string, str2: string) returns (d: nat)
    ensures d == Dist(str1, str2)
  {
    var matrix := new nat[|str2| + 1, |str1| + 1];
    for i := 0 to |str2| + 1
      invariant forall i' :: 0 <= i' < i ==> matrix[i', 0] == i'
    {
      matrix[i, 0] := i;
    }
    for j := 0 to |str1| + 1
      invariant forall i' :: 0 <= i' <= |str2| ==> matrix[i', 0] == i'
      invariant forall j' :: 0 <= j' < j ==> matrix[0, j'] == j'
    {
      matrix[0, j] := j;
    }
    assert RowsFilled(matrix, str1, str2, 1) by {
      forall j | 0 <= j <= |str1| ensures matrix[0, j] == Cell(str1, str2, 0, j) {
        assert str2[..0] == [];
      }
    }
    for i := 1 to |str2| + 1
      invariant RowsFilled(matrix, str1, str2, i)
      invariant forall i' :: i <= i' <= |str2| ==> matrix[i', 0] == i'
    {
      FillRow(matrix, str1, str2, i);
    }
    d := matrix[|str2|, |str1|];
    assert str1[..|str1|] == str1 && str2[..|str2|] == str2;
  }

  /** The inner loop of app.js:871-881: row `i` from row `i - 1`, left to right. */
  method FillRow(matrix: array2<nat>, str1: string, str2: string, i: nat)
    requires matrix.Length0 == |str2| + 1 && matrix.Length1 == |str1| + 1
    requires 1 <= i <= |str2|
    requires RowsFilled(matrix, str1, str2, i)
    requires forall i' :: i <= i' <= |str2| ==> matrix[i', 0] == i'
    modifies matrix
    ensures RowsFilled(matrix, str1, str2, i + 1)
    ensures forall i' :: i < i' <= |str2| ==> matrix[i', 0] == i'
  {
    assert matrix[i, 0] == Cell(str1, str2, i, 0);
    for j := 1 to |str1| + 1
      invariant RowsFilled(matrix, str1, str2, i)
      invariant forall j' :: 0 <= j' < j ==> matrix[i, j'] == Cell(str1, str2, i, j')
      invariant forall i' :: i < i' <= |str2| ==> matrix[i', 0] == i'
    {
      var cell := NextCell(matrix, str1, str2, i, j);
      matrix[i, j] := cell;
    }
  }

  /** The value app.js:872-880 stores in cell `(i, j)`, read from its three neighbours. */
  method NextCell(matrix: array2<nat>, str1: string, str2: string, i: nat, j: nat) returns (cell: nat)
    requires matrix.Length0 == |str2| + 1 && matrix.Length1 == |str1| + 1
    requires 1 <= i <= |str2| && 1 <= j <= |str1|
    requires RowsFilled(matrix, str1, str2, i)
    requires matrix[i, j - 1] == Cell(str1, str2, i, j - 1)
    ensures cell == Cell(str1, str2, i, j)
  {
    DistStep(str1, str2, i, j);
    if str2[i - 1] == str1[j - 1] {
      cell := matrix[i - 1, j - 1];
    } else {
      cell := Min3(matrix[i - 1, j - 1] + 1, matrix[i, j - 1] + 1, matrix[i - 1, j] + 1);
    }
  }
}
