/** Dense matrices over the reals, stored row-major in a flat buffer.
    A matrix is a value: copies are independent, so every operation here
    either returns a fresh matrix or a new value for the receiver. */
module Matrices {

  /** The two exceptions the matrix code throws: std::out_of_range for
      element, row and column access, std::invalid_argument for shapes. */
  datatype Error = OutOfRange | InvalidArgument

  datatype Result<T> = Ok(value: T) | Err(error: Error)

  /** rows x cols, element (i, j) at flat index i * cols + j. */
  datatype RawMatrix = RawMatrix(rows: nat, cols: nat, data: seq<real>)

  /** The buffer always holds exactly rows * cols elements. */
  type Matrix = m: RawMatrix | |m.data| == m.rows * m.cols witness RawMatrix(0, 0, [])

  // ---------------------------------------------------------------------
  // Flat index arithmetic

  lemma {:induction false} MulMonotone(a: nat, b: nat, c: nat)
    requires a <= b
    ensures a * c <= b * c
  {
    assert b * c - a * c == (b - a) * c;
  }

  /** (i, j) with j < cols lands inside a rows x cols buffer. */
  lemma {:induction false} FlatBound(i: nat, j: nat, rows: nat, cols: nat)
    requires i < rows && j < cols
    ensures i * cols + j < rows * cols
  {
    MulMonotone(i + 1, rows, cols);
  }

  /** i * cols + j decodes back to (i, j). */
  lemma {:induction false} FlatIndex(i: nat, j: nat, cols: nat)
    requires j < cols
    ensures (i * cols + j) / cols == i && (i * cols + j) % cols == j
  {
    var k := i * cols + j;
    var q, r := k / cols, k % cols;
    assert q * cols + r == k;
    if q > i {
      MulMonotone(i + 1, q, cols);
    } else if q < i {
      MulMonotone(q + 1, i, cols);
    }
  }

  /** Every flat index of a rows x cols buffer is some (i, j). */
  lemma {:induction false} FlatDecode(k: nat, rows: nat, cols: nat)
    requires k < rows * cols
    ensures cols > 0 && k / cols < rows && k % cols < cols
    ensures (k / cols) * cols + k % cols == k
  {
    if cols > 0 && k / cols >= rows {
      MulMonotone(rows, k / cols, cols);
    }
  }

  // ---------------------------------------------------------------------
  // Element access

  /** The element at (i, j); callers have checked the bounds. */
  function At(m: Matrix, i: nat, j: nat): real
    requires i < m.rows && j < m.cols
  {
    FlatBound(i, j, m.rows, m.cols);
    m.data[i * m.cols + j]
  }

  /** Two matrices of the same shape that agree everywhere are equal. */
  lemma {:induction false} Extensionality(a: Matrix, b: Matrix)
    requires a.rows == b.rows && a.cols == b.cols
    requires forall i: nat, j: nat :: i < a.rows && j < a.cols ==> At(a, i, j) == At(b, i, j)
    ensures a == b
  {
    forall k | 0 <= k < |a.data|
      ensures a.data[k] == b.data[k]
    {
      FlatDecode(k, a.rows, a.cols);
      assert At(a, k / a.cols, k % a.cols) == At(b, k / a.cols, k % a.cols);
    }
  }

  /** The matrix whose element (i, j) is f(i, j). */
  function Build(rows: nat, cols: nat, f: (nat, nat) --> real): (m: Matrix)
    requires forall i: nat, j: nat :: i < rows && j < cols ==> f.requires(i, j)
    ensures m.rows == rows && m.cols == cols
    ensures forall i: nat, j: nat {:trigger At(m, i, j)} :: i < rows && j < cols ==> At(m, i, j) == f(i, j)
  {
    var data := seq(rows * cols, k requires 0 <= k < rows * cols =>
      FlatDecode(k, rows, cols); f(k / cols, k % cols));
    var m: Matrix := RawMatrix(rows, cols, data);
    assert forall i: nat, j: nat :: i < rows && j < cols ==> At(m, i, j) == f(i, j) by {
      forall i: nat, j: nat | i < rows && j < cols
        ensures At(m, i, j) == f(i, j)
      {
        FlatBound(i, j, rows, cols);
        FlatIndex(i, j, cols);
      }
    }
    m
  }

  /** Writes v at (i, j) of an in-bounds index: the one element changes,
      nothing else does. */
  function Store(m: Matrix, i: nat, j: nat, v: real): (r: Matrix)
    requires i < m.rows && j < m.cols
    ensures r.rows == m.rows && r.cols == m.cols
    ensures At(r, i, j) == v
    ensures forall i': nat, j': nat {:trigger At(r, i', j')} :: i' < m.rows && j' < m.cols && (i' != i || j' != j) ==>
      At(r, i', j') == At(m, i', j')
  {
    FlatBound(i, j, m.rows, m.cols);
    var r: Matrix := RawMatrix(m.rows, m.cols, m.data[i * m.cols + j := v]);
    assert forall i': nat, j': nat :: i' < m.rows && j' < m.cols && (i' != i || j' != j) ==>
      At(r, i', j') == At(m, i', j') by {
      forall i': nat, j': nat | i' < m.rows && j' < m.cols && (i' != i || j' != j)
        ensures At(r, i', j') == At(m, i', j')
      {
        FlatBound(i', j', m.rows, m.cols);
        FlatIndex(i, j, m.cols);
        FlatIndex(i', j', m.cols);
      }
    }
    r
  }

  /** Construction with a fill value (the source's default is 0). */
  function Make(rows: nat, cols: nat, initVal: real): (m: Matrix)
    ensures m.rows == rows && m.cols == cols && |m.data| == rows * cols
    ensures forall k :: 0 <= k < |m.data| ==> m.data[k] == initVal
    ensures forall i: nat, j: nat :: i < rows && j < cols ==> At(m, i, j) == initVal
  {
    var m: Matrix := RawMatrix(rows, cols, seq(rows * cols, _ => initVal));
    assert forall i: nat, j: nat :: i < rows && j < cols ==> At(m, i, j) == initVal by {
      forall i: nat, j: nat | i < rows && j < cols
        ensures At(m, i, j) == initVal
      {
        FlatBound(i, j, rows, cols);
      }
    }
    m
  }

  function Zeros(rows: nat, cols: nat): (m: Matrix)
    ensures m.rows == rows && m.cols == cols
    ensures forall i: nat, j: nat :: i < rows && j < cols ==> At(m, i, j) == 0.0
  {
    Make(rows, cols, 0.0)
  }

  /** Bounds-checked read, the const operator(). */
  function Get(m: Matrix, i: nat, j: nat): (r: Result<real>)
    ensures r.Err? <==> i >= m.rows || j >= m.cols
    ensures r.Err? ==> r.error == OutOfRange
    ensures r.Ok? ==> i * m.cols + j < |m.data| && r.value == m.data[i * m.cols + j]
  {
    if i >= m.rows || j >= m.cols then Err(OutOfRange)
    else FlatBound(i, j, m.rows, m.cols); Ok(At(m, i, j))
  }

  /** Bounds-checked write through the reference the non-const operator()
      hands out: the receiver's new value, or the exception. */
  function Set(m: Matrix, i: nat, j: nat, v: real): (r: Result<Matrix>)
    ensures r.Err? <==> i >= m.rows || j >= m.cols
    ensures r.Err? ==> r.error == OutOfRange
    ensures r.Ok? ==> r.value.rows == m.rows && r.value.cols == m.cols
    ensures r.Ok? ==> i * m.cols + j < |m.data| && r.value.data == m.data[i * m.cols + j := v]
  {
    if i >= m.rows || j >= m.cols then Err(OutOfRange)
    else FlatBound(i, j, m.rows, m.cols); Ok(Store(m, i, j, v))
  }

  /** Reading back after a write: the written element has the new value,
      every other index reads as before (including out-of-range ones). */
  lemma {:induction false} GetAfterSet(m: Matrix, i: nat, j: nat, v: real, i': nat, j': nat)
    requires Set(m, i, j, v).Ok?
    ensures Get(Set(m, i, j, v).value, i', j') == if i' == i && j' == j then Ok(v) else Get(m, i', j')
  {
    var m' := Set(m, i, j, v).value;
    if i' < m.rows && j' < m.cols {
      assert Get(m', i', j') == Ok(At(m', i', j'));
    }
  }

  // ---------------------------------------------------------------------
  // Specification functions

  function Transposed(a: Matrix): (t: Matrix)
    ensures t.rows == a.cols && t.cols == a.rows
    ensures forall i: nat, j: nat {:trigger At(t, j, i)} :: i < a.rows && j < a.cols ==> At(t, j, i) == At(a, i, j)
  {
    Build(a.cols, a.rows, (i: nat, j: nat) requires i < a.cols && j < a.rows => At(a, j, i))
  }

  function IdentityOf(n: nat): (m: Matrix)
    ensures m.rows == n && m.cols == n
    ensures forall i: nat, j: nat :: i < n && j < n ==> At(m, i, j) == if i == j then 1.0 else 0.0
  {
    Build(n, n, (i: nat, j: nat) => if i == j then 1.0 else 0.0)
  }

  function SumOf(a: Matrix, b: Matrix): (s: Matrix)
    requires a.rows == b.rows && a.cols == b.cols
    ensures s.rows == a.rows && s.cols == a.cols
    ensures forall i: nat, j: nat {:trigger At(s, i, j)} :: i < a.rows && j < a.cols ==> At(s, i, j) == At(a, i, j) + At(b, i, j)
  {
    Build(a.rows, a.cols, (i: nat, j: nat) requires i < a.rows && j < a.cols => At(a, i, j) + At(b, i, j))
  }

  /** The sum over k < n of a(i, k) * b(k, j), accumulated in increasing k. */
  function Dot(a: Matrix, b: Matrix, i: nat, j: nat, n: nat): real
    requires i < a.rows && j < b.cols && n <= a.cols && a.cols == b.rows
  {
    if n == 0 then 0.0 else Dot(a, b, i, j, n - 1) + At(a, i, n - 1) * At(b, n - 1, j)
  }

  /** One more step of the sum adds a(i, k) * b(k, j). */
  lemma {:induction false} DotNext(a: Matrix, b: Matrix, i: nat, j: nat, k: nat)
    requires i < a.rows && j < b.cols && k < a.cols && a.cols == b.rows
    ensures Dot(a, b, i, j, k + 1) == Dot(a, b, i, j, k) + At(a, i, k) * At(b, k, j)
  {
  }

  function ProductOf(a: Matrix, b: Matrix): (p: Matrix)
    requires a.cols == b.rows
    ensures p.rows == a.rows && p.cols == b.cols
    ensures forall i: nat, j: nat {:trigger At(p, i, j)} :: i < a.rows && j < b.cols ==> At(p, i, j) == Dot(a, b, i, j, a.cols)
  {
    Build(a.rows, b.cols, (i: nat, j: nat) requires i < a.rows && j < b.cols => Dot(a, b, i, j, a.cols))
  }

  // ---------------------------------------------------------------------
  // Operations, with the loops of the source

  /** row(i): a 1 x cols copy of row i. */
  method Row(m: Matrix, i: nat) returns (r: Result<Matrix>)
    ensures r.Err? <==> i >= m.rows
    ensures r.Err? ==> r.error == OutOfRange
    ensures r.Ok? ==> r.value.rows == 1 && r.value.cols == m.cols
    ensures r.Ok? ==> forall j: nat :: j < m.cols ==> At(r.value, 0, j) == At(m, i, j)
  {
    if i >= m.rows {
      return Err(OutOfRange);
    }
    var row := Make(1, m.cols, 0.0);
    for j := 0 to m.cols
      invariant row.rows == 1 && row.cols == m.cols
      invariant forall j': nat :: j' < j ==> At(row, 0, j') == At(m, i, j')
    {
      row := Store(row, 0, j, At(m, i, j));
    }
    return Ok(row);
  }

  /** col(j): a rows x 1 copy of column j. */
  method Col(m: Matrix, j: nat) returns (r: Result<Matrix>)
    ensures r.Err? <==> j >= m.cols
    ensures r.Err? ==> r.error == OutOfRange
    ensures r.Ok? ==> r.value.rows == m.rows && r.value.cols == 1
    ensures r.Ok? ==> forall i: nat :: i < m.rows ==> At(r.value, i, 0) == At(m, i, j)
  {
    if j >= m.cols {
      return Err(OutOfRange);
    }
    var c := Make(m.rows, 1, 0.0);
    for i := 0 to m.rows
      invariant c.rows == m.rows && c.cols == 1
      invariant forall i': nat :: i' < i ==> At(c, i', 0) == At(m, i', j)
    {
      c := Store(c, i, 0, At(m, i, j));
    }
    return Ok(c);
  }

  method Transpose(a: Matrix) returns (t: Matrix)
    ensures t == Transposed(a)
  {
    t := Make(a.cols, a.rows, 0.0);
    for i := 0 to a.rows
      invariant t.rows == a.cols && t.cols == a.rows
      invariant forall i': nat, j': nat :: i' < i && j' < a.cols ==> At(t, j', i') == At(a, i', j')
    {
      for j := 0 to a.cols
        invariant t.rows == a.cols && t.cols == a.rows
        invariant forall i': nat, j': nat :: i' < i && j' < a.cols ==> At(t, j', i') == At(a, i', j')
        invariant forall j': nat :: j' < j ==> At(t, j', i) == At(a, i, j')
      {
        t := Store(t, j, i, At(a, i, j));
      }
    }
    Extensionality(t, Transposed(a));
  }

  method Identity(n: nat) returns (m: Matrix)
    ensures m == IdentityOf(n)
  {
    m := Make(n, n, 0.0);
    for i := 0 to n
      invariant m.rows == n && m.cols == n
      invariant forall i': nat, j': nat :: i' < n && j' < n ==>
        At(m, i', j') == if i' == j' && i' < i then 1.0 else 0.0
    {
      m := Store(m, i, i, 1.0);
    }
    Extensionality(m, IdentityOf(n));
  }

  /** operator+: the elementwise sum, or invalid_argument on a shape
      mismatch; the operands are values and stay as they are. */
  method Add(a: Matrix, b: Matrix) returns (r: Result<Matrix>)
    ensures (a.rows != b.rows || a.cols != b.cols) ==> r == Err(InvalidArgument)
    ensures (a.rows == b.rows && a.cols == b.cols) ==> r == Ok(SumOf(a, b))
  {
    if a.rows != b.rows || a.cols != b.cols {
      return Err(InvalidArgument);
    }
    var m := Make(a.rows, a.cols, 0.0);
    for i := 0 to a.rows
      invariant m.rows == a.rows && m.cols == a.cols
      invariant forall i': nat, j': nat :: i' < i && j' < a.cols ==> At(m, i', j') == At(a, i', j') + At(b, i', j')
    {
      for j := 0 to a.cols
        invariant m.rows == a.rows && m.cols == a.cols
        invariant forall i': nat, j': nat :: i' < i && j' < a.cols ==> At(m, i', j') == At(a, i', j') + At(b, i', j')
        invariant forall j': nat :: j' < j ==> At(m, i, j') == At(a, i, j') + At(b, i, j')
      {
        m := Store(m, i, j, At(a, i, j) + At(b, i, j));
      }
    }
    Extensionality(m, SumOf(a, b));
    return Ok(m);
  }

  /** operator+=: the receiver's new value, element by element in place;
      on a shape mismatch invalid_argument is thrown before any element
      changes. */
  method AddAssign(a: Matrix, other: Matrix) returns (r: Result<Matrix>)
    ensures (a.rows != other.rows || a.cols != other.cols) ==> r == Err(InvalidArgument)
    ensures (a.rows == other.rows && a.cols == other.cols) ==> r.Ok? && r.value.rows == a.rows && r.value.cols == a.cols
    ensures (a.rows == other.rows && a.cols == other.cols) ==> r == Ok(SumOf(a, other))
  {
    if a.rows != other.rows || a.cols != other.cols {
      return Err(InvalidArgument);
    }
    var m := a;
    for i := 0 to a.rows
      invariant m.rows == a.rows && m.cols == a.cols
      invariant forall i': nat, j': nat :: i' < i && j' < a.cols ==> At(m, i', j') == At(a, i', j') + At(other, i', j')
      invariant forall i': nat, j': nat :: i <= i' < a.rows && j' < a.cols ==> At(m, i', j') == At(a, i', j')
    {
      for j := 0 to a.cols
        invariant m.rows == a.rows && m.cols == a.cols
        invariant forall i': nat, j': nat :: i' < i && j' < a.cols ==> At(m, i', j') == At(a, i', j') + At(other, i', j')
        invariant forall j': nat :: j' < j ==> At(m, i, j') == At(a, i, j') + At(other, i, j')
        invariant forall j': nat :: j <= j' < a.cols ==> At(m, i, j') == At(a, i, j')
        invariant forall i': nat, j': nat :: i < i' < a.rows && j' < a.cols ==> At(m, i', j') == At(a, i', j')
      {
        m := Store(m, i, j, At(m, i, j) + At(other, i, j));
      }
    }
    Extensionality(m, SumOf(a, other));
    return Ok(m);
  }

  /** Writing (i, j) twice keeps only the second value. */
  lemma {:induction false} StoreTwice(m: Matrix, i: nat, j: nat, v: real, w: real)
    requires i < m.rows && j < m.cols
    ensures Store(Store(m, i, j, v), i, j, w) == Store(m, i, j, w)
  {
    Extensionality(Store(Store(m, i, j, v), i, j, w), Store(m, i, j, w));
  }

  /** Writing back the value already at (i, j) changes nothing. */
  lemma {:induction false} StoreSame(m: Matrix, i: nat, j: nat)
    requires i < m.rows && j < m.cols
    ensures Store(m, i, j, At(m, i, j)) == m
  {
    Extensionality(Store(m, i, j, At(m, i, j)), m);
  }

  /** The innermost loop of operator*: m(i, j) += a(i, k) * b(k, j) for
      every k in order, starting from m(i, j) == 0, so that m(i, j) ends as
      the dot product and no other entry changes. */
  method AccumulateEntry(m0: Matrix, a: Matrix, b: Matrix, i: nat, j: nat) returns (m: Matrix)
    requires a.cols == b.rows && m0.rows == a.rows && m0.cols == b.cols && i < a.rows && j < b.cols
    requires At(m0, i, j) == 0.0
    ensures m == Store(m0, i, j, Dot(a, b, i, j, a.cols))
  {
    m := m0;
    StoreSame(m0, i, j);
    for k := 0 to a.cols
      invariant m == Store(m0, i, j, Dot(a, b, i, j, k))
    {
      ghost var d := Dot(a, b, i, j, k);
      assert At(m, i, j) == d;
      DotNext(a, b, i, j, k);
      StoreTwice(m0, i, j, d, Dot(a, b, i, j, k + 1));
      m := Store(m, i, j, At(m, i, j) + At(a, i, k) * At(b, k, j));
    }
  }

  /** The middle loop of operator*: row i of m, still all zero, receives
      row i of the product; no other row changes. */
  method MultiplyRow(m0: Matrix, a: Matrix, b: Matrix, i: nat) returns (m: Matrix)
    requires a.cols == b.rows && m0.rows == a.rows && m0.cols == b.cols && i < a.rows
    requires forall j: nat :: j < b.cols ==> At(m0, i, j) == 0.0
    ensures m.rows == m0.rows && m.cols == m0.cols
    ensures forall j: nat :: j < b.cols ==> At(m, i, j) == Dot(a, b, i, j, a.cols)
    ensures forall i': nat, j: nat :: i' < m.rows && i' != i && j < m.cols ==> At(m, i', j) == At(m0, i', j)
  {
    m := m0;
    for j := 0 to b.cols
      invariant m.rows == m0.rows && m.cols == m0.cols
      invariant forall j': nat :: j' < j ==> At(m, i, j') == Dot(a, b, i, j', a.cols)
      invariant forall j': nat :: j <= j' < b.cols ==> At(m, i, j') == 0.0
      invariant forall i': nat, j': nat :: i' < m.rows && i' != i && j' < m.cols ==> At(m, i', j') == At(m0, i', j')
    {
      m := AccumulateEntry(m, a, b, i, j);
    }
  }

  /** operator*: the triple loop accumulating m(i, j) += a(i, k) * b(k, j),
      or invalid_argument when cols(a) != rows(b). */
  method Multiply(a: Matrix, b: Matrix) returns (r: Result<Matrix>)
    ensures a.cols != b.rows ==> r == Err(InvalidArgument)
    ensures a.cols == b.rows ==> r == Ok(ProductOf(a, b))
  {
    if a.cols != b.rows {
      return Err(InvalidArgument);
    }
    var m := Make(a.rows, b.cols, 0.0);
    for i := 0 to a.rows
      invariant m.rows == a.rows && m.cols == b.cols
      invariant forall i': nat, j': nat :: i' < i && j' < b.cols ==> At(m, i', j') == Dot(a, b, i', j', a.cols)
      invariant forall i': nat, j': nat :: i <= i' < a.rows && j' < b.cols ==> At(m, i', j') == 0.0
    {
      m := MultiplyRow(m, a, b, i);
    }
    Extensionality(m, ProductOf(a, b));
    return Ok(m);
  }

  // ---------------------------------------------------------------------
  // Algebraic laws

  lemma {:induction false} TransposeInvolution(a: Matrix)
    ensures Transposed(Transposed(a)) == a
  {
    Extensionality(Transposed(Transposed(a)), a);
  }

  lemma {:induction false} DotIdentityRight(a: Matrix, i: nat, j: nat, n: nat)
    requires i < a.rows && j < a.cols && n <= a.cols
    ensures Dot(a, IdentityOf(a.cols), i, j, n) == if j < n then At(a, i, j) else 0.0
  {
    if n > 0 {
      DotIdentityRight(a, i, j, n - 1);
    }
  }

  lemma {:induction false} DotIdentityLeft(a: Matrix, i: nat, j: nat, n: nat)
    requires i < a.rows && j < a.cols && n <= a.rows
    ensures Dot(IdentityOf(a.rows), a, i, j, n) == if i < n then At(a, i, j) else 0.0
  {
    if n > 0 {
      DotIdentityLeft(a, i, j, n - 1);
    }
  }

  /** A * identity(cols) == A. */
  lemma {:induction false} ProductIdentityRight(a: Matrix)
    ensures ProductOf(a, IdentityOf(a.cols)) == a
  {
    var p := ProductOf(a, IdentityOf(a.cols));
    forall i: nat, j: nat | i < a.rows && j < a.cols
      ensures At(p, i, j) == At(a, i, j)
    {
      DotIdentityRight(a, i, j, a.cols);
    }
    Extensionality(p, a);
  }

  /** identity(rows) * A == A. */
  lemma {:induction false} ProductIdentityLeft(a: Matrix)
    ensures ProductOf(IdentityOf(a.rows), a) == a
  {
    var p := ProductOf(IdentityOf(a.rows), a);
    forall i: nat, j: nat | i < a.rows && j < a.cols
      ensures At(p, i, j) == At(a, i, j)
    {
      DotIdentityLeft(a, i, j, a.rows);
    }
    Extensionality(p, a);
  }

  /** Adding a zero matrix of the same shape changes nothing. */
  lemma {:induction false} SumZero(a: Matrix)
    ensures SumOf(a, Zeros(a.rows, a.cols)) == a
  {
    Extensionality(SumOf(a, Zeros(a.rows, a.cols)), a);
  }

  lemma {:induction false} DotZeroRight(a: Matrix, b: Matrix, i: nat, j: nat, n: nat)
    requires i < a.rows && j < b.cols && n <= a.cols && a.cols == b.rows
    requires forall k: nat :: k < b.rows ==> At(b, k, j) == 0.0
    ensures Dot(a, b, i, j, n) == 0.0
  {
    if n > 0 {
      DotZeroRight(a, b, i, j, n - 1);
    }
  }

  /** A times a zero matrix is a zero matrix. */
  lemma {:induction false} ProductZeroRight(a: Matrix, p: nat)
    ensures ProductOf(a, Zeros(a.cols, p)) == Zeros(a.rows, p)
  {
    var z := Zeros(a.cols, p);
    forall i: nat, j: nat | i < a.rows && j < p
      ensures At(ProductOf(a, z), i, j) == 0.0
    {
      DotZeroRight(a, z, i, j, a.cols);
    }
    Extensionality(ProductOf(a, z), Zeros(a.rows, p));
  }

  /** The fixed cases of the matrix test driver on values: writes and
      reads, transpose, identity, the sum (whose value operator+= also
      assigns to the receiver) and the product. */
  lemma {:induction false} MatrixTestCases()
    ensures var a := Set(Make(2, 3, 1.0), 0, 1, 5.0).value;
      && Get(a, 0, 1) == Ok(5.0) && Get(a, 1, 2) == Ok(1.0)
      && At(Transposed(a), 1, 0) == At(a, 0, 1)
      && At(SumOf(a, Make(2, 3, 2.0)), 0, 0) == 3.0
      && At(SumOf(a, Make(2, 3, 2.0)), 0, 1) == 7.0
      && At(SumOf(a, Make(2, 3, 2.0)), 1, 2) == 3.0
      && At(SumOf(a, Make(2, 3, 2.0)), 1, 0) == 3.0
    ensures At(IdentityOf(3), 1, 1) == 1.0 && At(IdentityOf(3), 1, 2) == 0.0
    ensures var e := ProductOf(Make(2, 3, 2.0), Make(3, 2, 1.0));
      e.rows == 2 && e.cols == 2 && At(e, 0, 0) == 6.0
  {
    var a := Set(Make(2, 3, 1.0), 0, 1, 5.0).value;
    GetAfterSet(Make(2, 3, 1.0), 0, 1, 5.0, 0, 1);
    GetAfterSet(Make(2, 3, 1.0), 0, 1, 5.0, 1, 2);
    GetAfterSet(Make(2, 3, 1.0), 0, 1, 5.0, 0, 0);
    assert At(a, 0, 0) == 1.0 by { assert Get(a, 0, 0) == Ok(1.0); }
    assert At(a, 0, 1) == 5.0 by { assert Get(a, 0, 1) == Ok(5.0); }
    assert At(a, 1, 2) == 1.0 by { assert Get(a, 1, 2) == Ok(1.0); }
    var b, d := Make(2, 3, 2.0), Make(3, 2, 1.0);
    assert Dot(b, d, 0, 0, 3) == 6.0 by {
      assert Dot(b, d, 0, 0, 1) == 2.0;
      assert Dot(b, d, 0, 0, 2) == 4.0;
    }
  }
  /** The matrix test driver run through the operations themselves:
      row, col, transpose, identity, operator+, operator+= and operator*
      on the driver's matrices, each result as the driver expects it. */
  method MatrixTestDriver() returns (r: Matrix, c: Matrix, at: Matrix, id: Matrix, sum: Matrix,
                                      a2: Matrix, e: Matrix)
    ensures r.rows == 1 && r.cols == 3 && At(r, 0, 2) == 1.0
    ensures c.rows == 2 && c.cols == 1 && At(c, 0, 0) == 5.0
    ensures at.rows == 3 && at.cols == 2 && At(at, 1, 0) == 5.0
    ensures id.rows == 3 && id.cols == 3
    ensures forall i: nat, j: nat :: i < 3 && j < 3 ==> At(id, i, j) == if i == j then 1.0 else 0.0
    ensures sum.rows == 2 && sum.cols == 3
    ensures At(sum, 0, 0) == 3.0 && At(sum, 0, 1) == 7.0 && At(sum, 1, 2) == 3.0
    ensures a2.rows == 2 && a2.cols == 3 && At(a2, 0, 1) == 7.0 && At(a2, 1, 0) == 3.0
    ensures e.rows == 2 && e.cols == 2 && At(e, 0, 0) == 6.0
  {
    var a := Set(Make(2, 3, 1.0), 0, 1, 5.0).value;
    assert At(a, 0, 1) == 5.0 by { GetAfterSet(Make(2, 3, 1.0), 0, 1, 5.0, 0, 1); assert Get(a, 0, 1) == Ok(5.0); }
    assert At(a, 1, 2) == 1.0 by { GetAfterSet(Make(2, 3, 1.0), 0, 1, 5.0, 1, 2); assert Get(a, 1, 2) == Ok(1.0); }
    assert At(a, 0, 0) == 1.0 by { GetAfterSet(Make(2, 3, 1.0), 0, 1, 5.0, 0, 0); assert Get(a, 0, 0) == Ok(1.0); }
    assert At(a, 1, 0) == 1.0 by { GetAfterSet(Make(2, 3, 1.0), 0, 1, 5.0, 1, 0); assert Get(a, 1, 0) == Ok(1.0); }
    var row := Row(a, 1);
    r := row.value;
    var col := Col(a, 1);
    c := col.value;
    at := Transpose(a);
    id := Identity(3);
    var b := Make(2, 3, 2.0);
    var s := Add(a, b);
    sum := s.value;
    var s2 := AddAssign(a, b);
    a2 := s2.value;
    var d := Make(3, 2, 1.0);
    var p := Multiply(b, d);
    e := p.value;
    assert Dot(b, d, 0, 0, 3) == 6.0 by {
      assert Dot(b, d, 0, 0, 1) == 2.0;
      assert Dot(b, d, 0, 0, 2) == 4.0;
    }
  }
}
