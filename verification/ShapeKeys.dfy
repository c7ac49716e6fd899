/** The string keys of the graph path: the shape signature used for logging and the bucket keys
    of the cache. */
module ShapeKeys {
  import opened Digits

  /** A dimension and the comma after it. */
  function DimKey(d: nat): string {
    Print(d) + ","
  }

  function DimsKey(shape: seq<nat>, n: nat): string
    requires n <= |shape|
  {
    if n == 0 then "" else DimsKey(shape, n - 1) + DimKey(shape[n - 1])
  }

  function ShapesKey(shapes: seq<seq<nat>>, n: nat): string
    requires n <= |shapes|
  {
    if n == 0 then "" else ShapesKey(shapes, n - 1) + DimsKey(shapes[n - 1], |shapes[n - 1]|) + "|"
  }

  lemma Append3(a: string, b: string, c: string)
    ensures (a + b) + c == a + (b + c)
  {}

  lemma OneMoreDim(base: string, shape: seq<nat>, j: nat)
    requires j < |shape|
    ensures (base + DimsKey(shape, j)) + DimKey(shape[j]) == base + DimsKey(shape, j + 1)
  {}

  /** One shape, appended to the key. */
  method AppendDims(base: string, shape: seq<nat>) returns (key: string)
    ensures key == base + DimsKey(shape, |shape|)
  {
    key := base;
    var j := 0;
    while j < |shape|
      invariant 0 <= j <= |shape| && key == base + DimsKey(shape, j)
    {
      OneMoreDim(base, shape, j);
      key := key + DimKey(shape[j]);
      j := j + 1;
    }
  }

  lemma OneMoreShape(shapes: seq<seq<nat>>, i: nat)
    requires i < |shapes|
    ensures ShapesKey(shapes, i + 1) == (ShapesKey(shapes, i) + DimsKey(shapes[i], |shapes[i]|)) + "|"
  {}

  /** `InputShapeKey` */
  method InputShapeKey(shapes: seq<seq<nat>>) returns (key: string)
    ensures key == ShapesKey(shapes, |shapes|)
  {
    key := "";
    var i := 0;
    while i < |shapes|
      invariant 0 <= i <= |shapes| && key == ShapesKey(shapes, i)
    {
      OneMoreShape(shapes, i);
      key := AppendDims(key, shapes[i]);
      key := key + "|";
      i := i + 1;
    }
  }

  /** The same text read from the front. */
  function Dims(shape: seq<nat>): string {
    if shape == [] then "|" else Print(shape[0]) + ("," + Dims(shape[1..]))
  }

  function Shapes(shapes: seq<seq<nat>>): string {
    if shapes == [] then "" else Dims(shapes[0]) + Shapes(shapes[1..])
  }

  lemma DimFirst(before: string, d: nat, rest: string)
    ensures (before + DimKey(d)) + rest == before + (Print(d) + ("," + rest))
  {}

  lemma DimsStep(shape: seq<nat>, j: nat)
    requires j < |shape|
    ensures Dims(shape[j..]) == Print(shape[j]) + ("," + Dims(shape[j + 1..]))
  {
    assert shape[j..][1..] == shape[j + 1..];
  }

  lemma {:induction false} DimsFromFront(shape: seq<nat>, n: nat)
    requires n <= |shape|
    ensures DimsKey(shape, n) + Dims(shape[n..]) == Dims(shape)
  {
    if n == 0 {
      assert shape[0..] == shape;
    } else {
      DimsFromFront(shape, n - 1);
      DimsStep(shape, n - 1);
      DimFirst(DimsKey(shape, n - 1), shape[n - 1], Dims(shape[n..]));
    }
  }

  lemma {:induction false} ShapesFromFront(shapes: seq<seq<nat>>, n: nat)
    requires n <= |shapes|
    ensures ShapesKey(shapes, n) + Shapes(shapes[n..]) == Shapes(shapes)
  {
    if n == 0 {
      assert shapes[0..] == shapes;
    } else {
      var shape, rest := shapes[n - 1], Shapes(shapes[n..]);
      ShapesFromFront(shapes, n - 1);
      DimsFromFront(shape, |shape|);
      assert shape[|shape|..] == [] && shapes[n - 1..][1..] == shapes[n..];
      Append3(ShapesKey(shapes, n - 1), DimsKey(shape, |shape|), "|");
      Append3(ShapesKey(shapes, n - 1), Dims(shape), rest);
    }
  }

  /** A printed number followed by a non-digit can be read off the front. */
  lemma NumberFirst(d: nat, e: nat, r: string, s: string)
    requires r != "" && s != "" && !IsDigit(r[0]) && !IsDigit(s[0])
    requires Print(d) + r == Print(e) + s
    ensures d == e && r == s
  {
    DigitRunAll(Print(d), r);
    DigitRunAll(Print(e), s);
    assert (Print(d) + r)[..|Print(d)|] == Print(d) && (Print(e) + s)[..|Print(e)|] == Print(e);
    assert (Print(d) + r)[|Print(d)|..] == r && (Print(e) + s)[|Print(e)|..] == s;
    PrintInjective(d, e);
  }

  lemma DimsFirst(a: seq<nat>, r: string)
    ensures a == [] ==> Dims(a) + r == "|" + r
    ensures a != [] ==> Dims(a) + r == Print(a[0]) + ("," + (Dims(a[1..]) + r)) && IsDigit((Dims(a) + r)[0])
  {}

  lemma DropFirst(c: string, r: string, s: string)
    requires |c| == 1 && c + r == c + s
    ensures r == s
  {
    assert (c + r)[1..] == r && (c + s)[1..] == s;
  }

  /** A tensor's part of the key can be read off the front. */
  lemma {:induction false} ShapeFirst(a: seq<nat>, b: seq<nat>, r: string, s: string)
    requires Dims(a) + r == Dims(b) + s
    ensures a == b && r == s
  {
    DimsFirst(a, r);
    DimsFirst(b, s);
    if a == [] {
      DropFirst("|", r, s);
    } else {
      var r', s' := Dims(a[1..]) + r, Dims(b[1..]) + s;
      NumberFirst(a[0], b[0], "," + r', "," + s');
      DropFirst(",", r', s');
      ShapeFirst(a[1..], b[1..], r, s);
      assert a == [a[0]] + a[1..] && b == [b[0]] + b[1..];
    }
  }

  lemma {:induction false} ShapesInjective(a: seq<seq<nat>>, b: seq<seq<nat>>)
    requires Shapes(a) == Shapes(b)
    ensures a == b
  {
    if a != [] && b != [] {
      ShapeFirst(a[0], b[0], Shapes(a[1..]), Shapes(b[1..]));
      ShapesInjective(a[1..], b[1..]);
      assert a == [a[0]] + a[1..] && b == [b[0]] + b[1..];
    }
  }

  /** The shape signature determines the shapes, however many tensors and dimensions there are. */
  lemma InputShapeKeyInjective(a: seq<seq<nat>>, b: seq<seq<nat>>)
    requires ShapesKey(a, |a|) == ShapesKey(b, |b|)
    ensures a == b
  {
    ShapesFromFront(a, |a|);
    ShapesFromFront(b, |b|);
    assert a[|a|..] == [] && b[|b|..] == [];
    assert ShapesKey(a, |a|) + "" == ShapesKey(a, |a|) && ShapesKey(b, |b|) + "" == ShapesKey(b, |b|);
    ShapesInjective(a, b);
  }

  /** The cache key of a bucket. */
  function BucketKey(b: int): string {
    "R=" + Print(b)
  }

  lemma BucketKeyInjective(b: int, c: int)
    requires BucketKey(b) == BucketKey(c)
    ensures b == c
  {
    assert BucketKey(b)[2..] == Print(b) && BucketKey(c)[2..] == Print(c);
    PrintInjective(b, c);
  }

  /** The string-keyed cache holds exactly what the bucket-keyed one does. */
  ghost predicate Represents<V>(byKey: map<string, V>, byBucket: map<int, V>) {
    && (forall b :: b in byBucket ==> BucketKey(b) in byKey && byKey[BucketKey(b)] == byBucket[b])
    && (forall k :: k in byKey ==> exists b :: b in byBucket && k == BucketKey(b))
  }

  /** Looking up and inserting by key is looking up and inserting by bucket. */
  lemma KeysStandForBuckets<V>(byKey: map<string, V>, byBucket: map<int, V>, b: int, v: V)
    requires Represents(byKey, byBucket)
    ensures BucketKey(b) in byKey <==> b in byBucket
    ensures Represents(byKey[BucketKey(b) := v], byBucket[b := v])
  {
    if BucketKey(b) in byKey {
      var c :| c in byBucket && BucketKey(b) == BucketKey(c);
      BucketKeyInjective(b, c);
    }
    var byKey', byBucket' := byKey[BucketKey(b) := v], byBucket[b := v];
    forall c | c in byBucket'
      ensures BucketKey(c) in byKey' && byKey'[BucketKey(c)] == byBucket'[c]
    {
      if BucketKey(c) == BucketKey(b) {
        BucketKeyInjective(b, c);
      }
    }
    forall k | k in byKey'
      ensures exists c :: c in byBucket' && k == BucketKey(c)
    {
      if k == BucketKey(b) {
        assert b in byBucket';
      } else {
        var c :| c in byBucket && k == BucketKey(c);
        assert c in byBucket';
      }
    }
  }
}
