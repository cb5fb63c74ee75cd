/** `Symbol`: one decoded result, a holder of a native symbol handle with a
    cached symbology type, a computed bounding box and a guarded `destroy`. */
module Symbols {
  import opened NativeLib

  /** Symbology code meaning "no symbol decoded"; it is also the value the type
      cache uses for "not fetched yet". */
  const NoneType: Int32 := 0

  datatype Point = Point(x: Int32, y: Int32)

  datatype Axis = X | Y

  function Coord(p: Point, a: Axis): Int32
  {
    match a
    case X => p.x
    case Y => p.y
  }

  /** The location points the native side reports for symbol `peer`, by index; a
      location count of 0 or less means there are none. */
  function LocationPoints(lib: Native, peer: Handle): (pts: seq<Point>)
    ensures lib.locationSize(peer) <= 0 ==> pts == []
    ensures lib.locationSize(peer) > 0 ==> |pts| == lib.locationSize(peer)
    ensures forall i :: 0 <= i < |pts| ==>
              pts[i] == Point(lib.locationX(peer, i), lib.locationY(peer, i))
  {
    var n := lib.locationSize(peer);
    seq(if n <= 0 then 0 else n, i => Point(lib.locationX(peer, i), lib.locationY(peer, i)))
  }

  function Min(a: Int32, b: Int32): Int32 { if a <= b then a else b }

  function Max(a: Int32, b: Int32): Int32 { if a >= b then a else b }

  /** The least coordinate along `a` of the points, taken in index order. */
  function Lo(pts: seq<Point>, a: Axis): Int32
    requires pts != []
  {
    if |pts| == 1 then Coord(pts[0], a) else Min(Lo(pts[..|pts| - 1], a), Coord(pts[|pts| - 1], a))
  }

  /** The greatest coordinate along `a` of the points, taken in index order. */
  function Hi(pts: seq<Point>, a: Axis): Int32
    requires pts != []
  {
    if |pts| == 1 then Coord(pts[0], a) else Max(Hi(pts[..|pts| - 1], a), Coord(pts[|pts| - 1], a))
  }

  /** `Lo` is the minimum: no point lies below it, and some point lies on it. */
  lemma {:induction false} LoIsMinimum(pts: seq<Point>, a: Axis)
    requires pts != []
    ensures forall i :: 0 <= i < |pts| ==> Lo(pts, a) <= Coord(pts[i], a)
    ensures exists i :: 0 <= i < |pts| && Lo(pts, a) == Coord(pts[i], a)
    decreases |pts|
  {
    if |pts| > 1 {
      var init := pts[..|pts| - 1];
      LoIsMinimum(init, a);
      var j :| 0 <= j < |init| && Lo(init, a) == Coord(init[j], a);
      assert init[j] == pts[j];
      if Lo(pts, a) == Lo(init, a) {
        assert Lo(pts, a) == Coord(pts[j], a);
      } else {
        assert Lo(pts, a) == Coord(pts[|pts| - 1], a);
      }
      forall i | 0 <= i < |pts| ensures Lo(pts, a) <= Coord(pts[i], a) {
        if i < |pts| - 1 {
          assert pts[i] == init[i];
        }
      }
    } else {
      assert Lo(pts, a) == Coord(pts[0], a);
    }
  }

  /** `Hi` is the maximum: no point lies above it, and some point lies on it. */
  lemma {:induction false} HiIsMaximum(pts: seq<Point>, a: Axis)
    requires pts != []
    ensures forall i :: 0 <= i < |pts| ==> Coord(pts[i], a) <= Hi(pts, a)
    ensures exists i :: 0 <= i < |pts| && Hi(pts, a) == Coord(pts[i], a)
    decreases |pts|
  {
    if |pts| > 1 {
      var init := pts[..|pts| - 1];
      HiIsMaximum(init, a);
      var j :| 0 <= j < |init| && Hi(init, a) == Coord(init[j], a);
      assert init[j] == pts[j];
      if Hi(pts, a) == Hi(init, a) {
        assert Hi(pts, a) == Coord(pts[j], a);
      } else {
        assert Hi(pts, a) == Coord(pts[|pts| - 1], a);
      }
      forall i | 0 <= i < |pts| ensures Coord(pts[i], a) <= Hi(pts, a) {
        if i < |pts| - 1 {
          assert pts[i] == init[i];
        }
      }
    } else {
      assert Hi(pts, a) == Coord(pts[0], a);
    }
  }

  /** The four entries of `bounds` for a non-empty point list: x and y of the
      lower corner, then width and height as Kotlin Int differences. */
  function BoxOf(pts: seq<Point>): (box: seq<Int32>)
    requires pts != []
    ensures |box| == 4
  {
    [Lo(pts, X), Lo(pts, Y), Wrap32(Hi(pts, X) - Lo(pts, X)), Wrap32(Hi(pts, Y) - Lo(pts, Y))]
  }

  /** Whether the extent of the points along each axis fits in a Kotlin Int, so
      that width and height do not wrap. */
  predicate SpansFit(pts: seq<Point>)
    requires pts != []
  {
    Hi(pts, X) - Lo(pts, X) <= MaxInt32 && Hi(pts, Y) - Lo(pts, Y) <= MaxInt32
  }

  /** When the extents fit, `BoxOf` is the smallest axis-aligned rectangle
      holding every point: each point lies inside it, and each of its four
      edges passes through some point. */
  lemma {:induction false} BoxIsTightBound(pts: seq<Point>)
    requires pts != [] && SpansFit(pts)
    ensures var b := BoxOf(pts);
      b[2] >= 0 && b[3] >= 0 &&
      (forall i :: 0 <= i < |pts| ==>
         b[0] <= pts[i].x <= b[0] + b[2] && b[1] <= pts[i].y <= b[1] + b[3]) &&
      (exists i :: 0 <= i < |pts| && pts[i].x == b[0]) &&
      (exists i :: 0 <= i < |pts| && pts[i].x == b[0] + b[2]) &&
      (exists i :: 0 <= i < |pts| && pts[i].y == b[1]) &&
      (exists i :: 0 <= i < |pts| && pts[i].y == b[1] + b[3])
  {
    LoIsMinimum(pts, X);
    LoIsMinimum(pts, Y);
    HiIsMaximum(pts, X);
    HiIsMaximum(pts, Y);
    assert Lo(pts, X) <= Coord(pts[0], X) <= Hi(pts, X);
    assert Lo(pts, Y) <= Coord(pts[0], Y) <= Hi(pts, Y);
  }

  /** Width and height are never negative as mathematical values; they turn
      negative in the returned array only through 32-bit wrap-around, when a
      span exceeds Int.MAX_VALUE. */
  lemma BoxWrapsOnlyWhenSpanOverflows(pts: seq<Point>)
    requires pts != []
    ensures BoxOf(pts)[2] < 0 <==> Hi(pts, X) - Lo(pts, X) > MaxInt32
    ensures BoxOf(pts)[3] < 0 <==> Hi(pts, Y) - Lo(pts, Y) > MaxInt32
  {
  }

  /** The square with corners (1,1), (5,1), (5,4), (1,4) has bounds [1, 1, 4, 3]. */
  lemma BoxOfSquare()
    ensures BoxOf([Point(1, 1), Point(5, 1), Point(5, 4), Point(1, 4)]) == [1, 1, 4, 3]
  {
    var pts := [Point(1, 1), Point(5, 1), Point(5, 4), Point(1, 4)];
    assert pts[..1] == [Point(1, 1)];
    assert pts[..2][..1] == pts[..1];
    assert pts[..3][..2] == pts[..2];
    assert pts[..4] == pts;
    assert Lo(pts[..2], X) == 1 && Hi(pts[..2], X) == 5 && Lo(pts[..2], Y) == 1 && Hi(pts[..2], Y) == 1;
    assert Lo(pts[..3], X) == 1 && Hi(pts[..3], X) == 5 && Lo(pts[..3], Y) == 1 && Hi(pts[..3], Y) == 4;
  }

  /** One `getType()` call: the new cache value, the answer, and whether the
      native type was queried. */
  datatype TypeFetch = TypeFetch(cache: Int32, answer: Int32, queried: bool)

  function FetchType(cache: Int32, native: Int32): TypeFetch
  {
    if cache == NoneType then TypeFetch(native, native, true) else TypeFetch(cache, cache, false)
  }

  /** `k` successive `getType()` calls from cache value `cache` on a symbol whose
      native type is `native`: the final cache value, the answers in order, and
      how many native queries were made. */
  function FetchTypeRepeated(cache: Int32, native: Int32, k: nat): (Int32, seq<Int32>, nat)
    decreases k
  {
    if k == 0 then (cache, [], 0)
    else
      var f := FetchType(cache, native);
      var (last, answers, queries) := FetchTypeRepeated(f.cache, native, k - 1);
      (last, [f.answer] + answers, queries + (if f.queried then 1 else 0))
  }

  /** Every `getType()` answers the cached type if there is one and the native
      type otherwise. The native type is queried at most once, unless it is
      NONE (0): then the cache stays 0 and every call queries again. */
  lemma {:induction false} FetchTypeCachesNonZero(cache: Int32, native: Int32, k: nat)
    ensures var (last, answers, queries) := FetchTypeRepeated(cache, native, k);
      var expected := if cache != NoneType then cache else native;
      |answers| == k &&
      (forall i :: 0 <= i < k ==> answers[i] == expected) &&
      (k > 0 ==> last == expected) &&
      (cache != NoneType ==> queries == 0 && last == cache) &&
      (cache == NoneType && native != NoneType ==> queries == (if k == 0 then 0 else 1)) &&
      (cache == NoneType && native == NoneType ==> queries == k && last == NoneType)
    decreases k
  {
    if k > 0 {
      var f := FetchType(cache, native);
      FetchTypeCachesNonZero(f.cache, native, k - 1);
    }
  }

  class Symbol {
    /** The native symbol, 0 once released. */
    var peer: Handle
    /** The field `type` of the Kotlin class: the cached symbology, 0 while not fetched. */
    var cachedType: Int32

    constructor (peer: Handle)
      ensures this.peer == peer && cachedType == NoneType
    {
      this.peer := peer;
      cachedType := NoneType;
    }

    /** The `bounds` getter: null when the symbol has no location points, otherwise
        a fresh array [xmin, ymin, xmax - xmin, ymax - ymin] over all of them. */
    method Bounds(lib: Native) returns (bounds: array?<Int32>)
      ensures bounds == null <==> lib.locationSize(peer) <= 0
      ensures bounds != null ==> fresh(bounds) && bounds[..] == BoxOf(LocationPoints(lib, peer))
    {
      var n := lib.locationSize(peer);
      if n <= 0 {
        return null;
      }
      bounds := new Int32[4];
      var xmin: Int32, xmax: Int32 := MaxInt32, MinInt32;
      var ymin: Int32, ymax: Int32 := MaxInt32, MinInt32;
      ghost var pts := LocationPoints(lib, peer);
      for i := 0 to n
        invariant i == 0 ==> xmin == MaxInt32 && xmax == MinInt32 && ymin == MaxInt32 && ymax == MinInt32
        invariant 0 < i ==> xmin == Lo(pts[..i], X) && xmax == Hi(pts[..i], X)
        invariant 0 < i ==> ymin == Lo(pts[..i], Y) && ymax == Hi(pts[..i], Y)
      {
        assert pts[..i + 1][..i] == pts[..i];
        var x := lib.locationX(peer, i);
        if xmin > x { xmin := x; }
        if xmax < x { xmax := x; }

        var y := lib.locationY(peer, i);
        if ymin > y { ymin := y; }
        if ymax < y { ymax := y; }
      }
      assert pts[..n] == pts;
      bounds[0] := xmin;
      bounds[1] := ymin;
      bounds[2] := Wrap32(xmax - xmin);
      bounds[3] := Wrap32(ymax - ymin);
    }

    /** `getLocationPoint(idx)`: a fresh two-element array holding the point's
        coordinates as the native side reports them. */
    method GetLocationPoint(lib: Native, idx: Int32) returns (p: array<Int32>)
      ensures fresh(p) && p.Length == 2
      ensures p[0] == lib.locationX(peer, idx) && p[1] == lib.locationY(peer, idx)
      ensures 0 <= idx < |LocationPoints(lib, peer)| ==> Point(p[0], p[1]) == LocationPoints(lib, peer)[idx]
    {
      p := new Int32[2];
      p[0] := lib.locationX(peer, idx);
      p[1] := lib.locationY(peer, idx);
    }

    /** `getType()`: answers the cached type, querying the native side only while
        the cache holds 0. */
    method GetType(lib: Native) returns (t: Int32)
      modifies this`cachedType, lib
      ensures var f := FetchType(old(cachedType), lib.symbolType(peer));
        cachedType == f.cache && t == f.answer &&
        lib.log == old(lib.log) + (if f.queried then [QueryType(peer)] else [])
    {
      if cachedType == NoneType {
        lib.Record(QueryType(peer));
        cachedType := lib.symbolType(peer);
      }
      t := cachedType;
    }

    /** `destroy()`: releases a non-null peer once and clears it. */
    method Destroy(lib: Native)
      modifies this`peer, lib
      ensures peer == NullHandle
      ensures lib.log == old(lib.log) + DestroyCalls(SymbolPeer, old(peer))
    {
      if peer != NullHandle {
        lib.Record(Release(SymbolPeer, peer));
        peer := NullHandle;
      }
    }
  }
}
