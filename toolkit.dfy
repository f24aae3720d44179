/**
 * The pure and loop-based helpers of the tool kit: nil tests, array coercion,
 * object/array conversion and the two path builders used by the default link.
 */
module ToolKit {
  import opened Wrappers
  import opened Geometry

  /** A JavaScript value as the helpers see it: `null`, `undefined` or a value. */
  datatype JsValue<T> = Null | Undefined | Value(v: T)

  /** `isNil`: true exactly for `null` and `undefined`. */
  predicate IsNil<T>(x: JsValue<T>)
    ensures IsNil(x) <==> !x.Value?
  {
    x.Null? || x.Undefined?
  }

  /** What `coerceArray` accepts besides nil: one element or an array of them. */
  datatype OneOrMany<T> = Scalar(item: T) | Array(items: seq<T>)

  /** `coerceArray`: nil becomes `[]`, an array is returned as it is, a scalar is wrapped. */
  function CoerceArray<T>(value: JsValue<OneOrMany<T>>): (r: seq<T>)
    ensures IsNil(value) ==> r == []
    ensures value.Value? && value.v.Array? ==> r == value.v.items
    ensures value.Value? && value.v.Scalar? ==> r == [value.v.item]
  {
    if IsNil(value) then []
    else match value.v
      case Array(items) => items
      case Scalar(item) => [item]
  }

  /** Coercing an array that was itself produced by coercion changes nothing. */
  lemma CoerceArrayIdempotent<T>(value: JsValue<OneOrMany<T>>)
    ensures CoerceArray(Value(Array(CoerceArray(value)))) == CoerceArray(value)
  {
  }

  // ---------------------------------------------------------------------------
  // mapToArray

  /** A JavaScript object given by its enumerable properties in `for...in` order. */
  type Entries<T> = seq<(string, JsValue<T>)>

  /** The values of `entries` that are not nil, in iteration order. */
  function NonNilValues<T>(entries: Entries<T>): seq<T>
  {
    if entries == [] then []
    else
      var last := entries[|entries| - 1].1;
      NonNilValues(entries[..|entries| - 1]) + (if IsNil(last) then [] else [last.v])
  }

  /** `mapToArray`: pushes every non-nil property value onto the result, in key order. */
  method MapToArray<T>(entries: Entries<T>) returns (result: seq<T>)
    ensures result == NonNilValues(entries)
    ensures |result| <= |entries|
  {
    result := [];
    var i := 0;
    while i < |entries|
      invariant 0 <= i <= |entries|
      invariant result == NonNilValues(entries[..i])
    {
      assert entries[..i + 1][..i] == entries[..i];
      if !IsNil(entries[i].1) {
        result := result + [entries[i].1.v];
      }
      i := i + 1;
    }
    assert entries[..i] == entries;
    NonNilValuesLength(entries);
  }

  /** There are never more values than keys. */
  lemma {:induction false} NonNilValuesLength<T>(entries: Entries<T>)
    ensures |NonNilValues(entries)| <= |entries|
  {
    if entries != [] {
      NonNilValuesLength(entries[..|entries| - 1]);
    }
  }

  /** A value is in the result exactly when some property holds it (not nil). */
  lemma {:induction false} NonNilValuesMembers<T>(entries: Entries<T>, x: T)
    ensures x in NonNilValues(entries) <==> exists i :: 0 <= i < |entries| && entries[i].1 == Value(x)
  {
    if entries != [] {
      var init := entries[..|entries| - 1];
      NonNilValuesMembers(init, x);
      if x in NonNilValues(init) {
        var i :| 0 <= i < |init| && init[i].1 == Value(x);
        assert entries[i].1 == Value(x);
      }
      if exists i :: 0 <= i < |entries| && entries[i].1 == Value(x) {
        var i :| 0 <= i < |entries| && entries[i].1 == Value(x);
        if i < |init| {
          assert init[i].1 == Value(x);
        }
      }
    }
  }

  // ---------------------------------------------------------------------------
  // arrayToMap

  /** An array element of `arrayToMap`: anything carrying an `id`. */
  datatype Identified<T> = Identified(id: string, data: T)

  /** The object `arrayToMap` builds from `arr`: later elements overwrite earlier ones. */
  function IdMap<T>(arr: seq<JsValue<Identified<T>>>): map<string, Identified<T>>
  {
    if arr == [] then map[]
    else
      var last := arr[|arr| - 1];
      var m := IdMap(arr[..|arr| - 1]);
      if IsNil(last) then m else m[last.v.id := last.v]
  }

  /** `arrayToMap`: stores every non-nil element under its id. */
  method ArrayToMap<T>(arr: seq<JsValue<Identified<T>>>) returns (result: map<string, Identified<T>>)
    ensures result == IdMap(arr)
  {
    result := map[];
    var i := 0;
    while i < |arr|
      invariant 0 <= i <= |arr|
      invariant result == IdMap(arr[..i])
    {
      assert arr[..i + 1][..i] == arr[..i];
      if !IsNil(arr[i]) {
        result := result[arr[i].v.id := arr[i].v];
      }
      i := i + 1;
    }
    assert arr[..i] == arr;
  }

  /** The keys of the result are exactly the ids of the non-nil elements. */
  lemma {:induction false} IdMapKeys<T>(arr: seq<JsValue<Identified<T>>>, k: string)
    ensures k in IdMap(arr) <==> exists i :: 0 <= i < |arr| && arr[i].Value? && arr[i].v.id == k
  {
    if arr != [] {
      var init := arr[..|arr| - 1];
      IdMapKeys(init, k);
      if exists i :: 0 <= i < |init| && init[i].Value? && init[i].v.id == k {
        var i :| 0 <= i < |init| && init[i].Value? && init[i].v.id == k;
        assert arr[i] == init[i];
      }
      if exists i :: 0 <= i < |arr| && arr[i].Value? && arr[i].v.id == k {
        var i :| 0 <= i < |arr| && arr[i].Value? && arr[i].v.id == k;
        if i < |init| {
          assert init[i] == arr[i];
        }
      }
    }
  }

  /** When ids repeat, the last non-nil element with that id is the one stored. */
  lemma {:induction false} IdMapLastWins<T>(arr: seq<JsValue<Identified<T>>>, i: nat)
    requires i < |arr| && arr[i].Value?
    requires forall j :: i < j < |arr| ==> !(arr[j].Value? && arr[j].v.id == arr[i].v.id)
    ensures arr[i].v.id in IdMap(arr) && IdMap(arr)[arr[i].v.id] == arr[i].v
  {
    if i < |arr| - 1 {
      var init := arr[..|arr| - 1];
      forall j | i < j < |init|
        ensures !(init[j].Value? && init[j].v.id == init[i].v.id)
      {
        assert init[j] == arr[j];
      }
      IdMapLastWins(init, i);
    }
  }

  // ---------------------------------------------------------------------------
  // Path builders

  /** The cubic Bézier curve `M start C control1 control2 end` of `generateCurvePath`. */
  datatype CurvePath = CurvePath(start: Coords, control1: Coords, control2: Coords, end: Coords)

  /** True when the endpoints are further apart horizontally than vertically. */
  predicate IsHorizontal(first: Coords, last: Coords)
  {
    Abs(first.x - last.x) > Abs(first.y - last.y)
  }

  /**
   * `generateCurvePath`: the curvyness is applied on the dominant axis only, added
   * at the first control point and subtracted at the second.
   */
  function GenerateCurvePath(first: Coords, last: Coords, curvy: real := 0.0): (p: CurvePath)
    ensures p.start == first && p.end == last
    ensures IsHorizontal(first, last) ==>
      p.control1 == Coords(first.x + curvy, first.y) && p.control2 == Coords(last.x - curvy, last.y)
    ensures !IsHorizontal(first, last) ==>
      p.control1 == Coords(first.x, first.y + curvy) && p.control2 == Coords(last.x, last.y - curvy)
  {
    var curvyX := if IsHorizontal(first, last) then curvy else 0.0;
    var curvyY := if IsHorizontal(first, last) then 0.0 else curvy;
    CurvePath(first, Coords(first.x + curvyX, first.y + curvyY), Coords(last.x - curvyX, last.y - curvyY), last)
  }

  /** With the default curvyness the control points sit on the endpoints: a straight line. */
  lemma StraightWithoutCurvyness(first: Coords, last: Coords)
    ensures GenerateCurvePath(first, last).control1 == first
    ensures GenerateCurvePath(first, last).control2 == last
  {
  }

  /** One command of the polyline `generateDynamicPath` draws. */
  datatype PathCommand = MoveTo(x: real, y: real) | LineTo(x: real, y: real)

  /**
   * `generateDynamicPath`: a move to the first coordinate, then a line to each of the
   * others in order, every coordinate multiplied by the routing scaling factor.
   * An empty input makes the original throw on `pathCoords[0]`: `None`.
   */
  method GenerateDynamicPath(pathCoords: seq<Coords>, scalingFactor: real) returns (r: Option<seq<PathCommand>>)
    ensures pathCoords == [] <==> r.None?
    ensures r.Some? ==> |r.value| == |pathCoords|
    ensures r.Some? ==> r.value[0] == MoveTo(pathCoords[0].x * scalingFactor, pathCoords[0].y * scalingFactor)
    ensures r.Some? ==> forall i :: 0 < i < |pathCoords| ==>
      r.value[i] == LineTo(pathCoords[i].x * scalingFactor, pathCoords[i].y * scalingFactor)
  {
    if pathCoords == [] {
      return None;
    }
    var path := [MoveTo(pathCoords[0].x * scalingFactor, pathCoords[0].y * scalingFactor)];
    var rest := pathCoords[1..];
    var i := 0;
    while i < |rest|
      invariant 0 <= i <= |rest|
      invariant |path| == i + 1
      invariant path[0] == MoveTo(pathCoords[0].x * scalingFactor, pathCoords[0].y * scalingFactor)
      invariant forall k :: 0 < k <= i ==>
        path[k] == LineTo(pathCoords[k].x * scalingFactor, pathCoords[k].y * scalingFactor)
    {
      path := path + [LineTo(rest[i].x * scalingFactor, rest[i].y * scalingFactor)];
      i := i + 1;
    }
    r := Some(path);
  }
}
