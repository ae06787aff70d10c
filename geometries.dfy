/**
 * src/geometries/Geometry.java and src/geometries/Geometries.java: the state
 * every shape carries (an emission colour and a material), and the composite
 * that holds a list of intersectable members and gathers their hits.
 */
module Geometries {
  import opened Wrappers
  import opened Points
  import opened Rays
  import opened Colors
  import opened Materials

  /** The fields of the abstract Geometry class. Its normal is per shape and
    * lives with each shape. */
  class Geometry {
    var emission: Color
    var material: Material

    /** A new geometry emits black and owns a fresh all-zero material. */
    constructor ()
      ensures emission == BLACK
      ensures fresh(material)
      ensures material.kD == 0.0 && material.kS == 0.0 && material.nShininess == 0
    {
      emission := BLACK;
      material := new Material.Default();
    }

    /** setEmission: only the emission changes; the same object is returned. */
    method SetEmission(c: Color) returns (self: Geometry)
      modifies this
      ensures self == this
      ensures emission == c && material == old(material)
    {
      emission := c;
      self := this;
    }

    /** setMaterial: the geometry now refers to the caller's material object,
      * not a copy; the emission is kept. */
    method SetMaterial(mat: Material) returns (self: Geometry)
      modifies this
      ensures self == this
      ensures material == mat && emission == old(emission)
    {
      material := mat;
      self := this;
    }
  }

  /** The points of a result that may be null: none for null. */
  function PointsOf(result: Option<seq<Point3D>>): seq<Point3D>
  {
    if result.Some? then result.value else []
  }

  /** One step of the gathering loop: a null result is skipped, the first
    * non-null result starts the list, later ones are appended to it. */
  function Join(acc: Option<seq<Point3D>>, next: Option<seq<Point3D>>): (r: Option<seq<Point3D>>)
    ensures r.None? <==> acc.None? && next.None?
    ensures PointsOf(r) == PointsOf(acc) + PointsOf(next)
  {
    match next
    case None => acc
    case Some(ps) =>
      match acc
      case None => Some(ps)
      case Some(qs) => Some(qs + ps)
  }

  /** The result of the gathering loop over the members' results in order. */
  function Gathered(results: seq<Option<seq<Point3D>>>): Option<seq<Point3D>>
  {
    if |results| == 0 then None else Join(Gathered(results[..|results| - 1]), results[|results| - 1])
  }

  /** All the points of the members' results, front to back: the reference
    * the loop's result is compared with. */
  function AllPoints(results: seq<Option<seq<Point3D>>>): seq<Point3D>
  {
    if |results| == 0 then [] else PointsOf(results[0]) + AllPoints(results[1..])
  }

  /** The gathered result is null exactly when every member's result is null,
    * and otherwise lists all the members' points in member order. */
  lemma {:induction false} GatheredMeaning(results: seq<Option<seq<Point3D>>>)
    ensures Gathered(results).None? <==> forall i :: 0 <= i < |results| ==> results[i].None?
    ensures PointsOf(Gathered(results)) == AllPoints(results)
  {
    if |results| != 0 {
      var n := |results| - 1;
      GatheredMeaning(results[..n]);
      AllPointsSnoc(results[..n], results[n]);
      assert results[..n] + [results[n]] == results;
    }
  }

  /** Appending one result at the back appends its points. */
  lemma {:induction false} AllPointsSnoc(results: seq<Option<seq<Point3D>>>, last: Option<seq<Point3D>>)
    ensures AllPoints(results + [last]) == AllPoints(results) + PointsOf(last)
  {
    if |results| != 0 {
      AllPointsSnoc(results[1..], last);
      assert (results + [last])[1..] == results[1..] + [last];
    }
  }

  /** Gathering over two runs of members is joining the two gathered
    * results: the members added later contribute after the earlier ones. */
  lemma {:induction false} GatheredAppend(a: seq<Option<seq<Point3D>>>, b: seq<Option<seq<Point3D>>>)
    ensures Gathered(a + b) == Join(Gathered(a), Gathered(b))
  {
    if |b| != 0 {
      var n := |b| - 1;
      assert Gathered(a + b) == Join(Gathered(a + b[..n]), b[n]) by {
        var ab := a + b;
        assert ab[..|ab| - 1] == a + b[..n];
      }
      GatheredAppend(a, b[..n]);
      JoinAssociative(Gathered(a), Gathered(b[..n]), b[n]);
    } else {
      assert a + b == a;
    }
  }

  lemma JoinAssociative(x: Option<seq<Point3D>>, y: Option<seq<Point3D>>, z: Option<seq<Point3D>>)
    ensures Join(Join(x, y), z) == Join(x, Join(y, z))
  {
    if x.Some? && y.Some? && z.Some? {
      assert (x.value + y.value) + z.value == x.value + (y.value + z.value);
    }
  }

  /** A gathered list is never empty unless some member itself returned an
    * empty list: when no member reports a point the result is null. */
  lemma {:induction false} GatheredNeverEmpty(results: seq<Option<seq<Point3D>>>)
    requires forall i :: 0 <= i < |results| ==> results[i] != Some([])
    ensures Gathered(results) != Some([])
  {
    if |results| != 0 {
      GatheredNeverEmpty(results[..|results| - 1]);
    }
  }

  /** The members' results for one ray, in member order. */
  function Results<T>(members: seq<T>, ray: Ray, find: (T, Ray) -> Option<seq<Point3D>>): (r: seq<Option<seq<Point3D>>>)
    ensures |r| == |members|
    ensures forall i :: 0 <= i < |members| ==> r[i] == find(members[i], ray)
  {
    seq(|members|, i requires 0 <= i < |members| => find(members[i], ray))
  }

  /** After add(b) on a list of members a, the composite reports what a
    * reported, followed by what the new members b report. */
  lemma AddedMembersAfter<T>(a: seq<T>, b: seq<T>, ray: Ray, find: (T, Ray) -> Option<seq<Point3D>>)
    ensures Gathered(Results(a + b, ray, find)) == Join(Gathered(Results(a, ray, find)), Gathered(Results(b, ray, find)))
  {
    assert Results(a + b, ray, find) == Results(a, ray, find) + Results(b, ray, find);
    GatheredAppend(Results(a, ray, find), Results(b, ray, find));
  }

  /** The composite of intersectable members. Members are of any type T; how
    * a member finds its own intersections is the function `find`, because
    * the shapes shown do not implement the query the composite calls. */
  class Geometries<T> {
    /** Null until the first add, or a list of members. */
    var geometryList: Option<seq<T>>

    /** Geometries(): the list is null. */
    constructor Empty()
      ensures geometryList == None
    {
      geometryList := None;
    }

    /** Geometries(geometries...): a list of exactly the given members. */
    constructor (geometries: seq<T>)
      ensures geometryList == Some(geometries)
    {
      geometryList := Some(geometries);
    }

    /** add(geometries...): a null list becomes the given members; an
      * existing list keeps its members and gets the new ones after them. */
    method Add(geometries: seq<T>)
      modifies this
      ensures old(geometryList).None? ==> geometryList == Some(geometries)
      ensures old(geometryList).Some? ==> geometryList == Some(old(geometryList).value + geometries)
    {
      if geometryList.None? {
        geometryList := Some(geometries);
        return;
      }
      geometryList := Some(geometryList.value + geometries);
    }

    /** findIntersections(ray): null without a list; otherwise every member
      * is queried in order and the non-null results are gathered. */
    method FindIntersections(ray: Ray, find: (T, Ray) -> Option<seq<Point3D>>) returns (r: Option<seq<Point3D>>)
      ensures geometryList.None? ==> r.None?
      ensures geometryList.Some? ==> r == Gathered(Results(geometryList.value, ray, find))
    {
      if geometryList.None? {
        return None;
      }
      var members := geometryList.value;
      var intersections: Option<seq<Point3D>> := None;
      var i := 0;
      while i < |members|
        invariant 0 <= i <= |members|
        invariant intersections == Gathered(Results(members[..i], ray, find))
      {
        var newPoints := find(members[i], ray);
        assert Results(members[..i + 1], ray, find)[..i] == Results(members[..i], ray, find);
        if newPoints.Some? {
          if intersections.None? {
            intersections := Some(newPoints.value);
          } else {
            intersections := Some(intersections.value + newPoints.value);
          }
        }
        i := i + 1;
      }
      assert members[..i] == members;
      r := intersections;
    }
  }
}
