/**
 * src/scene/Scene.java: a named scene with a background colour, an ambient
 * light, the composite of its geometries and a view distance. The scene's
 * members have type T, as in the composite.
 */
module Scenes {
  import opened Wrappers
  import opened Colors
  import opened Geometries

  /** AmbientLight(ia, ka): the intensity ia scaled by ka. AmbientLight()
    * is black. */
  function AmbientLight(ia: Color, ka: real): (r: Color)
    ensures ka == 1.0 ==> r == ia
    ensures ka == 0.0 ==> r == BLACK
  {
    Scale(ia, ka)
  }

  /** The grey the scene starts with. */
  const DEFAULT_AMBIENT: Color := Color(192.0, 192.0, 192.0)

  class Scene<T> {
    const name: string
    var background: Color
    var ambientLight: Color
    var geometries: Geometries<T>
    var distance: real

    /** Scene(name): black background, ambient light (192, 192, 192) with
      * factor 1, a fresh composite whose list is still null, distance 0. */
    constructor (sceneName: string)
      ensures name == sceneName && background == BLACK
      ensures ambientLight == AmbientLight(DEFAULT_AMBIENT, 1.0) && ambientLight == DEFAULT_AMBIENT
      ensures fresh(geometries) && geometries.geometryList.None?
      ensures distance == 0.0
    {
      name := sceneName;
      background := BLACK;
      ambientLight := AmbientLight(DEFAULT_AMBIENT, 1.0);
      geometries := new Geometries.Empty();
      distance := 0.0;
    }

    /** setBackground: only the background changes; the same scene is
      * returned. */
    method SetBackground(c: Color) returns (self: Scene<T>)
      modifies this
      ensures self == this
      ensures background == c
      ensures ambientLight == old(ambientLight) && geometries == old(geometries) && distance == old(distance)
    {
      background := c;
      self := this;
    }

    /** setAmbientLight: only the ambient light changes. */
    method SetAmbientLight(a: Color) returns (self: Scene<T>)
      modifies this
      ensures self == this
      ensures ambientLight == a
      ensures background == old(background) && geometries == old(geometries) && distance == old(distance)
    {
      ambientLight := a;
      self := this;
    }

    /** setDistance: only the distance changes. */
    method SetDistance(d: real) returns (self: Scene<T>)
      modifies this
      ensures self == this
      ensures distance == d
      ensures background == old(background) && ambientLight == old(ambientLight) && geometries == old(geometries)
    {
      distance := d;
      self := this;
    }

    /** addGeometries: the new members are added to the scene's composite, in
      * argument order, after those it has; nothing of the scene itself
      * changes. */
    method AddGeometries(newGeometries: seq<T>) returns (self: Scene<T>)
      modifies geometries
      ensures self == this
      ensures geometries.geometryList == Some(old(if geometries.geometryList.Some? then geometries.geometryList.value else []) + newGeometries)
    {
      geometries.Add(newGeometries);
      assert [] + newGeometries == newGeometries;
      self := this;
    }
  }
}
