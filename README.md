# A verified model of a recursive Java ray tracer

This project models the geometric and shading core of a small recursive ray
tracer written in Java. The model is written in Dafny, and the properties
below are proved about it.

- **Value algebra.** `Point3D`, `Vector` (never the zero vector) and `Ray`
  (a unit direction).
- **Shapes.** Plane, triangle, sphere, tube and cylinder, each with its
  normal and its ray intersection; and the `Geometries` composite.
- **Lights.** Point, spot and directional lights, and the camera that
  builds the ray through a pixel.
- **Scene and data holders.** The scene, materials and geometries, with
  their defaults and chained setters.
- **`BasicRayTracer`.** Closest hit, emission, direct light with the binary
  shadow test, and recursive reflection and refraction. The recursion stops
  at level 10 or at a coefficient of 0.001. Ambient light is added once.
- **`Render`.** The order of the missing-resource checks, and the pixel
  loop run sequentially. Each pixel is coloured in one of three modes:
  - a single trace;
  - supersampling over a list of rays;
  - adaptive supersampling of the pixel by a quadtree recursion, with a
    memo of the corner colours already traced.

  `Render` also draws a debug grid over the image and holds its
  configuration behind chained setters.

Coordinates are mathematical reals. A Java exception is the value
`Fail(error)` of a `Result`; a Java `null` is `None`. `Math.sqrt` and
`Math.pow` are a parameter `m: MathLib`. The model relies only on the laws
stated by `Lawful(m)`: for `x >= 0`, `Sqrt(m, x)` is non-negative and its
square is `x`; for `b >= 0`, `Pow(m, b, e)` is non-negative.

Where the source mutates an object, the model is a class:

- `Material`, `Geometry`, `Geometries`, `PointLight` (its setters), `Camera`,
  `Scene` and `Render`;
- the image sink, `ImageWriter`;
- the in-place `Vector.normalize`, as `VectorObject`.

The loops of the source are methods proved against a specification
function:

- `Ray.findClosestPoint`;
- the light loop of `calcLocalEffects`;
- the blocker loop of `unshaded`;
- the supersampling sum;
- the memoised adaptive recursion;
- the pixel loops of `renderImage` and `printGrid`.

The cylinder caps are tested with an exact `== 0`. Corner colours are
compared with `equals`. `renderImage` hands one task per pixel to
`invokeAll` on a fixed thread pool.

## Model

| member | source | states |
|---|---|---|
| Points.NewVector | src/primitives/Vector.java:24-41 | Both constructors reject exactly the zero head, with IllegalArgument; any other head is kept |
| Points.Subtract | src/primitives/Point3D.java:78-80 | p.subtract(q) fails exactly when p == q; otherwise adding the result back to q gives p |
| Points.DistanceSquared | src/primitives/Point3D.java:99-104 | The squared distance is never negative |
| Points.Distance | src/primitives/Point3D.java:112-114 | The distance is non-negative and its square is the squared distance |
| Points.DistanceOfSquare | src/primitives/Point3D.java:112-114 | A distance whose square is r * r, with r >= 0, is r |
| Points.Equals | src/primitives/Point3D.java:117-125 | equals holds exactly for equal coordinates |
| Points.AddThenSubtract | src/primitives/Point3D.java:78-91 | Round trip: (p + v) - p is v again |
| Points.Add | src/primitives/Point3D.java:88-91 | Moving a point along a vector, which is never zero, always leaves the point |
| Points.DistanceSquaredSymmetric | src/primitives/Point3D.java:99-104 | The squared distance is symmetric |
| Points.DistanceSquaredZero | src/primitives/Point3D.java:99-104 | The squared distance is 0 exactly for equal points |
| Points.Point3DExamples | src/unittests/primitives/Point3DTests.java:25-48 | (1,2,3) - (4,5,6) = (-3,-3,-3); (1,2,3) + (4,5,6) = (5,7,9); their squared distance is 27 |
| Vectors.VectorAdd | src/primitives/Vector.java:68-70 | v.add(w) fails exactly when w is -v; otherwise subtracting v from the sum gives w |
| Vectors.VectorSubtract | src/primitives/Vector.java:58-60 | v.subtract(w) fails exactly when v == w; otherwise adding w back gives v |
| Vectors.Scale | src/primitives/Vector.java:78-80 | scale(k) fails exactly for k == 0; otherwise every coordinate is multiplied by k |
| Vectors.ScaleInverse | src/primitives/Vector.java:78-80 | Scaling by k != 0 and then by 1/k gives the vector back |
| Vectors.ScaleNonZero | src/primitives/Vector.java:78-80 | A non-zero multiple of a vector is never zero, and scaling it by 1/k gives the vector back |
| Vectors.LengthSquared | src/primitives/Vector.java:110-112 | The squared length is v . v and is strictly positive for every vector |
| Vectors.Length | src/primitives/Vector.java:119-121 | The length is positive and its square is the squared length |
| Vectors.Cross | src/primitives/Vector.java:99-103 | The cross product is orthogonal to both operands; it fails exactly for parallel operands (equality in Cauchy-Schwarz) |
| Vectors.CrossOrthogonal | src/primitives/Vector.java:99-103 | The cross-product head is orthogonal to both operands, on all triples |
| Vectors.Lagrange | src/primitives/Vector.java:99-103 | Lagrange's identity: squared length of v x w = squared lengths multiplied, minus (v . w)^2 |
| Vectors.CrossZero | src/primitives/Vector.java:99-103 | The cross-product head is zero exactly for parallel vectors |
| Vectors.TripleProduct | src/primitives/Vector.java:88-103 | The triple product of three offsets from o is the triple product of the edges from a with a - o |
| Vectors.UnitOf | src/primitives/Vector.java:128-141 | The unit vector along v, scaled back by v's length, is v |
| Vectors.UnitLength | src/primitives/Vector.java:128-132 | Dividing each coordinate by the length gives a non-zero vector of length 1 that scales back to v |
| Vectors.UnitOfUnit | src/primitives/Vector.java:128-141 | Normalizing a unit vector leaves it unchanged |
| Vectors.CrossParallelFails | src/primitives/Vector.java:99-103 | Crossing a vector with any non-zero multiple of itself fails |
| Vectors.DotSymmetric | src/primitives/Vector.java:88-91 | The dot product does not depend on the order of its operands |
| Vectors.Dot | src/primitives/Vector.java:88-91 | No contract of its own: its symmetry, distribution over sums and the test value are stated by DotSymmetric, DotDistributes and DotExample |
| Vectors.DotDistributes | src/primitives/Vector.java:88-91 | The dot product distributes over a sum |
| Vectors.CauchySchwarz | src/primitives/Vector.java:88-91 | For a unit d, (d . u)^2 is at most u . u |
| Vectors.OffsetLength | src/primitives/Point3D.java:112-114 | The length of the offset between two distinct points is their distance |
| Vectors.UnitOrthogonal | src/primitives/Vector.java:128-141 | Normalizing keeps a vector orthogonal to whatever it was orthogonal to |
| Vectors.CrossSwap | src/primitives/Vector.java:99-103 | Swapping the operands negates the cross product |
| Vectors.UnitOfNegated | src/primitives/Vector.java:128-141 | The unit vector along -v is minus the unit vector along v |
| Vectors.LengthExample | src/unittests/primitives/VectorTest.java:148 | lengthSquared of (1,2,3) is 14 |
| Vectors.DotExample | src/unittests/primitives/VectorTest.java:104 | (1,2,3) . (4,5,6) = 32 |
| Vectors.ScaleZeroExample | src/unittests/primitives/VectorTest.java:90-91 | scale(0) is refused |
| Vectors.CrossExample | src/unittests/primitives/VectorTest.java:137-139 | The cross product of (1,2,3) and (-2,-4,-6) is refused |
| Vectors.VectorObject.constructor | src/primitives/Vector.java:36-41 | The object holds the given head |
| Vectors.VectorObject.Normalize | src/primitives/Vector.java:128-132 | normalize() overwrites the head with the unit vector along the old head, of length 1, and returns the same object |
| Vectors.VectorObject.Normalized | src/primitives/Vector.java:139-141 | normalized() returns a fresh object holding the unit vector along the head; the receiver is left unchanged |
| Rays.NewRay | src/primitives/Ray.java:24-27 | The ray keeps its origin; its direction, scaled by the argument's length, gives the argument back |
| Rays.GetPoint | src/primitives/Ray.java:53-55 | getPoint(t) fails exactly for t == 0; otherwise it lies at offset t * direction, at squared distance t^2 from the origin |
| Rays.DistanceAlong | src/primitives/Ray.java:53-55 | A step of t != 0 along the unit direction covers a squared distance of t^2 |
| Rays.GetPointAt | src/primitives/Ray.java:53-55 | For t != 0, getPoint(t) is origin + t * direction |
| Rays.DotAlong | src/primitives/Ray.java:53-55 | Along a ray, the projection of the offset from a fixed point changes linearly in t |
| Rays.Equals | src/primitives/Ray.java:80-88 | Rays are equal exactly when their origins and directions are equal |
| Rays.FindClosestPoint | src/primitives/Ray.java:63-77 | null for a null list, and for a list (the empty one included) with no point nearer than Double.MAX_VALUE; otherwise an element of the list that no element is strictly nearer than, and the first such element |
| Colors.Reduce | src/renderer/Render.java:281 | reduce(k) is taken to refuse k == 0 (an assumption, see Left out); otherwise scaling the result back by k gives the colour |
| Colors.AddLaws | src/renderer/BasicRayTracer.java:68 | BLACK is neutral for add, and add is commutative |
| Colors.ReduceScale | src/renderer/Render.java:281 | Reducing a colour scaled by k != 0 by k gives the colour back |
| Colors.SumConstant | src/renderer/Render.java:277-281 | The sum of n copies of a colour is the colour scaled by n |
| Materials.Material.constructor | src/primitives/Material.java:33-37 | The three arguments are stored unchanged |
| Materials.Material.Default | src/primitives/Material.java:42-44 | kD, kS and nShininess all start at 0 |
| Materials.Material.SetKD | src/primitives/Material.java:51-54 | Only kD changes, to a whole number; the same object is returned |
| Materials.Material.SetKS | src/primitives/Material.java:61-64 | Only kS changes, to a whole number; the same object is returned |
| Materials.Material.SetShininess | src/primitives/Material.java:71-74 | Only nShininess changes; the same object is returned |
| Geometries.Geometry.constructor | src/geometries/Geometry.java:20-25 | A new geometry emits BLACK and owns a fresh all-zero material |
| Geometries.Geometry.SetEmission | src/geometries/Geometry.java:51-54 | Only the emission changes; the same object is returned |
| Geometries.Geometry.SetMaterial | src/geometries/Geometry.java:62-65 | The geometry now refers to the caller's material object itself; the emission is kept |
| Geometries.Join | src/geometries/Geometries.java:66-79 | One gathering step: null only if both are null; the points are the accumulated ones followed by the new ones |
| Geometries.GatheredMeaning | src/geometries/Geometries.java:59-81 | The gathered result is null exactly when every member returned null; otherwise it lists all members' points in member order |
| Geometries.AllPointsSnoc | src/geometries/Geometries.java:66-79 | A member queried last contributes its points at the end |
| Geometries.GatheredAppend | src/geometries/Geometries.java:59-81 | Gathering over two runs of members joins their two gathered results |
| Geometries.JoinAssociative | src/geometries/Geometries.java:66-79 | The gathering step is associative |
| Geometries.GatheredNeverEmpty | src/geometries/Geometries.java:59-81 | The result is never an empty list unless some member returned one |
| Geometries.AddedMembersAfter | src/geometries/Geometries.java:48-81 | After add, the composite reports the old members' points followed by those of the new members |
| Geometries.Geometries.Empty | src/geometries/Geometries.java:26-28 | The default constructor leaves the list null |
| Geometries.Geometries.constructor | src/geometries/Geometries.java:35-37 | The list is exactly the given members |
| Geometries.Geometries.Add | src/geometries/Geometries.java:48-56 | A null list becomes the arguments; an existing list keeps its members and gets the arguments after them, in order |
| Geometries.Geometries.FindIntersections | src/geometries/Geometries.java:59-81 | null without a list; otherwise the gathered results of all members, in order |
| Planes.PlaneFromPoints | src/geometries/Plane.java:29-32 | Fails exactly for collinear points; otherwise the normal is a unit vector and all three points lie on the plane |
| Planes.PlaneFromNormal | src/geometries/Plane.java:40-43 | The normal is stored as given, not normalized, and the origin lies on the plane |
| Planes.GetNormal | src/geometries/Plane.java:64-66 | Whatever the point, the normal is orthogonal to every segment within the plane |
| Planes.InPlaneOrthogonal | src/geometries/Plane.java:64-66 | The stored normal is orthogonal to every segment within the plane |
| Planes.PlaneIntersections | src/geometries/Plane.java:74-88 | A result is one point, on the plane, at a positive parameter within maxDistance |
| Planes.HitOnPlane | src/geometries/Plane.java:77-83 | The point at t = n.(q - o) / (n.d) lies on the plane |
| Planes.HitUnique | src/geometries/Plane.java:77-83 | A non-parallel ray meets the plane at that parameter only |
| Planes.PlaneIntersectionsComplete | src/geometries/Plane.java:74-88 | Every point of the plane at a positive parameter within maxDistance is reported, and it alone |
| Planes.ParallelMisses | src/geometries/Plane.java:79-81 | A ray parallel to the plane yields null |
| Planes.OriginOnPlaneMisses | src/geometries/Plane.java:75-87 | A ray starting on the plane yields null, at the plane's own point (caught exception) and everywhere else |
| Triangles.TriangleNormal | src/geometries/Triangle.java:31-33 | Fails exactly for collinear vertices; otherwise a unit vector orthogonal to both edges, for every point |
| Triangles.TriangleIntersections | src/geometries/Triangle.java:36-56 | Any reported hit is the single hit of the supporting plane, with no bound |
| Triangles.TriangleMatchesReference | src/geometries/Triangle.java:36-56 | For a proper triangle nothing fails, and the result is the plane hit kept when the three edge projections share a strict sign |
| Triangles.OffPlaneTriple | src/geometries/Triangle.java:43-50 | Seen from a point off the plane, the three vertices span a non-zero volume |
| Triangles.CrossesNonZero | src/geometries/Triangle.java:43-48 | A non-zero triple product leaves none of the three edge cross products zero, so no normalize fails |
| Triangles.SignOfUnit | src/geometries/Triangle.java:46-52 | Normalizing an edge normal does not change the sign of a projection on it |
| Triangles.WindingInvariant | src/geometries/Triangle.java:43-53 | Reversing the vertex order changes neither properness nor any ray's result: both windings are accepted |
| Triangles.SideSwap | src/geometries/Triangle.java:43-50 | Reversing an edge flips the side a point lies on |
| Triangles.NegatedNormalSameHits | src/geometries/Plane.java:74-88 | A plane with the opposite normal is hit at the same points |
| Triangles.EdgeMisses | src/geometries/Triangle.java:52 | A plane hit on the line of an edge (through an edge, a vertex or past a corner) yields null |
| Triangles.EdgeLineSide | src/geometries/Triangle.java:43-52 | A point on an edge's line has projection zero on that edge's normal |
| Spheres.SphereNormal | src/geometries/Sphere.java:53-55 | Fails exactly at the centre; otherwise a unit vector that, scaled by the distance, leads from the centre to the point |
| Spheres.NormalOutward | src/geometries/Sphere.java:53-55 | On a sphere of positive radius, radius times the normal leads from the centre to the point |
| Spheres.NotCenter | src/geometries/Sphere.java:53-55 | No point of a sphere of positive radius is its centre |
| Spheres.RadiusDistance | src/geometries/Sphere.java:63-106 | Every point of the sphere is at distance radius from the centre |
| Spheres.SphereIntersections | src/geometries/Sphere.java:63-106 | Fails only for a zero radius at a centre origin; from the centre, one point at parameter radius, whatever the bound; at most two points |
| Spheres.IntersectionsAtCrossings | src/geometries/Sphere.java:72-106 | Away from the centre, the points are those at tM - tH and tM + tH that are positive and within the bound, or null when there are none |
| Spheres.CrossingsOnSphere | src/geometries/Sphere.java:89-105 | Every point reported lies on the sphere, at a reported parameter; of two, the one at the smaller parameter comes first |
| Spheres.CrossingsComplete | src/geometries/Sphere.java:72-106 | Off a tangent line, every point of the sphere on the ray at a positive parameter within the bound is reported |
| Spheres.NearerFirst | src/geometries/Sphere.java:89-105 | Of two points, the first is nearer to the ray's origin |
| Spheres.InsideOneHit | src/geometries/Sphere.java:63-106 | A ray starting strictly inside, at the centre or elsewhere, meets the sphere exactly once with no bound |
| Spheres.AwayMisses | src/geometries/Sphere.java:89-105 | A ray starting on or outside the sphere and not heading towards the centre yields null |
| Spheres.TangentMisses | src/geometries/Sphere.java:83-85 | A tangent ray yields null |
| Tubes.RadialOrthogonal | src/geometries/Tube.java:52-59 | The offset from the axis foot is orthogonal to the axis direction |
| Tubes.TubeNormal | src/geometries/Tube.java:52-59 | Fails exactly for a point on the axis; otherwise a unit vector orthogonal to the axis that, scaled by the distance to the axis, is the offset from the axis |
| Tubes.RadialNormal | src/geometries/Tube.java:53-58 | Normalizing the radial offset gives a unit vector orthogonal to the axis that scales back to the offset |
| Tubes.TubeNormalOutward | src/geometries/Tube.java:52-59 | On a tube of positive radius every surface point has a normal, and radius times it leads from the axis to the point |
| Tubes.TubeIntersections | src/geometries/Tube.java:67-70 | The stub reports null for every ray and bound |
| Tubes.TopOffset | src/geometries/Cylinder.java:40-44 | The offset from the top cap's plane is the projection parameter less the height |
| Tubes.CylinderNormalAsWritten | src/geometries/Cylinder.java:39-48 | As written: fails for height 0, and at the centre of either cap |
| Tubes.CylinderNormal | src/geometries/Cylinder.java:39-48 | Corrected: fails exactly for height 0 or a side point on the axis; otherwise a unit vector |
| Tubes.CylinderNormalRegions | src/geometries/Cylinder.java:39-48 | dir on the bottom cap's plane; -dir on the top cap's plane; the tube normal elsewhere; bottom tested first |
| Tubes.CylinderNormalAgrees | src/geometries/Cylinder.java:39-48 | Wherever the Java code gives a normal the corrected one is the same; they differ only at the cap centres |
| Tubes.CapCentres | src/geometries/Cylinder.java:39-48 | At the cap centres the Java code fails, and the corrected normal is dir at the bottom and -dir at the top |
| Lights.PointIntensity | src/elements/PointLight.java:89-92 | Fails when kC + kL d + kQ d^2 is zero, by the assumed refusal of reduce(0); otherwise scaling the result back by it gives the base intensity |
| Lights.DefaultUnattenuated | src/elements/PointLight.java:51-53 | With the default coefficients a point light is equally bright at every distance |
| Lights.DenominatorMonotone | src/elements/PointLight.java:90-91 | With kL, kQ >= 0 the attenuation never decreases as the distance grows |
| Lights.FartherDimmer | src/elements/PointLight.java:89-92 | With kC > 0, kL, kQ >= 0 and a non-negative intensity, a farther point is no brighter, channel by channel |
| Lights.GetL | src/elements/PointLight.java:95-100 | Point or spot light: null exactly at the position, otherwise the unit vector from the light to p. Directional: the stored direction at every point |
| Lights.GetDistance | src/elements/PointLight.java:103-105 | Non-negative and zero exactly at the light for point and spot lights; infinite exactly for a directional light |
| Lights.DistanceZero | src/elements/PointLight.java:103-105 | The distance is zero exactly between equal points |
| Lights.Intensity | src/elements/SpotLight.java:57-68 | Point: attenuated. Directional: constant. Spot: fails exactly at its position; zero projection gives BLACK; otherwise the point intensity scaled by the clamped factor |
| Lights.SpotScaled | src/elements/SpotLight.java:62-67 | Scaling the point intensity by the spot factor fails only where the assumed reduce refuses a zero divisor |
| Lights.SpotProjection | src/elements/SpotLight.java:58-62 | The projection on getL(p) has the sign of the projection on p - position |
| Lights.SpotFactor | src/elements/SpotLight.java:63-66 | Non-negative for a lawful Math.pow; with concentration 1 a non-negative projection is the factor itself |
| Lights.SpotBehindBlack | src/elements/SpotLight.java:62-67 | With concentration 1, a point behind the light gets BLACK |
| Lights.SpotNoBrighter | src/elements/SpotLight.java:57-68 | With concentration 1, a spot light is never brighter than the point light in its place |
| Lights.NewDirectionalLight | src/elements/DirectionalLight.java:26-29 | The intensity is kept and the direction is stored normalized |
| Lights.PointLight.constructor | src/elements/PointLight.java:34-40 | Intensity, position and all three coefficients are stored; no aim |
| Lights.PointLight.Plain | src/elements/PointLight.java:51-53 | kC = 1, kL = 0, kQ = 0 |
| Lights.PointLight.Spot | src/elements/SpotLight.java:38-43 | The coefficients and concentration are stored; the aim is normalized |
| Lights.PointLight.PlainSpot | src/elements/SpotLight.java:52-54 | Default attenuation, concentration 1, normalized aim |
| Lights.PointLight.SetKC | src/elements/PointLight.java:61-64 | Only kC changes; the same light is returned |
| Lights.PointLight.SetKL | src/elements/PointLight.java:72-75 | Only kL changes; the same light is returned |
| Lights.PointLight.SetKQ | src/elements/PointLight.java:83-86 | Only kQ changes; the same light is returned |
| Cameras.OffsetsAntisymmetric | src/elements/Camera.java:117-120 | Column j and column nX-1-j have opposite offsets, and likewise rows |
| Cameras.MiddleOffsetZero | src/elements/Camera.java:117-120 | The middle column and row of an odd grid have offset zero |
| Cameras.Camera.constructor | src/elements/Camera.java:35-43 | vUp and vTo normalized, vRight the normalized vTo x vUp; the frame is orthonormal; width, height, distance 0 |
| Cameras.Camera.SetViewPlaneSize | src/elements/Camera.java:88-92 | Only width and height change; the same camera is returned |
| Cameras.Camera.SetDistance | src/elements/Camera.java:100-103 | Only the distance changes; the same camera is returned |
| Cameras.Camera.ConstructRayThroughPixel | src/elements/Camera.java:115-130 | Fails exactly while the distance is 0; otherwise a ray from the camera origin through the pixel centre, zero offsets skipped |
| Cameras.Camera.MiddleRay | src/elements/Camera.java:115-130 | The middle pixel of an odd grid gets the ray straight along vTo |
| Cameras.CrossOfOrthogonal | src/elements/Camera.java:40-42 | Orthogonal vectors have a cross product |
| Cameras.UnitsOrthogonal | src/elements/Camera.java:40-42 | Normalizing two orthogonal vectors keeps them orthogonal |
| Cameras.PixelAhead | src/elements/Camera.java:116-129 | A pixel point projects on vTo to the distance, so it is never the origin |
| Cameras.NewCamera | src/elements/Camera.java:35-43 | Fails with "The vectors are not orthogonal." exactly when up . to != 0; otherwise a fresh orthonormal camera with up and to normalized, right the normalized to x up, and width, height and distance 0 |
| Scenes.AmbientLight | src/elements/AmbientLight.java:16-28 | Factor 1 keeps the intensity, factor 0 gives BLACK |
| Scenes.Scene.constructor | src/scene/Scene.java:45-50 | Name kept, BLACK background, ambient (192,192,192) with factor 1, fresh composite with a null list, distance 0 |
| Scenes.Scene.SetBackground | src/scene/Scene.java:69-72 | Only the background changes; the same scene is returned |
| Scenes.Scene.SetAmbientLight | src/scene/Scene.java:77-80 | Only the ambient light changes; the same scene is returned |
| Scenes.Scene.SetDistance | src/scene/Scene.java:85-88 | Only the distance changes; the same scene is returned |
| Scenes.Scene.AddGeometries | src/scene/Scene.java:95-98 | The new members follow the existing ones in the composite, in argument order |
| Tracer.NudgeSide | src/renderer/BasicRayTracer.java:74-75 | The moved point lies strictly on the side the normal agrees with, and strictly on the other side otherwise |
| Tracer.ReflectionLaws | src/renderer/BasicRayTracer.java:213-221 | v - 2(v.n)n flips the normal component, keeps the length, and mirroring twice gives v |
| Tracer.ReflectionNonZero | src/renderer/BasicRayTracer.java:219 | Mirroring a non-zero vector in a unit normal never gives zero |
| Tracer.MirrorSteps | src/renderer/BasicRayTracer.java:219 | scale(2 v.n) fails exactly when v.n == 0; for a unit normal the subtraction yields the reflection |
| Tracer.ConstructReflectedRay | src/renderer/BasicRayTracer.java:213-221 | null exactly when v.n == 0; never fails for a unit normal; the ray starts at the point along the mirrored direction |
| Tracer.ReflectedRayMirrors | src/renderer/BasicRayTracer.java:213-221 | With a unit normal and v.n != 0, the reflected direction makes the opposite angle with the normal |
| Tracer.DiffusiveBounded | src/renderer/BasicRayTracer.java:175-178 | kd |l.n| times the intensity is non-negative and no brighter than kd times the intensity |
| Tracer.Diffusive | src/renderer/BasicRayTracer.java:175-178 | For kD >= 0 and a non-negative intensity the diffuse term is non-negative; kD == 0 gives BLACK |
| Tracer.UnitProjection | src/renderer/BasicRayTracer.java:176 | |l.n| <= 1 for unit vectors |
| Tracer.Specular | src/renderer/BasicRayTracer.java:160-164 | Fails when l is tangent to the surface; otherwise the intensity scaled by ks (-(v.r))^n with r the mirrored l |
| Tracer.Unshaded | src/renderer/BasicRayTracer.java:189-203 | The loop over the shadow ray's hits returns exactly the shadow predicate: lit unless some hit is within the light's distance |
| Tracer.IsUnshaded | src/renderer/BasicRayTracer.java:189-203 | No contract of its own: it specifies the loop Unshaded, and DirectionalShadowedByAnyHit and FartherHitDoesNotShadow state what it means |
| Tracer.DirectionalShadowedByAnyHit | src/renderer/BasicRayTracer.java:194-202 | A directional light is shadowed by any hit at all |
| Tracer.FartherHitDoesNotShadow | src/renderer/BasicRayTracer.java:197-200 | A hit farther away than a point or spot light does not shadow it |
| Tracer.LightTerm | src/renderer/BasicRayTracer.java:138-144 | getL null fails (NullPointer); a light that does not light the point adds BLACK |
| Tracer.LitTerm | src/renderer/BasicRayTracer.java:140-144 | A lighting light adds diffuse plus specular, and fails only when its intensity does |
| Tracer.AccumulateSum | src/renderer/BasicRayTracer.java:136-146 | When every term succeeds, the direct light is their sum |
| Tracer.Accumulate | src/renderer/BasicRayTracer.java:136-146 | The loop over the lights yields a colour exactly when every light's term does |
| Tracer.AccumulateFirstFailure | src/renderer/BasicRayTracer.java:136-146 | Otherwise it is the failure of the first failing light |
| Tracer.AccumulateFailKept | src/renderer/BasicRayTracer.java:136-146 | A failure among the first lights is the failure of the whole loop |
| Tracer.AccumulateStep | src/renderer/BasicRayTracer.java:138-144 | One more light: its failure ends the loop, otherwise its term is added to the colour so far |
| Tracer.LocalEffects | src/renderer/BasicRayTracer.java:117-147 | A failing normal fails; n.v == 0 gives BLACK; no lights give BLACK |
| Tracer.AddLight | src/renderer/BasicRayTracer.java:138-144 | One loop step computes that light's term, with short-circuit shadow testing |
| Tracer.CalcLocalEffects | src/renderer/BasicRayTracer.java:117-147 | The loop computes the direct light as specified |
| Tracer.CalcColor | src/renderer/BasicRayTracer.java:63-97 | BLACK beyond level 10 or below k = 0.001 |
| Tracer.ReflectedPart | src/renderer/BasicRayTracer.java:70-83 | No reflection (BLACK) unless k kR > 0.001 |
| Tracer.RefractedPart | src/renderer/BasicRayTracer.java:85-95 | No transparency (BLACK) unless k kT > 0.001 |
| Tracer.DeepestLevelParts | src/renderer/BasicRayTracer.java:63-95 | At level 10 the nested calls run at level 11 and give BLACK, so the transmitted part is BLACK and the reflected part is BLACK or the failure of building the reflected ray |
| Tracer.DeepestLevelColor | src/renderer/BasicRayTracer.java:63-96 | At level 10, with k at least 0.001, a colour that exists is the emission plus the direct light |
| Tracer.MatteColor | src/renderer/BasicRayTracer.java:63-96 | A surface with kR = kT = 0 gets its emission plus the direct light at every level up to 10 with k at least 0.001, and fails exactly when the direct light does |
| Tracer.RefractedRay | src/renderer/BasicRayTracer.java:90 | The transmitted ray goes on in the viewing direction from the moved point |
| Tracer.TraceRay | src/renderer/BasicRayTracer.java:46-54 | No hits gives the background; hits without a closest one fail with NullPointer |
| Tracer.ViewColor | src/renderer/BasicRayTracer.java:106-108 | Adding the ambient light never fails: the colour at a hit exists exactly when calcColor's does |
| Tracer.AmbientOnce | src/renderer/BasicRayTracer.java:106-108 | Raising the ambient light by d raises every hit colour by exactly d and leaves background and failures unchanged |
| Sampling.OffsetCoordinates | src/renderer/Render.java:203-206 | In an orthonormal frame the two steps of an offset are its coordinates |
| Sampling.CornersAsWritten | src/renderer/Render.java:203-206 | As written: the steps down from the top corners are taken by the cell's width |
| Sampling.Corners | src/renderer/Render.java:203-206 | Corrected corners: fail exactly for a zero width or height |
| Sampling.CornersPlaced | src/renderer/Render.java:203-206 | Corrected corners lie half a width to either side and half a height above and below the centre |
| Sampling.QuartersAsWritten | src/renderer/Render.java:248-251 | As written: both vertical steps of the quarter centres use the half width |
| Sampling.Quarters | src/renderer/Render.java:248-251 | Corrected quarter centres: fail exactly for a zero width or height |
| Sampling.QuartersPlaced | src/renderer/Render.java:248-251 | The quarter centres are the centres of the four half-size cells that tile the cell |
| Sampling.CornersOnCell | src/renderer/Render.java:203-206 | The corrected corners lie on the border of the w by h cell |
| Sampling.CameraFrame | src/elements/Camera.java:35-42 | A view taking its right and up directions from an accepted camera has unit, orthogonal right and up directions |
| Sampling.CameraCornersOnCell | src/elements/Camera.java:35-42 | For a view taking its right and up directions from an accepted camera, the corrected corners lie on the border of the w by h cell, with no frame hypothesis left over |
| Sampling.CornersAsWrittenOffCell | src/renderer/Render.java:203-206 | For w = 2, h = 1 the source's bottom corners lie 1.5 below the centre, off the cell |
| Sampling.QuartersAsWrittenOffCell | src/renderer/Render.java:248-251 | For w = 2, h = 1 the source's top-left quarter centre lies 0.5 above the centre instead of 0.25 |
| Sampling.SquareCellsAgree | src/renderer/Render.java:203-251 | On square cells the source's corners and quarter centres are the corrected ones |
| Sampling.Average | src/renderer/Render.java:238 | Four times the average is the sum of the four colours |
| Sampling.AverageBetween | src/renderer/Render.java:238 | The average of bounded colours stays within the bounds; four equal colours average to that colour |
| Sampling.CornerColors | src/renderer/Render.java:210-233 | The corner colours exist exactly when all four corners trace; then the top-left and bottom-right colours are the traced ones |
| Sampling.CornerColorsTraced | src/renderer/Render.java:210-233 | All four colours are the traced ones; the corners are traced top left, top right, bottom left, bottom right, and the first failing trace is the failure |
| Sampling.AdaptiveCases | src/renderer/Render.java:194-259 | Corners fail: failure; level <= 1: the average; equal corners: that colour; otherwise the average of the four quarters one level down |
| Sampling.AdaptiveColor | src/renderer/Render.java:194-259 | No contract of its own: AdaptiveCases states each case, AdaptiveBetween and AdaptiveUniform bound it, and AdaptiveRecursive is proved equal to it |
| Sampling.AdaptiveBetween | src/renderer/Render.java:194-259 | When every traced colour lies within bounds, so does the colour of every cell |
| Sampling.QuartersBetween | src/renderer/Render.java:254-258 | The same bound for the average of the four quarters |
| Sampling.QuartersColor | src/renderer/Render.java:254-258 | No contract of its own: the average of the four quarters one level lower, taken top left, bottom left, top right, bottom right; SampleQuarters is proved equal to it and QuartersBetween bounds it |
| Sampling.AdaptiveUniform | src/renderer/Render.java:242-245 | A view of one colour c gives c for every cell, at every level, with no subdivision |
| Sampling.Sample | src/renderer/Render.java:210-215 | A corner's colour is the traced colour; the memo grows only by it, without overwriting |
| Sampling.SampleCorners | src/renderer/Render.java:210-233 | The four corners through the memo, in source order; no point traced twice |
| Sampling.AdaptiveRecursive | src/renderer/Render.java:194-259 | The memoised recursion computes the adaptive colour; the memo only grows, no entry is overwritten, no point is traced twice |
| Sampling.SampleQuarters | src/renderer/Render.java:254-258 | The four recursive calls in source order give the quarters' average, sharing the memo |
| Sampling.SampleQuarter | src/renderer/Render.java:254-258 | One recursive call continues a stretch of memoised sampling |
| Sampling.AdaptivePixelColor | src/renderer/Render.java:171-179 | Fails when the camera distance is zero; with cells that refuse an empty cell (both the source's and the corrected ones), also when the width or height is zero |
| Sampling.GetAdaptiveSupersamplingColor | src/renderer/Render.java:171-179 | Starting with an empty memo and the source's cells (SourceCells) gives the adaptive pixel colour as written |
| Sampling.SourceCellsSquare | src/renderer/Render.java:203-251 | The source's cells and the corrected ones agree on every square cell |
| Sampling.SquareCellColor | src/renderer/Render.java:194-259 | Two ways of splitting cells that agree on squares give a square cell the same colour at every level |
| Sampling.SquareQuartersColor | src/renderer/Render.java:254-258 | The same for the average of the four quarters of a square cell |
| Sampling.QuartersSame | src/renderer/Render.java:254-258 | Quarters whose four colours agree give the same average or the same first failure |
| Sampling.SquarePixelColor | src/renderer/Render.java:171-179 | For square pixels the as-written adaptive colour is the corrected one: the misplaced corners only matter for pixels that are not square |
| Sampling.TraceSumAllOk | src/renderer/Render.java:277-279 | When every ray traces, the sum is the sum of the traced colours |
| Sampling.TraceSum | src/renderer/Render.java:277-279 | The sum of the traced colours exists exactly when every ray traces |
| Sampling.SupersampledColor | src/renderer/Render.java:268-282 | No rays fails, by the assumed refusal of reduce(0); a colour implies the rays exist and their traced sum is the colour times their number |
| Sampling.SupersampledUniform | src/renderer/Render.java:268-282 | When every ray sees c, the pixel is c |
| Sampling.GetSupersamplingColor | src/renderer/Render.java:268-282 | The accumulating loop gives the supersampled colour |
| Sampling.FailureKept | src/renderer/Render.java:277-279 | A failing prefix sum fails the whole sum with the same failure |
| Rendering.ImageWriter.WritePixel | src/renderer/Render.java:148 | That pixel takes the colour; every other pixel is unchanged; the write is logged |
| Rendering.PixelColor | src/renderer/Render.java:133-148 | A failed pixel ray fails; in mode NONE the colour is traceRay of the pixel ray; mode ADAPTIVE samples the source's cells |
| Rendering.RowWritesOnce | src/renderer/Render.java:130-150 | A row writes exactly its computable pixels, each once |
| Rendering.GridWritesOnce | src/renderer/Render.java:129-152 | Every computable pixel of the grid is written exactly once per render, nothing else |
| Rendering.UniformImage | src/renderer/Render.java:133-148 | When every ray traces to c, every coloured pixel is c, in every mode |
| Rendering.Render.constructor | src/renderer/Render.java:41-51 | ADAPTIVE, grid size 9, maximum level 3; no writer, no tracer |
| Rendering.Render.MissingResource | src/renderer/Render.java:109-121 | The first missing resource, checked as writer, tracer, scene, camera; None exactly when all are there |
| Rendering.Render.RenderImage | src/renderer/Render.java:107-163 | Fails with the first missing resource, nothing written; otherwise every computable pixel written once with its colour, others kept |
| Rendering.Render.RenderRow | src/renderer/Render.java:130-150 | One row's pixels are written left to right with their colours |
| Rendering.Render.PixelTask | src/renderer/Render.java:133-148 | One task computes the pixel's colour by its mode |
| Rendering.Render.WriteToImage | src/renderer/Render.java:68-76 | Refused exactly without an image writer |
| Rendering.Render.PrintGrid | src/renderer/Render.java:291-307 | Refused without a writer; interval 0 fails and writes nothing; otherwise only grid-line pixels take the colour |
| Rendering.Render.SetImageWriter | src/renderer/Render.java:315-318 | Only the image writer changes; the same renderer is returned |
| Rendering.Render.SetRayTracer | src/renderer/Render.java:326-329 | Only the ray tracer changes; the same renderer is returned |
| Rendering.Render.SetSupersamplingType | src/renderer/Render.java:337-340 | Only the mode changes; the same renderer is returned |
| Rendering.Render.SetSupersamplingGridSize | src/renderer/Render.java:348-351 | Only the grid size changes; the same renderer is returned |
| Rendering.Render.SetAdaptiveMaxRecursionLevel | src/renderer/Render.java:359-362 | Only the adaptive depth changes; the same renderer is returned |

## Left out

- Floating point: coordinates and colours are reals, so rounding is not modelled. The tolerance tests `isZero`/`alignZero` and the epsilon equality of coordinates become exact comparisons with zero; Util and Coordinate are not part of this model.
- `Math.sqrt` and `Math.pow` are the parameter `m`, constrained only by the laws in `Lawful(m)`.
- Colors.Reduce: Color is not part of this model; here it is a triple of real channels with add, scale and reduce. That reduce(0) fails with Arithmetic is an assumption about the unseen Color.reduce: Java's double division does not throw, and the infinities or NaN it would give have no real counterpart. Lights.PointIntensity, Lights.SpotScaled and Sampling.SupersampledColor fail at a zero divisor only through this assumption.
- Polygon, Triangle's superclass, is not part of this model. The triangle's supporting plane is taken to be the plane through its three vertices, and no constructor validation of Polygon is modelled.
- Thread pool and timing in `renderImage`: the pixel tasks run sequentially, row by row. A task that throws is dropped by `invokeAll`, so its pixel is left unwritten; the model writes no pixel whose colour fails. InterruptedException is not modelled.
- Image output (`writeToImage`'s file writing and opening the file) and ImageWriter's internals are not part of this model. The sink is an nX by nY array of colours with a log of the writes made to it.
- Members that the renderer and tracer call but that the classes here do not declare are parameters:
  - `findGeoIntersections` with a bound, `findClosestGeoPoint` and GeoPoint;
  - `Material.kR`/`kT` and `scene.lights`;
  - `Scene.getCamera`;
  - Camera's `getDistance`, `getWidth`, `getHeight`, `constructRayThroughPoint` and `getSupersamplingRays`.
- Sampling.View: the renderer's camera is a free value of this type and its tracer a free `Rendering.TracerView`. Nothing builds a View from a `Cameras.Camera`, and `TracerView.traceRay` is not tied to `Tracer.TraceRay`; the render properties therefore hold for every camera and every tracer. The orthonormal frame that CornersPlaced, QuartersPlaced and CornersOnCell assume is a hypothesis of those lemmas; CameraFrame and CameraCornersOnCell show that a camera accepted by the constructor or `NewCamera` (`Cameras.Camera.Orthonormal()` with unit directions) meets it.
- The shape classes are separate value types. The Intersectable, LightSource, Light and RayTracerBase interfaces and their dynamic dispatch are not modelled; the tracer takes the geometry queries as function fields.
- Triangles.TriangleIntersections returns hit points only. In the source the GeoPoint of a triangle hit is built by the temporary Plane that findGeoIntersections creates (src/geometries/Triangle.java:37-42,53 and src/geometries/Plane.java:82), so the hit names that plane, and it is shaded with the plane's emission (black) and fresh all-zero material rather than the triangle's. The model does not pair triangle hits with a geometry, so it does not reproduce this.
- `Plane(origin, normal)` stores the caller's Vector object by reference. Vectors are values here, so a later `normalize()` on that object reaching the plane is not modelled.
- Tracer.CalcColor: states only the stopping rule. Below it the colour is the sum of the emission, LocalEffects, ReflectedPart and RefractedPart; DeepestLevelColor gives that sum at the deepest level and MatteColor for a surface that neither reflects nor transmits, but no lemma gives it for a general scene.
- Tracer.ReflectedPart: states only the threshold (BLACK unless k kR > 0.001) and, through DeepestLevelParts, the deepest level. Above the threshold the part is kR times the colour one level deeper, with coefficient k kR, at the closest hit of the mirrored ray, or BLACK when that ray is null or hits nothing; no contract or lemma states this value, because unfolding the part next to the product of k and the coefficient leaves the solver with nonlinear real arithmetic it does not settle within the resource limit.
- Tracer.RefractedPart: states only the threshold (BLACK unless k kT > 0.001) and, through DeepestLevelParts, the deepest level. Above the threshold the part is kT times the colour one level deeper, with coefficient k kT, at the closest hit of the transmitted ray, or BLACK when it hits nothing; no contract or lemma states this value, because unfolding the part next to the product of k and the coefficient leaves the solver with nonlinear real arithmetic it does not settle within the resource limit.
- Tracer.Specular: the power `(-v.r)^n` is not clamped at zero, as in the source; no bound is proved for it.
- Sampling.AdaptivePixelColor: states only its failure cases; its value is AdaptiveColor on the pixel's cell, and AdaptiveBetween, AdaptiveUniform, AdaptiveCases and SquarePixelColor say what that is. The renderer passes the source's cells (SourceCells); the corrected cells (PixelCells) give the intended colour, and the two agree on square pixels.
- Rendering.PixelColor: states only the failure case and mode NONE directly; the other two modes are AdaptivePixelColor and SupersampledColor, described by their own lemmas.
- getters, `toString`, `hashCode` and the Java `equals` of objects other than points and rays are not modelled.

## Findings

| source | as written | input that shows it | evidently intended | confidence | as-written member | corrected member |
|---|---|---|---|---|---|---|
| src/geometries/Cylinder.java:39-48 | The cap tests compute `point.subtract(axis.getOrigin())` and `point.subtract(p2)`, which throw for the zero vector | The centre of either cap, e.g. point == axis origin with height != 0 | The cap centre lies on the cap, so its normal is dir at the bottom and -dir at the top | not executed | Tubes.CylinderNormalAsWritten, Tubes.CapCentres | Tubes.CylinderNormal, Tubes.CylinderNormalRegions |
| src/renderer/Render.java:203-206 | The bottom corners are found by stepping down by `cellWidth` from the top ones | A pixel cell of width 2 and height 1: the bottom-left corner is 1.5 below the centre, off the cell | Step down by `cellHeight`, so the corners lie on the w by h cell | not executed | Sampling.CornersAsWritten, Sampling.CornersAsWrittenOffCell | Sampling.Corners, Sampling.CornersOnCell |
| src/renderer/Render.java:248-251 | The quarter centres are offset vertically by `halfCellWidth / 2` and `halfCellWidth` | A cell of width 2 and height 1: the top-left quarter centre is 0.5 above the centre instead of 0.25 | Vertical offsets by a quarter and a half of the cell height, so the quarters tile the cell | not executed | Sampling.QuartersAsWritten, Sampling.QuartersAsWrittenOffCell | Sampling.Quarters, Sampling.QuartersPlaced |
