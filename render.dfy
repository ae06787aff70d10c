/**
 * src/renderer/Render.java: checks that every resource a render needs is
 * there, then colours every pixel of the image writer's grid, in one of three
 * sampling modes; draws a debug grid over the image; and holds the render
 * configuration behind chained setters.
 *
 * The pixel tasks the source hands to a thread pool are run here one after
 * another, row by row. A task that raises an exception is dropped by the pool
 * and so leaves its pixel unwritten; here, a pixel whose colour fails is not
 * written. The image writer is not part of this model: it is an nX by nY grid
 * of colours together with the log of the writes made to it.
 */
module Rendering {
  import opened Wrappers
  import opened Rays
  import Colors
  import opened Sampling

  /** Render.SUPERSAMPLING_TYPE. */
  datatype SupersamplingType = NONE | SUPERSAMPLING | ADAPTIVE

  /** The scene as the renderer reaches it: through its camera, which may be
    * missing. */
  datatype SceneView = SceneView(camera: Option<View>)

  /** The ray tracer as the renderer reaches it: its scene, which may be
    * missing, and traceRay. */
  datatype TracerView = TracerView(scene: Option<SceneView>, traceRay: Tracing)

  /** The pixel sink: a grid of nX by nY colours, pixel (col, row) at
    * pixels[col, row], and the ghost log of every write made to it. */
  class ImageWriter {
    const nX: int
    const nY: int
    const pixels: array2<Colors.Color>
    ghost var writes: seq<(int, int)>

    ghost predicate Valid()
      reads this
    {
      0 <= nX && 0 <= nY && pixels.Length0 == nX && pixels.Length1 == nY
    }

    /** A blank image of nX by nY pixels, nothing written yet. */
    constructor (width: nat, height: nat)
      ensures Valid() && nX == width && nY == height && fresh(pixels)
      ensures writes == []
    {
      nX, nY := width, height;
      pixels := new Colors.Color[width, height]((_, _) => Colors.BLACK);
      writes := [];
    }

    /** writePixel(x, y, color): pixel (x, y) takes the colour; every other
      * pixel keeps its own; the write is logged. */
    method WritePixel(x: int, y: int, color: Colors.Color)
      requires Valid() && 0 <= x < nX && 0 <= y < nY
      modifies this, pixels
      ensures Valid()
      ensures pixels[x, y] == color
      ensures forall a, b :: 0 <= a < nX && 0 <= b < nY && (a, b) != (x, y) ==> pixels[a, b] == old(pixels[a, b])
      ensures writes == old(writes) + [(x, y)]
    {
      pixels[x, y] := color;
      writes := writes + [(x, y)];
    }
  }

  /** What one render pass needs, once its resources have been found. */
  datatype Job = Job(camera: View, trace: Tracing, mode: SupersamplingType,
                     gridSize: int, maxLevel: int, nX: int, nY: int)

  /** The colour of pixel (col, row), as the pixel's task computes it: the
    * camera's ray through the pixel, then adaptive supersampling (with the
    * source's cells), supersampling or a single trace, according to the
    * mode. */
  function PixelColor(job: Job, col: int, row: int): (r: Result<Colors.Color>)
    requires 0 < job.nX && 0 < job.nY
    ensures job.camera.rayThroughPixel(job.nX, job.nY, col, row).Fail? ==> r.Fail?
    ensures job.mode == NONE && job.camera.rayThroughPixel(job.nX, job.nY, col, row).Ok? ==>
      r == job.trace(job.camera.rayThroughPixel(job.nX, job.nY, col, row).value)
  {
    var ray :- job.camera.rayThroughPixel(job.nX, job.nY, col, row);
    match job.mode
    case ADAPTIVE => AdaptivePixelColor(job.camera, SourceCells(job.camera), job.trace, job.nX, job.nY, job.maxLevel, ray)
    case SUPERSAMPLING => SupersampledColor(job.camera, job.trace, job.nX, job.nY, job.gridSize, ray)
    case NONE => job.trace(ray)
  }

  /** Whether the task of pixel (col, row) writes it. */
  predicate Writes(job: Job, col: int, row: int)
  {
    0 < job.nX && 0 < job.nY && PixelColor(job, col, row).Ok?
  }

  /** The writes of the tasks of pixels 0 to cols - 1 of the given row, in
    * order. */
  function RowWrites(job: Job, row: int, cols: int): seq<(int, int)>
    decreases cols
  {
    if cols <= 0 then []
    else RowWrites(job, row, cols - 1) + (if Writes(job, cols - 1, row) then [(cols - 1, row)] else [])
  }

  /** The writes of the tasks of rows 0 to rows - 1, row by row. */
  function GridWrites(job: Job, rows: int): seq<(int, int)>
    decreases rows
  {
    if rows <= 0 then []
    else GridWrites(job, rows - 1) + RowWrites(job, rows - 1, job.nX)
  }

  /** A row's writes are exactly its written pixels left of cols, each once. */
  lemma {:induction false} RowWritesOnce(job: Job, row: int, cols: int)
    ensures forall a, b :: (a, b) in RowWrites(job, row, cols) <==> b == row && 0 <= a < cols && Writes(job, a, b)
    ensures forall p, q :: 0 <= p < q < |RowWrites(job, row, cols)| ==> RowWrites(job, row, cols)[p] != RowWrites(job, row, cols)[q]
    decreases cols
  {
    if cols > 0 {
      RowWritesOnce(job, row, cols - 1);
    }
  }

  /** Every pixel of the grid whose colour can be computed is written exactly
    * once per render, and nothing else is written. */
  lemma {:induction false} GridWritesOnce(job: Job, rows: int)
    ensures forall a, b :: (a, b) in GridWrites(job, rows) <==> 0 <= b < rows && 0 <= a < job.nX && Writes(job, a, b)
    ensures forall p, q :: 0 <= p < q < |GridWrites(job, rows)| ==> GridWrites(job, rows)[p] != GridWrites(job, rows)[q]
    decreases rows
  {
    if rows > 0 {
      GridWritesOnce(job, rows - 1);
      RowWritesOnce(job, rows - 1, job.nX);
      var front := GridWrites(job, rows - 1);
      var last := RowWrites(job, rows - 1, job.nX);
      var all := front + last;
      forall p, q | 0 <= p < q < |all|
        ensures all[p] != all[q]
      {
        if q < |front| {
          assert all[p] == front[p] && all[q] == front[q];
        } else if p >= |front| {
          assert all[p] == last[p - |front|] && all[q] == last[q - |front|];
        } else {
          var x, y := front[p], last[q - |front|];
          assert x == (x.0, x.1) && y == (y.0, y.1);
          // the membership facts above are keyed on Writes
          assert Writes(job, x.0, x.1) || !Writes(job, x.0, x.1);
          assert Writes(job, y.0, y.1) || !Writes(job, y.0, y.1);
          assert x.1 < rows - 1 && y.1 == rows - 1;
          assert all[p] == x && all[q] == y;
        }
      }
    }
  }

  /** A scene that looks the same everywhere: when every ray traces to c and
    * the camera can aim through every point, every pixel that is coloured at
    * all, in every mode, is coloured c. */
  lemma UniformImage(job: Job, col: int, row: int, c: Colors.Color)
    requires 0 < job.nX && 0 < job.nY
    requires forall ray :: job.trace(ray) == Ok(c)
    requires forall p :: job.camera.rayThroughPoint(p).Ok?
    ensures PixelColor(job, col, row).Ok? ==> PixelColor(job, col, row).value == c
  {
    var v := job.camera;
    var ray := v.rayThroughPixel(job.nX, job.nY, col, row);
    if ray.Ok? {
      match job.mode
      case NONE =>
      case SUPERSAMPLING =>
        var rays := v.supersamplingRays(ray.value, job.gridSize, job.nX, job.nY);
        if rays.Ok? && |rays.value| > 0 {
          SupersampledUniform(v, job.trace, job.nX, job.nY, job.gridSize, ray.value, c);
        }
      case ADAPTIVE =>
        var pc := GetPoint(ray.value, v.distance);
        if pc.Ok? {
          var w, h := v.width / job.nX as real, v.height / job.nY as real;
          assert forall p :: TraceAt(v, job.trace, p) == Ok(c);
          if SourceCells(v).corners(pc.value, w, h).Ok? {
            AdaptiveUniform(v, SourceCells(v), job.trace, pc.value, w, h, job.maxLevel, c);
          } else {
            AdaptiveCases(v, SourceCells(v), job.trace, pc.value, w, h, job.maxLevel);
          }
        }
    }
  }

  /** The message of the exception renderImage raises for a missing
    * resource, which names the resource's class. */
  function Missing(className: string): Error
  {
    UnsupportedOperation("Missing " + className)
  }

  const IMAGE_WRITER_MISSING: string := "Image writer not implemented"

  /** A grid line of interval: row or column index a multiple of it. */
  predicate OnGrid(interval: int, col: int, row: int)
    requires interval != 0
  {
    row % interval == 0 || col % interval == 0
  }

  class Render {
    var supersamplingType: SupersamplingType
    var supersamplingGridSize: int
    var adaptiveMaxRecursionLevel: int
    var imageWriter: ImageWriter?
    var rayTracer: Option<TracerView>

    /** A new renderer: adaptive supersampling with 9 rows and columns for
      * plain supersampling and at most 3 levels for the adaptive one; no
      * image writer and no ray tracer yet. */
    constructor ()
      ensures supersamplingType == ADAPTIVE && supersamplingGridSize == 9 && adaptiveMaxRecursionLevel == 3
      ensures imageWriter == null && rayTracer.None?
    {
      supersamplingType := ADAPTIVE;
      supersamplingGridSize := 9;
      adaptiveMaxRecursionLevel := 3;
      imageWriter := null;
      rayTracer := None;
    }

    /** The resource renderImage finds missing first, in the order image
      * writer, ray tracer, scene, camera; None when all are there. */
    function MissingResource(): (r: Option<Error>)
      reads this
      ensures r.None? <==> imageWriter != null && rayTracer.Some? && rayTracer.value.scene.Some?
                           && rayTracer.value.scene.value.camera.Some?
      ensures imageWriter == null ==> r == Some(Missing("renderer.ImageWriter"))
      ensures imageWriter != null && rayTracer.None? ==> r == Some(Missing("renderer.RayTracerBase"))
      ensures imageWriter != null && rayTracer.Some? && rayTracer.value.scene.None? ==> r == Some(Missing("scene.Scene"))
      ensures imageWriter != null && rayTracer.Some? && rayTracer.value.scene.Some? && rayTracer.value.scene.value.camera.None? ==>
                r == Some(Missing("elements.Camera"))
    {
      if imageWriter == null then Some(Missing("renderer.ImageWriter"))
      else if rayTracer.None? then Some(Missing("renderer.RayTracerBase"))
      else if rayTracer.value.scene.None? then Some(Missing("scene.Scene"))
      else if rayTracer.value.scene.value.camera.None? then Some(Missing("elements.Camera"))
      else None
    }

    /** The render pass the current configuration describes, once every
      * resource is there. */
    function CurrentJob(): (job: Job)
      reads this, imageWriter
      requires MissingResource().None?
      ensures job.nX == imageWriter.nX && job.nY == imageWriter.nY && job.mode == supersamplingType
    {
      Job(rayTracer.value.scene.value.camera.value, rayTracer.value.traceRay, supersamplingType,
          supersamplingGridSize, adaptiveMaxRecursionLevel, imageWriter.nX, imageWriter.nY)
    }

    /** renderImage: fails on the first missing resource before anything is
      * written; otherwise every pixel whose colour can be computed is
      * written, exactly once, with that colour, and every other pixel keeps
      * its colour. */
    method RenderImage() returns (r: Result<()>)
      requires imageWriter != null ==> imageWriter.Valid()
      modifies if imageWriter == null then {} else {imageWriter, imageWriter.pixels}
      ensures r.Fail? <==> old(MissingResource()).Some?
      ensures r.Fail? ==> r.error == old(MissingResource()).value
      ensures r.Fail? && imageWriter != null ==> unchanged(imageWriter, imageWriter.pixels)
      ensures r.Ok? ==> imageWriter.Valid()
      ensures r.Ok? ==> imageWriter.writes == old(imageWriter.writes) + GridWrites(CurrentJob(), imageWriter.nY)
      ensures r.Ok? ==> forall a, b :: 0 <= a < imageWriter.nX && 0 <= b < imageWriter.nY ==>
        imageWriter.pixels[a, b] == if Writes(CurrentJob(), a, b) then PixelColor(CurrentJob(), a, b).value else old(imageWriter.pixels[a, b])
    {
      var missing := MissingResource();
      if missing.Some? {
        return Fail(missing.value);
      }
      var writer := imageWriter;
      var job := CurrentJob();
      var nX, nY := writer.nX, writer.nY;
      var i := 0;
      while i < nY
        invariant 0 <= i <= nY
        invariant writer.Valid()
        invariant writer.writes == old(writer.writes) + GridWrites(job, i)
        invariant forall a, b :: 0 <= a < nX && 0 <= b < nY ==>
          writer.pixels[a, b] == if b < i && Writes(job, a, b) then PixelColor(job, a, b).value else old(writer.pixels[a, b])
      {
        RenderRow(writer, job, i);
        i := i + 1;
      }
      r := Ok(());
    }

    /** The tasks of the pixels of one row, left to right. */
    static method RenderRow(writer: ImageWriter, job: Job, row: int)
      requires writer.Valid() && 0 <= row < writer.nY && job.nX == writer.nX && job.nY == writer.nY
      modifies writer, writer.pixels
      ensures writer.Valid()
      ensures writer.writes == old(writer.writes) + RowWrites(job, row, job.nX)
      ensures forall a, b :: 0 <= a < writer.nX && 0 <= b < writer.nY ==>
        writer.pixels[a, b] == if b == row && Writes(job, a, b) then PixelColor(job, a, b).value else old(writer.pixels[a, b])
    {
      var j := 0;
      while j < job.nX
        invariant 0 <= j <= job.nX
        invariant writer.Valid()
        invariant writer.writes == old(writer.writes) + RowWrites(job, row, j)
        invariant forall a, b :: 0 <= a < writer.nX && 0 <= b < writer.nY ==>
          writer.pixels[a, b] == if b == row && a < j && Writes(job, a, b) then PixelColor(job, a, b).value else old(writer.pixels[a, b])
      {
        var color := PixelTask(job, j, row);
        if color.Ok? {
          writer.WritePixel(j, row, color.value);
        }
        j := j + 1;
      }
    }

    /** The task of one pixel: its ray, then the colour the mode asks for. */
    static method PixelTask(job: Job, col: int, row: int) returns (r: Result<Colors.Color>)
      requires 0 < job.nX && 0 < job.nY
      ensures r == PixelColor(job, col, row)
    {
      var ray := job.camera.rayThroughPixel(job.nX, job.nY, col, row);
      if ray.Fail? {
        return Fail(ray.error);
      }
      match job.mode
      case ADAPTIVE =>
        r := GetAdaptiveSupersamplingColor(job.camera, job.trace, job.nX, job.nY, job.maxLevel, ray.value);
      case SUPERSAMPLING =>
        r := GetSupersamplingColor(job.camera, job.trace, job.nX, job.nY, job.gridSize, ray.value);
      case NONE =>
        r := job.trace(ray.value);
    }

    /** writeToImage: refused without an image writer. Producing the file is
      * the image writer's business and is not modelled. */
    method WriteToImage() returns (r: Result<()>)
      ensures r.Fail? <==> imageWriter == null
      ensures r.Fail? ==> r.error == UnsupportedOperation(IMAGE_WRITER_MISSING)
    {
      if imageWriter == null {
        return Fail(UnsupportedOperation(IMAGE_WRITER_MISSING));
      }
      r := Ok(());
    }

    /** printGrid(interval, color): refused without an image writer. The
      * pixels on a grid line of interval take the colour, the others keep
      * theirs. An interval of 0 on a non-empty image divides by zero at the
      * first pixel, before anything is written. */
    method PrintGrid(interval: int, color: Colors.Color) returns (r: Result<()>)
      requires imageWriter != null ==> imageWriter.Valid()
      modifies if imageWriter == null then {} else {imageWriter, imageWriter.pixels}
      ensures imageWriter == null ==> r == Fail(UnsupportedOperation(IMAGE_WRITER_MISSING))
      ensures imageWriter != null && interval == 0 && imageWriter.nX > 0 && imageWriter.nY > 0 ==> r == Fail(Arithmetic)
      ensures r.Fail? && imageWriter != null ==> unchanged(imageWriter, imageWriter.pixels)
      ensures r.Ok? ==> imageWriter != null && imageWriter.Valid()
      ensures r.Ok? && interval != 0 ==> forall a, b :: 0 <= a < imageWriter.nX && 0 <= b < imageWriter.nY ==>
        imageWriter.pixels[a, b] == if OnGrid(interval, a, b) then color else old(imageWriter.pixels[a, b])
      ensures r.Ok? ==> |old(imageWriter.writes)| <= |imageWriter.writes| && imageWriter.writes[..|old(imageWriter.writes)|] == old(imageWriter.writes)
      ensures r.Ok? && interval != 0 ==> forall p :: p in imageWriter.writes[|old(imageWriter.writes)|..] ==> OnGrid(interval, p.0, p.1)
    {
      if imageWriter == null {
        return Fail(UnsupportedOperation(IMAGE_WRITER_MISSING));
      }
      var writer := imageWriter;
      var nX, nY := writer.nX, writer.nY;
      if interval == 0 {
        if nX > 0 && nY > 0 {
          return Fail(Arithmetic);
        }
        return Ok(());
      }
      var i := 0;
      while i < nY
        invariant 0 <= i <= nY
        invariant writer.Valid()
        invariant |old(writer.writes)| <= |writer.writes| && writer.writes[..|old(writer.writes)|] == old(writer.writes)
        invariant forall p :: p in writer.writes[|old(writer.writes)|..] ==> OnGrid(interval, p.0, p.1)
        invariant forall a, b :: 0 <= a < nX && 0 <= b < nY ==>
          writer.pixels[a, b] == if b < i && OnGrid(interval, a, b) then color else old(writer.pixels[a, b])
      {
        var j := 0;
        while j < nX
          invariant 0 <= j <= nX
          invariant writer.Valid()
          invariant |old(writer.writes)| <= |writer.writes| && writer.writes[..|old(writer.writes)|] == old(writer.writes)
          invariant forall p :: p in writer.writes[|old(writer.writes)|..] ==> OnGrid(interval, p.0, p.1)
          invariant forall a, b :: 0 <= a < nX && 0 <= b < nY ==>
            writer.pixels[a, b] == if (b < i || (b == i && a < j)) && OnGrid(interval, a, b) then color else old(writer.pixels[a, b])
        {
          if i % interval == 0 || j % interval == 0 {
            ghost var before := writer.writes;
            writer.WritePixel(j, i, color);
            assert writer.writes[|old(writer.writes)|..] == before[|old(writer.writes)|..] + [(j, i)];
          }
          j := j + 1;
        }
        i := i + 1;
      }
      r := Ok(());
    }

    /** setImageWriter: only the image writer changes. */
    method SetImageWriter(iw: ImageWriter?) returns (self: Render)
      modifies this
      ensures self == this && imageWriter == iw
      ensures rayTracer == old(rayTracer) && supersamplingType == old(supersamplingType)
      ensures supersamplingGridSize == old(supersamplingGridSize) && adaptiveMaxRecursionLevel == old(adaptiveMaxRecursionLevel)
    {
      imageWriter := iw;
      self := this;
    }

    /** setRayTracer: only the ray tracer changes. */
    method SetRayTracer(tracer: Option<TracerView>) returns (self: Render)
      modifies this
      ensures self == this && rayTracer == tracer
      ensures imageWriter == old(imageWriter) && supersamplingType == old(supersamplingType)
      ensures supersamplingGridSize == old(supersamplingGridSize) && adaptiveMaxRecursionLevel == old(adaptiveMaxRecursionLevel)
    {
      rayTracer := tracer;
      self := this;
    }

    /** setSupersamplingType: only the mode changes. */
    method SetSupersamplingType(mode: SupersamplingType) returns (self: Render)
      modifies this
      ensures self == this && supersamplingType == mode
      ensures imageWriter == old(imageWriter) && rayTracer == old(rayTracer)
      ensures supersamplingGridSize == old(supersamplingGridSize) && adaptiveMaxRecursionLevel == old(adaptiveMaxRecursionLevel)
    {
      supersamplingType := mode;
      self := this;
    }

    /** setSupersamplingGridSize: only the grid size changes. */
    method SetSupersamplingGridSize(gridSize: int) returns (self: Render)
      modifies this
      ensures self == this && supersamplingGridSize == gridSize
      ensures imageWriter == old(imageWriter) && rayTracer == old(rayTracer)
      ensures supersamplingType == old(supersamplingType) && adaptiveMaxRecursionLevel == old(adaptiveMaxRecursionLevel)
    {
      supersamplingGridSize := gridSize;
      self := this;
    }

    /** setAdaptiveMaxRecursionLevel: only the adaptive depth changes. */
    method SetAdaptiveMaxRecursionLevel(maxLevel: int) returns (self: Render)
      modifies this
      ensures self == this && adaptiveMaxRecursionLevel == maxLevel
      ensures imageWriter == old(imageWriter) && rayTracer == old(rayTracer)
      ensures supersamplingType == old(supersamplingType) && supersamplingGridSize == old(supersamplingGridSize)
    {
      adaptiveMaxRecursionLevel := maxLevel;
      self := this;
    }
  }
}
