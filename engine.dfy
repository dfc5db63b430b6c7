/**
  * The fractal raster engine of fractal/fractal.c. The file-level statics of
  * the C code are the fields of one `Engine`: the busy flag of the job
  * controller, the progress row counter, the image buffer, the video stop
  * flag, the view the workers draw (mode, centre, seed, zoom, size) and the
  * memoised palette. Callbacks are recorded, in call order, in `events`.
  */
module Fractal {
  import opened Wrappers
  import opened Palette
  import opened Escape
  import opened Rows
  import opened Codec
  import opened Video
  import opened Timestamps

  /** fractal_error_t. */
  datatype FractalError = MbOk | MbError | MbExec

  /** fractal_config_t, the settings a job is started with. */
  datatype FractalConfig = FractalConfig(
    useJulia: bool,
    x: real, y: real,           // Mandelbrot centre, or the Julia seed
    juliaX: real, juliaY: real, // Julia centre
    zoom: real, juliaZoom: real,
    width: int, height: int,
    maxIterations: int,
    threads: int)

  /** mb_video_config_t. */
  datatype VideoConfig = VideoConfig(zoomStart: real, zoomStep: real, frameRate: int)

  /**
    * The configurations the engine can draw: a palette needs at least one
    * iteration (it divides by the count), the rows are shared among at least
    * one worker, and the image has no negative side.
    */
  predicate Supported(c: FractalConfig)
  {
    c.maxIterations >= 1 && c.threads >= 1 && c.width >= 0 && c.height >= 0
  }

  /** A callback invocation: on_progress(fraction) or on_save(success). */
  datatype Event = Progress(fraction: real) | Saved(success: bool)

  /** mb_photo_args: what the photo thread receives; the callbacks are present or NULL. */
  datatype PhotoArgs = PhotoArgs(onProgress: bool, onSave: bool, filename: string, threads: int)

  /** mb_video_args. */
  datatype VideoArgs = VideoArgs(onProgress: bool, onSave: bool, filename: string, threads: int,
                                 framerate: int, zoomStep: real)

  /** What the workers read: mode, centre, Julia seed, zoom, image size and iteration cap. */
  datatype View = View(useJulia: bool, tx: real, ty: real, x0: real, y0: real, zoom: real,
                       width: int, height: int, maxIterations: int)

  /** The plane point of pixel (row, col): the image centre maps to (tx, ty), rows grow downwards. */
  function PlanePoint(v: View, row: int, col: int): (real, real)
    requires v.zoom != 0.0
  {
    (v.tx + (col as real - v.width as real / 2.0) / v.zoom,
     v.ty - (row as real - v.height as real / 2.0) / v.zoom)
  }

  /**
    * The colour of pixel (row, col): the evaluator of the mode at its plane
    * point. A zero zoom makes every coordinate an IEEE infinity or NaN, which
    * either escapes at once (entry 0) or never (entry max): both are black.
    */
  function PixelColor(v: View, palette: seq<Color>, row: int, col: int): Color
    requires |palette| == Budget(v.maxIterations) + 1
  {
    if v.zoom == 0.0 then Black
    else
      var (xc, yc) := PlanePoint(v, row, col);
      if v.useJulia then palette[JuliaIndex(v.maxIterations, v.x0, v.y0, xc, yc)]
      else palette[MandelbrotIndex(v.maxIterations, xc, yc)]
  }

  /** Byte `k` of an RGB triple. */
  function Channel(c: Color, k: int): Byte
  {
    if k == 0 then c.red else if k == 1 then c.green else c.blue
  }

  /** Byte `i` of the finished image. */
  function ImageByte(v: View, palette: seq<Color>, i: int): Byte
    requires v.width >= 1 && i >= 0 && |palette| == Budget(v.maxIterations) + 1
  {
    Channel(PixelColor(v, palette, RowOf(v.width, i), ColOf(v.width, i)), i % 3)
  }

  /** The finished image: width * height RGB pixels, row by row. */
  function Image(v: View, palette: seq<Color>): (img: seq<Byte>)
    requires v.width >= 0 && v.height >= 0 && |palette| == Budget(v.maxIterations) + 1
    ensures |img| == v.width * v.height * 3
  {
    if v.width == 0 then []
    else seq(v.width * v.height * 3, i requires 0 <= i < v.width * v.height * 3 => ImageByte(v, palette, i))
  }

  /** The three bytes at PixelIndex(row, col) of the image are the pixel's red, green and blue. */
  lemma ImageHoldsPixel(v: View, palette: seq<Color>, row: int, col: int)
    requires v.width >= 0 && v.height >= 0 && |palette| == Budget(v.maxIterations) + 1
    requires 0 <= row < v.height && 0 <= col < v.width
    ensures var p := PixelIndex(v.width, row, col);
      && p + 2 < |Image(v, palette)|
      && Image(v, palette)[p] == PixelColor(v, palette, row, col).red
      && Image(v, palette)[p + 1] == PixelColor(v, palette, row, col).green
      && Image(v, palette)[p + 2] == PixelColor(v, palette, row, col).blue
  {
    PixelIndexLayout(v.width, v.height, row, col, 0);
    PixelIndexLayout(v.width, v.height, row, col, 1);
    PixelIndexLayout(v.width, v.height, row, col, 2);
  }

  /** Image buffers that `v` can be drawn into: width * height * 3 bytes, before and after. */
  predicate Fits(cur: seq<Byte>, orig: seq<Byte>, v: View, palette: seq<Color>)
  {
    && v.width >= 0 && v.height >= 0 && |palette| == Budget(v.maxIterations) + 1
    && |cur| == |orig| == v.width * v.height * 3
  }

  /**
    * `cur` is `orig` with the pixels of `row` left of column `col` drawn:
    * those bytes hold the image, every other byte is the one in `orig`.
    */
  ghost predicate RowPaintedTo(cur: seq<Byte>, orig: seq<Byte>, v: View, palette: seq<Color>, row: int, col: int)
  {
    && Fits(cur, orig, v, palette)
    && (v.width >= 1 ==>
          forall i | 0 <= i < |cur| ::
            cur[i] == if RowOf(v.width, i) == row && ColOf(v.width, i) < col then ImageByte(v, palette, i) else orig[i])
  }

  /** `cur` is `orig` with the rows of worker (start, step) below `bound` drawn, and nothing else changed. */
  ghost predicate RowsPaintedTo(cur: seq<Byte>, orig: seq<Byte>, v: View, palette: seq<Color>,
                                start: int, step: int, bound: int)
    requires step >= 1
  {
    && Fits(cur, orig, v, palette)
    && (v.width >= 1 ==>
          forall i | 0 <= i < |cur| ::
            cur[i] == if OwnedRow(start, step, RowOf(v.width, i)) && RowOf(v.width, i) < bound
                      then ImageByte(v, palette, i) else orig[i])
  }

  /** `cur` is `orig` with the rows of workers 0 .. k-1 of `n` drawn, and nothing else changed. */
  ghost predicate WorkersPaintedTo(cur: seq<Byte>, orig: seq<Byte>, v: View, palette: seq<Color>, n: int, k: int)
    requires n >= 1
  {
    && Fits(cur, orig, v, palette)
    && (v.width >= 1 ==>
          forall i | 0 <= i < |cur| ::
            cur[i] == if RowOf(v.width, i) % n < k then ImageByte(v, palette, i) else orig[i])
  }

  /** Writing the three bytes of pixel (row, col) moves the painted part of the row one pixel on. */
  lemma PaintPixel(before: seq<Byte>, orig: seq<Byte>, v: View, palette: seq<Color>, row: int, col: int)
    requires 0 <= row < v.height && 0 <= col < v.width
    requires RowPaintedTo(before, orig, v, palette, row, col)
    ensures var c, p := PixelColor(v, palette, row, col), PixelIndex(v.width, row, col);
      && p + 2 < |before|
      && RowPaintedTo(before[p := c.red][p + 1 := c.green][p + 2 := c.blue], orig, v, palette, row, col + 1)
  {
    var c, p := PixelColor(v, palette, row, col), PixelIndex(v.width, row, col);
    PixelIndexLayout(v.width, v.height, row, col, 0);
    PixelIndexLayout(v.width, v.height, row, col, 1);
    PixelIndexLayout(v.width, v.height, row, col, 2);
    var after := before[p := c.red][p + 1 := c.green][p + 2 := c.blue];
    forall i | 0 <= i < |after|
      ensures after[i] == if RowOf(v.width, i) == row && ColOf(v.width, i) < col + 1
                          then ImageByte(v, palette, i) else orig[i]
    {
      ByteOfPixel(v.width, i);
      if p <= i < p + 3 {
        PixelIndexLayout(v.width, v.height, row, col, i - p);
      }
    }
  }

  /** A finished row of worker (start, step) at its row `row` moves its painted rows on to the next one. */
  lemma PaintedRowStep(before: seq<Byte>, after: seq<Byte>, orig: seq<Byte>, v: View, palette: seq<Color>,
                       start: int, step: int, row: int)
    requires step >= 1 && OwnedRow(start, step, row)
    requires RowsPaintedTo(before, orig, v, palette, start, step, row)
    requires RowPaintedTo(after, before, v, palette, row, v.width)
    ensures RowsPaintedTo(after, orig, v, palette, start, step, row + step)
  {
    if v.width >= 1 {
      forall i | 0 <= i < |after|
        ensures after[i] == if OwnedRow(start, step, RowOf(v.width, i)) && RowOf(v.width, i) < row + step
                            then ImageByte(v, palette, i) else orig[i]
      {
        RowOfInImage(v.width, v.height, i);
        var r := RowOf(v.width, i);
        if row < r < row + step {
          NotOwnedBeforeNext(start, step, row, r);
        }
      }
    }
  }

  /** Once the worker is past the last row, its painted rows are all its rows. */
  lemma PaintedRowsDone(cur: seq<Byte>, orig: seq<Byte>, v: View, palette: seq<Color>, start: int, step: int, row: int)
    requires step >= 1 && row >= v.height
    requires RowsPaintedTo(cur, orig, v, palette, start, step, row)
    ensures RowsPaintedTo(cur, orig, v, palette, start, step, v.height)
  {
    if v.width >= 1 {
      forall i | 0 <= i < |cur|
        ensures RowOf(v.width, i) < v.height
      {
        RowOfInImage(v.width, v.height, i);
      }
    }
  }

  /** Worker k of `n` draws exactly the rows of residue k, so it adds them to those of workers 0 .. k-1. */
  lemma PaintedWorkerStep(before: seq<Byte>, after: seq<Byte>, orig: seq<Byte>, v: View, palette: seq<Color>,
                          n: int, k: int)
    requires 0 <= k < n
    requires WorkersPaintedTo(before, orig, v, palette, n, k)
    requires RowsPaintedTo(after, before, v, palette, k, n, v.height)
    ensures WorkersPaintedTo(after, orig, v, palette, n, k + 1)
  {
    if v.width >= 1 {
      forall i | 0 <= i < |after|
        ensures after[i] == if RowOf(v.width, i) % n < k + 1 then ImageByte(v, palette, i) else orig[i]
      {
        RowOfInImage(v.width, v.height, i);
        OwnedIffResidue(n, k, RowOf(v.width, i));
      }
    }
  }

  /** With all `n` workers done, the buffer is the image. */
  lemma PaintedWorkersDone(cur: seq<Byte>, orig: seq<Byte>, v: View, palette: seq<Color>, n: int)
    requires n >= 1 && WorkersPaintedTo(cur, orig, v, palette, n, n)
    ensures cur == Image(v, palette)
  {
    if v.width >= 1 {
      forall i | 0 <= i < |cur|
        ensures cur[i] == Image(v, palette)[i]
      {
        RowOfInImage(v.width, v.height, i);
      }
    }
  }

  /** The zoom after `n` frames, from `z` multiplied by the step `k` once per frame: z * k^n. */
  function Zoomed(z: real, k: real, n: nat): real
  {
    if n == 0 then z else Zoomed(z, k, n - 1) * k
  }

  /** The progress reports of `n` submitted frames: frame j reports (j + 1) / framerate seconds. */
  function ProgressRun(n: nat, framerate: int): (r: seq<Event>)
    requires n == 0 || framerate >= 1
    ensures |r| == n
  {
    seq(n, j requires 0 <= j < n => Progress((j + 1) as real / framerate as real))
  }

  /** The foreign side of a video job: encoder frame size and look-aheads, and which calls fail. */
  datatype Library = Library(
    frameSize: int, videoDelay: nat, audioDelay: nat,
    openEnv: set<Op>,           // while the context is created
    frameEnv: nat -> set<Op>,   // while frame j is submitted
    flushEnv: set<Op>,          // while the streams are flushed
    tone: real -> real)         // libm's sine of the test tone

  /** video_ctx_new returns NULL: a set-up call fails, or the frame rate is not positive. */
  predicate OpenFails(lib: Library, framerate: int)
  {
    || AllocMuxer in lib.openEnv || StreamSetup(VideoStream) in lib.openEnv || framerate < 1
    || StreamSetup(AudioStream) in lib.openEnv || ResamplerSetup in lib.openEnv
    || OpenFile in lib.openEnv || WriteHeader in lib.openEnv
  }

  /** Every library call of the submission of frames 0 .. n-1 succeeds. */
  predicate CleanFrames(lib: Library, n: nat)
  {
    forall j: nat | j < n :: CleanRun(lib.frameEnv(j))
  }

  /**
    * A video job whose every library call succeeds: the context opens, each of
    * the `frames` submissions and the flush succeed, and the image has a column.
    */
  predicate CleanVideo(lib: Library, framerate: int, width: int, frames: nat)
  {
    !OpenFails(lib, framerate) && width >= 1 && CleanFrames(lib, frames) && CleanRun(lib.flushEnv)
  }

  /** How the body of video_thread ended. */
  datatype VideoOutcome =
    | OpenFailed              // video_ctx_new gave NULL
    | FrameFailed(frames: nat) // video_send_frame gave a negative value after `frames` frames
    | Exited(status: int)     // video_ctx_free ended the process
    | Completed               // the stream was flushed and the file finalised

  /** The frames submitted (and reported) before the body of video_thread ended. */
  function FramesSent(o: VideoOutcome, stopAfter: nat): nat
  {
    match o
    case OpenFailed => 0
    case FrameFailed(n) => n
    case _ => stopAfter
  }

  /** The on_save report that ends video_thread: none when the process exited first. */
  function SaveReport(o: VideoOutcome): seq<Event>
  {
    match o
    case Exited(_) => []
    case Completed => [Saved(true)]
    case _ => [Saved(false)]
  }

  class Engine {
    /** mb_gen_status: a job is running. */
    var busy: bool
    /** mb_gen_rows and use_sem: the rows finished so far, and whether the workers count them. */
    var genRows: int
    var useSem: bool
    /** image_data: the RGB buffer the workers fill. */
    var imageData: array?<Byte>
    /** generate_more_frames: the video thread goes on rendering frames. */
    var generateMoreFrames: bool
    /** The view of the current job. */
    var width: int
    var height: int
    var maxIterations: int
    var useJulia: bool
    var tx: real
    var ty: real
    var juliaX0: real
    var juliaY0: real
    var zoom: real
    /** mb_palette: the table for maxIterations, empty (NULL) before the first job. */
    var palette: seq<Color>
    /** How many times the palette was rebuilt. */
    ghost var paletteBuilds: nat
    /** The callbacks invoked so far. */
    var events: seq<Event>

    /** The palette memo: the cached table is the one for the cached iteration count. */
    ghost predicate PaletteMemo()
      reads this
    {
      || (maxIterations == 0 && palette == [])
      || (maxIterations >= 1 && palette == Table(maxIterations))
    }

    ghost predicate Valid()
      reads this
    {
      PaletteMemo()
    }

    function Current(): View
      reads this
    {
      View(useJulia, tx, ty, juliaX0, juliaY0, zoom, width, height, maxIterations)
    }

    /** The workers can run: a palette is built and the buffer has width * height * 3 bytes. */
    ghost predicate Drawable()
      reads this
    {
      && PaletteMemo() && maxIterations >= 1 && width >= 0 && height >= 0
      && imageData != null && imageData.Length == width * height * 3
    }

    /** The statics before any job: all zero, the pointers NULL. */
    constructor Init()
      ensures Valid() && !busy && events == [] && maxIterations == 0 && palette == [] && paletteBuilds == 0
      ensures Current() == View(false, 0.0, 0.0, 0.0, 0.0, 0.0, 0, 0, 0)
      ensures genRows == 0 && !useSem && imageData == null && !generateMoreFrames
    {
      busy, genRows, useSem := false, 0, false;
      imageData := null;
      generateMoreFrames := false;
      width, height, maxIterations, useJulia := 0, 0, 0, false;
      tx, ty, juliaX0, juliaY0, zoom := 0.0, 0.0, 0.0, 0.0, 0.0;
      palette := [];
      paletteBuilds := 0;
      events := [];
    }

    /**
      * The per-pixel work of fractal_thread: the plane point of (row, col),
      * then the evaluator of the mode.
      */
    method ColorAt(row: int, col: int) returns (color: Color)
      requires PaletteMemo() && maxIterations >= 1
      ensures color == PixelColor(Current(), palette, row, col)
    {
      if zoom == 0.0 {
        // IEEE division by zero: infinite or NaN coordinates, entry 0 or entry max
        color := Black;
      } else {
        var xc := tx + (col as real - width as real / 2.0) / zoom;
        var yc := ty - (row as real - height as real / 2.0) / zoom;
        if useJulia {
          color := JuliaGetColorFromPos(palette, maxIterations, juliaX0, juliaY0, xc, yc);
        } else {
          color := MbGetColorFromPos(palette, maxIterations, xc, yc);
        }
      }
    }

    /** One row of fractal_thread: every pixel of `row`, left to right, three bytes each. */
    method PaintRow(row: int)
      requires Drawable() && 0 <= row < height
      modifies imageData
      ensures RowPaintedTo(imageData[..], old(imageData[..]), Current(), palette, row, width)
    {
      var data := imageData;
      ghost var v, pal := Current(), palette;
      var col := 0;
      while col < width
        invariant 0 <= col <= width
        invariant RowPaintedTo(data[..], old(data[..]), v, pal, row, col)
      {
        var color := ColorAt(row, col);
        var index := 3 * (row * width + col);
        PaintPixel(data[..], old(data[..]), v, pal, row, col);
        ghost var want := data[..][index := color.red][index + 1 := color.green][index + 2 := color.blue];
        data[index] := color.red;
        data[index + 1] := color.green;
        data[index + 2] := color.blue;
        assert data[..] == want;
        col := col + 1;
      }
    }

    /**
      * fractal_thread: worker `start` of `step` fills rows start, start + step,
      * ... below the height, and counts each finished row when counting is on.
      * Every other byte of the buffer keeps its value.
      */
    method FractalThread(start: int, step: int)
      requires Drawable() && 0 <= start && step >= 1
      modifies this`genRows, imageData
      ensures genRows == old(genRows) + (if useSem then RowCount(start, step, height) else 0)
      ensures RowsPaintedTo(imageData[..], old(imageData[..]), Current(), palette, start, step, height)
    {
      var data := imageData;
      ghost var v, pal := Current(), palette;
      ghost var k: nat := 0;
      var row := start;
      while row < height
        invariant row == start + k * step && (k > 0 ==> start + (k - 1) * step < height)
        invariant genRows == old(genRows) + (if useSem then k else 0)
        invariant Current() == v && palette == pal && Drawable()
        invariant RowsPaintedTo(data[..], old(data[..]), v, pal, start, step, row)
      {
        ghost var before := data[..];
        PaintRow(row);
        OwnedAfterSteps(start, step, k);
        PaintedRowStep(before, data[..], old(data[..]), v, pal, start, step, row);
        if useSem {
          genRows := genRows + 1;
        }
        row := row + step;
        k := k + 1;
      }
      LoopExitCount(start, step, height, k);
      PaintedRowsDone(data[..], old(data[..]), v, pal, start, step, row);
    }

    /**
      * The fork-join of photo_thread and video_thread, run one worker after the
      * other: worker i of `threads` starts at row i and advances by `threads`.
      * Together they draw the whole image, and the counter moves on by the height.
      */
    method RunWorkers(threads: int)
      requires Drawable() && threads >= 1
      modifies this`genRows, imageData
      ensures imageData[..] == Image(Current(), palette)
      ensures genRows == old(genRows) + (if useSem then height else 0)
    {
      var data := imageData;
      ghost var v, pal := Current(), palette;
      for i := 0 to threads
        invariant Current() == v && palette == pal && Drawable()
        invariant WorkersPaintedTo(data[..], old(data[..]), v, pal, threads, i)
        invariant genRows == old(genRows) + (if useSem then RowCountSum(threads, height, i) else 0)
      {
        ghost var before := data[..];
        FractalThread(i, threads);
        PaintedWorkerStep(before, data[..], old(data[..]), v, pal, threads, i);
      }
      RowCountsCoverHeight(threads, height);
      PaintedWorkersDone(data[..], old(data[..]), v, pal, threads);
    }

    /** The statics no configuration step touches: the job state and the callbacks. */
    twostate predicate JobStateKept()
      reads this
    {
      && old(busy) == busy && old(genRows) == genRows && old(useSem) == useSem
      && old(imageData) == imageData && old(generateMoreFrames) == generateMoreFrames && old(events) == events
    }

    /** The statics show configuration `c`: mode, centre, seed, zoom, size and iteration cap. */
    ghost predicate Shows(c: FractalConfig)
      reads this
    {
      && useJulia == c.useJulia && width == c.width && height == c.height && maxIterations == c.maxIterations
      && (c.useJulia ==>
            && juliaX0 == c.x && juliaY0 == c.y && tx == c.juliaX && ty == c.juliaY
            && zoom == c.juliaZoom * c.height as real / 2.0)
      && (!c.useJulia ==> tx == c.x && ty == c.y && zoom == c.zoom * c.height as real / 2.0)
    }

    /** The palette loop of mb_prepare: a fresh table of maxIterations + 1 entries, entry i from t = i / max. */
    method RebuildPalette()
      requires maxIterations >= 1
      modifies this`palette, this`paletteBuilds
      ensures palette == Table(maxIterations) && paletteBuilds == old(paletteBuilds) + 1
    {
      var max := maxIterations;
      var p := new Color[max + 1];
      for i := 0 to max + 1
        modifies p
        invariant forall k | 0 <= k < i :: p[k] == Entry(k, max)
      {
        p[i] := Entry(i, max);
      }
      assert p[..] == Table(max);
      palette := p[..];
      paletteBuilds := paletteBuilds + 1;
    }

    /** The first half of mb_prepare: the centre, the Julia seed and the zoom of the mode, and the image size. */
    method SetView(c: FractalConfig)
      modifies this`useJulia, this`juliaX0, this`juliaY0, this`tx, this`ty, this`zoom, this`width, this`height
      ensures useJulia == c.useJulia && width == c.width && height == c.height
      ensures c.useJulia ==>
        && juliaX0 == c.x && juliaY0 == c.y && tx == c.juliaX && ty == c.juliaY
        && zoom == c.juliaZoom * c.height as real / 2.0
      ensures !c.useJulia ==>
        && tx == c.x && ty == c.y && zoom == c.zoom * c.height as real / 2.0
        && juliaX0 == old(juliaX0) && juliaY0 == old(juliaY0)
    {
      if c.useJulia {
        useJulia := true;
        juliaX0, juliaY0 := c.x, c.y;
        zoom := c.juliaZoom * c.height as real / 2.0;
        tx, ty := c.juliaX, c.juliaY;
      } else {
        useJulia := false;
        tx, ty := c.x, c.y;
        zoom := c.zoom * c.height as real / 2.0;
      }
      width, height := c.width, c.height;
    }

    /**
      * mb_prepare: take the centre, the Julia seed and the zoom of the mode,
      * and the image size; rebuild the palette only when the iteration count
      * differs from the one the current table was built for. Either way the
      * palette afterwards is the table for the new count.
      */
    method Prepare(c: FractalConfig)
      requires Valid() && c.maxIterations >= 1
      modifies this
      ensures Valid() && Shows(c) && JobStateKept()
      ensures palette == Table(c.maxIterations)
      ensures paletteBuilds == old(paletteBuilds) + (if old(maxIterations) == c.maxIterations then 0 else 1)
      ensures !c.useJulia ==> juliaX0 == old(juliaX0) && juliaY0 == old(juliaY0)
    {
      SetView(c);
      if maxIterations != c.maxIterations {
        maxIterations := c.maxIterations;
        RebuildPalette();
      }
    }

    /** mb_video_stop: ask the video thread to stop after the frame it is on. */
    method VideoStop() returns (r: FractalError)
      modifies this`generateMoreFrames
      ensures r == MbOk && !generateMoreFrames
    {
      generateMoreFrames := false;
      return MbOk;
    }

    /**
      * The admission of fractal_begin_photo up to the start of the photo
      * thread: missing arguments give MB_ERROR and a running job MB_EXEC, both
      * changing nothing; otherwise the engine turns busy, takes the
      * configuration and hands the arguments to the photo thread.
      */
    method AdmitPhoto(config: Option<FractalConfig>, filename: Option<string>, onProgress: bool, onSave: bool)
      returns (r: FractalError, job: Option<PhotoArgs>)
      requires Valid() && (config.Some? && filename.Some? && onSave && !busy ==> Supported(config.value))
      modifies this
      ensures Valid()
      ensures r == MbOk || r == MbError || r == MbExec
      ensures r == MbError <==> config.None? || filename.None? || !onSave
      ensures r == MbExec <==> config.Some? && filename.Some? && onSave && old(busy)
      ensures r != MbOk ==> job.None? && unchanged(this)
      ensures r == MbOk ==>
        && busy && Shows(config.value) && palette == Table(maxIterations)
        && (!config.value.useJulia ==> juliaX0 == old(juliaX0) && juliaY0 == old(juliaY0))
        && genRows == old(genRows) && useSem == old(useSem) && imageData == old(imageData)
        && generateMoreFrames == old(generateMoreFrames) && events == old(events)
        && job == Some(PhotoArgs(onProgress, onSave, filename.value, config.value.threads))
    {
      if config.None? || filename.None? || !onSave {
        return MbError, None;
      }
      if busy {
        return MbExec, None;
      }
      busy := true;
      Prepare(config.value);
      return MbOk, Some(PhotoArgs(onProgress, onSave, filename.value, config.value.threads));
    }

    /**
      * fractal_begin_photo with the progress callback optional, as the photo
      * thread treats it: the initial report 0 is made only when there is one.
      */
    method BeginPhoto(config: Option<FractalConfig>, filename: Option<string>, onProgress: bool, onSave: bool)
      returns (r: FractalError, job: Option<PhotoArgs>)
      requires Valid() && (config.Some? && filename.Some? && onSave && !busy ==> Supported(config.value))
      modifies this
      ensures Valid()
      ensures r == MbError <==> config.None? || filename.None? || !onSave
      ensures r == MbExec <==> config.Some? && filename.Some? && onSave && old(busy)
      ensures r != MbOk ==> job.None? && unchanged(this)
      ensures r == MbOk ==>
        && busy && Shows(config.value) && palette == Table(maxIterations)
        && (!config.value.useJulia ==> juliaX0 == old(juliaX0) && juliaY0 == old(juliaY0))
        && job == Some(PhotoArgs(onProgress, onSave, filename.value, config.value.threads))
        && events == old(events) + (if onProgress then [Progress(0.0)] else [])
    {
      r, job := AdmitPhoto(config, filename, onProgress, onSave);
      if r == MbOk && onProgress {
        events := events + [Progress(0.0)];
      }
    }

    /**
      * fractal_begin_photo as written: on_progress(0) is called after
      * acceptance whether or not the callback is present. `None` stands for
      * the call through a NULL pointer, which does not return.
      */
    method BeginPhotoAsWritten(config: Option<FractalConfig>, filename: Option<string>, onProgress: bool, onSave: bool)
      returns (r: Option<FractalError>, job: Option<PhotoArgs>)
      requires Valid() && (config.Some? && filename.Some? && onSave && !busy ==> Supported(config.value))
      modifies this
      ensures r.None? <==> config.Some? && filename.Some? && onSave && !old(busy) && !onProgress
      ensures r == Some(MbError) <==> config.None? || filename.None? || !onSave
      ensures r == Some(MbExec) <==> config.Some? && filename.Some? && onSave && old(busy)
      ensures r == Some(MbOk) ==> busy && events == old(events) + [Progress(0.0)]
    {
      var admitted;
      admitted, job := AdmitPhoto(config, filename, onProgress, onSave);
      if admitted == MbOk {
        if !onProgress {
          return None, job;
        }
        events := events + [Progress(0.0)];
      }
      return Some(admitted), job;
    }

    /** The allocation of the image buffer and the run of the workers over it, as photo_thread does them. */
    method DrawImage(threads: int)
      requires PaletteMemo() && maxIterations >= 1 && width >= 0 && height >= 0 && threads >= 1
      modifies this`imageData, this`genRows
      ensures imageData != null && fresh(imageData) && imageData[..] == Image(Current(), palette)
      ensures genRows == old(genRows) + (if useSem then height else 0)
    {
      AllocateImage();
      RunWorkers(threads);
    }

    /** image_data = malloc(width * height * 3): one byte per channel of every pixel. */
    method AllocateImage()
      requires width >= 0 && height >= 0
      modifies this`imageData
      ensures imageData != null && fresh(imageData) && imageData.Length == width * height * 3
    {
      var size := width * height;
      assert size >= 0 by {
        if width > 0 {
          assert width * height >= 0 * height;
        }
      }
      imageData := new Byte[size * 3];
    }

    /**
      * photo_thread: counting is on exactly when there is a progress callback
      * (the counter then starts at 0), a buffer of width * height * 3 bytes is
      * allocated, the workers draw the image into it, the file is written
      * (`written` is the result of png_image_write_to_file), the engine is
      * released, and on_save gets the result.
      */
    method PhotoThread(args: PhotoArgs, written: bool)
      requires Valid() && maxIterations >= 1 && width >= 0 && height >= 0 && args.threads >= 1
      modifies this`busy, this`genRows, this`useSem, this`imageData, this`events
      ensures !busy && useSem == args.onProgress
      ensures imageData != null && fresh(imageData) && imageData[..] == Image(Current(), palette)
      ensures genRows == if args.onProgress then height else old(genRows)
      ensures events == old(events) + [Saved(written)]
    {
      useSem := false;
      if args.onProgress {
        genRows := 0;
        useSem := true;
      }
      DrawImage(args.threads);
      busy := false;
      events := events + [Saved(written)];
    }

    /**
      * fractal_begin_video: the same admission, with the video settings and
      * the progress callback also required; on acceptance the zoom is set to
      * zoom_start * height, frames are to be generated, and progress 0 is
      * reported.
      */
    method BeginVideo(config: Option<FractalConfig>, videoConfig: Option<VideoConfig>, filename: Option<string>,
                      onProgress: bool, onSave: bool)
      returns (r: FractalError, job: Option<VideoArgs>)
      requires Valid()
      requires config.Some? && videoConfig.Some? && filename.Some? && onProgress && onSave && !busy ==>
        Supported(config.value)
      modifies this
      ensures Valid()
      ensures r == MbOk || r == MbError || r == MbExec
      ensures r == MbError <==> config.None? || videoConfig.None? || filename.None? || !onProgress || !onSave
      ensures r == MbExec <==>
        config.Some? && videoConfig.Some? && filename.Some? && onProgress && onSave && old(busy)
      ensures r != MbOk ==> job.None? && unchanged(this)
      ensures r == MbOk ==>
        var c, vc := config.value, videoConfig.value;
        && busy && generateMoreFrames
        && useJulia == c.useJulia && width == c.width && height == c.height && maxIterations == c.maxIterations
        && palette == Table(maxIterations)
        && (c.useJulia ==> juliaX0 == c.x && juliaY0 == c.y && tx == c.juliaX && ty == c.juliaY)
        && (!c.useJulia ==> tx == c.x && ty == c.y && juliaX0 == old(juliaX0) && juliaY0 == old(juliaY0))
        && zoom == vc.zoomStart * c.height as real
        && genRows == old(genRows) && useSem == old(useSem) && imageData == old(imageData)
        && events == old(events) + [Progress(0.0)]
        && job == Some(VideoArgs(onProgress, onSave, filename.value, c.threads, vc.frameRate, vc.zoomStep))
    {
      if config.None? || videoConfig.None? || filename.None? || !onProgress || !onSave {
        return MbError, None;
      }
      if busy {
        return MbExec, None;
      }
      busy := true;
      Prepare(config.value);
      zoom := videoConfig.value.zoomStart * config.value.height as real;
      generateMoreFrames := true;
      events := events + [Progress(0.0)];
      var c, vc := config.value, videoConfig.value;
      return MbOk, Some(VideoArgs(onProgress, onSave, filename.value, c.threads, vc.frameRate, vc.zoomStep));
    }

    /**
      * One frame of video_thread: the workers draw the image, which is then
      * submitted with a stride of width * 3 bytes. A non-negative result is
      * the video counter, moved on by one. An image without columns is refused
      * by the stride check; with at least one column and every library call
      * succeeding, the submission succeeds.
      */
    method RenderAndSubmit(ctx: VideoCtx, threads: int, env: set<Op>, tone: real -> real) returns (pts: int)
      requires Drawable() && threads >= 1 && !useSem
      requires ctx.Valid() && !ctx.closed && ctx.Accounted()
      modifies this`genRows, imageData, ctx, ctx.srcAudioData
      ensures genRows == old(genRows) && imageData[..] == Image(Current(), palette)
      ensures ctx.Valid() && ctx.SameSettings()
      ensures pts >= 0 ==> pts == ctx.videoPts == old(ctx.videoPts) + 1 && !ctx.closed && ctx.Accounted()
      ensures pts >= 0 ==> !ctx.videoEnc.draining && ctx.audioEnc.draining == old(ctx.audioEnc.draining)
      ensures width < 1 ==> pts == -1
      ensures width >= 1 && CleanRun(env) && !old(ctx.audioEnc).draining && !old(ctx.videoEnc).draining ==> pts >= 0
    {
      RunWorkers(threads);
      pts := VideoSendFrame(ctx, true, width * 3, env, tone);
    }

    /**
      * The end of a frame of video_thread: on_progress gets the video counter
      * `pts` in seconds, and the zoom is multiplied by the zoom step.
      */
    method ReportAndZoom(pts: int, framerate: int, zoomStep: real, ghost z0: real, ghost e0: seq<Event>, ghost n: nat)
      requires framerate >= 1 && pts == n + 1
      requires events == e0 + ProgressRun(n, framerate) && zoom == Zoomed(z0, zoomStep, n)
      modifies this`events, this`zoom
      ensures events == e0 + ProgressRun(n + 1, framerate) && zoom == Zoomed(z0, zoomStep, n + 1)
    {
      events := events + [Progress(pts as real / framerate as real)];
      assert ProgressRun(n + 1, framerate) == ProgressRun(n, framerate) + [Progress(pts as real / framerate as real)];
      zoom := zoom * zoomStep;
    }

    /**
      * One pass of the frame loop of video_thread: the workers draw the image
      * at the current zoom and it is submitted; on success progress reports
      * the new video counter in seconds, the zoom is multiplied by the zoom
      * step, and the stop request arrives if `stopAfter` frames are now in.
      */
    method NextFrame(ctx: VideoCtx, args: VideoArgs, lib: Library, stopAfter: nat, frames: nat,
                     ghost z0: real, ghost e0: seq<Event>)
      returns (failed: bool)
      requires Drawable() && args.threads >= 1 && args.framerate >= 1 && !useSem
      requires frames < stopAfter && generateMoreFrames
      requires ctx.Valid() && !ctx.closed && ctx.Accounted() && ctx.videoPts == frames
      requires !ctx.audioEnc.draining && !ctx.videoEnc.draining
      requires events == e0 + ProgressRun(frames, args.framerate) && zoom == Zoomed(z0, args.zoomStep, frames)
      modifies this`genRows, this`zoom, this`events, this`generateMoreFrames, imageData, ctx, ctx.srcAudioData
      ensures ctx.Valid() && ctx.SameSettings() && genRows == old(genRows)
      ensures failed ==> events == old(events) && zoom == old(zoom) && generateMoreFrames == old(generateMoreFrames)
      ensures !failed ==>
        && !ctx.closed && ctx.Accounted() && ctx.videoPts == frames + 1
        && events == e0 + ProgressRun(frames + 1, args.framerate) && zoom == Zoomed(z0, args.zoomStep, frames + 1)
        && generateMoreFrames == (frames + 1 < stopAfter)
        && !ctx.audioEnc.draining && !ctx.videoEnc.draining
      ensures width >= 1 && CleanRun(lib.frameEnv(frames)) ==> !failed
    {
      var pts := RenderAndSubmit(ctx, args.threads, lib.frameEnv(frames), lib.tone);
      if pts < 0 {
        return true;
      }
      ReportAndZoom(pts, args.framerate, args.zoomStep, z0, e0, frames);
      if frames + 1 == stopAfter {
        var _ := VideoStop();
      }
      return false;
    }

    /**
      * The frame loop of video_thread: frames are drawn and submitted while
      * frames are to be generated; a negative video counter ends the loop as a
      * failure. The stop request of the user interface (mb_video_stop) is
      * taken to arrive once `stopAfter` frames are submitted.
      */
    method EncodeFrames(ctx: VideoCtx, args: VideoArgs, lib: Library, stopAfter: nat)
      returns (failed: bool, frames: nat)
      requires Drawable() && args.threads >= 1 && !useSem && generateMoreFrames
      requires ctx.Valid() && !ctx.closed && ctx.Accounted() && ctx.videoPts == 0 && ctx.framerate == args.framerate
      requires !ctx.audioEnc.draining && !ctx.videoEnc.draining
      modifies this`genRows, this`zoom, this`events, this`generateMoreFrames, imageData, ctx, ctx.srcAudioData
      ensures ctx.Valid() && ctx.SameSettings() && frames <= stopAfter
      ensures failed ==> frames < stopAfter
      ensures !failed ==> frames == stopAfter == ctx.videoPts && !generateMoreFrames && !ctx.closed && ctx.Accounted()
      ensures !failed ==> !ctx.audioEnc.draining && !ctx.videoEnc.draining
      ensures width >= 1 && CleanFrames(lib, stopAfter) ==> !failed
      ensures events == old(events) + ProgressRun(frames, args.framerate)
      ensures zoom == Zoomed(old(zoom), args.zoomStep, frames)
      ensures genRows == old(genRows)
    {
      frames := 0;
      if frames == stopAfter {
        var _ := VideoStop();
      }
      ghost var z0, e0 := zoom, events;
      while generateMoreFrames
        invariant Drawable() && !useSem
        invariant frames <= stopAfter && generateMoreFrames == (frames < stopAfter)
        invariant ctx.Valid() && ctx.SameSettings() && !ctx.closed && ctx.Accounted() && ctx.videoPts == frames
        invariant !ctx.audioEnc.draining && !ctx.videoEnc.draining
        invariant events == e0 + ProgressRun(frames, args.framerate)
        invariant zoom == Zoomed(z0, args.zoomStep, frames)
        invariant genRows == old(genRows)
        decreases stopAfter - frames
      {
        var failed := NextFrame(ctx, args, lib, stopAfter, frames, z0, e0);
        assert width >= 1 && CleanFrames(lib, stopAfter) ==> CleanRun(lib.frameEnv(frames));
        if failed {
          return true, frames;
        }
        frames := frames + 1;
      }
      return false, frames;
    }

    /**
      * The body of video_thread up to its end: the video context is created
      * for the image size and frame rate (NULL ends the body), the image
      * buffer is allocated, counting is switched off, the frame loop runs, and
      * video_ctx_free flushes the stream and finalises the file or ends the
      * process. `ctx` is the context, for what the file then holds.
      */
    method RunVideo(args: VideoArgs, lib: Library, stopAfter: nat) returns (outcome: VideoOutcome, ghost ctx: VideoCtx?)
      requires PaletteMemo() && maxIterations >= 1 && width >= 0 && height >= 0
      requires args.threads >= 1 && generateMoreFrames && lib.frameSize >= 1
      modifies this`genRows, this`useSem, this`imageData, this`zoom, this`events, this`generateMoreFrames
      ensures outcome.OpenFailed? <==> OpenFails(lib, args.framerate)
      ensures outcome.OpenFailed? ==> imageData == old(imageData) && useSem == old(useSem)
      ensures !outcome.OpenFailed? ==>
        && !useSem && imageData != null && fresh(imageData) && imageData.Length == width * height * 3
      ensures outcome.FrameFailed? ==> outcome.frames < stopAfter
      ensures outcome.Exited? ==> outcome.status != 0
      ensures events == old(events) + ProgressRun(FramesSent(outcome, stopAfter), args.framerate)
      ensures zoom == Zoomed(old(zoom), args.zoomStep, FramesSent(outcome, stopAfter))
      ensures genRows == old(genRows)
      ensures outcome.Completed? ==>
        && ctx != null && ctx.Valid() && ctx.closed == (WriteTrailer !in lib.flushEnv)
        && Filter(ctx.out, VideoStream) == Iota(stopAfter)
        && Filter(ctx.out, AudioStream) == AudioSteps(0, ctx.audioPts / ctx.frameSize, ctx.frameSize)
      ensures CleanVideo(lib, args.framerate, width, stopAfter) ==> outcome == Completed
    {
      var videoCtx, result := VideoCtxNew(width, height, args.framerate, lib.frameSize,
                                          lib.videoDelay, lib.audioDelay, lib.openEnv);
      ctx := videoCtx;
      if videoCtx == null {
        return OpenFailed, ctx;
      }
      AllocateImage();
      useSem := false;
      var failed, frames := EncodeFrames(videoCtx, args, lib, stopAfter);
      if failed {
        return FrameFailed(frames), ctx;
      }
      ghost var z1, e1 := zoom, events;
      var exitStatus := VideoCtxFree(videoCtx, lib.flushEnv, lib.tone);
      assert zoom == z1 && events == e1;
      if exitStatus.Some? {
        return Exited(exitStatus.value), ctx;
      }
      return Completed, ctx;
    }

    /**
      * video_thread with the engine released on every path that reports to
      * on_save: after a failed start or a failed frame the engine takes new
      * jobs again, as it does after a finished video.
      */
    method VideoThread(args: VideoArgs, lib: Library, stopAfter: nat) returns (outcome: VideoOutcome)
      requires PaletteMemo() && maxIterations >= 1 && width >= 0 && height >= 0
      requires args.threads >= 1 && generateMoreFrames && lib.frameSize >= 1
      modifies this`busy, this`genRows, this`useSem, this`imageData, this`zoom, this`events, this`generateMoreFrames
      ensures outcome.Exited? ==> outcome.status != 0 && busy == old(busy)
      ensures !outcome.Exited? ==> !busy
      ensures outcome.FrameFailed? ==> outcome.frames < stopAfter
      ensures outcome.OpenFailed? <==> OpenFails(lib, args.framerate)
      ensures events == old(events) + ProgressRun(FramesSent(outcome, stopAfter), args.framerate) + SaveReport(outcome)
      ensures zoom == Zoomed(old(zoom), args.zoomStep, FramesSent(outcome, stopAfter))
      ensures CleanVideo(lib, args.framerate, width, stopAfter) ==> outcome == Completed
    {
      ghost var ctx;
      outcome, ctx := RunVideo(args, lib, stopAfter);
      match outcome
      case Exited(_) =>
      case Completed =>
        busy := false;
        events := events + [Saved(true)];
      case _ =>
        busy := false;
        events := events + [Saved(false)];
    }

    /**
      * video_thread as written: mb_gen_status is cleared only after a
      * finished video, so after a failed start or a failed frame the engine
      * stays busy and every later begin call answers MB_EXEC.
      */
    method VideoThreadAsWritten(args: VideoArgs, lib: Library, stopAfter: nat) returns (outcome: VideoOutcome)
      requires PaletteMemo() && maxIterations >= 1 && width >= 0 && height >= 0
      requires args.threads >= 1 && generateMoreFrames && lib.frameSize >= 1
      modifies this`busy, this`genRows, this`useSem, this`imageData, this`zoom, this`events, this`generateMoreFrames
      ensures outcome.Completed? ==> !busy
      ensures !outcome.Completed? ==> busy == old(busy)
      ensures outcome.FrameFailed? ==> outcome.frames < stopAfter
      ensures outcome.OpenFailed? <==> OpenFails(lib, args.framerate)
      ensures events == old(events) + ProgressRun(FramesSent(outcome, stopAfter), args.framerate) + SaveReport(outcome)
      ensures zoom == Zoomed(old(zoom), args.zoomStep, FramesSent(outcome, stopAfter))
      ensures CleanVideo(lib, args.framerate, width, stopAfter) ==> outcome == Completed
    {
      ghost var ctx;
      outcome, ctx := RunVideo(args, lib, stopAfter);
      match outcome
      case Exited(_) =>
      case Completed =>
        busy := false;
        events := events + [Saved(true)];
      case _ =>
        events := events + [Saved(false)];
    }
  }
}
