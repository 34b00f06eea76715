/** The sequential start-up of one worker process in `main`: the
    rotation angle of its view, the command-line scan, and the per-rank
    output path. Process-group set-up, mesh loading, rasterisation and
    image encoding are not part of this model. */
module Worker {
  import opened Outcomes
  import opened Numerals
  import opened Options
  import opened OutputPath

  /** What a worker hands on to rendering and encoding. */
  datatype Job = Job(config: Config, angle: real)

  /** The camera rotation of worker `rank` among `size` workers, in degrees,
      evaluated exactly: the views are spread evenly over a half turn. */
  function RotationAngle(rank: nat, size: nat): (a: real)
    ensures size <= 1 ==> a == 0.0
    ensures rank < size ==> 0.0 <= a <= 180.0
  {
    if size > 1 then 180.0 * (rank as real / (size - 1) as real) else 0.0
  }

  /** The first worker looks at the scene unrotated and the last one
      from the opposite side. */
  lemma RotationEndpoints(size: nat)
    requires size > 1
    ensures RotationAngle(0, size) == 0.0
    ensures RotationAngle(size - 1, size) == 180.0
  {
    var d := (size - 1) as real;
    assert d / d == 1.0;
  }

  /** Higher ranks get strictly larger angles. */
  lemma RotationIncreasing(rank1: nat, rank2: nat, size: nat)
    requires rank1 < rank2 < size
    ensures RotationAngle(rank1, size) < RotationAngle(rank2, size)
  {
    var d := (size - 1) as real;
    assert rank2 as real / d - rank1 as real / d == (rank2 - rank1) as real / d;
  }

  /** The start-up sequence of worker `rank`: the angle is fixed first,
      then the arguments are scanned, then the rank is inserted into the
      output path in place. In `main` the mesh is loaded and rasterised
      between the scan and the insertion (src/main.cpp:54-56); those calls
      are taken to return normally. An exception from the scan or the
      insertion ends the worker. */
  method PrepareWorker(argv: seq<string>, rank: nat, size: nat) returns (r: Result<Job>)
    requires rank < size
    ensures r.Ok? <==> Parse(argv).Ok? && |Parse(argv).value.output| >= TAIL
    ensures r.Err? && Parse(argv).Err? ==> r.error == Parse(argv).error
    ensures r.Err? && Parse(argv).Ok? ==> r.error == OutOfRange
    ensures r.Ok? ==>
      && r.value.angle == RotationAngle(rank, size)
      && Ok(r.value.config.output) == RankedPath(Parse(argv).value.output, rank)
      && r.value.config == Parse(argv).value.(output := r.value.config.output)
  {
    var angle := RotationAngle(rank, size);
    var parsed := ParseArgs(argv);
    if parsed.Err? {
      return Err(parsed.error);
    }
    var config := parsed.value;
    var output := config.output;
    if |output| < TAIL {
      return Err(OutOfRange);
    }
    var at := |output| - TAIL;
    output := output[..at] + ToString(rank) + output[at..];
    r := Ok(Job(config.(output := output), angle));
  }
}
