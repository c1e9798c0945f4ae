/**
 * train.py: the discrete bookkeeping around generator pretraining. The figure grid, the
 * tracking batches, the step / report schedule with its checkpoints and figures, the
 * `pretrain_` rewrite of the keyword arguments, and the progress and log-level choices.
 * The network, the losses' numerics and all plotting are outside the model: a step's loss
 * is a parameter.
 */
module Train {
  import opened Wrappers
  import opened PyText

  // ---------------------------------------------------------------------------------------
  // _save_generated_images: the figure grid
  // ---------------------------------------------------------------------------------------

  /** Every figure has 8 columns of subplots. */
  const Columns: nat := 8

  /** `batch_size // 8 if batch_size >= 8 else 1`, the row count as written. */
  function GridRows(n: int): (rows: int)
    ensures rows >= 1
    ensures n < Columns ==> rows == 1
    ensures n >= Columns ==> rows * Columns <= n < rows * Columns + Columns
  {
    if n >= Columns then n / Columns else 1
  }

  /** The row count that holds n subplots: at least one row, and no more rows than needed. */
  function FittingRows(n: int): (rows: int)
    ensures rows >= 1 && n <= rows * Columns
    ensures rows == 1 || (rows - 1) * Columns < n
  {
    if n <= Columns then 1 else (n + Columns - 1) / Columns
  }

  /**
   * `for i in range(n): fig.add_subplot(rows, 8, i + 1)`. A subplot index past rows * 8
   * raises ValueError, so the loop stops there.
   */
  method PlaceSubplots(n: nat, rows: int) returns (placed: nat, raised: Option<Exception>)
    requires rows >= 1
    ensures raised == None <==> n <= rows * Columns
    ensures raised.Some? ==> raised == Some(ValueError)
    ensures placed == if n <= rows * Columns then n else rows * Columns
  {
    placed := 0;
    for i := 0 to n
      invariant placed == i && i <= rows * Columns
    {
      if i + 1 > rows * Columns {
        return placed, Some(ValueError);
      }
      placed := placed + 1;
    }
    raised := None;
  }

  /** n images overflow the grid as written: at least 8 of them, and not a multiple of 8. */
  predicate Overflows(n: int)
  {
    n >= Columns && n % Columns != 0
  }

  /** The figure of n images as written: it fails whenever n >= 8 is not a multiple of 8. */
  method SaveGeneratedImagesAsWritten(n: nat) returns (placed: nat, raised: Option<Exception>)
    ensures raised.Some? <==> Overflows(n)
    ensures raised.Some? ==> raised == Some(ValueError)
    ensures raised.None? ==> placed == n
  {
    GridOverflow(n);
    placed, raised := PlaceSubplots(n, GridRows(n));
  }

  /** The figure of n images with the fitting row count: every image gets its subplot. */
  method SaveGeneratedImages(n: nat) returns (placed: nat, raised: Option<Exception>)
    ensures raised == None && placed == n
  {
    placed, raised := PlaceSubplots(n, FittingRows(n));
  }

  /** With the rows as written the grid is too small exactly for n >= 8 not divisible by 8. */
  lemma GridOverflow(n: nat)
    ensures n > GridRows(n) * Columns <==> n >= Columns && n % Columns != 0
  {
  }

  /**
   * 16 images take 2 rows and 3 images 1 row; 12 images also get one row of 8 cells, so
   * the ninth subplot does not exist.
   */
  lemma GridOverflowExample()
    ensures GridRows(16) == 2 && GridRows(3) == 1
    ensures GridRows(12) == 1 && 12 > GridRows(12) * Columns
    ensures FittingRows(12) == 2 && 12 <= FittingRows(12) * Columns
  {
  }

  /** Where the rows as written do fit, the fitting rows are the same number. */
  lemma FittingRowsAgree(n: nat)
    requires n <= GridRows(n) * Columns
    ensures FittingRows(n) == GridRows(n)
  {
  }

  // ---------------------------------------------------------------------------------------
  // progress wrapper and log level
  // ---------------------------------------------------------------------------------------

  /** `self.tqdm`: the identity `_tqdm`, or tqdm itself. */
  datatype Progress = Identity | Tqdm

  /** `_tqdm if not show_progress or __no_tqdm__ else tqdm`. */
  function SelectProgress(showProgress: bool, tqdmMissing: bool): Progress
  {
    if !showProgress || tqdmMissing then Identity else Tqdm
  }

  /** `_tqdm(res) == res`: the identity wrapper hands back its argument. */
  function ApplyIdentity<T>(res: T): T
  {
    res
  }

  /** tqdm is used exactly when progress is shown and tqdm imported; otherwise nothing wraps. */
  lemma ProgressSelection(showProgress: bool, tqdmMissing: bool, notShowProgressBar: bool, res: seq<int>)
    ensures SelectProgress(showProgress, tqdmMissing) == Tqdm <==> showProgress && !tqdmMissing
    ensures SelectProgress(ShowProgress(notShowProgressBar), tqdmMissing) == Tqdm <==>
              !notShowProgressBar && !tqdmMissing
    ensures !showProgress ==> SelectProgress(showProgress, tqdmMissing) == Identity
    ensures tqdmMissing ==> SelectProgress(showProgress, tqdmMissing) == Identity
    ensures ApplyIdentity(res) == res
  {
  }

  /** `args.show_progress = not args.not_show_progress_bar`. */
  function ShowProgress(notShowProgressBar: bool): bool
  {
    !notShowProgressBar
  }

  const Debug: int := 10
  const Info: int := 20
  const Warning: int := 30
  const Error: int := 40
  const Critical: int := 50

  /** The `log_lvl` table. */
  const LogLevels: map<string, int> :=
    map["debug" := Debug, "info" := Info, "warning" := Warning, "error" := Error, "critical" := Critical]

  /** `logging.DEBUG if args.debug else log_lvl[args.logging_lvl]`. */
  function SelectLevel(debug: bool, loggingLvl: string): Result<int, Exception>
  {
    if debug then Ok(Debug)
    else if loggingLvl in LogLevels then Ok(LogLevels[loggingLvl])
    else Err(KeyError)
  }

  /**
   * `--debug` forces DEBUG whatever `--logging_lvl` says. Without it every parser choice
   * selects its own level, by increasing severity, and another name is a KeyError.
   */
  lemma LevelSelection(loggingLvl: string, other: string)
    ensures SelectLevel(true, loggingLvl) == SelectLevel(true, other) == Ok(Debug)
    ensures SelectLevel(false, loggingLvl).Err? <==>
            loggingLvl !in {"debug", "info", "warning", "error", "critical"}
    ensures SelectLevel(false, "debug").value < SelectLevel(false, "info").value
              < SelectLevel(false, "warning").value < SelectLevel(false, "error").value
              < SelectLevel(false, "critical").value
    ensures SelectLevel(false, "info") == Ok(Info)
  {
  }

  // ---------------------------------------------------------------------------------------
  // pretrain_generator: tracking batches, steps and reports
  // ---------------------------------------------------------------------------------------

  /** An image batch: the i-th one drawn from the dataset, or the generator's output for one. */
  datatype Batch = Drawn(index: nat) | Generated(step: nat, from: Batch)

  /** What a run leaves behind besides its losses. */
  datatype Event =
    | SaveFigure(fname: string, batches: seq<Batch>, images: nat, rows: int)
    | SaveCheckpoint(dir: string, prefix: string)
    | LogStep(step: nat, loss: real)

  const OriginalImageName: string := "original_image.png"
  const CheckpointPrefix: string := "pretrain_generator_with_vgg"

  /** `f"generated_image_at_step_{step}.png"`. */
  function ImageName(step: nat): string
  {
    "generated_image_at_step_" + NatToString(step) + ".png"
  }

  /** `int(tracking_size / batch_size)`: true division, then truncation toward zero. */
  function TrackingCount(trackingSize: int, batchSize: int): int
    requires batchSize > 0
  {
    TruncToInt(trackingSize as real / batchSize as real)
  }

  /** `step and step % reporting_steps == 0`, for a non-zero reporting_steps. */
  predicate IsReportStep(step: nat, reportingSteps: int)
  {
    step != 0 && reportingSteps != 0 && step % reportingSteps == 0
  }

  /** The report steps among `range(n)`, in order. */
  function ReportSteps(n: nat, reportingSteps: int): seq<nat>
  {
    if n == 0 then []
    else ReportSteps(n - 1, reportingSteps) + (if IsReportStep(n - 1, reportingSteps) then [n - 1] else [])
  }

  /** The steps that run: all of `range(n)`, or steps 0 and 1 when step 1 divides by zero. */
  function StepsRun(numIterations: int, reportingSteps: int): nat
  {
    if numIterations <= 0 then 0
    else if reportingSteps == 0 && numIterations >= 2 then 2
    else numIterations
  }

  /** The first `count` drawn batches. */
  function RealBatches(count: nat): (reals: seq<Batch>)
    ensures |reals| == count
    ensures forall i :: 0 <= i < count ==> reals[i] == Drawn(i)
  {
    seq(count, i requires 0 <= i => Drawn(i))
  }

  /** One generated batch per tracking batch, in the same order. */
  function FakeBatches(step: nat, reals: seq<Batch>): (fakes: seq<Batch>)
    ensures |fakes| == |reals|
    ensures forall i :: 0 <= i < |reals| ==> fakes[i] == Generated(step, reals[i])
  {
    seq(|reals|, i requires 0 <= i < |reals| => Generated(step, reals[i]))
  }

  /** The losses of the first n steps, one per step, in order. */
  function Losses(n: nat, loss: nat -> real): (losses: seq<real>)
    ensures |losses| == n
    ensures forall i :: 0 <= i < n ==> losses[i] == loss(i)
  {
    seq(n, i requires 0 <= i => loss(i))
  }

  /** `_save_generated_images(np.concatenate(batches), fname)`, saved on the grid as written. */
  function Figure(fname: string, batches: seq<Batch>, batchSize: nat): Event
  {
    SaveFigure(fname, batches, |batches| * batchSize, GridRows(|batches| * batchSize))
  }

  /** A report at `step`: checkpoint, generated figure, log line. */
  function ReportEvents(step: nat, reals: seq<Batch>, batchSize: nat, saveDir: string, loss: nat -> real): seq<Event>
  {
    [SaveCheckpoint(saveDir, CheckpointPrefix),
     Figure(ImageName(step), FakeBatches(step, reals), batchSize),
     LogStep(step, loss(step))]
  }

  /** The reports of the given steps, one after the other. */
  function ScheduleEvents(steps: seq<nat>, reals: seq<Batch>, batchSize: nat, saveDir: string, loss: nat -> real): seq<Event>
  {
    if |steps| == 0 then []
    else ScheduleEvents(steps[..|steps| - 1], reals, batchSize, saveDir, loss)
         + ReportEvents(steps[|steps| - 1], reals, batchSize, saveDir, loss)
  }

  /** A step of `range(n)` reports exactly when it is non-zero and a multiple of reporting_steps. */
  lemma {:induction false} ReportStepsMembers(n: nat, reportingSteps: int)
    ensures forall s :: s in ReportSteps(n, reportingSteps) <==>
                          0 < s < n && reportingSteps != 0 && s % reportingSteps == 0
    ensures forall i, j :: 0 <= i < j < |ReportSteps(n, reportingSteps)| ==>
                             ReportSteps(n, reportingSteps)[i] < ReportSteps(n, reportingSteps)[j]
  {
    if n > 0 {
      var prior := ReportSteps(n - 1, reportingSteps);
      ReportStepsMembers(n - 1, reportingSteps);
      forall i | 0 <= i < |prior| ensures prior[i] < n - 1 {
        assert prior[i] in prior;
      }
    }
  }

  /** `q == (n - 1) // d` steps one further exactly at a multiple of d. */
  lemma DivStep(n: int, d: int)
    requires n >= 1 && d > 0
    ensures n / d == (n - 1) / d + (if n % d == 0 then 1 else 0)
  {
    var q, r := (n - 1) / d, (n - 1) % d;
    assert n - 1 == q * d + r && 0 <= r < d;
    if r + 1 == d {
      assert n == (q + 1) * d;
      NextMultiple(q + 1, d);
      QuotientBetween(n, d, q + 1);
    } else {
      assert n == q * d + (r + 1);
      NextMultiple(q, d);
      QuotientBetween(n, d, q);
    }
  }

  lemma NextMultiple(q: int, d: int)
    ensures (q + 1) * d == q * d + d
  {
  }

  lemma MulAtLeast(t: int, d: int)
    requires t >= 1 && d > 0
    ensures t * d >= d
  {
    var u := t - 1;
    assert u * d >= 0;
    assert t * d == u * d + d;
  }

  lemma Distribute(a: int, b: int, d: int)
    ensures (a - b) * d == a * d - b * d
  {
  }

  /** Over `range(n)`, n >= 1, the report count is (n - 1) // reporting_steps. */
  lemma {:induction false} ReportCount(n: nat, reportingSteps: int)
    requires n >= 1 && reportingSteps > 0
    ensures |ReportSteps(n, reportingSteps)| == (n - 1) / reportingSteps
  {
    if n > 1 {
      ReportCount(n - 1, reportingSteps);
      DivStep(n - 1, reportingSteps);
    }
  }

  /** 250 and 300 iterations every 100 steps both report at steps 100 and 200 only. */
  lemma ReportExamples()
    ensures ReportSteps(250, 100) == [100, 200]
    ensures ReportSteps(300, 100) == [100, 200]
  {
    ReportExample(250);
    ReportExample(300);
  }

  lemma ReportExample(n: nat)
    requires 201 <= n <= 300
    ensures ReportSteps(n, 100) == [100, 200]
  {
    var r := ReportSteps(n, 100);
    ReportCount(n, 100);
    assert |r| == 2;
    ReportStepsMembers(n, 100);
    assert 100 in r && 200 in r;
    assert r[0] < r[1];
    assert r[0] % 100 == 0 && r[1] % 100 == 0 && 0 < r[0] && r[1] < 300;
  }

  /** The tracking count is tracking_size // batch_size for a non-negative tracking size. */
  lemma TrackingCountDivides(trackingSize: int, batchSize: int)
    requires batchSize > 0
    ensures trackingSize >= 0 ==> TrackingCount(trackingSize, batchSize) == trackingSize / batchSize
    ensures TrackingCount(trackingSize, batchSize) <= 0 <==> trackingSize < batchSize
  {
    var k := TrackingCount(trackingSize, batchSize);
    if trackingSize >= 0 {
      FloorBounds(trackingSize, batchSize, k);
      QuotientBetween(trackingSize, batchSize, k);
    } else {
      NegativeQuotient(trackingSize, batchSize);
    }
  }

  /** The truncated quotient k of t / b, t >= 0, satisfies k * b <= t < (k + 1) * b. */
  lemma FloorBounds(t: int, b: int, k: int)
    requires t >= 0 && b > 0 && k == TrackingCount(t, b)
    ensures k * b <= t < (k + 1) * b
  {
    QuotientNonNegative(t, b);
    assert k as real <= t as real / b as real < (k + 1) as real;
    LowerMultiple(t, b, k);
    UpperMultiple(t, b, k + 1);
  }

  lemma QuotientNonNegative(t: int, b: int)
    requires t >= 0 && b > 0
    ensures t as real / b as real >= 0.0
  {
  }

  lemma LowerMultiple(t: int, b: int, k: int)
    requires b > 0 && k as real <= t as real / b as real
    ensures k * b <= t
  {
  }

  lemma UpperMultiple(t: int, b: int, m: int)
    requires b > 0 && t as real / b as real < m as real
    ensures t < m * b
  {
  }

  /** The q with q * d <= n < (q + 1) * d is n // d. */
  lemma QuotientBetween(n: int, d: int, q: int)
    requires d > 0 && q * d <= n < (q + 1) * d
    ensures n / d == q
  {
    var q', r' := n / d, n % d;
    assert n == q' * d + r' && 0 <= r' < d;
    if q > q' {
      MulAtLeast(q - q', d);
      Distribute(q, q', d);
    } else if q < q' {
      MulAtLeast(q' - q, d);
      Distribute(q', q, d);
    }
  }

  lemma NegativeQuotient(t: int, b: int)
    requires t < 0 && b > 0
    ensures t as real / b as real < 0.0
  {
    QuotientSign(t as real, b as real);
  }

  lemma QuotientSign(a: real, c: real)
    requires a < 0.0 && c > 0.0
    ensures a / c < 0.0
  {
    assert (a / c) * c == a;
  }

  /**
   * The default 16 tracking images in batches of 1 fill two rows exactly; in batches of 5
   * they make 3 batches of 15 images, which overflow the one row the grid as written gets.
   */
  lemma TrackingFigureExample()
    ensures TrackingCount(16, 1) * 1 == 16 && !Overflows(16)
    ensures TrackingCount(16, 5) * 5 == 15 && Overflows(15) && GridRows(15) == 1
  {
    TrackingDefaults();
  }

  /** The parser defaults: 16 tracking images in batches of 1 give 16 tracking batches. */
  lemma TrackingDefaults()
    ensures TrackingCount(16, 1) == 16
    ensures TrackingCount(16, 5) == 3
    ensures TrackingCount(3, 4) == 0
  {
    TrackingCountDivides(16, 1);
    TrackingCountDivides(16, 5);
    TrackingCountDivides(3, 4);
  }

  /**
   * The k-th report of a schedule is three events: its checkpoint, its figure of one
   * generated batch per tracking batch, and its log line.
   */
  lemma {:induction false} ScheduleLayout(steps: seq<nat>, reals: seq<Batch>, batchSize: nat, saveDir: string, loss: nat -> real)
    ensures |ScheduleEvents(steps, reals, batchSize, saveDir, loss)| == 3 * |steps|
    ensures forall k :: 0 <= k < |steps| ==>
              var e := ScheduleEvents(steps, reals, batchSize, saveDir, loss);
              e[3 * k] == SaveCheckpoint(saveDir, CheckpointPrefix) &&
              e[3 * k + 1] == Figure(ImageName(steps[k]), FakeBatches(steps[k], reals), batchSize) &&
              e[3 * k + 2] == LogStep(steps[k], loss(steps[k]))
  {
    if |steps| > 0 {
      var init := steps[..|steps| - 1];
      ScheduleLayout(init, reals, batchSize, saveDir, loss);
      forall k | 0 <= k < |init| ensures init[k] == steps[k] { }
    }
  }

  /** `generated_image_at_step_100.png`. */
  lemma ImageNameExample()
    ensures ImageName(100) == "generated_image_at_step_100.png"
  {
    assert NatToString(100) == "100";
  }

  /** Extending the report steps by one step adds that step's report at the end. */
  lemma ScheduleAppend(steps: seq<nat>, step: nat, reals: seq<Batch>, batchSize: nat, saveDir: string, loss: nat -> real)
    ensures ScheduleEvents(steps + [step], reals, batchSize, saveDir, loss)
            == ScheduleEvents(steps, reals, batchSize, saveDir, loss) + ReportEvents(step, reals, batchSize, saveDir, loss)
  {
    assert (steps + [step])[..|steps|] == steps;
  }

  /** `for _ in range(count): real_batches.append(sess.run(input_images))`. */
  method DrawBatches(count: nat) returns (reals: seq<Batch>)
    ensures reals == RealBatches(count)
  {
    reals := [];
    for i := 0 to count
      invariant reals == RealBatches(i)
    {
      reals := reals + [Drawn(i)];
    }
  }

  /** `for real_batch in real_batches: fake_batches.append(sess.run(generated_images, ...))`. */
  method GenerateBatches(step: nat, reals: seq<Batch>) returns (fakes: seq<Batch>)
    ensures fakes == FakeBatches(step, reals)
  {
    fakes := [];
    for j := 0 to |reals|
      invariant fakes == FakeBatches(step, reals[..j])
    {
      fakes := fakes + [Generated(step, reals[j])];
    }
    assert reals[..|reals|] == reals;
  }

  /**
   * The body of a report step: generate one batch per tracking batch, save the checkpoint,
   * draw and save the generated figure (which fits, as the tracking figure of as many images
   * did) and log the step.
   */
  method Report(step: nat, reals: seq<Batch>, batchSize: nat, saveDir: string, loss: nat -> real)
    returns (events: seq<Event>)
    requires !Overflows(|reals| * batchSize)
    ensures events == ReportEvents(step, reals, batchSize, saveDir, loss)
  {
    var fakes := GenerateBatches(step, reals);
    var _, drawn := SaveGeneratedImagesAsWritten(|fakes| * batchSize);
    assert drawn == None;
    events := [SaveCheckpoint(saveDir, CheckpointPrefix), Figure(ImageName(step), fakes, batchSize),
               LogStep(step, loss(step))];
  }

  /** A Trainer: the settings `__init__` stores. */
  class Trainer {
    var datasetName: string
    var sourceDomain: string
    var targetDomain: string
    var inputSize: int
    var batchSize: int
    var logdir: string
    var saveDir: string
    var logger: string
    var progress: Progress

    /** `__init__` with a given logger (named here by its name). */
    constructor (datasetName: string, sourceDomain: string, targetDomain: string, inputSize: int,
                 batchSize: int, showProgress: bool, logger: string, logdir: string, saveDir: string,
                 tqdmMissing: bool)
      ensures this.datasetName == datasetName && this.sourceDomain == sourceDomain
      ensures this.targetDomain == targetDomain && this.inputSize == inputSize
      ensures this.batchSize == batchSize && this.logdir == logdir && this.saveDir == saveDir
      ensures this.logger == logger
      ensures this.progress == SelectProgress(showProgress, tqdmMissing)
    {
      this.datasetName := datasetName;
      this.sourceDomain := sourceDomain;
      this.targetDomain := targetDomain;
      this.inputSize := inputSize;
      this.batchSize := batchSize;
      this.logdir := logdir;
      this.saveDir := saveDir;
      this.logger := logger;
      this.progress := if !showProgress || tqdmMissing then Identity else Tqdm;
    }

    /**
     * `pretrain_generator`: draw the tracking batches and save their figure, then run the
     * steps, appending each step's loss and, at every report step, saving a checkpoint and
     * a figure of one generated batch per tracking batch. No tracking batch at all makes
     * `np.concatenate` raise ValueError before any step, and so does a tracking figure whose
     * images overflow the grid as written (`add_subplot` past the last cell); a zero `reporting_steps` raises
     * ZeroDivisionError at step 1, after two losses. `pass_vgg` and `learning_rate` only
     * shape the losses, which `loss` supplies.
     */
    method PretrainGenerator(passVgg: bool, learningRate: real, numIterations: int, trackingSize: int,
                             reportingSteps: int, loss: nat -> real)
      returns (losses: seq<real>, events: seq<Event>, raised: Option<Exception>)
      requires batchSize > 0
      ensures TrackingCount(trackingSize, batchSize) <= 0 ==>
                losses == [] && events == [] && raised == Some(ValueError)
      ensures TrackingCount(trackingSize, batchSize) > 0 && Overflows(TrackingCount(trackingSize, batchSize) * batchSize) ==>
                losses == [] && events == [] && raised == Some(ValueError)
      ensures TrackingCount(trackingSize, batchSize) > 0 && !Overflows(TrackingCount(trackingSize, batchSize) * batchSize) ==>
                var reals := RealBatches(TrackingCount(trackingSize, batchSize));
                var n := StepsRun(numIterations, reportingSteps);
                losses == Losses(n, loss) &&
                events == [Figure(OriginalImageName, reals, batchSize)]
                          + ScheduleEvents(ReportSteps(n, reportingSteps), reals, batchSize, saveDir, loss) &&
                raised == (if reportingSteps == 0 && numIterations >= 2 then Some(ZeroDivisionError) else None)
    {
      var count := TrackingCount(trackingSize, batchSize);
      var reals := DrawBatches(if count > 0 then count else 0);
      if |reals| == 0 {
        return [], [], Some(ValueError);
      }
      var images := |reals| * batchSize;
      var _, drawn := SaveGeneratedImagesAsWritten(images);
      if drawn.Some? {
        return [], [], drawn;
      }
      var original := [Figure(OriginalImageName, reals, batchSize)];
      losses, events := [], original;
      var total := if numIterations > 0 then numIterations else 0;
      for step := 0 to total
        invariant losses == Losses(step, loss)
        invariant events == original + ScheduleEvents(ReportSteps(step, reportingSteps), reals, batchSize, saveDir, loss)
        invariant reportingSteps == 0 ==> step <= 1
      {
        losses := losses + [loss(step)];
        if step != 0 && reportingSteps == 0 {
          return losses, events, Some(ZeroDivisionError);
        }
        if IsReportStep(step, reportingSteps) {
          var report := Report(step, reals, batchSize, saveDir, loss);
          ghost var before := ScheduleEvents(ReportSteps(step, reportingSteps), reals, batchSize, saveDir, loss);
          assert ReportSteps(step + 1, reportingSteps) == ReportSteps(step, reportingSteps) + [step];
          ScheduleAppend(ReportSteps(step, reportingSteps), step, reals, batchSize, saveDir, loss);
          events := events + report;
          assert events == original + (before + ReportEvents(step, reals, batchSize, saveDir, loss));
        } else {
          assert ReportSteps(step + 1, reportingSteps) == ReportSteps(step, reportingSteps);
        }
      }
      raised := None;
    }
  }

  // ---------------------------------------------------------------------------------------
  // main: the pretrain_ rewrite of the keyword arguments
  // ---------------------------------------------------------------------------------------

  const Pretrain: string := "pretrain_"

  /** The keys of a keyword-argument list are pairwise different, as in a dict. */
  predicate DistinctKeys<V>(kvs: seq<(string, V)>)
  {
    forall i, j :: 0 <= i < j < |kvs| ==> kvs[i].0 != kvs[j].0
  }

  /** `dict(kwargs)`. */
  function AsMap<V>(kvs: seq<(string, V)>): map<string, V>
  {
    if |kvs| == 0 then map[]
    else AsMap(kvs[..|kvs| - 1])[kvs[|kvs| - 1].0 := kvs[|kvs| - 1].1]
  }

  /** `k.replace('pretrain_', '')`. */
  function Unprefixed(k: string): string
  {
    RemoveAll(k, Pretrain)
  }

  /** The loop of `main` over `kvs`, writing into `base`. */
  function Rewritten<V>(base: map<string, V>, kvs: seq<(string, V)>): map<string, V>
  {
    if |kvs| == 0 then base
    else
      var m := Rewritten(base, kvs[..|kvs| - 1]);
      var (k, v) := kvs[|kvs| - 1];
      if Contains(k, Pretrain) then m[Unprefixed(k) := v] else m
  }

  /** `pretrain_kwargs` after the loop of `main`. */
  function PretrainKwargs<V>(kvs: seq<(string, V)>): map<string, V>
  {
    Rewritten(AsMap(kvs), kvs)
  }

  /** The keys of the keyword arguments. */
  function KeySet<V>(kvs: seq<(string, V)>): set<string>
  {
    set i | 0 <= i < |kvs| :: kvs[i].0
  }

  /** The keys the rewrite adds: each key containing `pretrain_`, with it removed. */
  function NewKeys<V>(kvs: seq<(string, V)>): set<string>
  {
    set i | 0 <= i < |kvs| && Contains(kvs[i].0, Pretrain) :: Unprefixed(kvs[i].0)
  }

  /**
   * `pretrain_kwargs = dict(kwargs)`, then for each `(k, v)` with `'pretrain_' in k`,
   * `pretrain_kwargs[k.replace('pretrain_', '')] = v`.
   */
  method RewritePretrainKwargs<V>(kwargs: seq<(string, V)>) returns (pretrainKwargs: map<string, V>)
    ensures pretrainKwargs == PretrainKwargs(kwargs)
  {
    pretrainKwargs := AsMap(kwargs);
    for i := 0 to |kwargs|
      invariant pretrainKwargs == Rewritten(AsMap(kwargs), kwargs[..i])
    {
      var (k, v) := kwargs[i];
      assert kwargs[..i + 1][..i] == kwargs[..i];
      if Contains(k, Pretrain) {
        pretrainKwargs := pretrainKwargs[Unprefixed(k) := v];
      }
    }
    assert kwargs[..|kwargs|] == kwargs;
  }

  /** `dict(kwargs)` has the keys of kwargs and, for distinct keys, each key's own value. */
  lemma {:induction false} AsMapLookup<V>(kvs: seq<(string, V)>)
    ensures AsMap(kvs).Keys == KeySet(kvs)
    ensures DistinctKeys(kvs) ==> forall i :: 0 <= i < |kvs| ==> AsMap(kvs)[kvs[i].0] == kvs[i].1
  {
    if |kvs| > 0 {
      var init := kvs[..|kvs| - 1];
      AsMapLookup(init);
      assert KeySet(kvs) == KeySet(init) + {kvs[|kvs| - 1].0} by {
        forall k | k in KeySet(kvs) ensures k in KeySet(init) + {kvs[|kvs| - 1].0} {
          var i :| 0 <= i < |kvs| && kvs[i].0 == k;
          if i < |init| { assert init[i] == kvs[i]; }
        }
        forall k | k in KeySet(init) ensures k in KeySet(kvs) {
          var i :| 0 <= i < |init| && init[i].0 == k;
          assert kvs[i] == init[i];
        }
      }
      if DistinctKeys(kvs) {
        assert DistinctKeys(init) by {
          forall i, j | 0 <= i < j < |init| ensures init[i].0 != init[j].0 {
            assert init[i] == kvs[i] && init[j] == kvs[j];
          }
        }
        forall i | 0 <= i < |init| ensures AsMap(kvs)[kvs[i].0] == kvs[i].1 {
          assert init[i] == kvs[i];
        }
      }
    }
  }

  /** The rewrite adds exactly the unprefixed keys: every original key stays. */
  lemma {:induction false} RewrittenKeys<V>(base: map<string, V>, kvs: seq<(string, V)>)
    ensures Rewritten(base, kvs).Keys == base.Keys + NewKeys(kvs)
  {
    if |kvs| > 0 {
      var init := kvs[..|kvs| - 1];
      RewrittenKeys(base, init);
      var last := kvs[|kvs| - 1];
      assert NewKeys(kvs) == NewKeys(init) + (if Contains(last.0, Pretrain) then {Unprefixed(last.0)} else {}) by {
        forall k | k in NewKeys(kvs)
          ensures k in NewKeys(init) + (if Contains(last.0, Pretrain) then {Unprefixed(last.0)} else {})
        {
          var i :| 0 <= i < |kvs| && Contains(kvs[i].0, Pretrain) && Unprefixed(kvs[i].0) == k;
          if i < |init| { assert init[i] == kvs[i]; }
        }
        forall k | k in NewKeys(init) ensures k in NewKeys(kvs) {
          var i :| 0 <= i < |init| && Contains(init[i].0, Pretrain) && Unprefixed(init[i].0) == k;
          assert kvs[i] == init[i];
        }
      }
    }
  }

  /** A key the rewrite does not write keeps its value from `base`. */
  lemma {:induction false} RewrittenBase<V>(base: map<string, V>, kvs: seq<(string, V)>)
    ensures forall k :: k in base && k !in NewKeys(kvs) ==>
              k in Rewritten(base, kvs) && Rewritten(base, kvs)[k] == base[k]
  {
    if |kvs| > 0 {
      var n := |kvs| - 1;
      var init := kvs[..n];
      RewrittenBase(base, init);
      forall k | k in NewKeys(init) ensures k in NewKeys(kvs) {
        var i :| 0 <= i < |init| && Contains(init[i].0, Pretrain) && Unprefixed(init[i].0) == k;
        assert kvs[i] == init[i];
      }
      if Contains(kvs[n].0, Pretrain) {
        assert Unprefixed(kvs[n].0) in NewKeys(kvs);
      }
    }
  }

  /** The unprefixed key of a `pretrain_` entry that no other entry writes gets that entry's value. */
  lemma {:induction false} RewrittenValues<V>(base: map<string, V>, kvs: seq<(string, V)>)
    ensures forall i :: 0 <= i < |kvs| && Contains(kvs[i].0, Pretrain) && SoleWriter(kvs, i) ==>
              Unprefixed(kvs[i].0) in Rewritten(base, kvs) &&
              Rewritten(base, kvs)[Unprefixed(kvs[i].0)] == kvs[i].1
  {
    if |kvs| > 0 {
      var n := |kvs| - 1;
      var init := kvs[..n];
      RewrittenValues(base, init);
      forall i | 0 <= i < |kvs| && Contains(kvs[i].0, Pretrain) && SoleWriter(kvs, i)
        ensures Unprefixed(kvs[i].0) in Rewritten(base, kvs)
        ensures Rewritten(base, kvs)[Unprefixed(kvs[i].0)] == kvs[i].1
      {
        if i < n {
          assert init[i] == kvs[i];
          assert SoleWriter(init, i);
          assert !(Contains(kvs[n].0, Pretrain) && Unprefixed(kvs[n].0) == Unprefixed(kvs[i].0));
        }
      }
    }
  }

  /** No other entry of kvs writes the unprefixed key of entry i. */
  predicate SoleWriter<V>(kvs: seq<(string, V)>, i: int)
    requires 0 <= i < |kvs|
  {
    forall j :: 0 <= j < |kvs| && j != i && Contains(kvs[j].0, Pretrain) ==>
      Unprefixed(kvs[j].0) != Unprefixed(kvs[i].0)
  }

  /**
   * For distinct keys whose unprefixed forms collide neither with a key nor with each
   * other, the rewrite keeps every original key with its value and adds each unprefixed
   * key with the value of the key it came from.
   */
  lemma PretrainKwargsContents<V>(kvs: seq<(string, V)>)
    requires DistinctKeys(kvs)
    requires forall i :: 0 <= i < |kvs| && Contains(kvs[i].0, Pretrain) ==>
               Unprefixed(kvs[i].0) !in KeySet(kvs) && SoleWriter(kvs, i)
    ensures PretrainKwargs(kvs).Keys == KeySet(kvs) + NewKeys(kvs)
    ensures forall i :: 0 <= i < |kvs| ==> PretrainKwargs(kvs)[kvs[i].0] == kvs[i].1
    ensures forall i :: 0 <= i < |kvs| && Contains(kvs[i].0, Pretrain) ==>
              PretrainKwargs(kvs)[Unprefixed(kvs[i].0)] == kvs[i].1
  {
    AsMapLookup(kvs);
    RewrittenKeys(AsMap(kvs), kvs);
    RewrittenBase(AsMap(kvs), kvs);
    RewrittenValues(AsMap(kvs), kvs);
    forall k | k in NewKeys(kvs) ensures k !in KeySet(kvs) {
      var j :| 0 <= j < |kvs| && Contains(kvs[j].0, Pretrain) && Unprefixed(kvs[j].0) == k;
    }
    forall i | 0 <= i < |kvs| ensures kvs[i].0 in KeySet(kvs) { }
  }

  /** From position i on, no three consecutive characters of t are a, b, c. */
  predicate FreeFrom(t: string, i: nat, a: char, b: char, c: char)
    decreases |t| - i
  {
    i + 3 > |t| || (!(t[i] == a && t[i + 1] == b && t[i + 2] == c) && FreeFrom(t, i + 1, a, b, c))
  }

  lemma {:induction false} FreeFromAt(t: string, i: nat, a: char, b: char, c: char)
    requires FreeFrom(t, i, a, b, c)
    ensures forall k :: i <= k < |t| - 2 ==> !(t[k] == a && t[k + 1] == b && t[k + 2] == c)
    decreases |t| - i
  {
    if i + 3 <= |t| {
      FreeFromAt(t, i + 1, a, b, c);
    }
  }

  /** A key without the letter p does not contain `pretrain_`. */
  lemma NoLetterP(t: string)
    requires 'p' !in t
    ensures !Contains(t, Pretrain)
  {
    forall i | 0 <= i <= |t| ensures !StartsWith(t[i..], Pretrain) {
      if i < |t| {
        assert t[i] in t;
        assert t[i..][0] == t[i];
      }
    }
  }

  /**
   * A key without p before position k, and without "pre" from k on, does not contain
   * `pretrain_`.
   */
  lemma NoPrefixFrom(t: string, k: nat)
    requires k <= |t| && 'p' !in t[..k] && FreeFrom(t, k, 'p', 'r', 'e')
    ensures !Contains(t, Pretrain)
  {
    FreeFromAt(t, k, 'p', 'r', 'e');
    forall i | 0 <= i < k ensures t[i] != 'p' {
      assert t[..k][i] == t[i];
    }
    NoOccurrence(t, Pretrain);
  }

  /** `pretrain_` + t, where t does not contain `pretrain_`, is rewritten to t. */
  lemma PrefixedKey(t: string)
    requires !Contains(t, Pretrain)
    ensures Contains(Pretrain + t, Pretrain) && Unprefixed(Pretrain + t) == t
  {
    RemoveAllPrefix(Pretrain, t);
    assert (Pretrain + t)[0..] == Pretrain + t;
    assert StartsWith((Pretrain + t)[0..], Pretrain);
  }

  /** The names `pretrain_generator` takes, each of which the parser prefixes with `pretrain_`. */
  const PretrainNames: seq<string> := [
    "pass_vgg", "learning_rate", "num_iterations", "tracking_size", "reporting_steps"]

  /** The parser's five `pretrain_` keys. */
  const PretrainKeys: seq<string> := [
    Pretrain + "pass_vgg", Pretrain + "learning_rate", Pretrain + "num_iterations",
    Pretrain + "tracking_size", Pretrain + "reporting_steps"]

  /** The other parser keys, before and after the `pretrain_` ones, then show_progress and logger. */
  const ParserHead: seq<string> := [
    "dataset_name", "input_size", "batch_size", "source_domain", "target_domain"]
  const ParserTail: seq<string> := [
    "logdir", "save_dir", "logging_lvl", "logger_out_file", "not_show_progress_bar",
    "debug", "show_tf_cpp_log", "show_progress", "logger"]

  /** The keys of `vars(args)`, in the parser's order. */
  const ParserKeys: seq<string> := ParserHead + PretrainKeys + ParserTail

  /** `vars(args)` as keyword arguments, with one value per key. */
  function ParserKwargs<V>(vals: seq<V>): (kvs: seq<(string, V)>)
    requires |vals| == |ParserKeys|
    ensures |kvs| == |ParserKeys|
    ensures forall i :: 0 <= i < |kvs| ==> kvs[i] == (ParserKeys[i], vals[i])
  {
    seq(|ParserKeys|, i requires 0 <= i < |ParserKeys| => (ParserKeys[i], vals[i]))
  }

  lemma PlainHead()
    ensures forall k :: k in ParserHead ==> !Contains(k, Pretrain)
  {
    NoLetterP("dataset_name");
    NoPrefixFrom("input_size", 2);
    NoLetterP("batch_size");
    NoLetterP("source_domain");
    NoLetterP("target_domain");
  }

  lemma PlainTailA()
    ensures forall k :: k in ParserTail[..4] ==> !Contains(k, Pretrain)
  {
    NoLetterP("logdir");
    NoLetterP("save_dir");
    NoLetterP("logging_lvl");
    NoLetterP("logger_out_file");
  }

  lemma PlainTailB()
    ensures forall k :: k in ParserTail[4..] ==> !Contains(k, Pretrain)
  {
    NoPrefixFrom("not_show_progress_bar", 9);
    NoLetterP("debug");
    NoPrefixFrom("show_tf_cpp_log", 9);
    NoPrefixFrom("show_progress", 5);
    NoLetterP("logger");
  }

  /** No parser key outside the five `pretrain_` ones contains `pretrain_`. */
  lemma PlainParserKeys()
    ensures forall k :: k in ParserHead + ParserTail ==> !Contains(k, Pretrain)
  {
    PlainHead();
    PlainTailA();
    PlainTailB();
    assert ParserTail == ParserTail[..4] + ParserTail[4..];
  }

  /** Each `pretrain_` key contains `pretrain_` and is rewritten to its name. */
  lemma PrefixedParserKeys()
    ensures forall j :: 0 <= j < |PretrainKeys| ==>
              Contains(PretrainKeys[j], Pretrain) && Unprefixed(PretrainKeys[j]) == PretrainNames[j]
  {
    NoPrefixFrom("pass_vgg", 0);
    NoLetterP("learning_rate");
    NoLetterP("num_iterations");
    NoLetterP("tracking_size");
    NoPrefixFrom("reporting_steps", 2);
    forall j | 0 <= j < |PretrainKeys|
      ensures Contains(PretrainKeys[j], Pretrain) && Unprefixed(PretrainKeys[j]) == PretrainNames[j]
    {
      PrefixedKey(PretrainNames[j]);
    }
  }

  /** The plain keys are distinct, the names are distinct, and no name is a parser key. */
  lemma ParserNamesDistinct()
    ensures forall i, j :: 0 <= i < j < |ParserHead + ParserTail| ==>
              (ParserHead + ParserTail)[i] != (ParserHead + ParserTail)[j]
    ensures forall i, j :: 0 <= i < j < |PretrainNames| ==> PretrainNames[i] != PretrainNames[j]
    ensures forall j :: 0 <= j < |PretrainNames| ==> PretrainNames[j] !in ParserHead + ParserTail
  {
  }

  /** Position i of the parser's keys: a plain key, or the `pretrain_` key of name i - 5. */
  lemma ParserKeyAt(i: int)
    requires 0 <= i < |ParserKeys|
    ensures i < 5 ==> ParserKeys[i] == (ParserHead + ParserTail)[i]
    ensures 10 <= i ==> ParserKeys[i] == (ParserHead + ParserTail)[i - 5]
    ensures 5 <= i < 10 ==> ParserKeys[i] == PretrainKeys[i - 5]
  {
  }

  /** The role of each parser key in the rewrite. */
  lemma ParserKeyRoles(i: int)
    requires 0 <= i < |ParserKeys|
    ensures Contains(ParserKeys[i], Pretrain) <==> 5 <= i < 10
    ensures 5 <= i < 10 ==> Unprefixed(ParserKeys[i]) == PretrainNames[i - 5]
  {
    ParserKeyAt(i);
    PlainParserKeys();
    PrefixedParserKeys();
    if i < 5 {
      assert (ParserHead + ParserTail)[i] in ParserHead + ParserTail;
    } else if 10 <= i {
      assert (ParserHead + ParserTail)[i - 5] in ParserHead + ParserTail;
    }
  }

  /** The parser's keys are pairwise different. */
  lemma ParserKeysDistinct(i: int, j: int)
    requires 0 <= i < j < |ParserKeys|
    ensures ParserKeys[i] != ParserKeys[j]
  {
    ParserKeyAt(i);
    ParserKeyAt(j);
    ParserKeyRoles(i);
    ParserKeyRoles(j);
    ParserNamesDistinct();
  }

  /** The parser's arguments meet the premises of the general rewrite lemma. */
  lemma ParserKwargsRewritable<V>(vals: seq<V>)
    requires |vals| == |ParserKeys|
    ensures DistinctKeys(ParserKwargs(vals))
    ensures forall i :: 0 <= i < |ParserKeys| && Contains(ParserKwargs(vals)[i].0, Pretrain) ==>
              Unprefixed(ParserKwargs(vals)[i].0) !in KeySet(ParserKwargs(vals)) && SoleWriter(ParserKwargs(vals), i)
  {
    var kvs := ParserKwargs(vals);
    forall i, j | 0 <= i < j < |kvs| ensures kvs[i].0 != kvs[j].0 {
      ParserKeysDistinct(i, j);
    }
    forall i | 0 <= i < |kvs| && Contains(kvs[i].0, Pretrain)
      ensures Unprefixed(kvs[i].0) !in KeySet(kvs) && SoleWriter(kvs, i)
    {
      ParserKeyRoles(i);
      forall k | k in KeySet(kvs) ensures k != Unprefixed(kvs[i].0) {
        var q :| 0 <= q < |kvs| && kvs[q].0 == k;
        NameNotKey(i - 5, q);
      }
      forall j | 0 <= j < |kvs| && j != i && Contains(kvs[j].0, Pretrain)
        ensures Unprefixed(kvs[j].0) != Unprefixed(kvs[i].0)
      {
        ParserKeyRoles(j);
        ParserNamesDistinct();
      }
    }
  }

  /** A name the rewrite adds is none of the parser's keys. */
  lemma NameNotKey(j: int, q: int)
    requires 0 <= j < |PretrainNames| && 0 <= q < |ParserKeys|
    ensures ParserKeys[q] != PretrainNames[j]
  {
    ParserKeyAt(q);
    ParserNamesDistinct();
    if 5 <= q < 10 {
      NamesShort(j, q - 5);
    } else {
      assert ParserKeys[q] in ParserHead + ParserTail;
    }
  }

  /** A name is shorter than every `pretrain_` key. */
  lemma NamesShort(j: int, k: int)
    requires 0 <= j < |PretrainNames| && 0 <= k < |PretrainKeys|
    ensures |PretrainNames[j]| < |PretrainKeys[k]|
  {
  }

  /** The key sets of the parser's arguments. */
  lemma ParserKeySets<V>(vals: seq<V>)
    requires |vals| == |ParserKeys|
    ensures KeySet(ParserKwargs(vals)) == set k | k in ParserKeys
    ensures NewKeys(ParserKwargs(vals)) == set k | k in PretrainNames
  {
    var kvs := ParserKwargs(vals);
    forall k | k in ParserKeys ensures k in KeySet(kvs) {
      var i :| 0 <= i < |ParserKeys| && ParserKeys[i] == k;
      assert kvs[i].0 == k;
    }
    forall k | k in NewKeys(kvs) ensures k in PretrainNames {
      var i :| 0 <= i < |kvs| && Contains(kvs[i].0, Pretrain) && Unprefixed(kvs[i].0) == k;
      ParserKeyRoles(i);
    }
    forall j | 0 <= j < |PretrainNames| ensures PretrainNames[j] in NewKeys(kvs) {
      ParserKeyRoles(5 + j);
    }
  }

  /**
   * For the parser's arguments the rewrite keeps all 19 keys with their values and adds
   * pass_vgg, learning_rate, num_iterations, tracking_size and reporting_steps, each with
   * the value of its `pretrain_` key, none of them overwriting an existing key.
   */
  lemma ParserRewrite<V>(vals: seq<V>)
    requires |vals| == |ParserKeys|
    ensures var m := PretrainKwargs(ParserKwargs(vals));
            m.Keys == (set k | k in ParserKeys) + (set k | k in PretrainNames) &&
            (forall i :: 0 <= i < |ParserKeys| ==> m[ParserKeys[i]] == vals[i]) &&
            (forall j :: 0 <= j < |PretrainNames| ==> m[PretrainNames[j]] == vals[5 + j])
  {
    var kvs := ParserKwargs(vals);
    ParserKwargsRewritable(vals);
    PretrainKwargsContents(kvs);
    ParserKeySets(vals);
    forall j | 0 <= j < |PretrainNames| ensures PretrainKwargs(kvs)[PretrainNames[j]] == vals[5 + j] {
      ParserKeyRoles(5 + j);
    }
  }
}
