# CartoonGan command-line core in Dafny

This project models the discrete logic around CartoonGan's video tools and generator
pretraining, and proves what that logic promises.

- **handler.py** is the `python handler.py <task> --key value ...` front end. It pairs the
  tokens into a dictionary and rejects an odd token count or a malformed key. It converts
  `fps` (`int(float(v))`) and `audio` (`'true'`/`'True'`), then dispatches to one adapter,
  the examples text or the "unsupported task" message.
- **app/video.py** holds the three moviepy adapters.
  - `cut` parses an interval `'m0,s0:m1,s1'` into integer tuples and a rectangle
    `'x1,y1:x2,y2'` into float tuples, then crops and writes the subclip.
  - `generate_images` is meant to write the frames of a video; as written it opens the
    video and then raises `TypeError` building the frame pattern (see Findings).
  - `generate_videos` assembles frames, optionally with an audio subclip parsed like `cut`'s
    interval.

  Every moviepy call is recorded as a `Call` value over a `Clip` that says how the clip was
  made. The Python exception that ends a run is recorded beside the calls.
- **train.py** covers the bookkeeping of `Trainer` and `main`:
  - the subplot grid of `_save_generated_images`;
  - the tracking batches, the per-step losses, and the report schedule with its checkpoint
    and figure events in `pretrain_generator`;
  - the `pretrain_` rewrite of the keyword arguments in `main`;
  - the progress-wrapper and log-level choices.

  A step's loss is a parameter.

Modules:

- `Wrappers` holds `Option`, `Result` and the Python exceptions.
- `PyText` holds the Python string semantics the core relies on:
  - `split`/`join`, `strip`;
  - `int()` and `float()` on plain decimal literals, and truncation toward zero;
  - `in` and `replace(p, '')`;
  - `%` formatting with `%s`, `%%` and `%d`.
- `Video`, `Handler` and `Train` follow the three source files.

Where the code and its design notes disagree, the model follows the code:

- the key pattern only constrains the first character after `--`, because `re.match` is a
  prefix match;
- a malformed key raises `ValueError` instead of printing a message;
- `generate_images` raises `TypeError`, and the handler's dispatch reaches that adapter as
  written (see Findings);
- pretraining draws every figure on the grid as written, so a tracking figure whose image
  count is 8 or more and not a multiple of 8 raises `ValueError` before the first step
  (see Findings).

The corrected definitions of the two Findings are modelled and proved beside the
as-written ones; the pipeline of each operation uses the code as written.

## Model

| member | source | states |
|---|---|---|
| Handler.CollectPairs | handler.py:9-17 | the loop succeeds exactly when every even-position token matches `--[a-z]`; then the keys are those tokens minus two characters and the values are the odd-position tokens, in order |
| Handler.ToMapKeys | handler.py:18 | the dictionary's keys are exactly the listed keys |
| Handler.ToMapLookup | handler.py:18 | each key maps to the value paired with its last occurrence, a later pair overwriting an earlier one |
| Handler.PairedMap | handler.py:11-18 | the dictionary built from the tokens has exactly the key names of the even positions; each maps to the token after that name's last occurrence |
| Handler.DispatchedArguments | handler.py:8-18 | a dispatched run had an even, well-formed token list, and its dictionary is the paired one described above |
| Handler.HandleCommand | handler.py:8-64 | the step-by-step run (pairing loop, conversions, dispatch) gives the outcome `Handle` defines |
| Handler.OddArgsDispatchNothing | handler.py:65-66 | an odd token count (the test on line 8) prints `args 错误，请修改！` and makes no adapter call, for every task |
| Handler.BadKeyBeforeDispatch | handler.py:12-14 | with an even count, the key ValueError happens exactly when some even-position token is not a key token; then no adapter is called |
| Handler.KeyTokenExamples | handler.py:13 | `--target_dir`, `--fps2`, `--audio_codec` are keys; `-x`, `--Fps`, `--1`, `--` are not |
| Handler.EmptyArguments | handler.py:18-20 | no tokens give an empty dictionary, fps None and audio False |
| Handler.FpsConversion | handler.py:19 | float() rejecting the fps value stops the run for every task alike; otherwise fps is None exactly when no fps key was given, else the value truncated toward zero |
| Handler.FpsExamples | handler.py:19 | `29.7` gives 29, `30` gives 30, `-2.5` gives -2, absent gives None |
| Handler.AudioConversion | handler.py:20 | audio is True exactly for `true` or `True`; the documented `true,` and `TRUE`, `1`, `` give False |
| Handler.OneBranchPerTask | handler.py:21-64 | each of the four task names selects its own branch; any other name prints `不支持的任务！`; the examples and unsupported branches make no moviepy call |
| Handler.GenerateImagesTaskRaises | handler.py:26-29 | the generate_images task opens the source video and then raises TypeError, whatever its arguments: no frame is written |
| Handler.CutTaskCallsCut | handler.py:21-25 | the cut task calls `cut` with the source, target, internal and coordinates values of the dictionary |
| Handler.CommandLineNeedsTask | handler.py:5-6 | a command line without a task name raises IndexError; otherwise the task is `argv[1]` and the tokens `argv[2:]` |
| Video.ParseAll | app/video.py:16-17 | the list comprehension succeeds exactly when every piece converts; the result has one value per piece, in order |
| Video.ParsePairOfText | app/video.py:15-20 | round trip: two non-empty lists of pieces free of `,` and `:`, written as `a0,a1:b0,b1`, parse to the lists of their converted values |
| Video.ParseIntervalOfText | app/video.py:15-17 | any two non-empty integer tuples written as `str()` numerals parse back to themselves |
| Video.ParseCornersOfText | app/video.py:18-20 | integer corners written as numerals parse back as the same values as floats |
| Video.ParsePairNeedsOneColon | app/video.py:15-18 | a text that does not split on `:` into exactly two parts raises ValueError |
| Video.IntervalExample | app/video.py:15-17 | `0,10:0,20` parses to `(0,10)` and `(0,20)` |
| Video.CornersExample | app/video.py:18-20 | `0,0:100,100` parses to `(0.0,0.0)` and `(100.0,100.0)` |
| Video.CutOutcome | app/video.py:15-23 | a parse error makes no moviepy call; the run succeeds exactly when both parse and each corner has two components; the written clip is the crop of the subclip at the parsed values |
| Video.CutExample | app/video.py:15-23 | the documented cut command crops `(0,0)`-`(100,100)` from the subclip `(0,10)`-`(0,20)` and writes it |
| Video.GenerateImagesAsWrittenRaises | app/video.py:34-35 | as written, the frame pattern raises TypeError for every target directory, after the video is opened |
| Video.FramePatternValue | app/video.py:35 | the corrected pattern is the directory followed by `/frame%05d.png` |
| Video.GenerateImagesWrites | app/video.py:34-35 | the corrected adapter opens the source and writes its frames with that pattern at the given fps |
| Video.SilentVideoIgnoresSource | app/video.py:51-53 | without audio the result does not depend on source or internal, raises nothing, and writes the image-sequence clip itself |
| Video.VideoWithAudio | app/video.py:54-60 | with audio, a bad interval raises; a good one writes the image clip carrying the audio subclip between the parsed start and end |
| Video.SameIntervalAsCut | app/video.py:55-57 | generate_videos uses the same subclip bounds that cut parses from the same interval |
| PyText.Split | app/video.py:15-16 | `split` gives at least one part, and no part contains the separator |
| PyText.JoinOfSplit | app/video.py:15-16 | joining the parts of a split restores the text |
| PyText.SplitOfJoin | app/video.py:15-16 | splitting a join of separator-free parts gives back the parts |
| PyText.StripPadded | app/video.py:16 | `int()`/`float()` ignore surrounding whitespace: stripping padding around a stripped text gives that text |
| PyText.NatToString | app/video.py:16 | the decimal numeral of n is a canonical digit string whose value is n |
| PyText.ParseIntOfIntToString | app/video.py:16 | `int()` reads back any integer's numeral, with surrounding whitespace |
| PyText.ParseDecimalLiteral | handler.py:19 | `float()` reads `[-]ip.fp` as its signed decimal value |
| PyText.TruncateDecimalLiteral | handler.py:19 | `int(float('[-]ip.fp'))` is the signed integer part |
| PyText.RemoveAllAbsent | train.py:171 | `replace(p, '')` changes nothing when p does not occur |
| PyText.RemoveAllPrefix | train.py:171 | removing p from p + t, t free of p, leaves t |
| PyText.PercentFormatNumber | app/video.py:35 | a `%d` conversion given string arguments, or none, raises TypeError |
| PyText.PercentFormatString | app/video.py:35 | `%s` consumes the next argument and inserts it |
| Train.GridRows | train.py:67 | the rows as written are 1 for fewer than 8 images, and for 8 or more images they are the whole number of 8-wide rows the images fill |
| Train.FittingRows | train.py:67-71 | the corrected rows are at least 1, hold every image, and are no more than needed |
| Train.PlaceSubplots | train.py:70-71 | subplots are placed one per image until the grid is full; the loop raises ValueError exactly when there are more images than cells |
| Train.SaveGeneratedImagesAsWritten | train.py:64-71 | with the rows as written, drawing fails exactly for 8 or more images not a multiple of 8 |
| Train.SaveGeneratedImages | train.py:64-71 | with the fitting rows, every image gets its subplot |
| Train.GridOverflow | train.py:67-71 | the grid as written is too small exactly for n >= 8 with n % 8 != 0 |
| Train.GridOverflowExample | train.py:67 | 16 images take 2 rows and 3 take 1; 12 get 1 row of 8 cells, where the fitting rows are 2 |
| Train.FittingRowsAgree | train.py:67 | wherever the rows as written fit, the corrected rows are the same |
| Train.ProgressSelection | train.py:59-62 | tqdm is selected exactly when progress is shown and tqdm imported, that is, for `main`'s arguments, exactly when `--not_show_progress_bar` is absent and tqdm imported; otherwise the identity wrapper, which returns its argument |
| Train.LevelSelection | train.py:210-221 | `--debug` forces DEBUG whatever the level name; otherwise each parser choice selects its level, in increasing severity, and any other name is a KeyError |
| Train.ReportStepsMembers | train.py:145-149 | a step of `range(n)` reports exactly when it is non-zero and a multiple of reporting_steps; report steps increase |
| Train.ReportCount | train.py:145-149 | over `range(n)`, n >= 1, there are (n - 1) // reporting_steps reports |
| Train.ReportExamples | train.py:145-149 | 250 and 300 iterations every 100 steps both report at steps 100 and 200 only |
| Train.TrackingCountDivides | train.py:137 | with the division taken exactly, `int(tracking_size / batch_size)` is tracking_size // batch_size for a non-negative size, and at most 0 exactly when tracking_size < batch_size; this matches Python's float division while the sizes stay below 2^53 |
| Train.TrackingDefaults | train.py:137 | 16 images in batches of 1 give 16 tracking batches; 16 by 5 give 3; 3 by 4 give none |
| Train.TrackingFigureExample | train.py:137-143 | the default 16 tracking images in batches of 1 fit the grid as written; in batches of 5 they make 15 images on one row of 8 cells, which overflows |
| Train.ScheduleLayout | train.py:149-162 | each report is a checkpoint, a figure of one generated batch per tracking batch named for its step, and a log line, in that order |
| Train.ImageNameExample | train.py:157 | the figure at step 100 is `generated_image_at_step_100.png` |
| Train.DrawBatches | train.py:136-138 | the filling loop draws exactly the tracking batches |
| Train.GenerateBatches | train.py:150-152 | the filling loop produces exactly one generated batch per tracking batch |
| Train.Report | train.py:149-162 | a report step, whose figure fits the grid as written, yields exactly its checkpoint, its figure of one generated batch per tracking batch, and its log line |
| Train.Trainer.constructor | train.py:39-62 | the constructor stores the settings and selects the progress wrapper |
| Train.Trainer.PretrainGenerator | train.py:123-162 | no tracking batch, or a tracking figure that overflows the grid as written, raises ValueError before any step, with no loss and no saved figure. Otherwise the tracking figure comes first and each run step appends its loss. Each report step adds its checkpoint, figure and log line. A zero reporting_steps raises ZeroDivisionError at step 1, after two losses |
| Train.RewritePretrainKwargs | train.py:168-171 | the loop over the keyword arguments gives the rewritten dictionary `PretrainKwargs` defines |
| Train.AsMapLookup | train.py:168 | `dict(kwargs)` has the same keys as kwargs and, for distinct keys, each key's own value |
| Train.RewrittenKeys | train.py:169-171 | the rewrite keeps every key and adds exactly the unprefixed forms of the keys containing `pretrain_` |
| Train.RewrittenBase | train.py:168-171 | keys the loop does not write keep their value from `dict(kwargs)` |
| Train.RewrittenValues | train.py:169-171 | an unprefixed key that only one entry writes gets that entry's value |
| Train.PretrainKwargsContents | train.py:168-171 | absent collisions, every original key keeps its value and every unprefixed key carries the value of its `pretrain_` key |
| Train.ParserRewrite | train.py:168-172 | for the parser's 19 arguments the result has those keys plus pass_vgg, learning_rate, num_iterations, tracking_size and reporting_steps; each new key has its `pretrain_` key's value and none overwrites an argument |
| Train.ParserKeysDistinct | train.py:181-202 | the parser's keys are pairwise different |

## Left out

- All moviepy behaviour (decoding, subclip, crop, writing, audio). The adapters record the calls with their arguments; file contents and frame counts are not modelled.
- Video.ParseCorners: float() parsing is exact decimal arithmetic on plain literals: an optional sign, then ASCII digits with at most one `.` and at least one digit (so `5.` and `.5` are accepted, as in Python). Exponents, `inf`/`nan`, underscores, non-ASCII whitespace, non-ASCII Unicode digits (which Python's int() and float() accept and the model rejects) and binary rounding are not modelled. The same restriction applies to int() and to the fps conversion.
- The TensorFlow graph, because it is foreign and floating-point: dataset listing and decoding, the generator, VGG, the content loss, Adam and the session. A step's loss is a parameter, and `pass_vgg` and `learning_rate` only shape it.
- Train.Trainer.PretrainGenerator: requires batch_size > 0, because a non-positive batch size is rejected by TensorFlow's `batch()` before the tracking loop. The checkpoint load with its swallowed ValueError (train.py:129-132) and the checkpoint contents are not modelled.
- matplotlib: figure sizes, `imshow`/`savefig`, directory creation, `np.clip`. `np.concatenate` appears only where it raises on an empty list. The model's only use of `add_subplot` is its index check.
- Logging and other I/O: log messages, handlers, the log file, `TF_CPP_MIN_LOG_LEVEL`, elapsed time and the printed examples text.
- Train.Trainer.constructor: a given logger is modelled by its name. The `logger is None` branch (train.py:47-57) passes the function `logging.info` to `setLevel`, which the logging library rejects. That branch is not modelled, because `main` always passes a logger.
- `self.tqdm` is assigned (train.py:59-62) but never used by `pretrain_generator`, so the model only records the choice.
- Train.TrackingCount: the float division `tracking_size / self.batch_size` (train.py:137) is taken as exact real division, so the model agrees with Python only while tracking_size + batch_size < 2^53. Beyond that Python rounds the quotient first: for example, `2**53 + 1` over 1 gives 2^53 in Python and 2^53 + 1 in the model.
- Handler.ToMap: the dictionary's insertion order (keys in order of first occurrence) is not modelled. handler.py only looks keys up with `.get` (lines 19-38), so the order is never observed.
- Dictionary order: the keyword rewrite runs over an ordered list of pairs, and for colliding unprefixed keys only the keys are characterised, not which value wins.
- The order in which `argparse` makes its attributes is taken to be declaration order, then `show_progress` and `logger`.
- Concurrency: none in the source.

## Findings

| source | as written | input that shows it | evidently intended | confidence | as-written member | corrected member |
|---|---|---|---|---|---|---|
| app/video.py:35 | `"%s/frame%05d.png" % target_dir` gives one argument for two conversions, so Python raises TypeError | `generate_images --source a.mp4 --target_dir ext/input` | the moviepy pattern `ext/input/frame%05d.png`, written `"%s/frame%%05d.png" % target_dir` | high, not executed | Video.GenerateImagesAsWrittenRaises | Video.GenerateImagesWrites |
| train.py:67-71 | `num_rows = batch_size // 8` drops a partial last row, so `add_subplot(num_rows, 8, i + 1)` runs past the grid for 8 or more images not divisible by 8 | tracking_size 12, batch_size 1: 12 images, one row of 8 cells, subplot 9 raises ValueError | enough rows for every image: ceil(n / 8), at least 1 | medium (matplotlib's index check), not executed | Train.SaveGeneratedImagesAsWritten | Train.SaveGeneratedImages |
