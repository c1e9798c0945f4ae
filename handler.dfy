/**
 * handler.py: the command line `handler.py task --key value ...`. The tokens after the task
 * are paired into a dictionary, `fps` and `audio` are converted, and the task selects one
 * adapter of app/video.py, the examples text, or the "unsupported task" message.
 */
module Handler {
  import opened Wrappers
  import opened PyText
  import Video

  /** Printed when the number of tokens after the task is odd. */
  const OddArgsMessage: string := "args 错误，请修改！"
  /** The message of the ValueError raised for a malformed key token. */
  const BadKeyMessage: string := "参数错误，请修改！"
  /** Printed for a task name that is not one of the four. */
  const UnsupportedMessage: string := "不支持的任务！"

  /** The adapter call (or message) a task selects, with the arguments it is given. */
  datatype Action =
    | CutCall(source: Option<string>, target: Option<string>,
              internal: Option<string>, coordinates: Option<string>)
    | GenerateImagesCall(source: Option<string>, targetDir: Option<string>, fps: Option<int>)
    | GenerateVideosCall(target: Option<string>, fromDir: Option<string>, codec: Option<string>,
                         audioCodec: Option<string>, fps: Option<int>, audio: bool,
                         source: Option<string>, internal: Option<string>)
    | PrintExamples
    | PrintUnsupported

  /** How one run of handler.py ends before the adapter does its work. */
  datatype Outcome =
    | OddArgs     // odd token count: the message is printed, nothing else happens
    | BadKey      // a key token is malformed: ValueError(BadKeyMessage)
    | BadFps      // float() rejects the fps value: ValueError, before any task is looked at
    | Dispatched(args: map<string, string>, fps: Option<int>, audio: bool, action: Action)

  // ---------------------------------------------------------------------------------------
  // Pairing the tokens
  // ---------------------------------------------------------------------------------------

  /**
   * `re.match('--[a-z]+', t) is not None`: a prefix match, so t must start with two dashes
   * and a lowercase ASCII letter and may continue with anything.
   */
  predicate IsKeyToken(t: string)
  {
    |t| >= 3 && t[0] == '-' && t[1] == '-' && IsLower(t[2])
  }

  /** Every token at an even position is a key token. */
  predicate WellFormedKeys(args: seq<string>)
  {
    forall i :: 0 <= i < |args| && i % 2 == 0 ==> IsKeyToken(args[i])
  }

  /** `t[2:]`. */
  function KeyName(t: string): string
  {
    if |t| >= 2 then t[2..] else ""
  }

  /** The names `args[i][2:]` of the tokens at even positions. */
  function KeyNames(args: seq<string>): set<string>
  {
    set i | 0 <= i < |args| && i % 2 == 0 :: KeyName(args[i])
  }

  /** No later even position holds a token with the same key name as position i. */
  predicate LastKeyPosition(args: seq<string>, i: int)
    requires 0 <= i < |args|
  {
    forall j :: i < j < |args| && j % 2 == 0 ==> KeyName(args[j]) != KeyName(args[i])
  }

  /** The key names, from the tokens at even positions. */
  function Keys(args: seq<string>): (keys: seq<string>)
    ensures |keys| == |args| / 2
  {
    seq(|args| / 2, k requires 0 <= k < |args| / 2 => KeyName(args[2 * k]))
  }

  /** The values, from the tokens at odd positions. */
  function Values(args: seq<string>): (values: seq<string>)
    ensures |values| == |args| / 2
  {
    seq(|args| / 2, k requires 0 <= k < |args| / 2 => args[2 * k + 1])
  }

  /**
   * The loop of handler.py lines 9-17: keys from the even positions, values from the odd
   * ones, stopping (the ValueError) at the first malformed key token.
   */
  method CollectPairs(args: seq<string>) returns (ok: bool, keys: seq<string>, values: seq<string>)
    requires |args| % 2 == 0
    ensures ok <==> WellFormedKeys(args)
    ensures ok ==> keys == Keys(args) && values == Values(args)
  {
    keys, values := [], [];
    for i := 0 to |args|
      invariant forall j :: 0 <= j < i && j % 2 == 0 ==> IsKeyToken(args[j])
      invariant |keys| == (i + 1) / 2 && |values| == i / 2
      invariant forall k :: 0 <= k < |keys| ==> keys[k] == KeyName(args[2 * k])
      invariant forall k :: 0 <= k < |values| ==> values[k] == args[2 * k + 1]
    {
      if i % 2 == 0 {
        if !IsKeyToken(args[i]) {
          return false, keys, values;
        }
        keys := keys + [args[i][2..]];
      } else {
        values := values + [args[i]];
      }
    }
    ok := true;
  }

  /** `{x[0]: x[1] for x in zip(keys, values)}`: inserted in order, a later key overwriting. */
  function ToMap(keys: seq<string>, values: seq<string>): map<string, string>
    requires |keys| == |values|
    decreases |keys|
  {
    if |keys| == 0 then map[]
    else ToMap(keys[..|keys| - 1], values[..|values| - 1])[keys[|keys| - 1] := values[|values| - 1]]
  }

  /** No later position holds the same key as position j. */
  predicate LastOccurrence(keys: seq<string>, j: int)
    requires 0 <= j < |keys|
  {
    forall j' :: j < j' < |keys| ==> keys[j'] != keys[j]
  }

  /** The dictionary holds exactly the listed keys. */
  lemma {:induction false} ToMapKeys(keys: seq<string>, values: seq<string>)
    requires |keys| == |values|
    ensures ToMap(keys, values).Keys == set k | k in keys
    decreases |keys|
  {
    if |keys| > 0 {
      var n := |keys| - 1;
      ToMapKeys(keys[..n], values[..n]);
      assert keys == keys[..n] + [keys[n]];
    }
  }

  /** Each key maps to the value paired with its last occurrence. */
  lemma {:induction false} ToMapLookup(keys: seq<string>, values: seq<string>)
    requires |keys| == |values|
    ensures forall j :: 0 <= j < |keys| && LastOccurrence(keys, j) ==>
              keys[j] in ToMap(keys, values) && ToMap(keys, values)[keys[j]] == values[j]
    decreases |keys|
  {
    if |keys| > 0 {
      var n := |keys| - 1;
      var ks, vs := keys[..n], values[..n];
      ToMapLookup(ks, vs);
      forall j | 0 <= j < |keys| && LastOccurrence(keys, j)
        ensures keys[j] in ToMap(keys, values) && ToMap(keys, values)[keys[j]] == values[j]
      {
        if j < n {
          assert keys[n] != keys[j];
          assert LastOccurrence(ks, j);
        }
      }
    }
  }

  /** The lookup of one key at its last occurrence. */
  lemma ToMapAt(keys: seq<string>, values: seq<string>, j: int)
    requires |keys| == |values| && 0 <= j < |keys| && LastOccurrence(keys, j)
    ensures keys[j] in ToMap(keys, values) && ToMap(keys, values)[keys[j]] == values[j]
  {
    ToMapLookup(keys, values);
  }

  // ---------------------------------------------------------------------------------------
  // fps, audio and the task
  // ---------------------------------------------------------------------------------------

  function Get(m: map<string, string>, k: string): Option<string>
  {
    if k in m then Some(m[k]) else None
  }

  /** `int(float(v)) if v is not None else None`. */
  function ConvertFps(v: Option<string>): Result<Option<int>, Exception>
  {
    match v
    case None => Ok(None)
    case Some(s) =>
      match ParseDecimal(s)
      case None => Err(ValueError)
      case Some(x) => Ok(Some(TruncToInt(x)))
  }

  /** `True if v is not None and v in ('true', 'True') else False`. */
  function ConvertAudio(v: Option<string>): bool
  {
    v == Some("true") || v == Some("True")
  }

  /** The if/elif chain of handler.py lines 21-64. */
  function SelectAction(task: string, m: map<string, string>, fps: Option<int>, audio: bool): Action
  {
    if task == "cut" then
      CutCall(Get(m, "source"), Get(m, "target"), Get(m, "internal"), Get(m, "coordinates"))
    else if task == "generate_images" then
      GenerateImagesCall(Get(m, "source"), Get(m, "target_dir"), fps)
    else if task == "generate_videos" then
      GenerateVideosCall(Get(m, "target"), Get(m, "from_dir"), Get(m, "codec"), Get(m, "audio_codec"),
                         fps, audio, Get(m, "source"), Get(m, "internal"))
    else if task == "examples" then PrintExamples
    else PrintUnsupported
  }

  /** One run of handler.py with `sys.argv[1] == task` and `sys.argv[2:] == args`. */
  function Handle(task: string, args: seq<string>): Outcome
  {
    if |args| % 2 != 0 then OddArgs
    else if !WellFormedKeys(args) then BadKey
    else
      var m := ToMap(Keys(args), Values(args));
      match ConvertFps(Get(m, "fps"))
      case Err(_) => BadFps
      case Ok(fps) =>
        var audio := ConvertAudio(Get(m, "audio"));
        Dispatched(m, fps, audio, SelectAction(task, m, fps, audio))
  }

  /** The whole of `sys.argv`: without a task name `sys.argv[1]` raises IndexError. */
  function HandleCommandLine(argv: seq<string>): Result<Outcome, Exception>
  {
    if |argv| < 2 then Err(IndexError) else Ok(Handle(argv[1], argv[2..]))
  }

  /** What the run prints itself (the examples text is not modelled). */
  function Printed(o: Outcome): Option<string>
  {
    match o
    case OddArgs => Some(OddArgsMessage)
    case Dispatched(_, _, _, PrintUnsupported) => Some(UnsupportedMessage)
    case _ => None
  }

  /** The moviepy calls the run leads to, through the adapter its action names. */
  function Effects(o: Outcome): Video.Run
  {
    match o
    case Dispatched(_, _, _, action) =>
      (match action
       case CutCall(source, target, internal, coordinates) =>
         Video.Cut(source, target, internal, coordinates)
       case GenerateImagesCall(source, targetDir, fps) =>
         Video.GenerateImagesAsWritten(source, targetDir, fps)
       case GenerateVideosCall(target, fromDir, codec, audioCodec, fps, audio, source, internal) =>
         Video.GenerateVideos(target, fromDir, codec, audioCodec, fps, audio, source, internal)
       case _ => Video.Run([], None))
    case _ => Video.Run([], None)
  }

  /** handler.py run step by step: the pairing loop, then the conversions and the dispatch. */
  method HandleCommand(task: string, args: seq<string>) returns (o: Outcome)
    ensures o == Handle(task, args)
  {
    if |args| % 2 != 0 {
      return OddArgs;
    }
    var ok, keys, values := CollectPairs(args);
    if !ok {
      return BadKey;
    }
    var m := ToMap(keys, values);
    var fps := ConvertFps(Get(m, "fps"));
    if fps.Err? {
      return BadFps;
    }
    var audio := ConvertAudio(Get(m, "audio"));
    o := Dispatched(m, fps.value, audio, SelectAction(task, m, fps.value, audio));
  }

  // ---------------------------------------------------------------------------------------
  // Properties
  // ---------------------------------------------------------------------------------------

  /** An odd token count prints the message and dispatches nothing, whatever the task. */
  lemma OddArgsDispatchNothing(task: string, args: seq<string>)
    requires |args| % 2 == 1
    ensures Handle(task, args) == OddArgs
    ensures Printed(Handle(task, args)) == Some(OddArgsMessage)
    ensures Effects(Handle(task, args)).calls == []
  {
  }

  /**
   * With an even token count, the run raises the key ValueError exactly when some
   * even-position token is not a key token, and then makes no adapter call.
   */
  lemma BadKeyBeforeDispatch(task: string, args: seq<string>)
    requires |args| % 2 == 0
    ensures Handle(task, args) == BadKey <==>
            exists i :: 0 <= i < |args| && i % 2 == 0 && !IsKeyToken(args[i])
    ensures Handle(task, args) == BadKey ==> Effects(Handle(task, args)).calls == []
  {
  }

  /** The key pattern is a prefix match on two dashes and a lowercase letter. */
  lemma KeyTokenExamples()
    ensures IsKeyToken("--target_dir") && IsKeyToken("--fps2") && IsKeyToken("--audio_codec")
    ensures !IsKeyToken("-x") && !IsKeyToken("--Fps") && !IsKeyToken("--1") && !IsKeyToken("--")
  {
  }

  /**
   * A dispatched run's dictionary holds exactly the key names (a token minus its first two
   * characters) and maps each to the token after its last occurrence.
   */
  lemma DispatchedArguments(task: string, args: seq<string>)
    requires Handle(task, args).Dispatched?
    ensures |args| % 2 == 0 && WellFormedKeys(args)
    ensures Handle(task, args).args.Keys == KeyNames(args)
    ensures forall i :: 0 <= i < |args| && i % 2 == 0 && LastKeyPosition(args, i) ==>
              Handle(task, args).args[KeyName(args[i])] == args[i + 1]
  {
    PairedMap(args);
  }

  /** The dictionary built from the paired tokens, key by key. */
  lemma PairedMap(args: seq<string>)
    requires |args| % 2 == 0
    ensures ToMap(Keys(args), Values(args)).Keys == KeyNames(args)
    ensures forall i :: 0 <= i < |args| && i % 2 == 0 && LastKeyPosition(args, i) ==>
              KeyName(args[i]) in ToMap(Keys(args), Values(args)) &&
              ToMap(Keys(args), Values(args))[KeyName(args[i])] == args[i + 1]
  {
    var ks, vs := Keys(args), Values(args);
    ToMapKeys(ks, vs);
    PairedKeys(args);
    forall i | 0 <= i < |args| && i % 2 == 0 && LastKeyPosition(args, i)
      ensures KeyName(args[i]) in ToMap(ks, vs) && ToMap(ks, vs)[KeyName(args[i])] == args[i + 1]
    {
      var h := i / 2;
      PairedLookup(args, i);
      ToMapAt(ks, vs, h);
    }
  }

  /** The key names listed in order are the key names of the even positions. */
  lemma PairedKeys(args: seq<string>)
    requires |args| % 2 == 0
    ensures (set k | k in Keys(args)) == KeyNames(args)
  {
    var keys := Keys(args);
    forall k | k in keys ensures k in KeyNames(args) {
      var q :| 0 <= q < |keys| && keys[q] == k;
      PairAt(args, q);
      assert (2 * q) % 2 == 0;
    }
    forall i | 0 <= i < |args| && i % 2 == 0 ensures KeyName(args[i]) in keys {
      PairAt(args, i / 2);
      assert 2 * (i / 2) == i;
    }
  }

  /** The last token with a given key name is the last occurrence of that key. */
  lemma PairedLookup(args: seq<string>, i: int)
    requires |args| % 2 == 0 && 0 <= i < |args| && i % 2 == 0 && LastKeyPosition(args, i)
    ensures 0 <= i / 2 < |Keys(args)| && LastOccurrence(Keys(args), i / 2)
    ensures Keys(args)[i / 2] == KeyName(args[i]) && Values(args)[i / 2] == args[i + 1]
  {
    var keys, h := Keys(args), i / 2;
    PairAt(args, h);
    assert 2 * h == i;
    forall q | h < q < |keys| ensures keys[q] != keys[h] {
      PairAt(args, q);
      assert i < 2 * q < |args| && (2 * q) % 2 == 0;
    }
  }

  /** The k-th key and value come from positions 2k and 2k+1. */
  lemma PairAt(args: seq<string>, k: int)
    requires 0 <= k < |args| / 2
    ensures 2 * k + 1 < |args|
    ensures Keys(args)[k] == KeyName(args[2 * k]) && Values(args)[k] == args[2 * k + 1]
  {
  }

  /** No tokens: the dictionary is empty, fps is None and audio is False. */
  lemma EmptyArguments(task: string)
    ensures Handle(task, []) == Dispatched(map[], None, false, SelectAction(task, map[], None, false))
  {
    assert Keys([]) == [] && Values([]) == [];
  }

  /**
   * fps is None exactly when no fps key was given; otherwise it is the decimal value
   * truncated toward zero, and a value float() rejects stops the run for every task.
   */
  lemma FpsConversion(task: string, other: string, args: seq<string>)
    requires |args| % 2 == 0 && WellFormedKeys(args)
    ensures var m := ToMap(Keys(args), Values(args));
            Handle(task, args) == BadFps <==> "fps" in m && ParseDecimal(m["fps"]).None?
    ensures Handle(task, args) == BadFps <==> Handle(other, args) == BadFps
    ensures Handle(task, args).Dispatched? ==>
              var o := Handle(task, args);
              (o.fps.None? <==> "fps" !in o.args) &&
              (o.fps.Some? ==> o.fps.value == TruncToInt(ParseDecimal(o.args["fps"]).value))
  {
  }

  /** `--fps 29.7` gives 29 and `--fps 30` gives 30. */
  lemma FpsExamples()
    ensures ConvertFps(Some("29.7")) == Ok(Some(29))
    ensures ConvertFps(Some("30")) == Ok(Some(30))
    ensures ConvertFps(Some("-2.5")) == Ok(Some(-2))
    ensures ConvertFps(None) == Ok(None)
  {
    assert "29.7" == (if false then "-" else "") + "29" + "." + "7";
    TruncateDecimalLiteral(false, "29", "7");
    assert DigitsValue("29") == 29 by {
      assert "29"[..1] == "2";
    }
    assert "-2.5" == (if true then "-" else "") + "2" + "." + "5";
    TruncateDecimalLiteral(true, "2", "5");
    assert IntToString(30) == "30";
    ParseDecimalOfIntToString(30);
  }

  /** audio is True exactly for the values 'true' and 'True'; the documented 'true,' is False. */
  lemma AudioConversion(task: string, args: seq<string>)
    requires Handle(task, args).Dispatched?
    ensures var o := Handle(task, args);
            o.audio <==> "audio" in o.args && (o.args["audio"] == "true" || o.args["audio"] == "True")
    ensures !ConvertAudio(Some("true,")) && !ConvertAudio(Some("1")) && !ConvertAudio(Some(""))
    ensures !ConvertAudio(Some("TRUE")) && !ConvertAudio(None)
  {
  }

  /**
   * Exactly one branch runs: each of the four task names selects its own action, any other
   * name prints the unsupported message, and only the three adapter tasks call moviepy.
   */
  lemma OneBranchPerTask(task: string, args: seq<string>)
    requires Handle(task, args).Dispatched?
    ensures var a := Handle(task, args).action;
            (a.CutCall? <==> task == "cut") &&
            (a.GenerateImagesCall? <==> task == "generate_images") &&
            (a.GenerateVideosCall? <==> task == "generate_videos") &&
            (a.PrintExamples? <==> task == "examples") &&
            (a.PrintUnsupported? <==> task !in {"cut", "generate_images", "generate_videos", "examples"})
    ensures Handle(task, args).action.PrintUnsupported? ==>
              Printed(Handle(task, args)) == Some(UnsupportedMessage) &&
              Effects(Handle(task, args)).calls == []
    ensures Handle(task, args).action.PrintExamples? ==> Effects(Handle(task, args)).calls == []
  {
  }

  /** The cut task hands the four named values to cut, which parses them as the adapter does. */
  lemma CutTaskCallsCut(args: seq<string>)
    requires Handle("cut", args).Dispatched?
    ensures var m := Handle("cut", args).args;
            Effects(Handle("cut", args)) ==
              Video.Cut(Get(m, "source"), Get(m, "target"), Get(m, "internal"), Get(m, "coordinates"))
  {
  }

  /**
   * The generate_images task opens the source video and then raises TypeError building the
   * frame pattern, whatever the arguments: no frame is ever written.
   */
  lemma GenerateImagesTaskRaises(args: seq<string>)
    requires Handle("generate_images", args).Dispatched?
    ensures var m := Handle("generate_images", args).args;
            Effects(Handle("generate_images", args)) ==
              Video.Run([Video.Make(Video.VideoFile(Get(m, "source")))], Some(TypeError))
  {
    var o := Handle("generate_images", args);
    Video.GenerateImagesAsWrittenRaises(Get(o.args, "source"), Get(o.args, "target_dir"), o.fps);
  }

  /** The whole command line: a missing task name is an IndexError. */
  lemma CommandLineNeedsTask(argv: seq<string>)
    ensures HandleCommandLine(argv).Err? <==> |argv| < 2
    ensures |argv| >= 2 ==> HandleCommandLine(argv) == Ok(Handle(argv[1], argv[2..]))
  {
  }
}
