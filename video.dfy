/**
 * app/video.py: the three adapters over moviepy. What each adapter computes itself is the
 * parsing of its interval string 'm0,s0:m1,s1' and rectangle string 'x1,y1:x2,y2'; the
 * moviepy calls it then makes are recorded, in order, as a trace of Call values, together
 * with the Python exception (if any) that ends the adapter.
 */
module Video {
  import opened Wrappers
  import opened PyText

  /** A moviepy clip, described by the calls that produced it. */
  datatype Clip =
    | VideoFile(path: Option<string>)                            // VideoFileClip(source)
    | AudioFile(path: Option<string>)                            // AudioFileClip(source)
    | ImageSequence(folder: Option<string>, fps: Option<int>)    // ImageSequenceClip(from_dir, fps=fps)
    | Subclip(clip: Clip, start: seq<int>, end: seq<int>)        // clip.subclip(start, end)
    | Crop(clip: Clip, x1: real, y1: real, x2: real, y2: real)   // clip.crop(x1=, y1=, x2=, y2=)
    | WithAudio(clip: Clip, audio: Clip)                         // clip.set_audio(audio)

  /** One call into moviepy. */
  datatype Call =
    | Make(clip: Clip)                                           // the call that builds clip
    | WriteVideo(clip: Clip, target: Option<string>)             // clip.write_videofile(target)
    | WriteVideoWith(clip: Clip, target: Option<string>, fps: Option<int>,
                     codec: Option<string>, audioCodec: Option<string>)
    | WriteImages(clip: Clip, nameFormat: string, fps: Option<int>)  // clip.write_images_sequence

  /** What an adapter does: the moviepy calls it makes, then the exception it raises, if any. */
  datatype Run = Run(calls: seq<Call>, raised: Option<Exception>)

  // ---------------------------------------------------------------------------------------
  // Parsing 'a,b:c,d'
  // ---------------------------------------------------------------------------------------

  /** `[conv(x) for x in pieces]`, where conv raises ValueError (None) on a bad piece. */
  function ParseAll<T>(pieces: seq<string>, conv: string -> Option<T>): (r: Option<seq<T>>)
    ensures r.Some? <==> forall i :: 0 <= i < |pieces| ==> conv(pieces[i]).Some?
    ensures r.Some? ==> |r.value| == |pieces|
    ensures r.Some? ==> forall i :: 0 <= i < |pieces| ==> conv(pieces[i]) == Some(r.value[i])
    decreases |pieces|
  {
    if |pieces| == 0 then Some([])
    else
      match conv(pieces[0])
      case None => None
      case Some(v) =>
        match ParseAll(pieces[1..], conv)
        case None => None
        case Some(vs) => Some([v] + vs)
  }

  /**
   * `start, end = text.split(':')` followed by
   * `tuple([conv(x) for x in start.split(',')])` and the same for end.
   */
  function ParsePair<T>(text: Option<string>, conv: string -> Option<T>): Result<(seq<T>, seq<T>), Exception>
  {
    match text
    case None => Err(AttributeError)
    case Some(s) =>
      var halves := Split(s, ':');
      if |halves| != 2 then Err(ValueError)
      else
        match ParseAll(Split(halves[0], ','), conv)
        case None => Err(ValueError)
        case Some(first) =>
          match ParseAll(Split(halves[1], ','), conv)
          case None => Err(ValueError)
          case Some(second) => Ok((first, second))
  }

  /** The interval 'm0,s0:m1,s1' as two integer tuples (app/video.py lines 15-17 and 55-57). */
  function ParseInterval(internal: Option<string>): Result<(seq<int>, seq<int>), Exception>
  {
    ParsePair(internal, ParseInt)
  }

  /** The rectangle 'x1,y1:x2,y2' as two tuples of floats (app/video.py lines 18-20). */
  function ParseCorners(coordinates: Option<string>): Result<(seq<real>, seq<real>), Exception>
  {
    ParsePair(coordinates, ParseDecimal)
  }

  /** The text 'a0,a1,...:b0,b1,...' that ParsePair reads. */
  function PairText(a: seq<string>, b: seq<string>): string
    requires |a| >= 1 && |b| >= 1
  {
    Join(a, ',') + ":" + Join(b, ',')
  }

  lemma {:induction false} JoinAvoids(parts: seq<string>, sep: char, c: char)
    requires |parts| >= 1 && c != sep
    requires forall i :: 0 <= i < |parts| ==> c !in parts[i]
    ensures c !in Join(parts, sep)
    decreases |parts|
  {
    if |parts| > 1 {
      JoinAvoids(parts[1..], sep, c);
    }
  }

  /**
   * Round trip: when every piece converts to its value and holds neither ',' nor ':',
   * ParsePair reads PairText back as exactly those two tuples.
   */
  lemma ParsePairOfText<T>(a: seq<string>, b: seq<string>, va: seq<T>, vb: seq<T>, conv: string -> Option<T>)
    requires |a| >= 1 && |b| >= 1 && |va| == |a| && |vb| == |b|
    requires forall i :: 0 <= i < |a| ==> ',' !in a[i] && ':' !in a[i] && conv(a[i]) == Some(va[i])
    requires forall i :: 0 <= i < |b| ==> ',' !in b[i] && ':' !in b[i] && conv(b[i]) == Some(vb[i])
    ensures ParsePair(Some(PairText(a, b)), conv) == Ok((va, vb))
  {
    var ja, jb := Join(a, ','), Join(b, ',');
    JoinAvoids(a, ',', ':');
    JoinAvoids(b, ',', ':');
    assert PairText(a, b) == Join([ja, jb], ':');
    SplitOfJoin([ja, jb], ':');
    SplitOfJoin(a, ',');
    SplitOfJoin(b, ',');
    var pa := ParseAll(a, conv);
    var pb := ParseAll(b, conv);
    assert pa.value == va;
    assert pb.value == vb;
  }

  /** The integers of a tuple as str() writes them. */
  function Numerals(xs: seq<int>): (r: seq<string>)
    ensures |r| == |xs|
  {
    seq(|xs|, i requires 0 <= i < |xs| => IntToString(xs[i]))
  }

  lemma NumeralFacts(x: int)
    ensures ',' !in IntToString(x) && ':' !in IntToString(x)
    ensures ParseInt(IntToString(x)) == Some(x)
    ensures ParseDecimal(IntToString(x)) == Some(x as real)
  {
    var n: nat := if x < 0 then -x else x;
    DigitsAvoid(NatToString(n), ',');
    DigitsAvoid(NatToString(n), ':');
    assert IntToString(x) == NatToString(n) || IntToString(x) == "-" + NatToString(n);
    ParseIntOfIntToString("", x, "");
    assert "" + IntToString(x) + "" == IntToString(x);
    ParseDecimalOfIntToString(x);
  }

  /** The interval parser reads back any pair of non-empty integer tuples written as 'a,b:c,d'. */
  lemma ParseIntervalOfText(start: seq<int>, end: seq<int>)
    requires |start| >= 1 && |end| >= 1
    ensures ParseInterval(Some(PairText(Numerals(start), Numerals(end)))) == Ok((start, end))
  {
    forall x | x in start || x in end { NumeralFacts(x); }
    ParsePairOfText(Numerals(start), Numerals(end), start, end, ParseInt);
  }

  /** The rectangle parser reads integer corners written as 'x1,y1:x2,y2' as their exact values. */
  lemma ParseCornersOfText(leftUp: seq<int>, rightDown: seq<int>)
    requires |leftUp| >= 1 && |rightDown| >= 1
    ensures ParseCorners(Some(PairText(Numerals(leftUp), Numerals(rightDown))))
            == Ok((AsReals(leftUp), AsReals(rightDown)))
  {
    forall x | x in leftUp || x in rightDown { NumeralFacts(x); }
    ParsePairOfText(Numerals(leftUp), Numerals(rightDown), AsReals(leftUp), AsReals(rightDown), ParseDecimal);
  }

  function AsReals(xs: seq<int>): (r: seq<real>)
    ensures |r| == |xs| && forall i :: 0 <= i < |xs| ==> r[i] == xs[i] as real
  {
    seq(|xs|, i requires 0 <= i < |xs| => xs[i] as real)
  }

  /** A text without ':' (or with more than one) is not an interval. */
  lemma ParsePairNeedsOneColon<T>(s: string, conv: string -> Option<T>)
    requires |Split(s, ':')| != 2
    ensures ParsePair(Some(s), conv) == Err(ValueError)
  {
  }

  // ---------------------------------------------------------------------------------------
  // cut
  // ---------------------------------------------------------------------------------------

  /**
   * `cut(source, target, internal, coordinates)`: both strings are parsed before moviepy is
   * called; the source is then opened, cut to [start, end], cropped to the rectangle and
   * written to target. The corner subscripts are evaluated after the subclip exists.
   */
  function Cut(source: Option<string>, target: Option<string>,
               internal: Option<string>, coordinates: Option<string>): Run
  {
    match ParseInterval(internal)
    case Err(e) => Run([], Some(e))
    case Ok(interval) =>
      match ParseCorners(coordinates)
      case Err(e) => Run([], Some(e))
      case Ok(corners) =>
        var file := VideoFile(source);
        var sub := Subclip(file, interval.0, interval.1);
        var leftUp, rightDown := corners.0, corners.1;
        if |leftUp| < 2 || |rightDown| < 2 then Run([Make(file), Make(sub)], Some(IndexError))
        else
          var cropped := Crop(sub, leftUp[0], leftUp[1], rightDown[0], rightDown[1]);
          Run([Make(file), Make(sub), Make(cropped), WriteVideo(cropped, target)], None)
  }

  /**
   * cut finishes without an exception exactly when both strings parse and each corner has
   * at least two components; it then writes the source cut to [start, end] and cropped to
   * x1 = leftUp[0], y1 = leftUp[1], x2 = rightDown[0], y2 = rightDown[1]. A string that does
   * not parse stops cut before any moviepy call.
   */
  lemma CutOutcome(source: Option<string>, target: Option<string>,
                   internal: Option<string>, coordinates: Option<string>)
    ensures (ParseInterval(internal).Err? || ParseCorners(coordinates).Err?) ==> Cut(source, target, internal, coordinates).calls == []
    ensures Cut(source, target, internal, coordinates).raised.None? <==>
              ParseInterval(internal).Ok? && ParseCorners(coordinates).Ok? &&
              |ParseCorners(coordinates).value.0| >= 2 && |ParseCorners(coordinates).value.1| >= 2
    ensures Cut(source, target, internal, coordinates).raised.None? ==>
              var iv, cs := ParseInterval(internal).value, ParseCorners(coordinates).value;
              var sub := Subclip(VideoFile(source), iv.0, iv.1);
              Cut(source, target, internal, coordinates).calls[3] ==
                WriteVideo(Crop(sub, cs.0[0], cs.0[1], cs.1[0], cs.1[1]), target)
  {
  }

  /** The documented interval '0,10:0,20' is start (0, 10) and end (0, 20). */
  lemma IntervalExample()
    ensures ParseInterval(Some("0,10:0,20")) == Ok(([0, 10], [0, 20]))
  {
    assert IntToString(0) == "0" && IntToString(10) == "10" && IntToString(20) == "20";
    assert Numerals([0, 10]) == ["0", "10"];
    assert Numerals([0, 20]) == ["0", "20"];
    assert PairText(["0", "10"], ["0", "20"]) == "0,10:0,20";
    ParseIntervalOfText([0, 10], [0, 20]);
  }

  /** The documented rectangle '0,0:100,100' has corners (0, 0) and (100, 100). */
  lemma CornersExample()
    ensures ParseCorners(Some("0,0:100,100")) == Ok(([0.0, 0.0], [100.0, 100.0]))
  {
    assert IntToString(0) == "0" && IntToString(100) == "100";
    assert Numerals([0, 0]) == ["0", "0"];
    assert Numerals([100, 100]) == ["100", "100"];
    assert PairText(["0", "0"], ["100", "100"]) == "0,0:100,100";
    ParseCornersOfText([0, 0], [100, 100]);
    assert AsReals([0, 0]) == [0.0, 0.0];
    assert AsReals([100, 100]) == [100.0, 100.0];
  }

  /** The documented cut: '0,10:0,20' and '0,0:100,100'. */
  lemma CutExample(source: Option<string>, target: Option<string>)
    ensures Cut(source, target, Some("0,10:0,20"), Some("0,0:100,100")) ==
      var sub := Subclip(VideoFile(source), [0, 10], [0, 20]);
      var cropped := Crop(sub, 0.0, 0.0, 100.0, 100.0);
      Run([Make(VideoFile(source)), Make(sub), Make(cropped), WriteVideo(cropped, target)], None)
  {
    IntervalExample();
    CornersExample();
  }

  // ---------------------------------------------------------------------------------------
  // generate_images
  // ---------------------------------------------------------------------------------------

  /** `str(x)` for an argument that may be None. */
  function PyStr(x: Option<string>): string
  {
    match x
    case None => "None"
    case Some(s) => s
  }

  /** The frame file pattern as app/video.py line 35 builds it: `"%s/frame%05d.png" % target_dir`. */
  function FramePatternAsWritten(targetDir: Option<string>): Result<string, Exception>
  {
    PercentFormat("%s/frame%05d.png", [PyStr(targetDir)])
  }

  /** `generate_images` as written: the pattern is built after the source has been opened. */
  function GenerateImagesAsWritten(source: Option<string>, targetDir: Option<string>, fps: Option<int>): Run
  {
    var file := VideoFile(source);
    match FramePatternAsWritten(targetDir)
    case Err(e) => Run([Make(file)], Some(e))
    case Ok(pattern) => Run([Make(file), WriteImages(file, pattern, fps)], None)
  }

  /**
   * As written the pattern has two conversions for one argument, so it raises TypeError for
   * every target directory, and generate_images never writes a frame.
   */
  lemma GenerateImagesAsWrittenRaises(source: Option<string>, targetDir: Option<string>, fps: Option<int>)
    ensures FramePatternAsWritten(targetDir) == Err(TypeError)
    ensures GenerateImagesAsWritten(source, targetDir, fps) == Run([Make(VideoFile(source))], Some(TypeError))
  {
    var d := PyStr(targetDir);
    assert "%s/frame%05d.png" == "%s" + ("/frame" + ("%" + "05" + "d" + ".png"));
    assert [d] + [] == [d];
    PercentFormatString("/frame" + ("%" + "05" + "d" + ".png"), d, []);
    PercentFormatLiteral("/frame", "%" + "05" + "d" + ".png", []);
    PercentFormatNumber("05", ".png", []);
  }

  /** The pattern the code evidently intends: `"%s/frame%%05d.png" % target_dir`. */
  function FramePattern(targetDir: Option<string>): Result<string, Exception>
  {
    PercentFormat("%s/frame%%05d.png", [PyStr(targetDir)])
  }

  /** The intended pattern is the directory followed by moviepy's frame-number template. */
  lemma FramePatternValue(targetDir: Option<string>)
    ensures FramePattern(targetDir) == Ok(PyStr(targetDir) + "/frame%05d.png")
  {
    var d := PyStr(targetDir);
    assert "%s/frame%%05d.png" == "%s" + "/frame%%05d.png";
    assert [d] + [] == [d];
    PercentFormatString("/frame%%05d.png", d, []);
    FrameTail();
  }

  lemma FrameTail()
    ensures PercentFormat("/frame%%05d.png", []) == Ok("/frame%05d.png")
  {
    assert "/frame%%05d.png" == "/frame" + "%%05d.png";
    PercentFormatLiteral("/frame", "%%05d.png", []);
    FrameEscape();
    assert "/frame" + "%05d.png" == "/frame%05d.png";
  }

  lemma FrameEscape()
    ensures PercentFormat("%%05d.png", []) == Ok("%05d.png")
  {
    assert "%%05d.png" == "%%" + "05d.png";
    PercentFormatPercent("05d.png", []);
    assert "05d.png" == "05d.png" + "";
    PercentFormatLiteral("05d.png", "", []);
    assert "%" + "05d.png" == "%05d.png";
  }

  /** `generate_images` with the intended pattern: one write of every frame of the source. */
  function GenerateImages(source: Option<string>, targetDir: Option<string>, fps: Option<int>): Run
  {
    var file := VideoFile(source);
    match FramePattern(targetDir)
    case Err(e) => Run([Make(file)], Some(e))
    case Ok(pattern) => Run([Make(file), WriteImages(file, pattern, fps)], None)
  }

  lemma GenerateImagesWrites(source: Option<string>, targetDir: Option<string>, fps: Option<int>)
    ensures GenerateImages(source, targetDir, fps) ==
      Run([Make(VideoFile(source)), WriteImages(VideoFile(source), PyStr(targetDir) + "/frame%05d.png", fps)], None)
  {
    FramePatternValue(targetDir);
  }

  // ---------------------------------------------------------------------------------------
  // generate_videos
  // ---------------------------------------------------------------------------------------

  /**
   * `generate_videos`: the image folder becomes a clip first; without audio it is written as
   * it is, with audio the interval is parsed as in cut and the cut audio track attached.
   */
  function GenerateVideos(target: Option<string>, fromDir: Option<string>, codec: Option<string>,
                          audioCodec: Option<string>, fps: Option<int>, audio: bool,
                          source: Option<string>, internal: Option<string>): Run
  {
    var frames := ImageSequence(fromDir, fps);
    if !audio then
      Run([Make(frames), WriteVideoWith(frames, target, fps, codec, audioCodec)], None)
    else
      match ParseInterval(internal)
      case Err(e) => Run([Make(frames)], Some(e))
      case Ok(interval) =>
        var track := AudioFile(source);
        var sub := Subclip(track, interval.0, interval.1);
        var out := WithAudio(frames, sub);
        Run([Make(frames), Make(track), Make(sub), Make(out), WriteVideoWith(out, target, fps, codec, audioCodec)], None)
  }

  /** Without audio, source and internal are never read: the frames are written directly. */
  lemma SilentVideoIgnoresSource(target: Option<string>, fromDir: Option<string>, codec: Option<string>,
                                 audioCodec: Option<string>, fps: Option<int>,
                                 source1: Option<string>, internal1: Option<string>,
                                 source2: Option<string>, internal2: Option<string>)
    ensures GenerateVideos(target, fromDir, codec, audioCodec, fps, false, source1, internal1)
         == GenerateVideos(target, fromDir, codec, audioCodec, fps, false, source2, internal2)
    ensures GenerateVideos(target, fromDir, codec, audioCodec, fps, false, source1, internal1).raised.None?
    ensures GenerateVideos(target, fromDir, codec, audioCodec, fps, false, source1, internal1).calls[1]
         == WriteVideoWith(ImageSequence(fromDir, fps), target, fps, codec, audioCodec)
  {
  }

  /**
   * With audio, generate_videos fails exactly when the interval does not parse, and otherwise
   * writes the frames carrying the source's audio cut to the parsed [start, end].
   */
  lemma VideoWithAudio(target: Option<string>, fromDir: Option<string>, codec: Option<string>,
                       audioCodec: Option<string>, fps: Option<int>,
                       source: Option<string>, internal: Option<string>)
    ensures GenerateVideos(target, fromDir, codec, audioCodec, fps, true, source, internal).raised.Some?
            <==> ParseInterval(internal).Err?
    ensures ParseInterval(internal).Ok? ==>
              var iv := ParseInterval(internal).value;
              var out := WithAudio(ImageSequence(fromDir, fps), Subclip(AudioFile(source), iv.0, iv.1));
              GenerateVideos(target, fromDir, codec, audioCodec, fps, true, source, internal).calls[4]
                == WriteVideoWith(out, target, fps, codec, audioCodec)
  {
  }

  /**
   * generate_videos reads the interval exactly as cut does: given a rectangle that cut
   * accepts, both reach their subclip call with the same [start, end], or neither does.
   */
  lemma SameIntervalAsCut(source: Option<string>, target: Option<string>, internal: Option<string>,
                          coordinates: Option<string>, fromDir: Option<string>, codec: Option<string>,
                          audioCodec: Option<string>, fps: Option<int>)
    requires ParseCorners(coordinates).Ok?
    ensures |Cut(source, target, internal, coordinates).calls| >= 2 <==>
            |GenerateVideos(target, fromDir, codec, audioCodec, fps, true, source, internal).calls| >= 3
    ensures |Cut(source, target, internal, coordinates).calls| >= 2 ==>
            Cut(source, target, internal, coordinates).calls[1].clip.start ==
              GenerateVideos(target, fromDir, codec, audioCodec, fps, true, source, internal).calls[2].clip.start &&
            Cut(source, target, internal, coordinates).calls[1].clip.end ==
              GenerateVideos(target, fromDir, codec, audioCodec, fps, true, source, internal).calls[2].clip.end
  {
  }
}
