/**
 * What the command built by `GenerateFFmpegCmd` looks like, stated on `Generate`:
 * the order of the inputs, of the filter chains and of the concat pads, the input
 * ids the clip chains read, the trim and subtitle filters of each segment, the
 * set-up and clean-up commands, the distinct chain labels, and which error a
 * failed build reports.
 */
module HighlightsProperties {
  import opened Results
  import opened Decimal
  import opened Text
  import opened Ffcmd
  import opened Seqs
  import opened Highlights

  // ---------------------------------------------------------------------------
  // Indexing the projections of a segment list.

  /** The clip files are the clips' files, one each, in order. */
  lemma {:induction false} FilesAt(clips: seq<Clip>)
    ensures |Files(clips)| == |clips|
    ensures forall i :: 0 <= i < |clips| ==> Files(clips)[i] == clips[i].file
    decreases |clips|
  {
    if clips != [] {
      var n := |clips| - 1;
      FilesAt(clips[..n]);
      assert forall i :: 0 <= i < n ==> clips[..n][i] == clips[i];
    }
  }

  /** Segment `i` contributes chains `2i` (video) and `2i + 1` (audio). */
  lemma {:induction false} ChainsOfAt(segs: seq<Segment>)
    ensures |ChainsOf(segs)| == 2 * |segs|
    ensures forall i :: 0 <= i < |segs| ==>
      ChainsOf(segs)[2 * i] == segs[i].video && ChainsOf(segs)[2 * i + 1] == segs[i].audio
    decreases |segs|
  {
    if segs != [] {
      var n := |segs| - 1;
      ChainsOfAt(segs[..n]);
      assert forall i :: 0 <= i < n ==> segs[..n][i] == segs[i];
    }
  }

  /** Segment `i` contributes pads `2i` (video output) and `2i + 1` (audio output). */
  lemma {:induction false} PadsOfAt(segs: seq<Segment>)
    ensures |PadsOf(segs)| == 2 * |segs|
    ensures forall i :: 0 <= i < |segs| ==>
      PadsOf(segs)[2 * i] == OutPad(segs[i].video) && PadsOf(segs)[2 * i + 1] == OutPad(segs[i].audio)
    decreases |segs|
  {
    if segs != [] {
      var n := |segs| - 1;
      PadsOfAt(segs[..n]);
      assert forall i :: 0 <= i < n ==> segs[..n][i] == segs[i];
    }
  }

  // ---------------------------------------------------------------------------
  // The clip loop.

  /** A successful clip loop is its first turns' segments followed by the last clip's. */
  lemma ClipSegmentsLast(clips: seq<Clip>, out: Output, lib: Library)
    requires clips != [] && ClipSegments(clips, out, lib).Success?
    ensures var n := |clips| - 1; var segs := ClipSegments(clips, out, lib).value;
      ClipSegments(clips[..n], out, lib) == Success(segs[..n]) &&
      ClipSegment(clips[n], n, 2 + n, out, lib) == Success(segs[n])
  {
    var n := |clips| - 1;
    assert ClipSegments(clips, out, lib).value[..n] == ClipSegments(clips[..n], out, lib).value;
  }

  lemma LastSegmentAt(clips: seq<Clip>, i: nat, out: Output, lib: Library)
    requires i == |clips| - 1 && ClipSegments(clips, out, lib).Success?
    ensures ClipSegment(clips[i], i, 2 + i, out, lib) == Success(ClipSegments(clips, out, lib).value[i])
  {
    ClipSegmentsLast(clips, out, lib);
  }

  lemma PrefixSegmentAt(clips: seq<Clip>, segs: seq<Segment>, i: nat, out: Output, lib: Library)
    requires i < |clips| - 1 && |segs| == |clips|
    requires ClipSegment(clips[..|clips| - 1][i], i, 2 + i, out, lib) == Success(segs[..|clips| - 1][i])
    ensures ClipSegment(clips[i], i, 2 + i, out, lib) == Success(segs[i])
  {
    assert clips[..|clips| - 1][i] == clips[i];
  }

  /** When every clip succeeds, segment `i` is the one clip `i` makes from input `2 + i`. */
  lemma {:induction false} ClipSegmentsAt(clips: seq<Clip>, out: Output, lib: Library)
    requires ClipSegments(clips, out, lib).Success?
    ensures forall i :: 0 <= i < |clips| ==>
      ClipSegment(clips[i], i, 2 + i, out, lib) == Success(ClipSegments(clips, out, lib).value[i])
    decreases |clips|
  {
    if clips != [] {
      var n := |clips| - 1;
      ClipSegmentsLast(clips, out, lib);
      ClipSegmentsAt(clips[..n], out, lib);
      forall i | 0 <= i < |clips|
        ensures ClipSegment(clips[i], i, 2 + i, out, lib) == Success(ClipSegments(clips, out, lib).value[i])
      {
        if i < n {
          PrefixSegmentAt(clips, ClipSegments(clips, out, lib).value, i, out, lib);
        } else {
          LastSegmentAt(clips, i, out, lib);
        }
      }
    }
  }

  /** The clip loop succeeds exactly when every clip does. */
  lemma {:induction false} ClipSegmentsSucceed(clips: seq<Clip>, out: Output, lib: Library)
    ensures ClipSegments(clips, out, lib).Success? <==>
      forall i :: 0 <= i < |clips| ==> ClipSegment(clips[i], i, 2 + i, out, lib).Success?
    decreases |clips|
  {
    if clips != [] {
      var n := |clips| - 1;
      var init := clips[..n];
      if ClipSegments(clips, out, lib).Success? {
        ClipSegmentsAt(clips, out, lib);
      } else if ClipSegments(init, out, lib).Failure? {
        ClipSegmentsSucceed(init, out, lib);
        var i :| 0 <= i < n && !ClipSegment(init[i], i, 2 + i, out, lib).Success?;
        assert init[i] == clips[i];
      }
    }
  }

  /** A failed clip loop reports the error of the first clip that fails. */
  lemma {:induction false} ClipSegmentsFirstFailure(clips: seq<Clip>, out: Output, lib: Library)
    requires ClipSegments(clips, out, lib).Failure?
    ensures exists i :: (0 <= i < |clips| &&
      ClipSegment(clips[i], i, 2 + i, out, lib) == Failure(ClipSegments(clips, out, lib).error) &&
      forall j :: 0 <= j < i ==> ClipSegment(clips[j], j, 2 + j, out, lib).Success?)
    decreases |clips|
  {
    var n := |clips| - 1;
    assert forall j :: 0 <= j < n ==> clips[..n][j] == clips[j];
    if ClipSegments(clips[..n], out, lib).Failure? {
      ClipSegmentsFirstFailure(clips[..n], out, lib);
    } else {
      ClipSegmentsSucceed(clips[..n], out, lib);
    }
  }

  /** Segment `i` of the clip loop is labelled `[clip_i_v]`/`[clip_i_a]` and reads input `2 + i`. */
  lemma ClipSegmentsWiring(clips: seq<Clip>, out: Output, lib: Library)
    requires ClipSegments(clips, out, lib).Success?
    ensures var segs := ClipSegments(clips, out, lib).value;
      forall i :: 0 <= i < |segs| ==>
        segs[i].video.labels == [ClipLabel(i, Video)] && segs[i].video.pads == [ById(2 + i, Video, 0)] &&
        segs[i].audio.labels == [ClipLabel(i, Audio)] && segs[i].audio.pads == [ById(2 + i, Audio, 0)]
  {
    ClipSegmentsAt(clips, out, lib);
  }

  // ---------------------------------------------------------------------------
  // The assembled command.

  /** A successful build is the assembly of its opening, ending and clip segments. */
  lemma Decompose(h: Highlights, lib: Library, cmd: Command) returns (op: Segment, ed: Segment, segs: seq<Segment>)
    requires Generate(h, lib) == Success(cmd)
    ensures OpeningSegment(h, lib) == Success(op) && EndingSegment(h, lib) == Success(ed)
    ensures ClipSegments(h.clips, h.out, lib) == Success(segs) && |segs| == |h.clips|
    ensures cmd == Assemble(h, op, ed, segs)
  {
    op := OpeningSegment(h, lib).value;
    ed := EndingSegment(h, lib).value;
    segs := ClipSegments(h.clips, h.out, lib).value;
  }

  /**
   * The inputs of an assembled command: the opening image, the ending image, the
   * clip files in list order, and the background music last.
   */
  lemma AssembleInputs(h: Highlights, op: Segment, ed: Segment, segs: seq<Segment>)
    ensures var inputs := Assemble(h, op, ed, segs).inputs;
      |inputs| == |h.clips| + 3 && inputs[0] == h.op.file && inputs[1] == h.ed.file &&
      inputs[|h.clips| + 2] == h.bgm &&
      forall i :: 0 <= i < |h.clips| ==> inputs[2 + i] == h.clips[i].file
  {
    FilesAt(h.clips);
  }

  /**
   * The graph of an assembled command: the opening's two chains, the ending's two,
   * each clip's two in list order, then the concat chain and the music chain.
   */
  lemma AssembleChains(h: Highlights, op: Segment, ed: Segment, segs: seq<Segment>)
    requires |segs| == |h.clips|
    ensures var chains := Assemble(h, op, ed, segs).chains;
      |chains| == 2 * |segs| + 6 &&
      chains[0] == op.video && chains[1] == op.audio && chains[2] == ed.video && chains[3] == ed.audio &&
      (forall i :: 0 <= i < |segs| ==> chains[4 + 2 * i] == segs[i].video && chains[5 + 2 * i] == segs[i].audio) &&
      chains[2 * |segs| + 4] == ConcatChain(op, ed, segs) && chains[2 * |segs| + 5] == BgmChain(|h.clips| + 2)
  {
    ChainsOfAt(segs);
    var chains := Assemble(h, op, ed, segs).chains;
    forall i | 0 <= i < |segs| ensures chains[4 + 2 * i] == segs[i].video && chains[5 + 2 * i] == segs[i].audio {
      assert chains[4 + 2 * i] == ChainsOf(segs)[2 * i];
      assert chains[5 + 2 * i] == ChainsOf(segs)[2 * i + 1];
    }
  }

  /**
   * The concat chain reads, in timeline order, the opening's outputs, each segment's
   * outputs in list order and the ending's outputs; its one filter joins them all.
   */
  lemma ConcatChainPads(op: Segment, ed: Segment, segs: seq<Segment>)
    ensures var pads := ConcatChain(op, ed, segs).pads;
      |pads| == 2 * |segs| + 4 &&
      pads[0] == OutPad(op.video) && pads[1] == OutPad(op.audio) &&
      (forall i :: 0 <= i < |segs| ==> pads[2 + 2 * i] == OutPad(segs[i].video) && pads[3 + 2 * i] == OutPad(segs[i].audio)) &&
      pads[2 * |segs| + 2] == OutPad(ed.video) && pads[2 * |segs| + 3] == OutPad(ed.audio)
  {
    PadsOfAt(segs);
    var pads := ConcatChain(op, ed, segs).pads;
    forall i | 0 <= i < |segs| ensures pads[2 + 2 * i] == OutPad(segs[i].video) && pads[3 + 2 * i] == OutPad(segs[i].audio) {
      assert pads[2 + 2 * i] == PadsOf(segs)[2 * i];
      assert pads[3 + 2 * i] == PadsOf(segs)[2 * i + 1];
    }
  }

  // ---------------------------------------------------------------------------
  // One segment.

  /**
   * Clip `i` read from input `id`: its video chain `[clip_i_v]` reads `[id:v:0]` and
   * applies `scale`, `pad` and `setsar`, then `trim` and `setpts` exactly when
   * `start != end`, then the optional `subtitles`; its audio chain `[clip_i_a]` reads
   * `[id:a:0]` and holds `atrim` and `asetpts` exactly when `start != end`; a subtitle
   * adds one set-up and one clean-up command.
   */
  lemma ClipSegmentShape(c: Clip, i: nat, id: nat, out: Output, lib: Library)
    requires ClipSegment(c, i, id, out, lib).Success?
    ensures var seg := ClipSegment(c, i, id, out, lib).value;
      var subs := SubtitleFilters(c.file, c.subtitle, c.fontSize);
      seg.video.labels == [ClipLabel(i, Video)] && seg.video.pads == [ById(id, Video, 0)] &&
      seg.audio.labels == [ClipLabel(i, Audio)] && seg.audio.pads == [ById(id, Audio, 0)] &&
      |seg.pre| == |seg.post| == (if c.subtitle == "" then 0 else 1) &&
      (c.subtitle != "" ==>
        CreateSrtCmd(ClipCaptionOf(c), lib) == Success(seg.pre[0]) &&
        lib.removeSrt(SrtPath(c.file)) == Success(seg.post[0])) &&
      (c.start == c.end ==>
        seg.video.filters == [ScaleFilter(out), PadFilter(out), SETSAR] + subs && seg.audio.filters == []) &&
      (c.start != c.end ==>
        TrimPair(c, lib).Success? &&
        seg.video.filters == [ScaleFilter(out), PadFilter(out), SETSAR, TrimPair(c, lib).value.0, SETPTS] + subs &&
        seg.audio.filters == [TrimPair(c, lib).value.1, ASETPTS])
  {
    SubtitleBurnShape(ClipCaptionOf(c), c.fontSize, lib);
  }

  /**
   * The opening or ending image read from input `id`: its video chain applies `fps`,
   * `loop`, `scale`, `pad`, `setsar`, `format`, the optional `subtitles` and `fade`, in
   * that order; its audio chain is silence as long as the image is shown.
   */
  lemma ImageSegmentShape(img: ImageClip, vLabel: string, aLabel: string, id: nat, out: Output, lib: Library)
    requires ImageSegment(img, vLabel, aLabel, id, out, lib).Success?
    ensures var seg := ImageSegment(img, vLabel, aLabel, id, out, lib).value;
      seg.video.labels == [vLabel] && seg.video.pads == [ById(id, Video, 0)] &&
      seg.video.filters ==
        [FpsFilter(out.fps), LoopFilter(img.duration, out.fps), ScaleFilter(out), PadFilter(out), SETSAR, FORMAT]
        + SubtitleFilters(img.file, img.subtitle, img.fontSize) + [FadeFilter(img.duration, img.fadeOutDuration)] &&
      seg.audio == ChainValue([aLabel], [], [SilenceFilter(img.duration)]) &&
      |seg.pre| == |seg.post| == (if img.subtitle == "" then 0 else 1) &&
      (img.subtitle != "" ==>
        CreateSrtCmd(ImageCaptionOf(img), lib) == Success(seg.pre[0]) &&
        lib.removeSrt(SrtPath(img.file)) == Success(seg.post[0]))
  {
    SubtitleBurnShape(ImageCaptionOf(img), img.fontSize, lib);
  }

  // ---------------------------------------------------------------------------
  // The built command.

  /**
   * The inputs are the opening image, the ending image, every clip file once in list
   * order, and the background music last; clip `i` is input `2 + i`, and both of its
   * chains read that input.
   */
  lemma GenerateInputs(h: Highlights, lib: Library, cmd: Command)
    requires Generate(h, lib) == Success(cmd)
    ensures |cmd.inputs| == |h.clips| + 3 && |cmd.chains| == 2 * |h.clips| + 6
    ensures cmd.inputs[0] == h.op.file && cmd.inputs[1] == h.ed.file && cmd.inputs[|h.clips| + 2] == h.bgm
    ensures cmd.chains[0].pads == [ById(0, Video, 0)] && cmd.chains[2].pads == [ById(1, Video, 0)]
    ensures forall i :: 0 <= i < |h.clips| ==>
      cmd.inputs[2 + i] == h.clips[i].file &&
      cmd.chains[4 + 2 * i].pads == [ById(2 + i, Video, 0)] &&
      cmd.chains[5 + 2 * i].pads == [ById(2 + i, Audio, 0)]
    ensures cmd.chains[2 * |h.clips| + 5].pads[0] == ById(|h.clips| + 2, Audio, 0)
  {
    var op, ed, segs := Decompose(h, lib, cmd);
    AssembleInputs(h, op, ed, segs);
    AssembleChains(h, op, ed, segs);
    ImageSegmentShape(h.op, OP_V, OP_A, 0, h.out, lib);
    ImageSegmentShape(h.ed, ED_V, ED_A, 1, h.out, lib);
    ClipSegmentsWiring(h.clips, h.out, lib);
    forall i | 0 <= i < |h.clips|
      ensures cmd.chains[4 + 2 * i].pads == [ById(2 + i, Video, 0)] && cmd.chains[5 + 2 * i].pads == [ById(2 + i, Audio, 0)]
    {
      assert cmd.chains[4 + 2 * i] == segs[i].video && cmd.chains[5 + 2 * i] == segs[i].audio;
    }
  }

  /**
   * The graph holds, in order: `[op_v]`, `[op_a]`, `[ed_v]`, `[ed_a]`, the two chains
   * of each clip, the concat chain and the background-music chain, which mixes the
   * last input into the concat chain's audio; the outputs are the concat chain's
   * video and the music chain's output.
   */
  lemma GenerateChainOrder(h: Highlights, lib: Library, cmd: Command)
    requires Generate(h, lib) == Success(cmd)
    ensures |cmd.chains| == 2 * |h.clips| + 6 && |cmd.inputs| == |h.clips| + 3
    ensures cmd.chains[0].labels == [OP_V] && cmd.chains[1].labels == [OP_A]
    ensures cmd.chains[2].labels == [ED_V] && cmd.chains[3].labels == [ED_A]
    ensures forall i :: 0 <= i < |h.clips| ==>
      cmd.chains[4 + 2 * i].labels == [ClipLabel(i, Video)] && cmd.chains[5 + 2 * i].labels == [ClipLabel(i, Audio)]
    ensures cmd.chains[2 * |h.clips| + 4].labels == [OUT_V, OUT_A]
    ensures cmd.chains[2 * |h.clips| + 5] ==
      ChainValue([BGM_OUT], [ById(|cmd.inputs| - 1, Audio, 0), ByOutput(OutRef([OUT_V, OUT_A], 1))], [AMERGE, PAN])
    ensures cmd.maps == [OutRef(cmd.chains[2 * |h.clips| + 4].labels, 0), OutRef(cmd.chains[2 * |h.clips| + 5].labels, 0)]
  {
    var op, ed, segs := Decompose(h, lib, cmd);
    AssembleInputs(h, op, ed, segs);
    AssembleChains(h, op, ed, segs);
    ImageSegmentShape(h.op, OP_V, OP_A, 0, h.out, lib);
    ImageSegmentShape(h.ed, ED_V, ED_A, 1, h.out, lib);
    ClipSegmentsWiring(h.clips, h.out, lib);
    forall i | 0 <= i < |h.clips|
      ensures cmd.chains[4 + 2 * i].labels == [ClipLabel(i, Video)] && cmd.chains[5 + 2 * i].labels == [ClipLabel(i, Audio)]
    {
      assert cmd.chains[4 + 2 * i] == segs[i].video && cmd.chains[5 + 2 * i] == segs[i].audio;
    }
  }

  /**
   * The concat chain reads, in timeline order, `[op_v]`, `[op_a]`, each clip's
   * `[clip_i_v]` and `[clip_i_a]` in list order, then `[ed_v]` and `[ed_a]`:
   * `2 * (|clips| + 2)` pads. Its one filter joins `|clips| + 2` segments.
   */
  lemma GenerateConcat(h: Highlights, lib: Library, cmd: Command)
    requires Generate(h, lib) == Success(cmd)
    ensures |cmd.chains| == 2 * |h.clips| + 6
    ensures var concat := cmd.chains[2 * |h.clips| + 4];
      |concat.pads| == 2 * (|h.clips| + 2) &&
      concat.pads[0] == ByOutput(OutRef([OP_V], 0)) && concat.pads[1] == ByOutput(OutRef([OP_A], 0)) &&
      (forall i :: 0 <= i < |h.clips| ==>
        concat.pads[2 + 2 * i] == ByOutput(OutRef([ClipLabel(i, Video)], 0)) &&
        concat.pads[3 + 2 * i] == ByOutput(OutRef([ClipLabel(i, Audio)], 0))) &&
      concat.pads[2 * |h.clips| + 2] == ByOutput(OutRef([ED_V], 0)) &&
      concat.pads[2 * |h.clips| + 3] == ByOutput(OutRef([ED_A], 0)) &&
      concat.filters == [ConcatFilter(|h.clips| + 2)]
  {
    var op, ed, segs := Decompose(h, lib, cmd);
    AssembleChains(h, op, ed, segs);
    ConcatChainPads(op, ed, segs);
    ImageSegmentShape(h.op, OP_V, OP_A, 0, h.out, lib);
    ImageSegmentShape(h.ed, ED_V, ED_A, 1, h.out, lib);
    ClipSegmentsWiring(h.clips, h.out, lib);
    var pads := cmd.chains[2 * |h.clips| + 4].pads;
    forall i | 0 <= i < |h.clips|
      ensures pads[2 + 2 * i] == ByOutput(OutRef([ClipLabel(i, Video)], 0))
      ensures pads[3 + 2 * i] == ByOutput(OutRef([ClipLabel(i, Audio)], 0))
    {
      assert pads[2 + 2 * i] == OutPad(segs[i].video) && pads[3 + 2 * i] == OutPad(segs[i].audio);
    }
  }

  // ---------------------------------------------------------------------------
  // The chains of one segment.

  /** The `subtitles` filter a segment gets: one, naming its SRT file, when it has a subtitle. */
  function SubtitleFilters(file: string, subtitle: string, fontSize: int64): seq<string> {
    if subtitle == "" then [] else [SubtitlesFilter(SrtPath(file), fontSize)]
  }

  /**
   * A subtitle adds exactly one set-up command creating the SRT file `SrtPath(file)`,
   * one clean-up command removing that same file, and one `subtitles` filter naming
   * it; no subtitle adds nothing. A failing library command is the error.
   */
  lemma SubtitleBurnShape(cap: Caption, fontSize: int64, lib: Library)
    ensures cap.text == "" ==> SubtitleBurn(cap, fontSize, lib) == Success(Burn([], [], []))
    ensures cap.text != "" && CreateSrtCmd(cap, lib).Failure? ==>
      SubtitleBurn(cap, fontSize, lib) == Failure(CreateSrtCmd(cap, lib).error)
    ensures cap.text != "" && CreateSrtCmd(cap, lib).Success? && lib.removeSrt(SrtPath(cap.file)).Failure? ==>
      SubtitleBurn(cap, fontSize, lib) == Failure(lib.removeSrt(SrtPath(cap.file)).error)
    ensures SubtitleBurn(cap, fontSize, lib).Success? ==>
      var b := SubtitleBurn(cap, fontSize, lib).value;
      |b.pre| == |b.post| == |b.filters| == (if cap.text == "" then 0 else 1) &&
      b.filters == SubtitleFilters(cap.file, cap.text, fontSize) &&
      (cap.text != "" ==>
        b.pre == [CreateSrtCmd(cap, lib).value] && b.post == [lib.removeSrt(SrtPath(cap.file)).value])
  {
  }

  /**
   * The opening's and the ending's video chains apply `fps`, `loop`, `scale`, `pad`,
   * `setsar`, `format`, the optional `subtitles` and `fade`; their audio chains are
   * silence as long as the image is shown.
   */
  lemma GenerateImageChains(h: Highlights, lib: Library, cmd: Command)
    requires Generate(h, lib) == Success(cmd)
    ensures |cmd.chains| == 2 * |h.clips| + 6
    ensures cmd.chains[0].filters ==
      [FpsFilter(h.out.fps), LoopFilter(h.op.duration, h.out.fps), ScaleFilter(h.out), PadFilter(h.out), SETSAR, FORMAT]
      + SubtitleFilters(h.op.file, h.op.subtitle, h.op.fontSize) + [FadeFilter(h.op.duration, h.op.fadeOutDuration)]
    ensures cmd.chains[1] == ChainValue([OP_A], [], [SilenceFilter(h.op.duration)])
    ensures cmd.chains[2].filters ==
      [FpsFilter(h.out.fps), LoopFilter(h.ed.duration, h.out.fps), ScaleFilter(h.out), PadFilter(h.out), SETSAR, FORMAT]
      + SubtitleFilters(h.ed.file, h.ed.subtitle, h.ed.fontSize) + [FadeFilter(h.ed.duration, h.ed.fadeOutDuration)]
    ensures cmd.chains[3] == ChainValue([ED_A], [], [SilenceFilter(h.ed.duration)])
  {
    var op, ed, segs := Decompose(h, lib, cmd);
    AssembleChains(h, op, ed, segs);
    ImageSegmentShape(h.op, OP_V, OP_A, 0, h.out, lib);
    ImageSegmentShape(h.ed, ED_V, ED_A, 1, h.out, lib);
  }

  /**
   * Clip `i`'s chains, `4 + 2i` and `5 + 2i`: `scale`, `pad`, `setsar`, then `trim` and
   * `setpts` exactly when `start != end`, then the optional `subtitles`; and `atrim`
   * and `asetpts` exactly when `start != end`.
   */
  lemma GenerateClipChains(h: Highlights, lib: Library, cmd: Command, i: nat)
    requires Generate(h, lib) == Success(cmd) && i < |h.clips|
    ensures |cmd.chains| == 2 * |h.clips| + 6
    ensures var c, v, a := h.clips[i], cmd.chains[4 + 2 * i], cmd.chains[5 + 2 * i];
      var subs := SubtitleFilters(c.file, c.subtitle, c.fontSize);
      (c.start == c.end ==>
        v.filters == [ScaleFilter(h.out), PadFilter(h.out), SETSAR] + subs && a.filters == []) &&
      (c.start != c.end ==>
        TrimPair(c, lib).Success? &&
        v.filters == [ScaleFilter(h.out), PadFilter(h.out), SETSAR, TrimPair(c, lib).value.0, SETPTS] + subs &&
        a.filters == [TrimPair(c, lib).value.1, ASETPTS])
  {
    var op, ed, segs := Decompose(h, lib, cmd);
    AssembleChains(h, op, ed, segs);
    ClipSegmentsAt(h.clips, h.out, lib);
    ClipSegmentShape(h.clips[i], i, 2 + i, h.out, lib);
  }

  // ---------------------------------------------------------------------------
  // Filter texts.

  /**
   * The four shapes of a trim filter: `start=S:end=E`, `start=S`, `end=E`, or the bare
   * prefix when neither bound is present.
   */
  lemma TrimFilterText(prefix: string, start: Option<string>, end: Option<string>)
    requires prefix != [] && prefix[|prefix| - 1] == '='
    ensures start.Some? && end.Some? ==>
      TrimFilter(prefix, start, end) == prefix + "start=" + start.value + ":end=" + end.value
    ensures start.Some? && end.None? ==> TrimFilter(prefix, start, end) == prefix + "start=" + start.value
    ensures start.None? && end.Some? ==> TrimFilter(prefix, start, end) == prefix + "end=" + end.value
    ensures start.None? && end.None? ==> TrimFilter(prefix, start, end) == prefix
  {
    if start.Some? && end.None? {
      TrimSuffixAppended(prefix + "start=" + start.value, ":");
      assert prefix + StartClause(start.value) == prefix + "start=" + start.value + ":";
    }
    if start.Some? && end.Some? {
      assert prefix + StartClause(start.value) + EndClause(end.value) == prefix + "start=" + start.value + ":end=" + end.value;
    }
  }

  /** Trimming a suffix commutes with putting a character in front. */
  lemma TrimSuffixPrepend(c: char, t: string, suffix: string)
    requires |suffix| <= |t|
    ensures TrimSuffix([c] + t, suffix) == [c] + TrimSuffix(t, suffix)
  {
    assert ([c] + t)[|[c] + t| - |suffix|..] == t[|t| - |suffix|..];
    assert ([c] + t)[..|[c] + t| - |suffix|] == [c] + t[..|t| - |suffix|];
  }

  /** A character put in front of the prefix of a trim filter ends up in front of the whole text. */
  lemma TrimFilterPrepend(c: char, prefix: string, start: Option<string>, end: Option<string>)
    requires prefix != []
    ensures TrimFilter([c] + prefix, start, end) == [c] + TrimFilter(prefix, start, end)
  {
    var head := if start.Some? then prefix + StartClause(start.value) else prefix;
    if start.Some? {
      AppendAssoc([c], prefix, StartClause(start.value));
    }
    if end.Some? {
      AppendAssoc([c], head, EndClause(end.value));
    } else {
      TrimSuffixPrepend(c, head, ":");
    }
  }

  /** The `atrim` text is the `trim` text with an `a` in front, whatever the bounds. */
  lemma TrimFilterAudio(start: Option<string>, end: Option<string>)
    ensures TrimFilter("atrim=", start, end) == "a" + TrimFilter("trim=", start, end)
  {
    assert "atrim=" == ['a'] + "trim=";
    TrimFilterPrepend('a', "trim=", start, end);
  }

  /** A clip's audio trim is its video trim with an `a` in front: both use the same bounds. */
  lemma ATrimMatchesTrim(c: Clip, lib: Library)
    requires TrimPair(c, lib).Success?
    ensures TrimPair(c, lib).value.1 == "a" + TrimPair(c, lib).value.0
  {
    TrimFilterAudio(Bound(c.start, lib).value, Bound(c.end, lib).value);
  }

  /**
   * Which trim a clip gets: none when `start == end`; otherwise the present bounds,
   * each as the library's seconds text, or the error of the first bound that does
   * not parse (the start before the end).
   */
  lemma ClipTrimCases(c: Clip, lib: Library)
    ensures c.start == c.end ==> ClipTrim(c, lib) == Success(([], []))
    ensures c.start != c.end && c.start != "" && lib.newTimestamp(c.start).Failure? ==>
      ClipTrim(c, lib) == Failure(lib.newTimestamp(c.start).error)
    ensures (c.start != c.end && (c.start == "" || lib.newTimestamp(c.start).Success?) &&
             c.end != "" && lib.newTimestamp(c.end).Failure?) ==>
      ClipTrim(c, lib) == Failure(lib.newTimestamp(c.end).error)
    ensures (c.start != c.end && (c.start == "" || lib.newTimestamp(c.start).Success?) &&
             (c.end == "" || lib.newTimestamp(c.end).Success?)) ==>
      var s := if c.start == "" then None else Some(lib.secondStr(lib.newTimestamp(c.start).value));
      var e := if c.end == "" then None else Some(lib.secondStr(lib.newTimestamp(c.end).value));
      ClipTrim(c, lib) == Success(([TrimFilter("trim=", s, e), SETPTS], [TrimFilter("atrim=", s, e), ASETPTS]))
  {
  }

  /**
   * The loop filter repeats the image `duration * fps` times: its count reads back as
   * that product wrapped to a Go `int`, which is the product itself when it fits.
   */
  lemma LoopFilterCount(duration: int64, fps: int64)
    ensures exists t :: (LoopFilter(duration, fps) == "loop=loop=" + t + ":size=1" &&
      ParseInt(t) == Some(Wrap64(duration as int * fps as int) as int))
    ensures -TWO_63 <= duration as int * fps as int < TWO_63 ==>
      Wrap64(duration as int * fps as int) as int == duration as int * fps as int
  {
    var t := IntToDecimal(Wrap64(duration as int * fps as int) as int);
    ParseIntToDecimal(Wrap64(duration as int * fps as int) as int);
    Wrap64Congruent(duration as int * fps as int);
    assert LoopFilter(duration, fps) == "loop=loop=" + t + ":size=1";
  }

  /**
   * The fade starts `fadeOut` seconds before the end of the image (a Go `int`
   * difference) and lasts `fadeOut` seconds: both numbers read back.
   */
  lemma FadeFilterTimes(duration: int64, fadeOut: int64)
    ensures exists t, u :: (FadeFilter(duration, fadeOut) == "fade=t=out:st=" + t + ":d=" + u &&
      ParseInt(t) == Some(Wrap64(duration as int - fadeOut as int) as int) && ParseInt(u) == Some(fadeOut as int))
    ensures -TWO_63 <= duration as int - fadeOut as int < TWO_63 ==>
      Wrap64(duration as int - fadeOut as int) as int == duration as int - fadeOut as int
  {
    var st := Wrap64(duration as int - fadeOut as int) as int;
    var t, u := IntToDecimal(st), IntToDecimal(fadeOut as int);
    ParseIntToDecimal(st);
    ParseIntToDecimal(fadeOut as int);
    Wrap64Congruent(duration as int - fadeOut as int);
    assert FadeFilter(duration, fadeOut) == "fade=t=out:st=" + t + ":d=" + u &&
      ParseInt(t) == Some(st) && ParseInt(u) == Some(fadeOut as int);
  }

  // ---------------------------------------------------------------------------
  // Subtitle file names.

  /**
   * When the extension is non-empty and occurs in the file name only at its end, the
   * subtitle file is the file name with that extension replaced by `.srt`.
   */
  lemma SrtPathSingleExt(file: string)
    requires Ext(file) != []
    requires forall k :: OccursAt(file, Ext(file), k) ==> k == |file| - |Ext(file)|
    ensures |Ext(file)| <= |file| && file[|file| - |Ext(file)|..] == Ext(file)
    ensures SrtPath(file) == file[..|file| - |Ext(file)|] + ".srt"
    ensures SrtPath(file) == TrimSuffix(file, Ext(file)) + ".srt"
  {
    ExtSuffix(file);
    ReplaceAllOnlySuffix(file, Ext(file), ".srt");
  }

  /**
   * Without an extension, `strings.Replace` with an empty pattern puts `.srt` before
   * every character of the name and once more at the end.
   */
  lemma SrtPathNoExt(file: string)
    requires NoDotInLastElement(file)
    ensures var r := SrtPath(file);
      |r| == 5 * |file| + 4 &&
      (forall k :: 0 <= k < |file| ==> r[5 * k .. 5 * k + 4] == ".srt" && r[5 * k + 4] == file[k]) &&
      r[5 * |file| ..] == ".srt"
  {
    ExtSuffix(file);
    var r := SrtPath(file);
    assert r == ReplaceAll(file, [], ".srt");
    ReplaceEmptyInterleaves(file, ".srt");
    assert |".srt"| + 1 == 5;
    BlockStartProduct(|file|, 5);
    forall k | 0 <= k < |file| ensures r[5 * k .. 5 * k + 4] == ".srt" && r[5 * k + 4] == file[k] {
      BlockStartProduct(k, 5);
      assert BlockAt(r, file, ".srt", k);
    }
  }

  /** Where block `k` starts when every block is `w` long: `k * w`, as `BlockStartProduct` shows. */
  function BlockStart(k: nat, w: nat): nat {
    if k == 0 then 0 else BlockStart(k - 1, w) + w
  }

  lemma {:induction false} BlockStartProduct(k: nat, w: nat)
    ensures BlockStart(k, w) == k * w
  {
    if k > 0 {
      BlockStartProduct(k - 1, w);
    }
  }

  /** Block `k` of `r`, `|rep| + 1` long, lies inside `r` and is `rep` followed by `s[k]`. */
  predicate BlockAt(r: string, s: string, rep: string, k: nat)
    requires k < |s|
  {
    var w := |rep| + 1;
    BlockStart(k, w) + w <= BlockStart(|s|, w) && BlockStart(|s|, w) <= |r| &&
    r[BlockStart(k, w) .. BlockStart(k, w) + |rep|] == rep && r[BlockStart(k, w) + |rep|] == s[k]
  }

  /**
   * `r` is `s` with `rep` put before each character and once more at the end: every
   * block `k` is `rep` followed by `s[k]`, and `rep` closes the text.
   */
  predicate Interleaved(r: string, s: string, rep: string) {
    var w := |rep| + 1;
    |r| == BlockStart(|s|, w) + |rep| &&
    (forall k :: 0 <= k < |s| ==> BlockAt(r, s, rep, k)) &&
    r[BlockStart(|s|, w) ..] == rep
  }

  /** Replacing the empty pattern puts `rep` before each character and once more at the end. */
  lemma {:induction false} ReplaceEmptyInterleaves(s: string, rep: string)
    requires rep != []
    ensures Interleaved(ReplaceAll(s, [], rep), s, rep)
    decreases |s|
  {
    if s != [] {
      ReplaceEmptyInterleaves(s[1..], rep);
      assert ReplaceAll(s, [], rep) == rep + [s[0]] + ReplaceAll(s[1..], [], rep);
      InterleavedCons(ReplaceAll(s[1..], [], rep), s[1..], rep, s[0]);
      assert [s[0]] + s[1..] == s;
    }
  }

  /** One more character in front: one more block in front. */
  lemma InterleavedCons(r: string, t: string, rep: string, c: char)
    requires Interleaved(r, t, rep)
    ensures Interleaved(rep + [c] + r, [c] + t, rep)
  {
    var w := |rep| + 1;
    var s, r2 := [c] + t, rep + [c] + r;
    assert BlockStart(|s|, w) == |rep + [c]| + BlockStart(|t|, w);
    forall k | 0 <= k < |s| ensures BlockAt(r2, s, rep, k) {
      InterleavedConsAt(r, t, rep, c, k);
    }
    DropHead(rep + [c], r, BlockStart(|t|, w));
  }

  /** Dropping a head and then `j` more elements drops `j` elements of the tail. */
  lemma DropHead(head: string, r: string, j: nat)
    requires j <= |r|
    ensures (head + r)[|head| + j ..] == r[j ..]
  {
  }

  /** Block `k` of the longer text is block `k - 1` of the shorter one, or the new first block. */
  lemma InterleavedConsAt(r: string, t: string, rep: string, c: char, k: nat)
    requires Interleaved(r, t, rep) && k <= |t|
    ensures BlockAt(rep + [c] + r, [c] + t, rep, k)
  {
    var w, r2 := |rep| + 1, rep + [c] + r;
    if k > 0 {
      var j := BlockStart(k - 1, w);
      assert BlockAt(r, t, rep, k - 1);
      assert r2[w + j .. w + j + |rep|] == r[j .. j + |rep|];
    }
  }

  // ---------------------------------------------------------------------------
  // Set-up and clean-up commands.

  /** How many segments carry a subtitle: the opening, the ending and the clips. */
  function Subtitled(h: Highlights): nat {
    (if h.op.subtitle == "" then 0 else 1) + (if h.ed.subtitle == "" then 0 else 1) + SubtitledClips(h.clips)
  }

  function SubtitledClips(clips: seq<Clip>): nat {
    if clips == [] then 0
    else SubtitledClips(clips[..|clips| - 1]) + (if clips[|clips| - 1].subtitle == "" then 0 else 1)
  }

  /** Every subtitled clip contributes one set-up and one clean-up command, and no other clip does. */
  lemma {:induction false} ClipCmdCounts(clips: seq<Clip>, out: Output, lib: Library)
    requires ClipSegments(clips, out, lib).Success?
    ensures var segs := ClipSegments(clips, out, lib).value;
      |PreOf(segs)| == |PostOf(segs)| == SubtitledClips(clips)
    decreases |clips|
  {
    if clips != [] {
      var n := |clips| - 1;
      ClipCmdCounts(clips[..n], out, lib);
      var segs := ClipSegments(clips, out, lib).value;
      var c := clips[n];
      SubtitleBurnShape(ClipCaptionOf(c), c.fontSize, lib);
      assert segs[..n] == ClipSegments(clips[..n], out, lib).value;
    }
  }

  /**
   * The command has as many set-up as clean-up commands, one of each per segment with
   * a subtitle.
   */
  lemma GenerateCmdCounts(h: Highlights, lib: Library, cmd: Command)
    requires Generate(h, lib) == Success(cmd)
    ensures |cmd.preCmds| == |cmd.postCmds| == Subtitled(h)
  {
    var op, ed, segs := Decompose(h, lib, cmd);
    SubtitleBurnShape(ImageCaptionOf(h.op), h.op.fontSize, lib);
    SubtitleBurnShape(ImageCaptionOf(h.ed), h.ed.fontSize, lib);
    ClipCmdCounts(h.clips, h.out, lib);
  }

  function ClipCaptions(clips: seq<Clip>): seq<Caption> {
    if clips == [] then [] else ClipCaptions(clips[..|clips| - 1]) + [ClipCaptionOf(clips[|clips| - 1])]
  }

  /** Every segment's caption, in the order the build visits the segments: opening, ending, clips. */
  function Captions(h: Highlights): seq<Caption> {
    [ImageCaptionOf(h.op), ImageCaptionOf(h.ed)] + ClipCaptions(h.clips)
  }

  /** The captions that have a text, in their order. */
  function WithText(caps: seq<Caption>): seq<Caption> {
    if caps == [] then []
    else WithText(caps[..|caps| - 1]) + (if caps[|caps| - 1].text == "" then [] else [caps[|caps| - 1]])
  }

  /** `WithText` keeps exactly the captions that have a text. */
  lemma {:induction false} WithTextMembers(caps: seq<Caption>)
    ensures forall x :: x in WithText(caps) <==> x in caps && x.text != ""
    decreases |caps|
  {
    if caps != [] {
      var init := caps[..|caps| - 1];
      WithTextMembers(init);
      assert caps == init + [caps[|caps| - 1]];
    }
  }

  lemma {:induction false} WithTextAppend(a: seq<Caption>, b: seq<Caption>)
    ensures WithText(a + b) == WithText(a) + WithText(b)
    decreases |b|
  {
    if b == [] {
      assert a + b == a;
    } else {
      var init := b[..|b| - 1];
      WithTextAppend(a, init);
      assert (a + b)[..|a + b| - 1] == a + init;
    }
  }

  /**
   * The k-th set-up command creates, and the k-th clean-up command removes, the SRT
   * file of the k-th caption.
   */
  predicate SrtCmds(caps: seq<Caption>, pre: seq<Cmd>, post: seq<Cmd>, lib: Library) {
    |pre| == |caps| && |post| == |caps| &&
    forall k :: 0 <= k < |caps| ==>
      CreateSrtCmd(caps[k], lib) == Success(pre[k]) && lib.removeSrt(SrtPath(caps[k].file)) == Success(post[k])
  }

  lemma SrtCmdsAppend(a: seq<Caption>, p1: seq<Cmd>, q1: seq<Cmd>, b: seq<Caption>, p2: seq<Cmd>, q2: seq<Cmd>, lib: Library)
    requires SrtCmds(a, p1, q1, lib) && SrtCmds(b, p2, q2, lib)
    ensures SrtCmds(a + b, p1 + p2, q1 + q2, lib)
  {
    forall k | 0 <= k < |a + b|
      ensures CreateSrtCmd((a + b)[k], lib) == Success((p1 + p2)[k])
      ensures lib.removeSrt(SrtPath((a + b)[k].file)) == Success((q1 + q2)[k])
    {
      if k >= |a| {
        assert (a + b)[k] == b[k - |a|];
      }
    }
  }

  /** The commands of one subtitled or unsubtitled image segment. */
  lemma ImageSrtCmds(img: ImageClip, vLabel: string, aLabel: string, id: nat, out: Output, lib: Library)
    requires ImageSegment(img, vLabel, aLabel, id, out, lib).Success?
    ensures var seg := ImageSegment(img, vLabel, aLabel, id, out, lib).value;
      SrtCmds(WithText([ImageCaptionOf(img)]), seg.pre, seg.post, lib)
  {
    ImageSegmentShape(img, vLabel, aLabel, id, out, lib);
    assert [ImageCaptionOf(img)][..0] == [];
  }

  /** The commands of one subtitled or unsubtitled clip segment. */
  lemma ClipSrtCmd(c: Clip, i: nat, id: nat, out: Output, lib: Library)
    requires ClipSegment(c, i, id, out, lib).Success?
    ensures var seg := ClipSegment(c, i, id, out, lib).value;
      SrtCmds(WithText([ClipCaptionOf(c)]), seg.pre, seg.post, lib)
  {
    ClipSegmentShape(c, i, id, out, lib);
    assert [ClipCaptionOf(c)][..0] == [];
  }

  /** One more segment, with its caption, extends the set-up and clean-up commands. */
  lemma SrtCmdsSnoc(caps: seq<Caption>, segs: seq<Segment>, cap: Caption, seg: Segment, lib: Library)
    requires SrtCmds(WithText(caps), PreOf(segs), PostOf(segs), lib)
    requires SrtCmds(WithText([cap]), seg.pre, seg.post, lib)
    ensures SrtCmds(WithText(caps + [cap]), PreOf(segs + [seg]), PostOf(segs + [seg]), lib)
  {
    assert (segs + [seg])[..|segs|] == segs;
    WithTextAppend(caps, [cap]);
    SrtCmdsAppend(WithText(caps), PreOf(segs), PostOf(segs), WithText([cap]), seg.pre, seg.post, lib);
  }

  /** The clips' commands follow the subtitled clips, in list order. */
  lemma {:induction false} ClipSrtCmds(clips: seq<Clip>, out: Output, lib: Library)
    requires ClipSegments(clips, out, lib).Success?
    ensures var segs := ClipSegments(clips, out, lib).value;
      SrtCmds(WithText(ClipCaptions(clips)), PreOf(segs), PostOf(segs), lib)
    decreases |clips|
  {
    if clips != [] {
      var n := |clips| - 1;
      ClipSrtCmds(clips[..n], out, lib);
      var segs := ClipSegments(clips, out, lib).value;
      ClipSrtCmd(clips[n], n, 2 + n, out, lib);
      assert segs == ClipSegments(clips[..n], out, lib).value + [segs[n]];
      SrtCmdsSnoc(ClipCaptions(clips[..n]), ClipSegments(clips[..n], out, lib).value, ClipCaptionOf(clips[n]), segs[n], lib);
    }
  }

  /** The assembled command's set-up and clean-up commands follow its segments' captions. */
  lemma AssembleSrtCmds(h: Highlights, op: Segment, ed: Segment, segs: seq<Segment>, lib: Library)
    requires SrtCmds(WithText([ImageCaptionOf(h.op)]), op.pre, op.post, lib)
    requires SrtCmds(WithText([ImageCaptionOf(h.ed)]), ed.pre, ed.post, lib)
    requires SrtCmds(WithText(ClipCaptions(h.clips)), PreOf(segs), PostOf(segs), lib)
    ensures var cmd := Assemble(h, op, ed, segs);
      SrtCmds(WithText(Captions(h)), cmd.preCmds, cmd.postCmds, lib)
  {
    var a, b, c := [ImageCaptionOf(h.op)], [ImageCaptionOf(h.ed)], ClipCaptions(h.clips);
    assert Captions(h) == a + b + c;
    WithTextAppend(a + b, c);
    WithTextAppend(a, b);
    SrtCmdsAppend(WithText(a), op.pre, op.post, WithText(b), ed.pre, ed.post, lib);
    SrtCmdsAppend(WithText(a + b), op.pre + ed.pre, op.post + ed.post, WithText(c), PreOf(segs), PostOf(segs), lib);
  }

  /**
   * The set-up and clean-up commands of a successful build come one pair per caption
   * with a text, in the order opening, ending, clips: the k-th set-up command creates
   * the k-th such caption's SRT file and the k-th clean-up command removes that file.
   */
  lemma GenerateSrtCmds(h: Highlights, lib: Library, cmd: Command)
    requires Generate(h, lib) == Success(cmd)
    ensures var caps := WithText(Captions(h));
      |cmd.preCmds| == |caps| && |cmd.postCmds| == |caps| &&
      forall k :: 0 <= k < |caps| ==>
        CreateSrtCmd(caps[k], lib) == Success(cmd.preCmds[k]) &&
        lib.removeSrt(SrtPath(caps[k].file)) == Success(cmd.postCmds[k])
  {
    var op, ed, segs := Decompose(h, lib, cmd);
    ImageSrtCmds(h.op, OP_V, OP_A, 0, h.out, lib);
    ImageSrtCmds(h.ed, ED_V, ED_A, 1, h.out, lib);
    ClipSrtCmds(h.clips, h.out, lib);
    AssembleSrtCmds(h, op, ed, segs, lib);
  }

  // ---------------------------------------------------------------------------
  // Errors.

  /**
   * The build succeeds exactly when the opening, the ending and every clip do; a
   * failed build reports the error of the first part to fail, in the order opening,
   * ending, clips.
   */
  lemma GenerateErrors(h: Highlights, lib: Library)
    ensures Generate(h, lib).Success? <==>
      OpeningSegment(h, lib).Success? && EndingSegment(h, lib).Success? &&
      forall i :: 0 <= i < |h.clips| ==> ClipSegment(h.clips[i], i, 2 + i, h.out, lib).Success?
    ensures OpeningSegment(h, lib).Failure? ==> Generate(h, lib) == Failure(OpeningSegment(h, lib).error)
    ensures OpeningSegment(h, lib).Success? && EndingSegment(h, lib).Failure? ==>
      Generate(h, lib) == Failure(EndingSegment(h, lib).error)
    ensures OpeningSegment(h, lib).Success? && EndingSegment(h, lib).Success? && Generate(h, lib).Failure? ==>
      exists i :: 0 <= i < |h.clips| && ClipSegment(h.clips[i], i, 2 + i, h.out, lib) == Failure(Generate(h, lib).error) &&
        forall j :: 0 <= j < i ==> ClipSegment(h.clips[j], j, 2 + j, h.out, lib).Success?
  {
    ClipSegmentsSucceed(h.clips, h.out, lib);
    if OpeningSegment(h, lib).Success? && EndingSegment(h, lib).Success? && ClipSegments(h.clips, h.out, lib).Failure? {
      ClipSegmentsFirstFailure(h.clips, h.out, lib);
    }
  }

  // ---------------------------------------------------------------------------
  // Distinct chain labels.

  /** What follows the clip number in a clip label. */
  function LabelEnd(kind: StreamKind): string {
    "_" + kind.Letter() + "]"
  }

  /** A clip label is the fixed head `[clip_`, the clip number, then `LabelEnd`. */
  lemma ClipLabelParts(i: nat, kind: StreamKind)
    ensures |ClipLabel(i, kind)| >= 6 && ClipLabel(i, kind)[6..] == TwoDigits(i) + LabelEnd(kind)
  {
    var x := ClipLabel(i, kind);
    assert x == "[clip_" + (TwoDigits(i) + LabelEnd(kind));
  }

  /** Distinct clips and streams get distinct labels. */
  lemma ClipLabelInjective(i: nat, j: nat, k1: StreamKind, k2: StreamKind)
    requires ClipLabel(i, k1) == ClipLabel(j, k2)
    ensures i == j && k1 == k2
  {
    var a, b := TwoDigits(i), TwoDigits(j);
    var e1, e2 := LabelEnd(k1), LabelEnd(k2);
    ClipLabelParts(i, k1);
    ClipLabelParts(j, k2);
    TwoDigitsValue(i);
    TwoDigitsValue(j);
    DigitsThenUnderscore(a, b, e1, e2);
    assert e1 == (a + e1)[|a|..] && e2 == (b + e2)[|b|..];
    assert e1[1] == k1.Letter()[0] && e2[1] == k2.Letter()[0];
  }

  /** A digit run followed by `_` is determined by the text: the first non-digit ends it. */
  lemma DigitsThenUnderscore(a: string, b: string, x: string, y: string)
    requires AllDigits(a) && AllDigits(b) && x != [] && y != [] && x[0] == '_' && y[0] == '_'
    requires a + x == b + y
    ensures a == b
  {
    var m := if |a| < |b| then |a| else |b|;
    assert (a + x)[m] == (b + y)[m];
    assert |a| == |b|;
    assert a == (a + x)[..|a|] && b == (b + y)[..|b|];
  }

  /** A clip label is none of the fixed labels. */
  lemma ClipLabelNotFixed(i: nat, k: StreamKind)
    ensures ClipLabel(i, k) !in {OP_V, OP_A, ED_V, ED_A, OUT_V, OUT_A, BGM_OUT}
  {
    assert ClipLabel(i, k)[1] == 'c';
  }

  /** The labels chain `k` of a build with `n` clips carries. */
  function ChainLabels(n: nat, k: nat): seq<string> {
    if k == 0 then [OP_V]
    else if k == 1 then [OP_A]
    else if k == 2 then [ED_V]
    else if k == 3 then [ED_A]
    else if k < 2 * n + 4 then [ClipLabel((k - 4) / 2, if k % 2 == 0 then Video else Audio)]
    else if k == 2 * n + 4 then [OUT_V, OUT_A]
    else [BGM_OUT]
  }

  /** Chain `k` in the clip range belongs to clip `i`: its video chain or its audio chain. */
  lemma ClipSlot(n: nat, k: nat) returns (i: nat)
    requires 4 <= k < 2 * n + 4
    ensures i < n && (k == 4 + 2 * i || k == 5 + 2 * i)
    ensures ChainLabels(n, 4 + 2 * i) == [ClipLabel(i, Video)]
    ensures ChainLabels(n, 5 + 2 * i) == [ClipLabel(i, Audio)]
  {
    i := (k - 4) / 2;
    assert (4 + 2 * i - 4) / 2 == i && (5 + 2 * i - 4) / 2 == i;
  }

  /** No two chains of the graph carry the same labels. */
  lemma ChainLabelsDistinct(n: nat, p: nat, q: nat)
    requires p < q < 2 * n + 6
    ensures ChainLabels(n, p) != ChainLabels(n, q)
  {
    if 4 <= p < 2 * n + 4 {
      var i, kp := (p - 4) / 2, if p % 2 == 0 then Video else Audio;
      ClipLabelNotFixed(i, kp);
      if q < 2 * n + 4 {
        var j, kq := (q - 4) / 2, if q % 2 == 0 then Video else Audio;
        if ClipLabel(i, kp) == ClipLabel(j, kq) {
          ClipLabelInjective(i, j, kp, kq);
        }
      } else {
        assert ChainLabels(n, p)[0] != ChainLabels(n, q)[0];
      }
    }
  }

  /** Every chain of a successful build carries the labels `ChainLabels` names. */
  lemma GenerateChainLabels(h: Highlights, lib: Library, cmd: Command)
    requires Generate(h, lib) == Success(cmd)
    ensures |cmd.chains| == 2 * |h.clips| + 6
    ensures forall k :: 0 <= k < |cmd.chains| ==> cmd.chains[k].labels == ChainLabels(|h.clips|, k)
  {
    GenerateChainOrder(h, lib, cmd);
    var n := |h.clips|;
    forall k | 0 <= k < |cmd.chains| ensures cmd.chains[k].labels == ChainLabels(n, k) {
      if 4 <= k < 2 * n + 4 {
        var i := ClipSlot(n, k);
        assert k == 4 + 2 * i || k == 5 + 2 * i;
      }
    }
  }

  /** No two chains of a successful build share their labels. */
  lemma GenerateLabelsDistinct(h: Highlights, lib: Library, cmd: Command)
    requires Generate(h, lib) == Success(cmd)
    ensures forall p, q :: 0 <= p < q < |cmd.chains| ==> cmd.chains[p].labels != cmd.chains[q].labels
  {
    GenerateChainLabels(h, lib, cmd);
    var n := |h.clips|;
    forall p, q | 0 <= p < q < |cmd.chains| ensures cmd.chains[p].labels != cmd.chains[q].labels {
      ChainLabelsDistinct(n, p, q);
    }
  }
}
