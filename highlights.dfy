/**
 * The translation of a highlights description (an opening image, an ending image, a
 * list of clips, background music and the output geometry) into an ffmpeg command:
 * `Generate` says what command comes out, `GenerateFFmpegCmd` builds it step by step
 * on the ffcmd builder objects and is proved to produce exactly `Generate`'s result.
 */
module Highlights {
  import opened Results
  import opened Decimal
  import opened Text
  import opened Ffcmd
  import opened Seqs

  /** An opening or ending still image shown for `duration` seconds. */
  datatype ImageClip = ImageClip(
    file: string,
    duration: int64,
    fadeOutDuration: int64,
    subtitle: string,
    fontSize: int64)

  /** A video clip, trimmed to `start`..`end` when the two differ. */
  datatype Clip = Clip(
    file: string,
    start: string,
    end: string,
    subtitle: string,
    fontSize: int64)

  datatype Output = Output(file: string, w: int64, h: int64, fps: int64)

  /** The description. The opening and ending images are always present. */
  datatype Highlights = Highlights(
    op: ImageClip,
    ed: ImageClip,
    clips: seq<Clip>,
    bgm: string,
    out: Output)

  // Chain labels.
  const OP_V := "[op_v]"
  const OP_A := "[op_a]"
  const ED_V := "[ed_v]"
  const ED_A := "[ed_a]"
  const OUT_V := "[outv]"
  const OUT_A := "[outa]"
  const BGM_OUT := "[outa_merged_bgm]"

  /** `[clip_%02d_v]` or `[clip_%02d_a]` for the `i`-th clip. */
  function ClipLabel(i: nat, kind: StreamKind): string {
    "[clip_" + TwoDigits(i) + "_" + kind.Letter() + "]"
  }

  // Filters, written as highlights.go formats them (`%d` is IntToDecimal).
  const SETSAR := "setsar=1:1"
  const FORMAT := "format=pix_fmts=yuv420p"
  const SETPTS := "setpts=PTS-STARTPTS"
  const ASETPTS := "asetpts=PTS-STARTPTS"
  const AMERGE := "amerge=inputs=2"
  const PAN := "pan=stereo|c0<c0+c2|c1<c1+c3"

  function FpsFilter(fps: int64): string {
    "fps=" + IntToDecimal(fps as int)
  }

  /** Repeats the single image frame `duration * fps` times (Go `int` product). */
  function LoopFilter(duration: int64, fps: int64): string {
    "loop=loop=" + IntToDecimal(Wrap64(duration as int * fps as int) as int) + ":size=1"
  }

  function ScaleFilter(out: Output): string {
    "scale=" + IntToDecimal(out.w as int) + ":" + IntToDecimal(out.h as int) + ":force_original_aspect_ratio=decrease"
  }

  function PadFilter(out: Output): string {
    "pad=" + IntToDecimal(out.w as int) + ":" + IntToDecimal(out.h as int) + ":(ow-iw)/2:(oh-ih)/2"
  }

  function SubtitlesFilter(srtFile: string, fontSize: int64): string {
    "subtitles='" + srtFile + "':force_style='Fontsize=" + IntToDecimal(fontSize as int) + "'"
  }

  /** Fades out over the last `fadeOut` seconds (Go `int` difference for the start). */
  function FadeFilter(duration: int64, fadeOut: int64): string {
    "fade=t=out:st=" + IntToDecimal(Wrap64(duration as int - fadeOut as int) as int) + ":d=" + IntToDecimal(fadeOut as int)
  }

  /** Silent audio lasting `duration` seconds. */
  function SilenceFilter(duration: int64): string {
    "aevalsrc=0:d=" + IntToDecimal(duration as int)
  }

  function ConcatFilter(n: int): string {
    "concat=n=" + IntToDecimal(n) + ":v=1:a=1"
  }

  /**
   * The `trim`/`atrim` filter as highlights.go assembles it: `name=`, then
   * `start=S:` when there is a start, then `end=E` when there is an end, and
   * otherwise the trailing colon is trimmed off.
   */
  function TrimFilter(prefix: string, start: Option<string>, end: Option<string>): string {
    var head := if start.Some? then prefix + StartClause(start.value) else prefix;
    if end.Some? then head + EndClause(end.value) else TrimSuffix(head, ":")
  }

  function StartClause(seconds: string): string {
    "start=" + seconds + ":"
  }

  function EndClause(seconds: string): string {
    "end=" + seconds
  }

  /** The subtitle file of a media file: every occurrence of its extension becomes `.srt`. */
  function SrtPath(file: string): string {
    ReplaceAll(file, Ext(file), ".srt")
  }

  /** The subtitle of one segment, with the timing its SRT file is made from. */
  datatype Caption =
    | ImageCaption(file: string, text: string, duration: int64)
    | ClipCaption(file: string, text: string, start: string, end: string)

  /** The caption of the opening or ending image. */
  function ImageCaptionOf(img: ImageClip): Caption {
    ImageCaption(img.file, img.subtitle, img.duration)
  }

  /** The caption of a clip. */
  function ClipCaptionOf(c: Clip): Caption {
    ClipCaption(c.file, c.subtitle, c.start, c.end)
  }

  /** The library command that writes a caption's SRT file. */
  function CreateSrtCmd(cap: Caption, lib: Library): Result<Cmd> {
    match cap
    case ImageCaption(file, text, duration) => lib.createImageSrt(SrtPath(file), text, duration)
    case ClipCaption(file, text, start, end) => lib.createClipSrt(SrtPath(file), file, text, start, end)
  }

  /** What a segment's subtitle contributes: set-up, clean-up and filter. */
  datatype Burn = Burn(pre: seq<Cmd>, post: seq<Cmd>, filters: seq<string>)

  function SubtitleBurn(cap: Caption, fontSize: int64, lib: Library): Result<Burn> {
    if cap.text == "" then Success(Burn([], [], []))
    else
      var srt := SrtPath(cap.file);
      var create :- CreateSrtCmd(cap, lib);
      var remove :- lib.removeSrt(srt);
      Success(Burn([create], [remove], [SubtitlesFilter(srt, fontSize)]))
  }

  /** Two chains and the commands one segment of the final video contributes. */
  datatype Segment = Segment(video: ChainValue, audio: ChainValue, pre: seq<Cmd>, post: seq<Cmd>)

  /** The opening or ending image as the `id`-th input. */
  function ImageSegment(img: ImageClip, vLabel: string, aLabel: string, id: nat, out: Output, lib: Library): Result<Segment> {
    var burn :- SubtitleBurn(ImageCaptionOf(img), img.fontSize, lib);
    var video := ChainValue([vLabel], [ById(id, Video, 0)],
      [FpsFilter(out.fps), LoopFilter(img.duration, out.fps), ScaleFilter(out), PadFilter(out), SETSAR, FORMAT]
      + burn.filters + [FadeFilter(img.duration, img.fadeOutDuration)]);
    var audio := ChainValue([aLabel], [], [SilenceFilter(img.duration)]);
    Success(Segment(video, audio, burn.pre, burn.post))
  }

  /** The opening image, input 0. */
  function OpeningSegment(h: Highlights, lib: Library): Result<Segment> {
    ImageSegment(h.op, OP_V, OP_A, 0, h.out, lib)
  }

  /** The ending image, input 1. */
  function EndingSegment(h: Highlights, lib: Library): Result<Segment> {
    ImageSegment(h.ed, ED_V, ED_A, 1, h.out, lib)
  }

  /** A trim bound: none when empty, else the seconds text of the parsed timestamp. */
  function Bound(s: string, lib: Library): Result<Option<string>> {
    if s == "" then Success(None)
    else
      var t :- lib.newTimestamp(s);
      Success(Some(lib.secondStr(t)))
  }

  /** The `trim` and `atrim` filter texts of a clip; a bound that does not parse is an error. */
  function TrimPair(c: Clip, lib: Library): Result<(string, string)> {
    var start :- Bound(c.start, lib);
    var end :- Bound(c.end, lib);
    Success((TrimFilter("trim=", start, end), TrimFilter("atrim=", start, end)))
  }

  /** The trim filters of a clip's video and audio chains: none when `start == end`. */
  function ClipTrim(c: Clip, lib: Library): Result<(seq<string>, seq<string>)> {
    if c.start == c.end then Success(([], []))
    else
      var p :- TrimPair(c, lib);
      Success(([p.0, SETPTS], [p.1, ASETPTS]))
  }

  /** The `i`-th clip as the `id`-th input. */
  function ClipSegment(c: Clip, i: nat, id: nat, out: Output, lib: Library): Result<Segment> {
    var trim :- ClipTrim(c, lib);
    var burn :- SubtitleBurn(ClipCaptionOf(c), c.fontSize, lib);
    var video := ChainValue([ClipLabel(i, Video)], [ById(id, Video, 0)],
      [ScaleFilter(out), PadFilter(out), SETSAR] + trim.0 + burn.filters);
    var audio := ChainValue([ClipLabel(i, Audio)], [ById(id, Audio, 0)], trim.1);
    Success(Segment(video, audio, burn.pre, burn.post))
  }

  /** The clips' segments, clip `i` being input `2 + i`; the first failure wins. */
  function ClipSegments(clips: seq<Clip>, out: Output, lib: Library): (r: Result<seq<Segment>>)
    ensures r.Success? ==> |r.value| == |clips|
    decreases |clips|
  {
    if clips == [] then Success([])
    else
      var n := |clips| - 1;
      var init :- ClipSegments(clips[..n], out, lib);
      var last :- ClipSegment(clips[n], n, 2 + n, out, lib);
      Success(init + [last])
  }

  /** One more turn of the clip loop: the segments of the first `k + 1` clips from those of the first `k`. */
  lemma ClipSegmentsStep(clips: seq<Clip>, k: nat, out: Output, lib: Library)
    requires k < |clips| && ClipSegments(clips[..k], out, lib).Success?
    ensures ClipSegments(clips[..k + 1], out, lib) ==
      match ClipSegment(clips[k], k, 2 + k, out, lib)
      case Failure(e) => Failure(e)
      case Success(seg) => Success(ClipSegments(clips[..k], out, lib).value + [seg])
  {
    assert clips[..k + 1][..k] == clips[..k];
  }

  /** A failure among the first `k` clips is the result for all of them. */
  lemma {:induction false} ClipSegmentsFailureExtends(clips: seq<Clip>, k: nat, out: Output, lib: Library)
    requires k <= |clips| && ClipSegments(clips[..k], out, lib).Failure?
    ensures ClipSegments(clips, out, lib) == ClipSegments(clips[..k], out, lib)
    decreases |clips|
  {
    if k < |clips| {
      var n := |clips| - 1;
      assert clips[..n][..k] == clips[..k];
      ClipSegmentsFailureExtends(clips[..n], k, out, lib);
    } else {
      assert clips[..k] == clips;
    }
  }

  /** The clip files, in order. */
  function Files(clips: seq<Clip>): (r: seq<string>)
    ensures |r| == |clips|
  {
    if clips == [] then [] else Files(clips[..|clips| - 1]) + [clips[|clips| - 1].file]
  }

  function OutPad(chain: ChainValue): Pad {
    ByOutput(OutRef(chain.labels, 0))
  }

  function ChainsOf(segs: seq<Segment>): seq<ChainValue> {
    if segs == [] then [] else ChainsOf(segs[..|segs| - 1]) + [segs[|segs| - 1].video, segs[|segs| - 1].audio]
  }

  function PadsOf(segs: seq<Segment>): seq<Pad> {
    if segs == [] then [] else PadsOf(segs[..|segs| - 1]) + [OutPad(segs[|segs| - 1].video), OutPad(segs[|segs| - 1].audio)]
  }

  function PreOf(segs: seq<Segment>): seq<Cmd> {
    if segs == [] then [] else PreOf(segs[..|segs| - 1]) + segs[|segs| - 1].pre
  }

  function PostOf(segs: seq<Segment>): seq<Cmd> {
    if segs == [] then [] else PostOf(segs[..|segs| - 1]) + segs[|segs| - 1].post
  }

  /** The concat chain: every segment's video and audio, in timeline order. */
  function ConcatChain(op: Segment, ed: Segment, segs: seq<Segment>): ChainValue {
    ChainValue([OUT_V, OUT_A],
      [OutPad(op.video), OutPad(op.audio)] + PadsOf(segs) + [OutPad(ed.video), OutPad(ed.audio)],
      [ConcatFilter(|segs| + 2)])
  }

  /** The chain mixing the background music (input `id`) into the concatenated audio. */
  function BgmChain(id: nat): ChainValue {
    ChainValue([BGM_OUT], [ById(id, Audio, 0), ByOutput(OutRef([OUT_V, OUT_A], 1))], [AMERGE, PAN])
  }

  /**
   * The command made of the opening, the ending and the clips' segments: inputs in
   * the order opening, ending, clips, music; chains in the order opening, ending,
   * clips, concat, music; the concat and music outputs mapped.
   */
  function Assemble(h: Highlights, op: Segment, ed: Segment, segs: seq<Segment>): Command {
    Command(
      h.out.file, true,
      [h.op.file, h.ed.file] + Files(h.clips) + [h.bgm],
      [op.video, op.audio, ed.video, ed.audio] + ChainsOf(segs) + [ConcatChain(op, ed, segs), BgmChain(2 + |h.clips|)],
      op.pre + ed.pre + PreOf(segs),
      op.post + ed.post + PostOf(segs),
      [OutRef([OUT_V, OUT_A], 0), OutRef([BGM_OUT], 0)])
  }

  /** The command `GenerateFFmpegCmd` returns, or the first error it meets. */
  function Generate(h: Highlights, lib: Library): Result<Command> {
    var op :- OpeningSegment(h, lib);
    var ed :- EndingSegment(h, lib);
    var segs :- ClipSegments(h.clips, h.out, lib);
    Success(Assemble(h, op, ed, segs))
  }

  /**
   * A non-empty subtitle: the command creating its SRT file becomes a set-up command,
   * the command removing it a clean-up command, and a `subtitles` filter naming the
   * same file is chained onto `chain`.
   */
  method AddSubtitle(ffmpeg: FFmpeg, chain: FilterChain, cap: Caption, fontSize: int64, lib: Library)
    returns (err: Option<Error>)
    modifies ffmpeg`preCmds, ffmpeg`postCmds, chain`filters
    ensures match SubtitleBurn(cap, fontSize, lib)
      case Failure(e) => err == Some(e)
      case Success(b) =>
        err == None &&
        ffmpeg.preCmds == old(ffmpeg.preCmds) + b.pre &&
        ffmpeg.postCmds == old(ffmpeg.postCmds) + b.post &&
        chain.filters == old(chain.filters) + b.filters
  {
    if cap.text != "" {
      var srtFile := SrtPath(cap.file);
      var create := CreateSrtCmd(cap, lib);
      if create.Failure? {
        return Some(create.error);
      }
      ffmpeg.AddPreCmd(create.value);
      var remove := lib.removeSrt(srtFile);
      if remove.Failure? {
        return Some(remove.error);
      }
      ffmpeg.AddPostCmd(remove.value);
      chain.Chain(SubtitlesFilter(srtFile, fontSize));
    }
    err := None;
  }

  /** Adds the opening or ending image: one input, its two chains and its subtitle commands. */
  method AddImageClip(ffmpeg: FFmpeg, img: ImageClip, vLabel: string, aLabel: string, out: Output, lib: Library, ghost id: nat)
    returns (v: FilterChain?, a: FilterChain?, err: Option<Error>)
    requires |ffmpeg.inputs| == id
    modifies ffmpeg`inputs, ffmpeg`chains, ffmpeg`preCmds, ffmpeg`postCmds
    ensures match ImageSegment(img, vLabel, aLabel, id, out, lib)
      case Failure(e) => err == Some(e)
      case Success(seg) =>
        err == None && v != null && a != null &&
        v.labels == seg.video.labels && a.labels == seg.audio.labels &&
        ffmpeg.inputs == old(ffmpeg.inputs) + [img.file] &&
        ffmpeg.chains == old(ffmpeg.chains) + [seg.video, seg.audio] &&
        ffmpeg.preCmds == old(ffmpeg.preCmds) + seg.pre &&
        ffmpeg.postCmds == old(ffmpeg.postCmds) + seg.post
  {
    ghost var chains0, pre0, post0 := ffmpeg.chains, ffmpeg.preCmds, ffmpeg.postCmds;
    ghost var r := ImageSegment(img, vLabel, aLabel, id, out, lib);
    var index := ffmpeg.AddInput(img.file);
    v := NewImageVideo(img, vLabel, index, out);
    var cap := ImageCaptionOf(img);
    var subErr := AddSubtitle(ffmpeg, v, cap, img.fontSize, lib);
    if subErr.Some? {
      return null, null, subErr;
    }
    ghost var burn := SubtitleBurn(cap, img.fontSize, lib).value;
    ghost var base := v.filters;
    v.Chain(FadeFilter(img.duration, img.fadeOutDuration));
    a := new FilterChain([aLabel]);
    a.Chain(SilenceFilter(img.duration));
    ghost var vv := ChainValue(v.labels, v.pads, v.filters);
    ghost var av := ChainValue(a.labels, a.pads, a.filters);
    assert r.Success? && r.value.pre == burn.pre && r.value.post == burn.post;
    assert r.value.video == vv && r.value.audio == av;
    ffmpeg.Chain(v);
    ffmpeg.Chain(a);
    AppendPair(chains0, vv, av);
    assert ffmpeg.preCmds == pre0 + r.value.pre && ffmpeg.postCmds == post0 + r.value.post;
    err := None;
  }

  /** The start of an image's video chain: the looped, scaled and padded still, before its subtitle. */
  method NewImageVideo(img: ImageClip, vLabel: string, id: nat, out: Output) returns (v: FilterChain)
    ensures fresh(v) && v.labels == [vLabel] && v.pads == [ById(id, Video, 0)]
    ensures v.filters == [FpsFilter(out.fps), LoopFilter(img.duration, out.fps), ScaleFilter(out), PadFilter(out), SETSAR, FORMAT]
  {
    v := new FilterChain([vLabel]);
    v.AddInputByID(id, Video, 0);
    v.Chain(FpsFilter(out.fps));
    v.Chain(LoopFilter(img.duration, out.fps));
    v.Chain(ScaleFilter(out));
    v.Chain(PadFilter(out));
    v.Chain(SETSAR);
    v.Chain(FORMAT);
  }

  /** Builds `trim=…` and `atrim=…` by appending each bound present, as highlights.go does. */
  method BuildTrim(c: Clip, lib: Library) returns (trim: string, atrim: string, err: Option<Error>)
    ensures match TrimPair(c, lib)
      case Failure(e) => err == Some(e)
      case Success(p) => err == None && trim == p.0 && atrim == p.1
  {
    trim := "trim=";
    atrim := "atrim=";
    if c.start != "" {
      var t := lib.newTimestamp(c.start);
      if t.Failure? {
        return trim, atrim, Some(t.error);
      }
      trim := trim + StartClause(lib.secondStr(t.value));
      atrim := atrim + StartClause(lib.secondStr(t.value));
    }
    if c.end != "" {
      var t := lib.newTimestamp(c.end);
      if t.Failure? {
        return trim, atrim, Some(t.error);
      }
      trim := trim + EndClause(lib.secondStr(t.value));
      atrim := atrim + EndClause(lib.secondStr(t.value));
    } else {
      trim := TrimSuffix(trim, ":");
      atrim := TrimSuffix(atrim, ":");
    }
    err := None;
  }

  /** Adds the `i`-th clip: one input, its two chains, its subtitle commands and two concat pads. */
  method AddClip(ffmpeg: FFmpeg, concat: FilterChain, c: Clip, i: nat, out: Output, lib: Library)
    returns (err: Option<Error>)
    requires |ffmpeg.inputs| == 2 + i
    modifies ffmpeg`inputs, ffmpeg`chains, ffmpeg`preCmds, ffmpeg`postCmds, concat`pads
    ensures match ClipSegment(c, i, 2 + i, out, lib)
      case Failure(e) => err == Some(e)
      case Success(seg) =>
        err == None &&
        ffmpeg.inputs == old(ffmpeg.inputs) + [c.file] &&
        ffmpeg.chains == old(ffmpeg.chains) + [seg.video, seg.audio] &&
        ffmpeg.preCmds == old(ffmpeg.preCmds) + seg.pre &&
        ffmpeg.postCmds == old(ffmpeg.postCmds) + seg.post &&
        concat.pads == old(concat.pads) + [OutPad(seg.video), OutPad(seg.audio)]
  {
    ghost var pads0 := concat.pads;
    ghost var r := ClipSegment(c, i, 2 + i, out, lib);
    var clipV, clipA, clipErr := AddClipChains(ffmpeg, c, i, out, lib);
    if clipErr.Some? {
      return clipErr;
    }
    concat.AddInputByOutput(clipV, 0);
    concat.AddInputByOutput(clipA, 0);
    AppendPair(pads0, OutPad(r.value.video), OutPad(r.value.audio));
    err := None;
  }

  /** Adds the `i`-th clip's input, its two chains and its subtitle commands to the command. */
  method AddClipChains(ffmpeg: FFmpeg, c: Clip, i: nat, out: Output, lib: Library)
    returns (clipV: FilterChain?, clipA: FilterChain?, err: Option<Error>)
    requires |ffmpeg.inputs| == 2 + i
    modifies ffmpeg`inputs, ffmpeg`chains, ffmpeg`preCmds, ffmpeg`postCmds
    ensures match ClipSegment(c, i, 2 + i, out, lib)
      case Failure(e) => err == Some(e)
      case Success(seg) =>
        err == None && clipV != null && clipA != null &&
        clipV.labels == seg.video.labels && clipA.labels == seg.audio.labels &&
        ffmpeg.inputs == old(ffmpeg.inputs) + [c.file] &&
        ffmpeg.chains == old(ffmpeg.chains) + [seg.video, seg.audio] &&
        ffmpeg.preCmds == old(ffmpeg.preCmds) + seg.pre &&
        ffmpeg.postCmds == old(ffmpeg.postCmds) + seg.post
  {
    ghost var chains0, pre0, post0 := ffmpeg.chains, ffmpeg.preCmds, ffmpeg.postCmds;
    ghost var r := ClipSegment(c, i, 2 + i, out, lib);
    var id := ffmpeg.AddInput(c.file);
    var trimErr;
    clipV, clipA, trimErr := NewClipChains(c, i, id, out, lib);
    if trimErr.Some? {
      return null, null, trimErr;
    }
    var cap := ClipCaptionOf(c);
    var subErr := AddSubtitle(ffmpeg, clipV, cap, c.fontSize, lib);
    if subErr.Some? {
      return null, null, subErr;
    }
    ghost var burn := SubtitleBurn(cap, c.fontSize, lib).value;
    ghost var vv := ChainValue(clipV.labels, clipV.pads, clipV.filters);
    ghost var av := ChainValue(clipA.labels, clipA.pads, clipA.filters);
    assert r.Success? && r.value.pre == burn.pre && r.value.post == burn.post;
    assert r.value.video == vv && r.value.audio == av;
    ffmpeg.Chain(clipV);
    ffmpeg.Chain(clipA);
    AppendPair(chains0, vv, av);
    assert ffmpeg.preCmds == pre0 + r.value.pre && ffmpeg.postCmds == post0 + r.value.post;
    err := None;
  }

  /** A clip's two chains before its subtitle: scaled and padded video, and the trims when `start != end`. */
  method NewClipChains(c: Clip, i: nat, id: nat, out: Output, lib: Library)
    returns (clipV: FilterChain, clipA: FilterChain, err: Option<Error>)
    ensures match ClipTrim(c, lib)
      case Failure(e) => err == Some(e)
      case Success(t) =>
        err == None && fresh(clipV) && fresh(clipA) &&
        clipV.labels == [ClipLabel(i, Video)] && clipV.pads == [ById(id, Video, 0)] &&
        clipV.filters == [ScaleFilter(out), PadFilter(out), SETSAR] + t.0 &&
        clipA.labels == [ClipLabel(i, Audio)] && clipA.pads == [ById(id, Audio, 0)] &&
        clipA.filters == t.1
  {
    clipV := new FilterChain([ClipLabel(i, Video)]);
    clipA := new FilterChain([ClipLabel(i, Audio)]);
    clipV.AddInputByID(id, Video, 0);
    clipA.AddInputByID(id, Audio, 0);
    clipV.Chain(ScaleFilter(out));
    clipV.Chain(PadFilter(out));
    clipV.Chain(SETSAR);
    err := AddTrims(clipV, clipA, c, lib);
  }

  /** Chains a clip's `trim`/`setpts` and `atrim`/`asetpts` filters when `start != end`. */
  method AddTrims(clipV: FilterChain, clipA: FilterChain, c: Clip, lib: Library) returns (err: Option<Error>)
    requires clipV != clipA
    modifies clipV`filters, clipA`filters
    ensures match ClipTrim(c, lib)
      case Failure(e) => err == Some(e)
      case Success(t) =>
        err == None && clipV.filters == old(clipV.filters) + t.0 && clipA.filters == old(clipA.filters) + t.1
  {
    if c.start != c.end {
      var trim, atrim, trimErr := BuildTrim(c, lib);
      if trimErr.Some? {
        return trimErr;
      }
      clipV.Chain(trim);
      clipV.Chain(SETPTS);
      clipA.Chain(atrim);
      clipA.Chain(ASETPTS);
      assert clipV.filters == old(clipV.filters) + [trim, SETPTS];
    }
    err := None;
  }

  /** `(*Highlights).GenerateFFmpegCmd`: builds the command, or stops at the first error. */
  method GenerateFFmpegCmd(h: Highlights, lib: Library) returns (ffmpeg: FFmpeg?, err: Option<Error>)
    ensures Generate(h, lib).Failure? ==> ffmpeg == null && err == Some(Generate(h, lib).error)
    ensures Generate(h, lib).Success? ==>
      err == None && ffmpeg != null && fresh(ffmpeg) && ffmpeg.Value() == Generate(h, lib).value
  {
    var cmd := new FFmpeg(h.out.file, true);
    var opV, opA, edV, edA, imgErr := AddOpeningAndEnding(cmd, h, lib);
    if imgErr.Some? {
      return null, imgErr;
    }
    ghost var op := OpeningSegment(h, lib).value;
    ghost var ed := EndingSegment(h, lib).value;
    var clipErr := AddClipsAndFinish(cmd, opV, opA, edV, edA, h, lib, op, ed);
    if clipErr.Some? {
      return null, clipErr;
    }
    return cmd, None;
  }

  /**
   * Everything after the opening and the ending: the concat chain, the clip loop and,
   * when every clip succeeds, the rest of the command.
   */
  method AddClipsAndFinish(cmd: FFmpeg, opV: FilterChain, opA: FilterChain, edV: FilterChain, edA: FilterChain,
                           h: Highlights, lib: Library, ghost op: Segment, ghost ed: Segment)
    returns (err: Option<Error>)
    requires OpeningSegment(h, lib) == Success(op) && EndingSegment(h, lib) == Success(ed)
    requires opV.labels == op.video.labels && opA.labels == op.audio.labels
    requires edV.labels == ed.video.labels && edA.labels == ed.audio.labels
    requires cmd.output == h.out.file && cmd.overwrite && cmd.maps == []
    requires cmd.inputs == [h.op.file, h.ed.file] && cmd.chains == [op.video, op.audio, ed.video, ed.audio]
    requires cmd.preCmds == op.pre + ed.pre && cmd.postCmds == op.post + ed.post
    modifies cmd`inputs, cmd`chains, cmd`preCmds, cmd`postCmds, cmd`maps
    ensures ClipSegments(h.clips, h.out, lib).Failure? ==> err == Some(ClipSegments(h.clips, h.out, lib).error)
    ensures ClipSegments(h.clips, h.out, lib).Success? ==> err == None && Generate(h, lib) == Success(cmd.Value())
  {
    var concatFC: FilterChain := NewConcat(opV, opA);
    var n, clipErr := AddClips(cmd, concatFC, h.clips, 2, h.out, lib);
    if clipErr.Some? {
      return clipErr;
    }
    ghost var segs := ClipSegments(h.clips, h.out, lib).value;
    FinishCommand(cmd, concatFC, edV, edA, n, h, op, ed, segs);
    err := None;
  }

  /**
   * What follows the clip loop, with the state the loop leaves behind: the concat chain
   * is closed and added, the background music mixed in and the outputs mapped, which
   * completes the command of the opening, the ending and the clips' segments.
   */
  method FinishCommand(cmd: FFmpeg, concat: FilterChain, edV: FilterChain, edA: FilterChain, n: nat,
                       h: Highlights, ghost op: Segment, ghost ed: Segment, ghost segs: seq<Segment>)
    requires |segs| == |h.clips|
    requires cmd.output == h.out.file && cmd.overwrite && cmd.maps == []
    requires cmd.inputs == [h.op.file, h.ed.file] + Files(h.clips)
    requires cmd.chains == [op.video, op.audio, ed.video, ed.audio] + ChainsOf(segs)
    requires cmd.preCmds == op.pre + ed.pre + PreOf(segs) && cmd.postCmds == op.post + ed.post + PostOf(segs)
    requires concat.labels == [OUT_V, OUT_A] && concat.filters == []
    requires concat.pads == [OutPad(op.video), OutPad(op.audio)] + PadsOf(segs)
    requires edV.labels == ed.video.labels && edA.labels == ed.audio.labels
    requires n == |segs| + 2
    modifies cmd`inputs, cmd`chains, cmd`maps, concat`pads, concat`filters
    ensures cmd.Value() == Assemble(h, op, ed, segs)
  {
    AddConcat(cmd, concat, edV, edA, n, op, ed, segs);
    AddBgm(cmd, concat, h.bgm);
    AppendPair(old(cmd.chains), ConcatChain(op, ed, segs), BgmChain(2 + |h.clips|));
  }

  /** The concat chain, `[outv][outa]`, opened by the opening's video and audio outputs. */
  method NewConcat(opV: FilterChain, opA: FilterChain) returns (concat: FilterChain)
    ensures fresh(concat) && concat.labels == [OUT_V, OUT_A] && concat.filters == []
    ensures concat.pads == [ByOutput(OutRef(opV.labels, 0)), ByOutput(OutRef(opA.labels, 0))]
  {
    concat := new FilterChain([OUT_V, OUT_A]);
    concat.AddInputByOutput(opV, 0);
    concat.AddInputByOutput(opA, 0);
  }

  /** The opening and the ending, inputs 0 and 1, with their chains and subtitle commands. */
  method AddOpeningAndEnding(cmd: FFmpeg, h: Highlights, lib: Library)
    returns (opV: FilterChain?, opA: FilterChain?, edV: FilterChain?, edA: FilterChain?, err: Option<Error>)
    requires cmd.inputs == [] && cmd.chains == [] && cmd.preCmds == [] && cmd.postCmds == []
    modifies cmd`inputs, cmd`chains, cmd`preCmds, cmd`postCmds
    ensures OpeningSegment(h, lib).Failure? ==> err == Some(OpeningSegment(h, lib).error)
    ensures OpeningSegment(h, lib).Success? && EndingSegment(h, lib).Failure? ==> err == Some(EndingSegment(h, lib).error)
    ensures OpeningSegment(h, lib).Success? && EndingSegment(h, lib).Success? ==>
      var op, ed := OpeningSegment(h, lib).value, EndingSegment(h, lib).value;
      err == None && opV != null && opA != null && edV != null && edA != null &&
      opV.labels == op.video.labels && opA.labels == op.audio.labels &&
      edV.labels == ed.video.labels && edA.labels == ed.audio.labels &&
      cmd.inputs == [h.op.file, h.ed.file] &&
      cmd.chains == [op.video, op.audio, ed.video, ed.audio] &&
      cmd.preCmds == op.pre + ed.pre && cmd.postCmds == op.post + ed.post
  {
    var opErr;
    opV, opA, opErr := AddImageClip(cmd, h.op, OP_V, OP_A, h.out, lib, 0);
    if opErr.Some? {
      return null, null, null, null, opErr;
    }
    ghost var op := OpeningSegment(h, lib).value;
    assert cmd.preCmds == op.pre by {
      assert [] + op.pre == op.pre;
    }
    assert cmd.postCmds == op.post by {
      assert [] + op.post == op.post;
    }
    ghost var chains0 := cmd.chains;
    var edErr;
    edV, edA, edErr := AddImageClip(cmd, h.ed, ED_V, ED_A, h.out, lib, 1);
    if edErr.Some? {
      return null, null, null, null, edErr;
    }
    ghost var ed := EndingSegment(h, lib).value;
    AppendAssoc(chains0, [ed.video], [ed.audio]);
    err := None;
  }

  /** The loop over the clips: each clip in order, stopping at the first error; `n` counts the segments. */
  method AddClips(ffmpeg: FFmpeg, concat: FilterChain, clips: seq<Clip>, n0: nat, out: Output, lib: Library)
    returns (n: nat, err: Option<Error>)
    requires |ffmpeg.inputs| == 2
    modifies ffmpeg`inputs, ffmpeg`chains, ffmpeg`preCmds, ffmpeg`postCmds, concat`pads
    ensures match ClipSegments(clips, out, lib)
      case Failure(e) => err == Some(e)
      case Success(segs) =>
        err == None && n == n0 + |clips| &&
        ffmpeg.inputs == old(ffmpeg.inputs) + Files(clips) &&
        ffmpeg.chains == old(ffmpeg.chains) + ChainsOf(segs) &&
        ffmpeg.preCmds == old(ffmpeg.preCmds) + PreOf(segs) &&
        ffmpeg.postCmds == old(ffmpeg.postCmds) + PostOf(segs) &&
        concat.pads == old(concat.pads) + PadsOf(segs)
  {
    ghost var segs: seq<Segment> := [];
    n := n0;
    var i := 0;
    while i < |clips|
      invariant 0 <= i <= |clips| && n == n0 + i
      invariant ClipSegments(clips[..i], out, lib) == Success(segs)
      invariant ffmpeg.inputs == old(ffmpeg.inputs) + Files(clips[..i])
      invariant ffmpeg.chains == old(ffmpeg.chains) + ChainsOf(segs)
      invariant ffmpeg.preCmds == old(ffmpeg.preCmds) + PreOf(segs)
      invariant ffmpeg.postCmds == old(ffmpeg.postCmds) + PostOf(segs)
      invariant concat.pads == old(concat.pads) + PadsOf(segs)
    {
      ClipSegmentsStep(clips, i, out, lib);
      ghost var r := ClipSegment(clips[i], i, 2 + i, out, lib);
      assert |ffmpeg.inputs| == 2 + i;
      var clipErr := AddClip(ffmpeg, concat, clips[i], i, out, lib);
      if clipErr.Some? {
        ClipSegmentsFailureExtends(clips, i + 1, out, lib);
        return n, clipErr;
      }
      ghost var seg := r.value;
      SegmentsSnoc(segs, seg);
      AppendAssoc(old(ffmpeg.chains), ChainsOf(segs), [seg.video, seg.audio]);
      AppendAssoc(old(ffmpeg.preCmds), PreOf(segs), seg.pre);
      AppendAssoc(old(ffmpeg.postCmds), PostOf(segs), seg.post);
      AppendAssoc(old(concat.pads), PadsOf(segs), [OutPad(seg.video), OutPad(seg.audio)]);
      assert clips[..i + 1][..i] == clips[..i];
      AppendAssoc(old(ffmpeg.inputs), Files(clips[..i]), [clips[i].file]);
      segs := segs + [seg];
      n := n + 1;
      i := i + 1;
    }
    assert clips[..i] == clips;
    err := None;
  }

  /** Appending one segment appends its chains, pads and commands to each projection. */
  lemma SegmentsSnoc(segs: seq<Segment>, seg: Segment)
    ensures ChainsOf(segs + [seg]) == ChainsOf(segs) + [seg.video, seg.audio]
    ensures PadsOf(segs + [seg]) == PadsOf(segs) + [OutPad(seg.video), OutPad(seg.audio)]
    ensures PreOf(segs + [seg]) == PreOf(segs) + seg.pre
    ensures PostOf(segs + [seg]) == PostOf(segs) + seg.post
  {
    assert (segs + [seg])[..|segs|] == segs;
  }

  /** After the loop: the ending's outputs close the concat chain, whose `concat` filter joins `n` segments. */
  method AddConcat(ffmpeg: FFmpeg, concat: FilterChain, edV: FilterChain, edA: FilterChain, n: nat,
                   ghost op: Segment, ghost ed: Segment, ghost segs: seq<Segment>)
    requires concat.labels == [OUT_V, OUT_A] && concat.filters == []
    requires concat.pads == [OutPad(op.video), OutPad(op.audio)] + PadsOf(segs)
    requires edV.labels == ed.video.labels && edA.labels == ed.audio.labels
    requires n == |segs| + 2
    modifies ffmpeg`chains, concat`pads, concat`filters
    ensures ffmpeg.chains == old(ffmpeg.chains) + [ConcatChain(op, ed, segs)]
  {
    concat.AddInputByOutput(edV, 0);
    concat.AddInputByOutput(edA, 0);
    AppendPair(old(concat.pads), OutPad(ed.video), OutPad(ed.audio));
    concat.Chain(ConcatFilter(n));
    assert concat.filters == [ConcatFilter(|segs| + 2)];
    assert ChainValue(concat.labels, concat.pads, concat.filters) == ConcatChain(op, ed, segs);
    ffmpeg.Chain(concat);
  }

  /** The background music: one more input, the chain mixing it into the concat audio, and the two output maps. */
  method AddBgm(ffmpeg: FFmpeg, concat: FilterChain, bgm: string)
    requires concat.labels == [OUT_V, OUT_A]
    modifies ffmpeg`inputs, ffmpeg`chains, ffmpeg`maps
    ensures ffmpeg.inputs == old(ffmpeg.inputs) + [bgm]
    ensures ffmpeg.chains == old(ffmpeg.chains) + [BgmChain(|old(ffmpeg.inputs)|)]
    ensures ffmpeg.maps == old(ffmpeg.maps) + [OutRef([OUT_V, OUT_A], 0), OutRef([BGM_OUT], 0)]
  {
    var id := ffmpeg.AddInput(bgm);
    var bgmFC := new FilterChain([BGM_OUT]);
    bgmFC.AddInputByID(id, Audio, 0);
    bgmFC.AddInputByOutput(concat, 1);
    bgmFC.Chain(AMERGE);
    bgmFC.Chain(PAN);
    assert bgmFC.pads == [ById(id, Audio, 0), ByOutput(OutRef(concat.labels, 1))];
    assert bgmFC.filters == [AMERGE, PAN];
    ffmpeg.Chain(bgmFC);
    ffmpeg.MapByOutput(concat, 0);
    ffmpeg.MapByOutput(bgmFC, 0);
    AppendPair(old(ffmpeg.maps), OutRef(concat.labels, 0), OutRef([BGM_OUT], 0));
  }
}
