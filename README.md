# highlights: the ffmpeg command builder, in Dafny

northbright/highlights turns a description of a short video into one ffmpeg command. The description holds an opening image, an ending image, a list of clips, background music and the output geometry. The command is built with the ffcmd library and consists of:

- the input files;
- a filter graph of labelled filter chains;
- set-up and clean-up commands that create and delete temporary SRT subtitle files;
- the output stream maps.

This project models that translation, `(*Highlights).GenerateFFmpegCmd` in `highlights.go`, together with the four records it reads.

The project has seven modules.

- `Results` (results.dfy) holds `Option` and `Result`. A `Result` stands for Go's `(value, error)` pair.
- `Decimal` (decimal.dfy) models what Go's `fmt` writes for `%d` and `%02d`, and the wrap-around of Go's 64-bit `int`. `ParseInt` reads `%d` text back, and `%d` is proved lossless with respect to it.
- `Text` (text.dfy) models `filepath.Ext`, `strings.Replace(s, old, new, -1)` and `strings.TrimSuffix`.
- `Seqs` (seqs.dfy) holds two regrouping laws for appends to a sequence, `AppendPair` and `AppendAssoc`. The builder's proofs use them as helpers.
- `Ffcmd` (ffcmd.dfy) models the part of ffcmd that the builder drives:
  - `FilterChain` is a class with fixed labels, plus input pads and filters that its methods append.
  - `FFmpeg` is a class whose inputs, chains, set-up and clean-up commands and maps its methods append.
  - ffcmd functions whose insides are not shown (timestamp parsing, `SecondStr`, the SRT command constructors) are fields of a `Library` value. The builder receives that value as a parameter, and each of these functions except `SecondStr` may fail.
- `Highlights` (highlights.dfy) holds the records and the filter texts the builder formats. It also holds two versions of the builder:
  - `Generate` is a functional description of the resulting command: it returns the first error met, or else the `Command`.
  - `GenerateFFmpegCmd` is the imperative builder: a method that drives the `FFmpeg` and `FilterChain` objects step by step, with a loop over the clips. It is proved to return exactly what `Generate` describes, or the same error.
- `HighlightsProperties` (properties.dfy) proves what the builder promises about `Generate`. This covers:
  - the input order and the input ids used by each chain's pads;
  - the chain order and the chain labels, which are pairwise distinct;
  - the wiring of the concat chain and its segment count;
  - the filters of each chain;
  - the trim text for each combination of bounds;
  - the subtitle set-up and clean-up commands, one pair per subtitled segment, in segment order;
  - which error ends the build.

## Model

| member | source | states |
|---|---|---|
| Decimal.Wrap64 | highlights.go:78 | no contract of its own; Go's 64-bit `int` product or difference, wrapped into the int64 range (characterised by `Decimal.Wrap64Congruent`) |
| Decimal.NatToDecimal | highlights.go:77 | no contract of its own; the digits Go's `%d` writes for a natural number (characterised by `Decimal.NatToDecimalValue`) |
| Decimal.IntToDecimal | highlights.go:77 | no contract of its own; the text Go's `%d` writes for an integer (characterised by `Decimal.NatToDecimalValue`, `Decimal.ParseIntToDecimal` and `Decimal.IntToDecimalInjective`) |
| Decimal.TwoDigits | highlights.go:196 | no contract of its own; the text Go's `%02d` writes for a clip index (characterised by `Decimal.TwoDigitsValue`) |
| Decimal.NatToDecimalValue | highlights.go:77 | `%d` of a natural number is a non-empty digit run with no leading zero and reads back as the number |
| Decimal.ParseIntToDecimal | highlights.go:77-80 | reading back what `%d` writes gives the same integer, negative values included |
| Decimal.IntToDecimalInjective | highlights.go:77-80 | distinct integers are formatted as distinct text |
| Decimal.TwoDigitsValue | highlights.go:196-199 | `%02d` gives at least two digits, with a leading zero exactly below ten, and reads back as the number |
| Decimal.Wrap64Congruent | highlights.go:78 | the 64-bit product or difference agrees with the exact value modulo 2^64, and equals it when it fits |
| Text.Ext | highlights.go:89 | no contract of its own; `filepath.Ext`, the suffix from the last dot of the last path element (characterised by `Text.ExtSuffix`) |
| Text.ReplaceAll | highlights.go:89 | no contract of its own; `strings.Replace` with count -1, the empty pattern included (characterised by `Text.ReplaceAllAbsent`, `Text.ReplaceAllOnlySuffix` and `HighlightsProperties.ReplaceEmptyInterleaves`) |
| Text.ExtSuffix | highlights.go:89 | `filepath.Ext` returns a suffix that starts with its only dot and holds no `/`; it is empty exactly when the last path element has no dot |
| Text.ReplaceAllAbsent | highlights.go:89 | replacing a pattern that occurs nowhere leaves the text unchanged |
| Text.ReplaceAllOnlySuffix | highlights.go:89 | when the pattern occurs only as the suffix, replace-all swaps exactly that suffix |
| Text.TrimSuffix | highlights.go:239-240 | trimming yields a text that gives back the input when the suffix is re-appended, and the input itself when the suffix is absent |
| Text.TrimSuffixAppended | highlights.go:239-240 | trimming a suffix that was just appended gives back the original text |
| Ffcmd.FilterChain.constructor | highlights.go:70 | a new chain has the given labels and no pads or filters |
| Ffcmd.FilterChain.AddInputByID | highlights.go:74 | appends the pad `[id:kind:stream]` and changes nothing else |
| Ffcmd.FilterChain.AddInputByOutput | highlights.go:186-187 | appends a pad fed by the given output of the other chain |
| Ffcmd.FilterChain.Chain | highlights.go:85 | appends one filter, in order |
| Ffcmd.FFmpeg.constructor | highlights.go:67 | a new command writes the given output file, with overwrite set, and has no inputs, chains, commands or maps |
| Ffcmd.FFmpeg.AddInput | highlights.go:72-74 | appends the file and returns its zero-based index |
| Ffcmd.FFmpeg.AddPreCmd | highlights.go:95-96 | appends one set-up command |
| Ffcmd.FFmpeg.AddPostCmd | highlights.go:103-104 | appends one clean-up command |
| Ffcmd.FFmpeg.Chain | highlights.go:124-126 | appends the chain, as it stands, to the filter graph |
| Ffcmd.FFmpeg.MapByOutput | highlights.go:325-326 | appends one output map |
| Highlights.ClipLabel | highlights.go:196-199 | no contract of its own; the clip chain label `[clip_NN_v]` or `[clip_NN_a]` (characterised by `HighlightsProperties.ClipLabelParts` and `HighlightsProperties.ClipLabelInjective`) |
| Highlights.FpsFilter | highlights.go:77 | no contract of its own; the `fps=%d` filter (characterised by `HighlightsProperties.ImageSegmentShape` and `HighlightsProperties.GenerateImageChains`) |
| Highlights.ScaleFilter | highlights.go:79 | no contract of its own; the `scale=W:H:force_original_aspect_ratio=decrease` filter, also used at highlights.go:208 (characterised by `HighlightsProperties.GenerateImageChains` and `HighlightsProperties.GenerateClipChains`) |
| Highlights.PadFilter | highlights.go:80 | no contract of its own; the `pad=W:H:(ow-iw)/2:(oh-ih)/2` filter, also used at highlights.go:209 (characterised by `HighlightsProperties.GenerateImageChains` and `HighlightsProperties.GenerateClipChains`) |
| Highlights.SubtitlesFilter | highlights.go:107 | no contract of its own; the `subtitles='<srt>':force_style='Fontsize=F'` filter, also at highlights.go:161 and 274 (characterised by `HighlightsProperties.SubtitleBurnShape`) |
| Highlights.SilenceFilter | highlights.go:119 | no contract of its own; the silent `aevalsrc=0:d=D` audio filter, also at highlights.go:173 (characterised by `HighlightsProperties.ImageSegmentShape` and `HighlightsProperties.GenerateImageChains`) |
| Highlights.StartClause | highlights.go:226-227 | no contract of its own; the `start=S:` clause of the trim texts (characterised by `HighlightsProperties.TrimFilterText`) |
| Highlights.EndClause | highlights.go:236-237 | no contract of its own; the `end=E` clause of the trim texts (characterised by `HighlightsProperties.TrimFilterText`) |
| Highlights.CreateSrtCmd | highlights.go:255-257 | no contract of its own; the library call that writes a caption's SRT file, for an image (highlights.go:90, 144) or a clip (characterised by `HighlightsProperties.SubtitleBurnShape` and `HighlightsProperties.GenerateSrtCmds`) |
| Highlights.OpeningSegment | highlights.go:69-126 | no contract of its own; the opening image as input 0 (characterised by `HighlightsProperties.Decompose` and `HighlightsProperties.GenerateErrors`) |
| Highlights.EndingSegment | highlights.go:128-180 | no contract of its own; the ending image as input 1 (characterised by `HighlightsProperties.Decompose` and `HighlightsProperties.GenerateErrors`) |
| Highlights.Bound | highlights.go:220-237 | no contract of its own; an absent bound, or the parsed timestamp's seconds, or its parse error (characterised by `HighlightsProperties.ATrimMatchesTrim` and `HighlightsProperties.ClipTrimCases`) |
| Highlights.TrimPair | highlights.go:217-241 | no contract of its own; the `trim=` and `atrim=` texts from one parse of the bounds (characterised by `HighlightsProperties.ATrimMatchesTrim` and `Highlights.BuildTrim`) |
| Highlights.ClipTrim | highlights.go:215-252 | no contract of its own; the trim filters that the `Start != End` test gates (characterised by `HighlightsProperties.ClipTrimCases`) |
| Highlights.ConcatChain | highlights.go:183-298 | no contract of its own; the concat chain's labels, pads and filter (characterised by `HighlightsProperties.ConcatChainPads` and `HighlightsProperties.GenerateConcat`) |
| Highlights.LoopFilter | highlights.go:78 | no contract of its own; the `loop` filter with the 64-bit product Duration*FPS (characterised by `HighlightsProperties.LoopFilterCount`) |
| Highlights.FadeFilter | highlights.go:112 | no contract of its own; the `fade` filter with the 64-bit difference Duration-FadeOutDuration (characterised by `HighlightsProperties.FadeFilterTimes`) |
| Highlights.ConcatFilter | highlights.go:295 | no contract of its own; the `concat=n=N:v=1:a=1` filter (characterised by `HighlightsProperties.GenerateConcat`) |
| Highlights.TrimFilter | highlights.go:217-241 | no contract of its own; the `trim=` or `atrim=` text for the present bounds (characterised by `HighlightsProperties.TrimFilterText`) |
| Highlights.SrtPath | highlights.go:256 | no contract of its own; the SRT path, the file with every occurrence of its extension replaced by `.srt` (characterised by `HighlightsProperties.SrtPathSingleExt` and `HighlightsProperties.SrtPathNoExt`) |
| Highlights.SubtitleBurn | highlights.go:254-276 | no contract of its own; a subtitle's set-up command, clean-up command and filter, or the first error (characterised by `HighlightsProperties.SubtitleBurnShape`) |
| Highlights.ImageSegment | highlights.go:69-126 | no contract of its own; the opening or ending image's chains and commands, or the first error (characterised by `HighlightsProperties.ImageSegmentShape` and `HighlightsProperties.GenerateImageChains`) |
| Highlights.ClipSegment | highlights.go:195-284 | no contract of its own; one clip's chains and commands, or the first error (characterised by `HighlightsProperties.ClipSegmentShape` and `HighlightsProperties.ClipTrimCases`) |
| Highlights.BgmChain | highlights.go:303-321 | no contract of its own; the chain mixing the music into the concatenated audio (characterised by `HighlightsProperties.GenerateChainOrder`) |
| Highlights.Assemble | highlights.go:290-328 | no contract of its own; the command made of the opening, the ending and the clip segments (characterised by `HighlightsProperties.AssembleInputs` and `HighlightsProperties.AssembleChains`) |
| Highlights.Generate | highlights.go:65-329 | no contract of its own; the command the builder returns, or its first error (characterised by `Highlights.GenerateFFmpegCmd` and the `HighlightsProperties` lemmas) |
| Highlights.ClipSegments | highlights.go:194-288 | when every clip succeeds, there is one segment per clip |
| Highlights.ClipSegmentsStep | highlights.go:194-288 | one more turn of the clip loop either fails with that clip's error or appends that clip's segment |
| Highlights.ClipSegmentsFailureExtends | highlights.go:222-224 | an error in the first `k` clips is the result for the whole list |
| Highlights.Files | highlights.go:203 | one input file per clip |
| Highlights.AddSubtitle | highlights.go:88-109 | a non-empty subtitle appends one set-up command, one clean-up command and a `subtitles` filter; an empty subtitle appends nothing; a failing constructor returns its error |
| Highlights.AddImageClip | highlights.go:69-126 | the image's input, its video and audio chains and its commands are appended exactly as `ImageSegment` describes, or the error is returned |
| Highlights.NewImageVideo | highlights.go:70-85 | the image video chain reads `[id:v:0]`, then applies fps, loop, scale, pad, setsar and format, in that order |
| Highlights.BuildTrim | highlights.go:217-241 | the `+=`/`TrimSuffix` construction of `trim=` and `atrim=` gives `TrimPair`'s texts, or the timestamp error |
| Highlights.AddTrims | highlights.go:214-252 | the trim and setpts filters, and the atrim and asetpts filters, are chained exactly when start and end differ |
| Highlights.NewClipChains | highlights.go:195-252 | the clip chains are labelled `[clip_NN_v]` and `[clip_NN_a]`, read `[id:v:0]` and `[id:a:0]`, and hold scale, pad, setsar and then the trims |
| Highlights.AddClipChains | highlights.go:195-280 | the clip's input, its two chains and its commands are appended exactly as `ClipSegment` describes, or the error is returned |
| Highlights.AddClip | highlights.go:195-284 | as `AddClipChains`, and the concat chain also gets the clip's two outputs |
| Highlights.AddClips | highlights.go:193-288 | the loop appends every clip's file, chains, commands and concat pads in order and counts `n = n0 + len(clips)`, or stops at the first error |
| Highlights.SegmentsSnoc | highlights.go:279-284 | one more segment extends each of the chain, pad and command lists by that segment's own entries |
| Highlights.NewConcat | highlights.go:183-187 | the concat chain is labelled `[outv][outa]` and is first fed by the opening's two outputs |
| Highlights.AddOpeningAndEnding | highlights.go:65-180 | the opening is input 0 and the ending is input 1; their four chains and their commands are appended in that order, or the first error is returned |
| Highlights.AddConcat | highlights.go:290-301 | the ending's outputs close the concat chain, its filter counts the segments, and the chain is added to the graph |
| Highlights.AddBgm | highlights.go:303-326 | the music is the last input; the chain mixing it in is added; the concat output 0 and the music output 0 are mapped, in that order |
| Highlights.FinishCommand | highlights.go:290-328 | after the loop, the command becomes the one assembled from the opening, the ending and the clips |
| Highlights.AddClipsAndFinish | highlights.go:182-328 | from the state after the images, the builder either returns the first clip's error or ends with `Generate`'s command |
| Highlights.GenerateFFmpegCmd | highlights.go:65-329 | returns no command and the first error exactly when `Generate` fails; otherwise returns a new command whose whole state is `Generate`'s result |
| HighlightsProperties.FilesAt | highlights.go:203 | the i-th clip input is the i-th clip's file |
| HighlightsProperties.ChainsOfAt | highlights.go:279-280 | segment i contributes graph chains 2i and 2i+1, video then audio |
| HighlightsProperties.PadsOfAt | highlights.go:283-284 | segment i contributes concat pads 2i and 2i+1, video then audio |
| HighlightsProperties.ClipSegmentsAt | highlights.go:194-288 | on success, segment i is clip i built as input 2+i |
| HighlightsProperties.ClipSegmentsSucceed | highlights.go:194-288 | the clip list succeeds if and only if every clip does |
| HighlightsProperties.ClipSegmentsFirstFailure | highlights.go:222-268 | a failing clip list fails with the error of its first failing clip, and every earlier clip succeeds |
| HighlightsProperties.ClipSegmentsWiring | highlights.go:196-205 | clip i's chains are labelled `[clip_i_v]` and `[clip_i_a]` and read input 2+i |
| HighlightsProperties.Decompose | highlights.go:65-329 | a successful build consists of an opening, an ending and one segment per clip |
| HighlightsProperties.AssembleInputs | highlights.go:72-304 | inputs are the opening, the ending, each clip file in order, then the music |
| HighlightsProperties.AssembleChains | highlights.go:124-321 | chains are the opening pair, the ending pair, the clip pairs, concat, then music |
| HighlightsProperties.ConcatChainPads | highlights.go:183-292 | the concat chain has 2(len(clips)+2) pads: the opening, each clip in order, then the ending |
| HighlightsProperties.ClipSegmentShape | highlights.go:207-276 | a clip segment has one set-up and one clean-up command exactly when it has a subtitle; these create and remove the clip's SRT file; it has trim filters exactly when start and end differ |
| HighlightsProperties.ImageSegmentShape | highlights.go:69-126 | an image segment's video filters and audio filter, and its command counts, follow its subtitle; with a subtitle, its one set-up and one clean-up command create and remove the image's SRT file |
| HighlightsProperties.GenerateInputs | highlights.go:72-308 | input order, and each chain's `[id:v:0]` and `[id:a:0]` pads use the id of its own file |
| HighlightsProperties.GenerateChainOrder | highlights.go:124-326 | the chain labels come in graph order, the music chain reads the music input and concat output 1 with `amerge` then `pan`, and the maps are concat 0 then music 0 |
| HighlightsProperties.GenerateConcat | highlights.go:183-298 | the concat pads, in order, and the filter `concat=n=N:v=1:a=1` with N = len(clips)+2 |
| HighlightsProperties.SubtitleBurnShape | highlights.go:254-276 | a non-empty subtitle gives one create and one remove command and a `subtitles='<srt>':force_style='Fontsize=F'` filter, all for the same SRT path; an empty one gives nothing; each failure is reported |
| HighlightsProperties.GenerateImageChains | highlights.go:69-180 | the opening and ending video filters, in order, and their silent audio chains |
| HighlightsProperties.GenerateClipChains | highlights.go:207-276 | clip i's video filters are scale, pad, setsar, the optional trims, then the optional subtitles; its audio filters are the optional atrim and asetpts |
| HighlightsProperties.TrimFilterText | highlights.go:217-241 | the trim text is `start=S:end=E`, `start=S`, `end=E` or nothing after the prefix, by which bounds are present |
| HighlightsProperties.TrimSuffixPrepend | highlights.go:239-240 | helper for `TrimFilterPrepend`: trimming commutes with prepending a character |
| HighlightsProperties.TrimFilterPrepend | highlights.go:217-241 | a longer prefix carries through the whole trim construction |
| HighlightsProperties.TrimFilterAudio | highlights.go:217-241 | `atrim` is `trim` with an `a` in front |
| HighlightsProperties.ATrimMatchesTrim | highlights.go:226-240 | a clip's atrim text matches its trim text apart from the prefix |
| HighlightsProperties.ClipTrimCases | highlights.go:214-252 | no trims when start equals end; otherwise the first timestamp error, or trim then setpts and atrim then asetpts |
| HighlightsProperties.LoopFilterCount | highlights.go:78 | the loop count reads back as Duration*FPS in 64-bit arithmetic, and equals the exact product when it fits |
| HighlightsProperties.FadeFilterTimes | highlights.go:112 | the fade start reads back as Duration-FadeOutDuration in 64-bit arithmetic, and the fade length as FadeOutDuration |
| HighlightsProperties.SrtPathSingleExt | highlights.go:256 | when the extension is non-empty and occurs only at the end, the SRT path is the file with that extension replaced by `.srt` |
| HighlightsProperties.SrtPathNoExt | highlights.go:256 | for a file with no extension, the SRT path has `.srt` before each of the file's characters and at the end: character k sits at position 5k+4 |
| HighlightsProperties.BlockStartProduct | highlights.go:89 | helper for `SrtPathNoExt`: the start of block k of width w is k*w |
| HighlightsProperties.ReplaceEmptyInterleaves | highlights.go:89 | replacing the empty pattern puts the replacement before every character, each character keeping its order, and once more at the end |
| HighlightsProperties.InterleavedCons | highlights.go:89 | putting the replacement and one more character in front of an interleaving gives the interleaving of the longer text |
| HighlightsProperties.InterleavedConsAt | highlights.go:89 | the same, block by block |
| HighlightsProperties.DropHead | highlights.go:89 | helper for `InterleavedConsAt`: dropping past a prefix drops from the rest |
| HighlightsProperties.ClipCmdCounts | highlights.go:255-276 | the clips add as many set-up and clean-up commands as there are subtitled clips |
| HighlightsProperties.GenerateCmdCounts | highlights.go:88-276 | set-up and clean-up commands each number the subtitled segments |
| HighlightsProperties.WithTextMembers | highlights.go:88-276 | the captions kept are exactly those with a text |
| HighlightsProperties.WithTextAppend | highlights.go:88-276 | helper for `ClipSrtCmds` (through `SrtCmdsSnoc`) and `AssembleSrtCmds`: keeping the captions with a text distributes over concatenation |
| HighlightsProperties.SrtCmdsAppend | highlights.go:95-271 | helper for `SrtCmdsSnoc` and `AssembleSrtCmds`: set-up and clean-up lists that follow two caption lists, joined, follow the joined captions |
| HighlightsProperties.SrtCmdsSnoc | highlights.go:279-284 | one more segment, with its caption, extends the set-up and clean-up lists |
| HighlightsProperties.ImageSrtCmds | highlights.go:88-109 | an image segment's set-up and clean-up commands create and remove the SRT file of its caption, if it has a text |
| HighlightsProperties.ClipSrtCmd | highlights.go:255-276 | a clip segment's set-up and clean-up commands create and remove the SRT file of its caption, if it has a text |
| HighlightsProperties.ClipSrtCmds | highlights.go:194-288 | the clips' set-up and clean-up commands follow the subtitled clips, in list order |
| HighlightsProperties.AssembleSrtCmds | highlights.go:88-276 | the command's set-up and clean-up lists are the opening's, then the ending's, then the clips' |
| HighlightsProperties.GenerateSrtCmds | highlights.go:88-276 | the k-th set-up command creates, and the k-th clean-up command removes, the SRT file of the k-th subtitled segment, in the order opening, ending, clips |
| HighlightsProperties.GenerateErrors | highlights.go:91-268 | the build succeeds if and only if the opening, the ending and every clip do; otherwise it returns the opening's, the ending's or the first failing clip's error |
| HighlightsProperties.ClipLabelParts | highlights.go:196-199 | a clip label is `[clip_`, the zero-padded index, `_`, the stream letter and `]` |
| HighlightsProperties.ClipLabelInjective | highlights.go:196-199 | distinct clip indices or stream kinds give distinct labels |
| HighlightsProperties.DigitsThenUnderscore | highlights.go:196-199 | helper for `ClipLabelInjective`: a digit run followed by `_` is fixed by the text |
| HighlightsProperties.ClipLabelNotFixed | highlights.go:196-199 | no clip label equals a fixed label |
| HighlightsProperties.ClipSlot | highlights.go:194-199 | every chain position in the clip range belongs to one clip, as its video or its audio chain |
| HighlightsProperties.ChainLabelsDistinct | highlights.go:183-199 | the label lists of the graph positions are pairwise distinct |
| HighlightsProperties.GenerateChainLabels | highlights.go:65-329 | each chain of a successful build carries its position's labels |
| HighlightsProperties.GenerateLabelsDistinct | highlights.go:65-329 | no two chains of the built graph share their labels |

## Left out

- `Load` and `LoadJSON` (highlights.go:46-63) are left out. They are JSON decoding and file reading, and the model starts from a decoded `Highlights` value.
- `Make` (highlights.go:331-354) is left out. It runs the command as a subprocess.
- The command-line entry point cli/main.go and the example in highlights_test.go are left out. Neither states anything about the builder.
- The insides of ffcmd are left out:
  - the timestamp grammar of `NewTimestamp` and `SecondStr`;
  - the contents of the SRT files;
  - how chains, inputs and maps become an argument vector, and any check for dangling references.
  The timestamp and SRT functions are opaque `Library` functions. Each of them except `SecondStr` may fail. Nothing is claimed about what they return.
- `float32(Duration)` (highlights.go:90, 144) is left out. The image duration is passed to the opaque SRT constructor as the integer itself.
- `log.Printf` on the error paths is left out; it only writes a log line.
- Nil pointers are left out. `OP` and `ED` are dereferenced unconditionally (highlights.go:74, 133), so the model's `Highlights` always holds both images. A nil entry in `Clips` would panic in Go; the model's clips are values.
- highlights.go has no code for an absent `OP`, `ED` or `BGM`, so the model always adds all three.
- Aliasing is left out. The graph stores the value of each chain at the moment it is added. This is exact for this builder, because highlights.go never changes a chain after adding it.
- Go strings are bytes; here a string is a sequence of `char`, and `filepath.Ext` and `strings.Replace` are modelled per character.
- `filepath.Ext` is modelled with `/` as the only path separator.
- `GenerateFFmpegCmd` returns a fresh `FFmpeg` object, as the Go function does. On an error it returns null and the error, and the partly built object is dropped.
- Wrap64, LoopFilter, FadeFilter: Go's `int` is modelled as 64 bits wide. On a 32-bit platform Go would wrap the loop count and the fade start at 2^32 instead.
