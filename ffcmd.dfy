/**
 * The part of the ffcmd library that the builder drives, as abstract state: an ffmpeg
 * command with its inputs, filter graph, set-up and clean-up commands and output maps,
 * and filter chains with their labels, input pads and filters. How ffcmd serialises
 * this state into an argument vector is not part of this model; its timestamp parser
 * and subtitle-file commands are opaque functions supplied as a `Library`.
 */
module Ffcmd {
  import opened Results
  import opened Decimal

  /** The stream selector of a source pad: `v` or `a`. */
  datatype StreamKind = Video | Audio {
    function Letter(): string {
      if Video? then "v" else "a"
    }
  }

  /** The `index`-th output of the chain whose output labels are `labels`. */
  datatype OutRef = OutRef(labels: seq<string>, index: nat)

  /** An input pad: a stream of a declared input file (`[id:v:0]`) or another chain's output. */
  datatype Pad =
    | ById(input: nat, kind: StreamKind, stream: nat)
    | ByOutput(source: OutRef)

  /** What a filter chain holds when it is added to the graph. */
  datatype ChainValue = ChainValue(labels: seq<string>, pads: seq<Pad>, filters: seq<string>)

  /** An auxiliary command (program and arguments) built by the library. */
  datatype Cmd = Cmd(program: string, args: seq<string>)

  /** A timestamp accepted by the library's parser; only `secondStr` looks inside it. */
  datatype Timestamp = Timestamp(text: string)

  /**
   * The library functions whose insides are not modelled: `ffcmd.NewTimestamp`,
   * `Timestamp.SecondStr`, `ffcmd.NewCreateOneSubSRTCmdForImageClip`,
   * `ffcmd.NewCreateOneSubSRTCmd` and `ffcmd.NewRemoveOneSubSRTCmd`. Each of them except
   * `SecondStr` may fail.
   */
  datatype Library = Library(
    newTimestamp: string -> Result<Timestamp>,
    secondStr: Timestamp -> string,
    createImageSrt: (string, string, int64) -> Result<Cmd>,
    createClipSrt: (string, string, string, string, string) -> Result<Cmd>,
    removeSrt: string -> Result<Cmd>)

  /** The whole state of an ffmpeg command under construction. */
  datatype Command = Command(
    output: string,
    overwrite: bool,
    inputs: seq<string>,
    chains: seq<ChainValue>,
    preCmds: seq<Cmd>,
    postCmds: seq<Cmd>,
    maps: seq<OutRef>)

  /** `ffcmd.FilterChain`: labels fixed at creation, pads and filters appended in order. */
  class FilterChain {
    const labels: seq<string>
    var pads: seq<Pad>
    var filters: seq<string>

    /** `ffcmd.NewFilterChain(labels...)`. */
    constructor (labels: seq<string>)
      ensures this.labels == labels && pads == [] && filters == []
    {
      this.labels := labels;
      pads := [];
      filters := [];
    }

    /** `AddInputByID(id, kind, stream)`: appends the pad `[id:kind:stream]`. */
    method AddInputByID(id: nat, kind: StreamKind, stream: nat)
      modifies this`pads
      ensures pads == old(pads) + [ById(id, kind, stream)]
    {
      pads := pads + [ById(id, kind, stream)];
    }

    /** `AddInputByOutput(other, index)`: appends a pad fed by `other`'s `index`-th output. */
    method AddInputByOutput(other: FilterChain, index: nat)
      modifies this`pads
      ensures pads == old(pads) + [ByOutput(OutRef(other.labels, index))]
    {
      pads := pads + [ByOutput(OutRef(other.labels, index))];
    }

    /** `Chain(filter)`: appends one filter to the chain. */
    method Chain(filter: string)
      modifies this`filters
      ensures filters == old(filters) + [filter]
    {
      filters := filters + [filter];
    }
  }

  /** `ffcmd.FFmpeg`: the command that the builder fills in step by step. */
  class FFmpeg {
    const output: string
    const overwrite: bool
    var inputs: seq<string>
    var chains: seq<ChainValue>
    var preCmds: seq<Cmd>
    var postCmds: seq<Cmd>
    var maps: seq<OutRef>

    function Value(): Command
      reads this
    {
      Command(output, overwrite, inputs, chains, preCmds, postCmds, maps)
    }

    /** `ffcmd.New(output, overwrite)`: an empty command writing to `output`. */
    constructor (output: string, overwrite: bool)
      ensures this.output == output && this.overwrite == overwrite
      ensures inputs == [] && chains == [] && preCmds == [] && postCmds == [] && maps == []
    {
      this.output := output;
      this.overwrite := overwrite;
      inputs, chains, preCmds, postCmds, maps := [], [], [], [], [];
    }

    /** `AddInput(file)`: declares one more input file and returns its zero-based index. */
    method AddInput(file: string) returns (id: nat)
      modifies this`inputs
      ensures id == |old(inputs)|
      ensures inputs == old(inputs) + [file]
    {
      id := |inputs|;
      inputs := inputs + [file];
    }

    /** `AddPreCmd(cmd)`: one more set-up command, run before ffmpeg. */
    method AddPreCmd(cmd: Cmd)
      modifies this`preCmds
      ensures preCmds == old(preCmds) + [cmd]
    {
      preCmds := preCmds + [cmd];
    }

    /** `AddPostCmd(cmd)`: one more clean-up command, run after ffmpeg. */
    method AddPostCmd(cmd: Cmd)
      modifies this`postCmds
      ensures postCmds == old(postCmds) + [cmd]
    {
      postCmds := postCmds + [cmd];
    }

    /** `Chain(fc)`: appends the filter chain, as it stands now, to the filter graph. */
    method Chain(fc: FilterChain)
      modifies this`chains
      ensures chains == old(chains) + [ChainValue(fc.labels, fc.pads, fc.filters)]
    {
      chains := chains + [ChainValue(fc.labels, fc.pads, fc.filters)];
    }

    /** `MapByOutput(fc, index)`: selects `fc`'s `index`-th output as an output stream. */
    method MapByOutput(fc: FilterChain, index: nat)
      modifies this`maps
      ensures maps == old(maps) + [OutRef(fc.labels, index)]
    {
      maps := maps + [OutRef(fc.labels, index)];
    }
  }
}
