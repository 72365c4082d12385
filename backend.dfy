/** What the engine exchanges with the audio server: the commands that change the
    audio graph, and the structured records the model receives in place of the
    server's text output. */
module Backend {
  import opened Util

  /** latency_msec of every mixing loopback the engine creates. */
  const LoopbackLatencyMsec: nat := 150

  /** One audio-graph-changing invocation of the control tool. */
  datatype Command =
    | LoadNullSink(sinkName: string, description: string)
      // a mixing loopback from a sink monitor into a device, with source and sink
      // pinned, no remix and no automatic volume adjustment
    | LoadLoopback(source: string, sink: string, latencyMsec: nat)
    | Unload(moduleId: nat)
    | SinkVolume(sink: string, percent: int)
    | SinkMute(sink: string, muted: bool)
    | DefaultSink(sink: string)
    | InputVolume(input: nat, percent: int)
    | InputMute(input: nat, muted: bool)
    | MoveInput(input: nat, sink: string)

  /** A sink the server knows, as getSinkInfo reports it. */
  datatype SinkInfo = SinkInfo(index: nat, moduleId: nat, name: string, volume: int, muted: bool)

  /** One sink-input, as getStreamInfo reports it. */
  datatype StreamInfo = StreamInfo(
    id: nat,
    appName: string,
    mediaName: string,
    processName: string,
    currentSink: string)

  /** One line of the short sink-input listing: the stream and the index of its sink. */
  datatype SinkInputEntry = SinkInputEntry(id: nat, sinkIndex: nat)

  /** One block of the full sink-input listing, with the properties listStreams reads:
      the stream-restore id and, when present, the id of the module that owns it. */
  datatype SinkInputBlock = SinkInputBlock(
    id: nat,
    appName: string,
    mediaName: string,
    processName: string,
    restoreId: string,
    moduleId: Option<nat>)

  /** One block of the full sink listing. */
  datatype SinkBlock = SinkBlock(name: string, description: string)

  /** The sound server, as far as the engine's effect on it goes: every audio-graph
      command it has been sent, in order. */
  class AudioServer {
    ghost var trace: seq<Command>

    constructor()
      ensures trace == []
    {
      trace := [];
    }

    /** Runs one command; whether the server accepts it is not known. */
    method Run(c: Command) returns (ok: bool)
      modifies this
      ensures trace == old(trace) + [c]
    {
      trace := trace + [c];
      ok := *;
    }
  }
}
