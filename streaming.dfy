/** The stage-event protocol of lib/streaming.ts: the eight battle stages,
    the event record, its server-sent-events framing and the stream whose
    writer enqueues every chunk, in order, to the readable side. */
module Streaming {
  import opened Common

  /** `BattleStage`, in pipeline order. */
  datatype BattleStage =
    | Entering
    | GeneratingA
    | GeneratingB
    | RefiningA
    | RefiningB
    | Critique
    | Judging
    | Winner

  /** The position of a stage in the pipeline order. */
  function StageIndex(s: BattleStage): (k: nat)
    ensures k < 8
  {
    match s
    case Entering => 0
    case GeneratingA => 1
    case GeneratingB => 2
    case RefiningA => 3
    case RefiningB => 4
    case Critique => 5
    case Judging => 6
    case Winner => 7
  }

  const AllStages: seq<BattleStage> :=
    [Entering, GeneratingA, GeneratingB, RefiningA, RefiningB, Critique, Judging, Winner]

  /** The union type has exactly eight members, listed in pipeline order. */
  lemma AllStagesEnumerated()
    ensures |AllStages| == 8
    ensures forall s: BattleStage :: AllStages[StageIndex(s)] == s
    ensures forall i :: 0 <= i < 8 ==> StageIndex(AllStages[i]) == i
  {
    forall s: BattleStage
      ensures AllStages[StageIndex(s)] == s
    {
      match s
      case Entering =>
      case GeneratingA =>
      case GeneratingB =>
      case RefiningA =>
      case RefiningB =>
      case Critique =>
      case Judging =>
      case Winner =>
    }
  }

  /** The string literal a stage is serialised as. */
  function StageName(s: BattleStage): string
  {
    match s
    case Entering => "entering"
    case GeneratingA => "generating_a"
    case GeneratingB => "generating_b"
    case RefiningA => "refining_a"
    case RefiningB => "refining_b"
    case Critique => "critique"
    case Judging => "judging"
    case Winner => "winner"
  }

  lemma StageNamesDistinct(s: BattleStage, t: BattleStage)
    ensures StageName(s) == StageName(t) <==> s == t
  {
  }

  /** `StageEvent`: a stage with optional `data` and `agentName`. The battle
      route also pushes an event whose stage is the string 'error', forced
      past the union type by a cast; it is the `ErrorEvent` constructor here. */
  datatype StageEvent =
    | StageEvent(stage: BattleStage, data: Option<string>, agentName: Option<string>)
    | ErrorEvent(message: string)

  const FramePrefix: string := "data: "
  const FrameSuffix: string := "\n\n"

  /** `encodeSSE`: `serialize` stands for `JSON.stringify` on events. */
  function EncodeSSE(serialize: StageEvent -> string, e: StageEvent): (frame: string)
    ensures StartsWith(frame, FramePrefix) && EndsWith(frame, FrameSuffix)
    ensures |frame| == |serialize(e)| + 8
    ensures frame[6..|frame| - 2] == serialize(e)
  {
    FramePrefix + serialize(e) + FrameSuffix
  }

  /** What a client reads back out of one frame: the JSON text between the
      `data: ` marker and the blank line. */
  function DecodeSSE(frame: string): (payload: Option<string>)
    ensures payload.Some? ==> |frame| == |payload.value| + 8
  {
    if |frame| >= 8 && StartsWith(frame, FramePrefix) && EndsWith(frame, FrameSuffix)
    then Some(frame[6..|frame| - 2])
    else None
  }

  lemma DecodeEncode(serialize: StageEvent -> string, e: StageEvent)
    ensures DecodeSSE(EncodeSSE(serialize, e)) == Some(serialize(e))
  {
  }

  /** Distinct serialisations give distinct frames. */
  lemma EncodeInjective(serialize: StageEvent -> string, e1: StageEvent, e2: StageEvent)
    requires EncodeSSE(serialize, e1) == EncodeSSE(serialize, e2)
    ensures serialize(e1) == serialize(e2)
  {
    DecodeEncode(serialize, e1);
    DecodeEncode(serialize, e2);
  }

  /** The frames of a sequence of events, in order. */
  function Frames(serialize: StageEvent -> string, events: seq<StageEvent>): (r: seq<string>)
    ensures |r| == |events|
    ensures forall i :: 0 <= i < |events| ==> r[i] == EncodeSSE(serialize, events[i])
  {
    seq(|events|, i requires 0 <= i < |events| => EncodeSSE(serialize, events[i]))
  }

  lemma FramesAppend(serialize: StageEvent -> string, xs: seq<StageEvent>, ys: seq<StageEvent>)
    ensures Frames(serialize, xs + ys) == Frames(serialize, xs) + Frames(serialize, ys)
  {
  }

  /** `createSSEStream`: the writer's `write` enqueues each chunk on the
      readable side and its `close` closes the readable. Both ends are one
      object here: `chunks` is what the readable has been given, in order. */
  class SSEStream {
    var chunks: seq<string>
    var closed: bool

    constructor ()
      ensures chunks == [] && !closed
    {
      chunks := [];
      closed := false;
    }

    /** `controller.enqueue(chunk)`; a closed controller would throw. */
    method Enqueue(chunk: string)
      requires !closed
      modifies this
      ensures chunks == old(chunks) + [chunk] && !closed
    {
      chunks := chunks + [chunk];
    }

    /** `controller.close()`; closing twice would throw. */
    method Close()
      requires !closed
      modifies this
      ensures closed && chunks == old(chunks)
    {
      closed := true;
    }
  }

  /** `sendStage`: exactly one write, carrying the frame of the event. */
  method SendStage(writer: SSEStream, serialize: StageEvent -> string, e: StageEvent)
    requires !writer.closed
    modifies writer
    ensures writer.chunks == old(writer.chunks) + [EncodeSSE(serialize, e)]
    ensures !writer.closed
  {
    writer.Enqueue(EncodeSSE(serialize, e));
  }
}
