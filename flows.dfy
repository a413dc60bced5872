/** The collaborators the dual-flow coordinator drives: the raw flow that
    makeTdRaw builds, the flow wrapper that makeTdFlow returns, and the
    close-once latch on it. Their real bodies live outside this model; each
    call here takes the collaborator's outcome as a parameter and appends a
    record of itself to a Trace, so that the order of calls, the state of a
    raw flow at the moment it is wrapped or dialed, and every effective close
    can be stated about the coordinator. */
module Flows {

  newtype byte = x: int | 0 <= x < 0x100

  /** Go's uint64, the type of a session id. */
  type Uint64 = x: int | 0 <= x < 0x1_0000_0000_0000_0000

  datatype Option<T> = None | Some(value: T)

  /** A Go error value, observed through its Error() text. */
  datatype Error = Error(msg: string)

  /** What a collaborator call came back with: a nil error or an error. */
  datatype Outcome = Ok | Fail(err: Error)

  function ErrorOf(o: Outcome): (e: Option<Error>)
    ensures e.None? <==> o.Ok?
    ensures o.Fail? ==> e == Some(o.err)
  {
    match o
    case Ok => None
    case Fail(err) => Some(err)
  }

  /** flowReadOnly and flowUpload. */
  datatype Role = ReadOnly | Upload

  /** tagHttpGetIncomplete and tagHttpPostIncomplete. */
  datatype Tag = HttpGetIncomplete | HttpPostIncomplete

  /** A decoy descriptor, opaque to the coordinator; NoDecoy is the zero value. */
  datatype DecoySpec = NoDecoy | Decoy(host: string)

  /** Identity of a caller-supplied dial function; None stands for nil. */
  type DialFunc = nat

  /** Identity of an underlying network connection. */
  type SocketId = nat

  /** What a flow's own Write call came back with. */
  datatype WriteReply = WriteReply(n: int, err: Option<Error>)

  /** One observable step: a call into a collaborator, or a close that took effect. */
  datatype Event =
    | MakeRawCall(tag: Tag)
    | WrapCall(role: Role, decoy: DecoySpec, pinned: bool)
    | DialCall(role: Role, decoy: DecoySpec, pinned: bool)
    | YieldCall
    | AcquireCall
    | Closed(role: Role, err: Error)

  class Trace {
    var events: seq<Event>

    constructor ()
      ensures events == []
    {
      events := [];
    }
  }

  /** A raw flow (tdRawConn): the fixed identity given to makeTdRaw and the
      fields the coordinator fills in afterwards. */
  class RawFlow {
    const tag: Tag
    const stationKey: seq<byte>
    const remoteConnId: seq<byte>
    var customDialer: Option<DialFunc>
    var sessionId: Uint64
    var strIdSuffix: string
    var decoySpec: DecoySpec
    var pinDecoySpec: bool

    /** The fields it is not given start at Go's zero values. */
    constructor (tag: Tag, stationKey: seq<byte>, remoteConnId: seq<byte>)
      ensures this.tag == tag && this.stationKey == stationKey && this.remoteConnId == remoteConnId
      ensures customDialer == None && sessionId == 0 && strIdSuffix == ""
      ensures decoySpec == NoDecoy && !pinDecoySpec
    {
      this.tag := tag;
      this.stationKey := stationKey;
      this.remoteConnId := remoteConnId;
      customDialer := None;
      sessionId := 0;
      strIdSuffix := "";
      decoySpec := NoDecoy;
      pinDecoySpec := false;
    }
  }

  /** makeTdRaw: a fresh raw flow with the given tag, key and correlation id. */
  method MakeTdRaw(tag: Tag, stationKey: seq<byte>, remoteConnId: seq<byte>, trace: Trace)
    returns (raw: RawFlow)
    modifies trace
    ensures fresh(raw)
    ensures raw.tag == tag && raw.stationKey == stationKey && raw.remoteConnId == remoteConnId
    ensures raw.customDialer == None && raw.sessionId == 0 && raw.strIdSuffix == ""
    ensures raw.decoySpec == NoDecoy && !raw.pinDecoySpec
    ensures trace.events == old(trace.events) + [MakeRawCall(tag)]
  {
    raw := new RawFlow(tag, stationKey, remoteConnId);
    trace.events := trace.events + [MakeRawCall(tag)];
  }

  /** A wrapped flow (TapdanceFlowConn) with its close-once latch. */
  class FlowConn {
    const role: Role
    const raw: RawFlow
    const underlay: SocketId
    var closed: bool
    var closeErr: Option<Error>
    /** Every buffer handed to this flow's Write, in order. */
    var writes: seq<seq<byte>>

    /** The latch: a flow is closed exactly when it holds its terminal error. */
    ghost predicate Valid()
      reads this
    {
      closed <==> closeErr.Some?
    }

    constructor (role: Role, raw: RawFlow, underlay: SocketId)
      ensures this.role == role && this.raw == raw && this.underlay == underlay
      ensures Valid() && !closed && writes == []
    {
      this.role := role;
      this.raw := raw;
      this.underlay := underlay;
      closed := false;
      closeErr := None;
      writes := [];
    }

    /** Dial. Unless the raw flow's decoy is pinned, a successful dial
        records the decoy it chose there; a pinned decoy is kept. */
    method Dial(outcome: Outcome, chosen: DecoySpec, trace: Trace) returns (err: Option<Error>)
      modifies raw`decoySpec, trace
      ensures err == ErrorOf(outcome)
      ensures raw.decoySpec == if outcome.Ok? && !raw.pinDecoySpec then chosen else old(raw.decoySpec)
      ensures trace.events == old(trace.events) + [DialCall(role, old(raw.decoySpec), raw.pinDecoySpec)]
    {
      trace.events := trace.events + [DialCall(role, raw.decoySpec, raw.pinDecoySpec)];
      if outcome.Ok? && !raw.pinDecoySpec {
        raw.decoySpec := chosen;
      }
      err := ErrorOf(outcome);
    }

    /** yieldUpload: the reader announces that a partner will carry the upload. */
    method YieldUpload(outcome: Outcome, trace: Trace) returns (err: Option<Error>)
      modifies trace
      ensures err == ErrorOf(outcome)
      ensures trace.events == old(trace.events) + [YieldCall]
    {
      trace.events := trace.events + [YieldCall];
      err := ErrorOf(outcome);
    }

    /** acquireUpload: the writer claims the upload direction the reader yielded. */
    method AcquireUpload(outcome: Outcome, trace: Trace) returns (err: Option<Error>)
      modifies trace
      ensures err == ErrorOf(outcome)
      ensures trace.events == old(trace.events) + [AcquireCall]
    {
      trace.events := trace.events + [AcquireCall];
      err := ErrorOf(outcome);
    }

    /** closeWithErrorOnce: the first close wins; a later one changes nothing. */
    method CloseWithErrorOnce(err: Error, trace: Trace)
      requires Valid()
      modifies this`closed, this`closeErr, trace
      ensures Valid() && closed
      ensures closeErr == if old(closed) then old(closeErr) else Some(err)
      ensures trace.events == old(trace.events) + (if old(closed) then [] else [Closed(role, err)])
    {
      if !closed {
        closed := true;
        closeErr := Some(err);
        trace.events := trace.events + [Closed(role, err)];
      }
    }

    /** Write: the buffer is handed to the flow, which answers with reply. */
    method Write(b: seq<byte>, reply: WriteReply) returns (n: int, err: Option<Error>)
      modifies this`writes
      ensures writes == old(writes) + [b]
      ensures n == reply.n && err == reply.err
    {
      writes := writes + [b];
      n, err := reply.n, reply.err;
    }
  }

  /** makeTdFlow: wraps a raw flow in the given role, or fails. */
  method MakeTdFlow(role: Role, raw: RawFlow, outcome: Outcome, underlay: SocketId, trace: Trace)
    returns (flow: FlowConn?, err: Option<Error>)
    modifies trace
    ensures err == ErrorOf(outcome)
    ensures outcome.Ok? ==> flow != null && fresh(flow) && flow.Valid() && !flow.closed
    ensures outcome.Ok? ==> flow.role == role && flow.raw == raw && flow.underlay == underlay && flow.writes == []
    ensures outcome.Fail? ==> flow == null
    ensures trace.events == old(trace.events) + [WrapCall(role, raw.decoySpec, raw.pinDecoySpec)]
  {
    trace.events := trace.events + [WrapCall(role, raw.decoySpec, raw.pinDecoySpec)];
    err := ErrorOf(outcome);
    if outcome.Ok? {
      flow := new FlowConn(role, raw, underlay);
    } else {
      flow := null;
    }
  }
}
