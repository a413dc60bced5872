/** The dual-flow connection: a reader flow carrying the download and a
    writer flow carrying the upload, built by DialSplitFlow and tied
    together by the close-propagation watcher. */
module Dual {
  import opened Flows
  import opened Handshake
  import Decimal

  const SessionPrefix := "[Session "

  /** The pairing every successful handshake establishes between its flows. */
  ghost predicate Paired(reader: FlowConn, writer: FlowConn, sessionId: Uint64)
    reads reader.raw, writer.raw
  {
    var r, w := reader.raw, writer.raw;
    && reader.role == ReadOnly && writer.role == Upload
    && r.tag == HttpGetIncomplete && w.tag == HttpPostIncomplete
    && r.stationKey == w.stationKey && r.remoteConnId == w.remoteConnId
    && r.customDialer == w.customDialer
    && r.sessionId == sessionId && w.sessionId == sessionId
    && r.strIdSuffix == "R" && w.strIdSuffix == "W"
    && w.decoySpec == r.decoySpec && w.pinDecoySpec
  }

  class DualConn {
    /** The embedded net.Conn: every operation this class does not define goes here. */
    var conn: FlowConn?
    var writerConn: FlowConn?
    var readerConn: FlowConn?
    const sessionId: Uint64
    /** The close-propagation watcher has been started and has not fired yet. */
    var watching: bool

    ghost function Footprint(): set<object>
      reads this
    {
      {this}
      + (if readerConn != null then {readerConn, readerConn.raw} else {})
      + (if writerConn != null then {writerConn, writerConn.raw} else {})
    }

    ghost predicate Valid()
      reads this, Footprint()
    {
      && readerConn != null && writerConn != null
      && readerConn != writerConn && readerConn.raw != writerConn.raw
      && conn == readerConn
      && readerConn.Valid() && writerConn.Valid()
      && Paired(readerConn, writerConn, sessionId)
    }

    constructor (sessionId: Uint64)
      ensures this.sessionId == sessionId
      ensures conn == null && readerConn == null && writerConn == null && !watching
    {
      this.sessionId := sessionId;
      conn, writerConn, readerConn := null, null, null;
      watching := false;
    }

    /** idStr: "[Session ", the session id in decimal, "]". The digits are
        canonical and read back as the session id, so the label names
        exactly one session. */
    function IdStr(): (s: string)
      ensures |s| >= |SessionPrefix| + 2
      ensures s[..|SessionPrefix|] == SessionPrefix && s[|s| - 1] == ']'
      ensures Decimal.IsCanonical(s[|SessionPrefix|..|s| - 1])
      ensures Decimal.ParseUint(s[|SessionPrefix|..|s| - 1]) == sessionId
    {
      Decimal.ParseFormat(sessionId);
      var digits := Decimal.FormatUint(sessionId);
      var s := SessionPrefix + digits + "]";
      assert s[|SessionPrefix|..|s| - 1] == digits;
      s
    }

    /** Write goes to the writer flow, with the writer's answer returned as is;
        the reader flow sees nothing of it. */
    method Write(b: seq<byte>, reply: WriteReply) returns (n: int, err: Option<Error>)
      requires Valid()
      modifies writerConn`writes
      ensures Valid()
      ensures writerConn.writes == old(writerConn.writes) + [b]
      ensures unchanged(readerConn)
      ensures n == reply.n && err == reply.err
    {
      n, err := writerConn.Write(b, reply);
    }

    /** NetworkConn hands out the reader flow's socket, even though two exist. */
    function NetworkConn(): (s: SocketId)
      requires Valid()
      reads this, Footprint()
      ensures s == readerConn.underlay
      ensures s == conn.underlay
    {
      readerConn.underlay
    }

    /** The close-propagation watcher, run as the one step it takes once
        `first` has closed: it closes the other flow with the wrapped cause,
        leaves the flow that closed first untouched, and never runs again.
        If the other flow had already closed, its latch keeps its own error. */
    method RunWatcher(first: Role, trace: Trace)
      requires Valid() && watching
      requires first == ReadOnly ==> readerConn.closed
      requires first == Upload ==> writerConn.closed
      modifies this`watching, readerConn`closed, readerConn`closeErr, writerConn`closed, writerConn`closeErr, trace
      ensures Valid() && !watching
      ensures readerConn.closed && writerConn.closed
      ensures first == ReadOnly ==> unchanged(readerConn)
      ensures first == ReadOnly ==> (writerConn.closeErr ==
        if old(writerConn.closed) then old(writerConn.closeErr)
        else Some(PartnerClosedError(ReadOnly, readerConn.closeErr.value)))
      ensures first == ReadOnly ==> (trace.events == old(trace.events) +
        if old(writerConn.closed) then []
        else [Closed(Upload, PartnerClosedError(ReadOnly, readerConn.closeErr.value))])
      ensures first == Upload ==> unchanged(writerConn)
      ensures first == Upload ==> (readerConn.closeErr ==
        if old(readerConn.closed) then old(readerConn.closeErr)
        else Some(PartnerClosedError(Upload, writerConn.closeErr.value)))
      ensures first == Upload ==> (trace.events == old(trace.events) +
        if old(readerConn.closed) then []
        else [Closed(ReadOnly, PartnerClosedError(Upload, writerConn.closeErr.value))])
    {
      watching := false;
      match first
      case ReadOnly =>
        writerConn.CloseWithErrorOnce(PartnerClosedError(ReadOnly, readerConn.closeErr.value), trace);
      case Upload =>
        readerConn.CloseWithErrorOnce(PartnerClosedError(Upload, writerConn.closeErr.value), trace);
    }
  }

  /** makeTdRaw followed by the three assignments both raw flows get: the
      caller's dialer, the session id, and the direction suffix. */
  method NewRawFlow(tag: Tag, stationPubkey: seq<byte>, remoteConnId: seq<byte>,
                    customDialer: Option<DialFunc>, sessionId: Uint64, suffix: string, trace: Trace)
    returns (raw: RawFlow)
    modifies trace
    ensures fresh(raw)
    ensures raw.tag == tag && raw.stationKey == stationPubkey && raw.remoteConnId == remoteConnId
    ensures raw.customDialer == customDialer && raw.sessionId == sessionId && raw.strIdSuffix == suffix
    ensures raw.decoySpec == NoDecoy && !raw.pinDecoySpec
    ensures trace.events == old(trace.events) + [MakeRawCall(tag)]
  {
    raw := MakeTdRaw(tag, stationPubkey, remoteConnId, trace);
    raw.customDialer := customDialer;
    raw.sessionId := sessionId;
    raw.strIdSuffix := suffix;
  }

  /** The state of a reader flow once its stage of dialSplitFlow has succeeded. */
  ghost predicate ReaderSetUp(reader: FlowConn, customDialer: Option<DialFunc>, sessionId: Uint64,
                              stationPubkey: seq<byte>, remoteConnId: seq<byte>, c: Collaborators)
    reads reader, reader.raw
  {
    var r := reader.raw;
    && reader.role == ReadOnly && reader.Valid() && !reader.closed
    && reader.writes == [] && reader.underlay == c.readerSocket
    && r.tag == HttpGetIncomplete && r.stationKey == stationPubkey && r.remoteConnId == remoteConnId
    && r.customDialer == customDialer && r.sessionId == sessionId && r.strIdSuffix == "R"
    && r.decoySpec == c.readerDecoy && !r.pinDecoySpec
  }

  /** The reader's stage of dialSplitFlow: build, wrap and dial the reader,
      bind the embedded connection to it, and yield the upload. A failed
      wrap or dial returns its error and closes nothing; a failed yield
      closes the reader with the yield's error and returns it. */
  method DialReader(dc: DualConn, customDialer: Option<DialFunc>, stationPubkey: seq<byte>,
                    remoteConnId: seq<byte>, c: Collaborators, trace: Trace)
    returns (err: Option<Error>)
    modifies dc`readerConn, dc`conn, trace
    ensures err.None? <==> ReaderReady(c)
    ensures err.Some? ==> err == HandshakeError(c)
    ensures trace.events == old(trace.events) + ReaderTrace(c)
    ensures err.None? ==> dc.readerConn != null && fresh(dc.readerConn) && fresh(dc.readerConn.raw)
    ensures err.None? ==> dc.conn == dc.readerConn
    ensures err.None? ==> ReaderSetUp(dc.readerConn, customDialer, dc.sessionId, stationPubkey, remoteConnId, c)
  {
    ghost var t0 := trace.events;
    var rawR := NewRawFlow(HttpGetIncomplete, stationPubkey, remoteConnId, customDialer, dc.sessionId, "R", trace);

    dc.readerConn, err := MakeTdFlow(ReadOnly, rawR, c.readerWrap, c.readerSocket, trace);
    assert trace.events == t0 + [MakeRawCall(HttpGetIncomplete)] + [WrapCall(ReadOnly, NoDecoy, false)];
    if err.Some? {
      return;
    }
    var reader := dc.readerConn;
    err := reader.Dial(c.readerDial, c.readerDecoy, trace);
    if err.Some? {
      return;
    }

    dc.conn := reader;

    err := reader.YieldUpload(c.readerYield, trace);
    if err.Some? {
      reader.CloseWithErrorOnce(err.value, trace);
    }
  }

  /** The writer's stage of dialSplitFlow, run once the reader has yielded:
      build the writer with the reader's decoy pinned, wrap it, dial it and
      acquire the upload. A failed wrap or dial closes the reader with its
      error; a failed acquire closes the reader and then the writer with it;
      the error is returned as it came. */
  method DialWriter(dc: DualConn, customDialer: Option<DialFunc>, stationPubkey: seq<byte>,
                    remoteConnId: seq<byte>, c: Collaborators, trace: Trace)
    returns (err: Option<Error>)
    requires ReaderReady(c) && dc.readerConn != null
    requires ReaderSetUp(dc.readerConn, customDialer, dc.sessionId, stationPubkey, remoteConnId, c)
    modifies dc`writerConn, dc.readerConn`closed, dc.readerConn`closeErr, trace
    ensures err == HandshakeError(c)
    ensures trace.events == old(trace.events) + WriterTrace(c)
    ensures dc.readerConn.Valid()
    ensures err.None? ==> dc.writerConn != null && fresh(dc.writerConn) && fresh(dc.writerConn.raw)
    ensures err.None? ==> ReaderSetUp(dc.readerConn, customDialer, dc.sessionId, stationPubkey, remoteConnId, c)
    ensures err.None? ==> var w := dc.writerConn;
      && w.role == Upload && w.Valid() && !w.closed && w.writes == [] && w.underlay == c.writerSocket
      && Paired(dc.readerConn, w, dc.sessionId)
  {
    var reader := dc.readerConn;
    var rawR := reader.raw;
    ghost var t0 := trace.events;
    var rawW := NewRawFlow(HttpPostIncomplete, stationPubkey, remoteConnId, customDialer, dc.sessionId, "W", trace);
    rawW.decoySpec := rawR.decoySpec;
    rawW.pinDecoySpec := true;

    dc.writerConn, err := MakeTdFlow(Upload, rawW, c.writerWrap, c.writerSocket, trace);
    ghost var wrappedW := [MakeRawCall(HttpPostIncomplete)] + [WrapCall(Upload, c.readerDecoy, true)];
    assert trace.events == t0 + wrappedW;
    if err.Some? {
      assert HandshakeError(c) == err;
      reader.CloseWithErrorOnce(err.value, trace);
      return;
    }
    var writer := dc.writerConn;
    err := writer.Dial(c.writerDial, c.writerDecoy, trace);
    ghost var dialedW := wrappedW + [DialCall(Upload, c.readerDecoy, true)];
    assert trace.events == t0 + dialedW;
    if err.Some? {
      assert HandshakeError(c) == err;
      reader.CloseWithErrorOnce(err.value, trace);
      return;
    }

    err := writer.AcquireUpload(c.writerAcquire, trace);
    assert trace.events == t0 + (dialedW + [AcquireCall]);
    assert HandshakeError(c) == err;
    if err.Some? {
      reader.CloseWithErrorOnce(err.value, trace);
      writer.CloseWithErrorOnce(err.value, trace);
    }
  }

  /** dialSplitFlow. The session id, the station key and the random
      correlation id are given; every collaborator's answer comes from c.
      On success the two flows are paired, open, and watched; on failure
      nothing is returned but the failing step's error, and the trace shows
      every call made and every flow closed on the way out. */
  method DialSplitFlow(customDialer: Option<DialFunc>, sessionId: Uint64, stationPubkey: seq<byte>,
                       remoteConnId: seq<byte>, c: Collaborators, trace: Trace)
    returns (dc: DualConn?, err: Option<Error>)
    requires |remoteConnId| == 16
    modifies trace
    ensures err == HandshakeError(c)
    ensures trace.events == old(trace.events) + HandshakeTrace(c)
    ensures err.Some? ==> dc == null
    ensures err.None? ==> dc != null && fresh(dc) && dc.Valid() && dc.watching && dc.sessionId == sessionId
    ensures err.None? ==> fresh(dc.readerConn) && fresh(dc.writerConn)
    ensures err.None? ==> fresh(dc.readerConn.raw) && fresh(dc.writerConn.raw)
    ensures err.None? ==> !dc.readerConn.closed && !dc.writerConn.closed
    ensures err.None? ==> dc.readerConn.writes == [] && dc.writerConn.writes == []
    ensures err.None? ==> dc.readerConn.underlay == c.readerSocket && dc.writerConn.underlay == c.writerSocket
    ensures err.None? ==> var r := dc.readerConn.raw;
      && r.stationKey == stationPubkey && r.remoteConnId == remoteConnId
      && r.customDialer == customDialer && r.decoySpec == c.readerDecoy
  {
    dc := new DualConn(sessionId);
    err := DialReader(dc, customDialer, stationPubkey, remoteConnId, c, trace);
    if err.Some? {
      return null, err;
    }
    err := DialWriter(dc, customDialer, stationPubkey, remoteConnId, c, trace);
    if err.Some? {
      return null, err;
    }
    dc.watching := true;
    return dc, None;
  }
}
