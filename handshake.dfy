/** The behaviour dialSplitFlow must show, as values: which collaborator
    step fails first, which error is returned, which flows are then closed,
    the whole sequence of collaborator calls, and the error the
    close-propagation watcher puts on the surviving flow. */
module Handshake {
  import opened Flows

  /** The six collaborator steps of the handshake, in the order they run. */
  datatype Step = ReaderWrap | ReaderDial | ReaderYield | WriterWrap | WriterDial | WriterAcquire

  function Rank(k: Step): nat {
    match k
    case ReaderWrap => 0
    case ReaderDial => 1
    case ReaderYield => 2
    case WriterWrap => 3
    case WriterDial => 4
    case WriterAcquire => 5
  }

  /** Everything the collaborators decide during one handshake: the outcome
      of each step, the decoy each Dial would pick if its decoy were not
      pinned, and the socket under each wrapped flow. */
  datatype Collaborators = Collaborators(
    readerWrap: Outcome,
    readerDial: Outcome,
    readerDecoy: DecoySpec,
    readerYield: Outcome,
    writerWrap: Outcome,
    writerDial: Outcome,
    writerDecoy: DecoySpec,
    writerAcquire: Outcome,
    readerSocket: SocketId,
    writerSocket: SocketId)

  function OutcomeOf(c: Collaborators, k: Step): Outcome {
    match k
    case ReaderWrap => c.readerWrap
    case ReaderDial => c.readerDial
    case ReaderYield => c.readerYield
    case WriterWrap => c.writerWrap
    case WriterDial => c.writerDial
    case WriterAcquire => c.writerAcquire
  }

  /** The step at which the handshake stops: the earliest failing one. */
  function FirstFailure(c: Collaborators): (r: Option<Step>)
    ensures r.None? ==> forall k :: OutcomeOf(c, k).Ok?
    ensures r.Some? ==> OutcomeOf(c, r.value).Fail?
    ensures r.Some? ==> forall k :: Rank(k) < Rank(r.value) ==> OutcomeOf(c, k).Ok?
  {
    if c.readerWrap.Fail? then Some(ReaderWrap)
    else if c.readerDial.Fail? then Some(ReaderDial)
    else if c.readerYield.Fail? then Some(ReaderYield)
    else if c.writerWrap.Fail? then Some(WriterWrap)
    else if c.writerDial.Fail? then Some(WriterDial)
    else if c.writerAcquire.Fail? then Some(WriterAcquire)
    else None
  }

  /** The error dialSplitFlow returns: the failing step's own error, unwrapped. */
  function HandshakeError(c: Collaborators): (e: Option<Error>)
    ensures e.None? <==> forall k :: OutcomeOf(c, k).Ok?
    ensures e.Some? ==> exists k :: OutcomeOf(c, k) == Fail(e.value)
                                    && forall j :: Rank(j) < Rank(k) ==> OutcomeOf(c, j).Ok?
  {
    match FirstFailure(c)
    case None => None
    case Some(k) => Some(OutcomeOf(c, k).err)
  }

  /** The flows whose Dial had succeeded before step k, in dial order. */
  function DialedBefore(k: Step): seq<Role> {
    (if Rank(k) > Rank(ReaderDial) then [ReadOnly] else [])
    + (if Rank(k) > Rank(WriterDial) then [Upload] else [])
  }

  function ClosesWith(roles: seq<Role>, e: Error): (cs: seq<Event>)
    ensures |cs| == |roles|
    ensures forall i :: 0 <= i < |roles| ==> cs[i] == Closed(roles[i], e)
  {
    if roles == [] then [] else [Closed(roles[0], e)] + ClosesWith(roles[1..], e)
  }

  /** The cleanup a failed handshake owes: each flow dialed before the
      failing step is closed once, in dial order, with that step's error;
      a successful handshake closes nothing. */
  function CleanupFor(c: Collaborators): seq<Event> {
    match FirstFailure(c)
    case None => []
    case Some(k) => ClosesWith(DialedBefore(k), OutcomeOf(c, k).err)
  }

  /** The effective closes in a trace, in order. */
  function CloseEvents(t: seq<Event>): (cs: seq<Event>)
    ensures forall i :: 0 <= i < |cs| ==> cs[i].Closed?
  {
    if t == [] then []
    else (if t[0].Closed? then [t[0]] else []) + CloseEvents(t[1..])
  }

  lemma {:induction false} CloseEventsAppend(a: seq<Event>, b: seq<Event>)
    ensures CloseEvents(a + b) == CloseEvents(a) + CloseEvents(b)
  {
    if a == [] {
      assert a + b == b;
    } else {
      assert (a + b)[1..] == a[1..] + b;
      CloseEventsAppend(a[1..], b);
    }
  }

  /** The reader's steps all succeed, so the writer's stage runs. */
  predicate ReaderReady(c: Collaborators) {
    c.readerWrap.Ok? && c.readerDial.Ok? && c.readerYield.Ok?
  }

  /** The calls and closes of the reader's stage. Its raw flow is wrapped
      and dialed with its zero-valued decoy, unpinned; a failed yield closes
      the reader with the yield's error. */
  function ReaderTrace(c: Collaborators): seq<Event> {
    var madeR := [MakeRawCall(HttpGetIncomplete)];
    var wrappedR := madeR + [WrapCall(ReadOnly, NoDecoy, false)];
    if c.readerWrap.Fail? then wrappedR
    else
      var dialedR := wrappedR + [DialCall(ReadOnly, NoDecoy, false)];
      if c.readerDial.Fail? then dialedR
      else
        var yielded := dialedR + [YieldCall];
        if c.readerYield.Fail? then yielded + [Closed(ReadOnly, c.readerYield.err)]
        else yielded
  }

  /** The calls and closes of the writer's stage. Its raw flow is wrapped
      and dialed already carrying the decoy the reader's Dial chose, pinned;
      a failed wrap or dial closes the reader, a failed acquire closes the
      reader and then the writer, each with that step's error. */
  function WriterTrace(c: Collaborators): seq<Event> {
    var madeW := [MakeRawCall(HttpPostIncomplete)];
    var wrappedW := madeW + [WrapCall(Upload, c.readerDecoy, true)];
    if c.writerWrap.Fail? then wrappedW + [Closed(ReadOnly, c.writerWrap.err)]
    else
      var dialedW := wrappedW + [DialCall(Upload, c.readerDecoy, true)];
      if c.writerDial.Fail? then dialedW + [Closed(ReadOnly, c.writerDial.err)]
      else
        var acquired := dialedW + [AcquireCall];
        if c.writerAcquire.Fail? then
          acquired + [Closed(ReadOnly, c.writerAcquire.err)] + [Closed(Upload, c.writerAcquire.err)]
        else acquired
  }

  /** The calls and closes dialSplitFlow makes for the given collaborator
      outcomes, in order: the writer's stage runs only after the reader's
      has fully succeeded. */
  function HandshakeTrace(c: Collaborators): seq<Event> {
    ReaderTrace(c) + (if ReaderReady(c) then WriterTrace(c) else [])
  }

  lemma CloseEventsSnoc(t: seq<Event>, ev: Event)
    ensures CloseEvents(t + [ev]) == CloseEvents(t) + (if ev.Closed? then [ev] else [])
  {
    CloseEventsAppend(t, [ev]);
    assert [ev][1..] == [];
  }

  /** The reader's stage closes the reader only when its yield fails. */
  lemma ReaderCloses(c: Collaborators)
    ensures CloseEvents(ReaderTrace(c)) ==
      if c.readerWrap.Ok? && c.readerDial.Ok? && c.readerYield.Fail? then [Closed(ReadOnly, c.readerYield.err)] else []
  {
    var madeR := [MakeRawCall(HttpGetIncomplete)];
    assert madeR[1..] == [];
    CloseEventsSnoc(madeR, WrapCall(ReadOnly, NoDecoy, false));
    var dialedR := madeR + [WrapCall(ReadOnly, NoDecoy, false)] + [DialCall(ReadOnly, NoDecoy, false)];
    CloseEventsSnoc(madeR + [WrapCall(ReadOnly, NoDecoy, false)], DialCall(ReadOnly, NoDecoy, false));
    CloseEventsSnoc(dialedR, YieldCall);
    if c.readerYield.Fail? {
      CloseEventsSnoc(dialedR + [YieldCall], Closed(ReadOnly, c.readerYield.err));
    }
  }

  /** The writer's stage closes the reader when the writer's wrap or dial
      fails, and the reader and then the writer when its acquire fails. */
  lemma WriterCloses(c: Collaborators)
    ensures CloseEvents(WriterTrace(c)) ==
      if c.writerWrap.Fail? then [Closed(ReadOnly, c.writerWrap.err)]
      else if c.writerDial.Fail? then [Closed(ReadOnly, c.writerDial.err)]
      else if c.writerAcquire.Fail? then [Closed(ReadOnly, c.writerAcquire.err), Closed(Upload, c.writerAcquire.err)]
      else []
  {
    var madeW := [MakeRawCall(HttpPostIncomplete)];
    assert madeW[1..] == [];
    var wrappedW := madeW + [WrapCall(Upload, c.readerDecoy, true)];
    CloseEventsSnoc(madeW, WrapCall(Upload, c.readerDecoy, true));
    if c.writerWrap.Fail? {
      CloseEventsSnoc(wrappedW, Closed(ReadOnly, c.writerWrap.err));
    } else {
      var dialedW := wrappedW + [DialCall(Upload, c.readerDecoy, true)];
      CloseEventsSnoc(wrappedW, DialCall(Upload, c.readerDecoy, true));
      if c.writerDial.Fail? {
        CloseEventsSnoc(dialedW, Closed(ReadOnly, c.writerDial.err));
      } else {
        var acquired := dialedW + [AcquireCall];
        CloseEventsSnoc(dialedW, AcquireCall);
        if c.writerAcquire.Fail? {
          var e := c.writerAcquire.err;
          CloseEventsSnoc(acquired, Closed(ReadOnly, e));
          CloseEventsSnoc(acquired + [Closed(ReadOnly, e)], Closed(Upload, e));
        }
      }
    }
  }

  /** Failure cleanup: the closes in a handshake's trace are exactly the
      cleanup owed for its first failing step. So an early failure (the
      reader's wrap or dial) closes nothing, a middle failure (yield, the
      writer's wrap or dial) closes only the reader, an acquire failure
      closes the reader and then the writer, and success closes nothing. */
  lemma {:induction false} HandshakeCleanup(c: Collaborators)
    ensures CloseEvents(HandshakeTrace(c)) == CleanupFor(c)
  {
    ReaderCloses(c);
    if ReaderReady(c) {
      WriterCloses(c);
      CloseEventsAppend(ReaderTrace(c), WriterTrace(c));
    } else {
      assert HandshakeTrace(c) == ReaderTrace(c);
    }
    match FirstFailure(c)
    case None =>
    case Some(k) =>
      var e := OutcomeOf(c, k).err;
      if k == WriterAcquire {
        assert CleanupFor(c) == [Closed(ReadOnly, e), Closed(Upload, e)];
      } else if k == ReaderYield || k == WriterWrap || k == WriterDial {
        assert CleanupFor(c) == [Closed(ReadOnly, e)];
      } else {
        assert CleanupFor(c) == [];
      }
  }

  /** The cleanup, case by case. Success and an early failure (the reader's
      wrap or dial) close nothing; a middle failure (the yield, the writer's
      wrap or dial) closes the reader once; a failed acquire closes the
      reader and then the writer. Every close carries the returned error. */
  lemma {:induction false} FailureCleanup(c: Collaborators)
    ensures FirstFailure(c) in {None, Some(ReaderWrap), Some(ReaderDial)}
        ==> CloseEvents(HandshakeTrace(c)) == []
    ensures FirstFailure(c) in {Some(ReaderYield), Some(WriterWrap), Some(WriterDial)}
        ==> CloseEvents(HandshakeTrace(c)) == [Closed(ReadOnly, HandshakeError(c).value)]
    ensures FirstFailure(c) == Some(WriterAcquire)
        ==> CloseEvents(HandshakeTrace(c)) == [Closed(ReadOnly, HandshakeError(c).value), Closed(Upload, HandshakeError(c).value)]
  {
    HandshakeCleanup(c);
    match FirstFailure(c)
    case None =>
    case Some(k) =>
      var e := OutcomeOf(c, k).err;
      var roles := DialedBefore(k);
      if k == WriterAcquire {
        assert roles == [ReadOnly, Upload];
      } else if k == ReaderYield || k == WriterWrap || k == WriterDial {
        assert roles == [ReadOnly];
      } else {
        assert roles == [];
      }
  }

  /** If marker y occurs in a and x does not, then in a + b every x comes after some y. */
  lemma AfterMarker(a: seq<Event>, b: seq<Event>, x: Event, y: Event)
    requires x !in a && y in a
    ensures forall i :: 0 <= i < |a + b| && (a + b)[i] == x ==> y in (a + b)[..i]
  {
    forall j | 0 <= j < |a|
      ensures (a + b)[j] != x
    {
      assert (a + b)[j] == a[j];
    }
    forall i | 0 <= i < |a + b| && (a + b)[i] == x
      ensures y in (a + b)[..i]
    {
      assert i >= |a|;
      assert (a + b)[..i][..|a|] == a;
    }
  }

  /** The writer raw flow is built only once the reader's yield has
      succeeded, and only after the yield call. */
  lemma WriterBuiltOnlyAfterYield(c: Collaborators)
    ensures MakeRawCall(HttpPostIncomplete) in HandshakeTrace(c)
        <==> c.readerWrap.Ok? && c.readerDial.Ok? && c.readerYield.Ok?
    ensures forall i :: (0 <= i < |HandshakeTrace(c)| && HandshakeTrace(c)[i] == MakeRawCall(HttpPostIncomplete)
        ==> YieldCall in HandshakeTrace(c)[..i])
  {
    var r := ReaderTrace(c);
    assert MakeRawCall(HttpPostIncomplete) !in r;
    if ReaderReady(c) {
      var w := WriterTrace(c);
      assert r == [MakeRawCall(HttpGetIncomplete)] + [WrapCall(ReadOnly, NoDecoy, false)]
                 + [DialCall(ReadOnly, NoDecoy, false)] + [YieldCall];
      assert YieldCall in r;
      assert w[0] == MakeRawCall(HttpPostIncomplete);
      AfterMarker(r, w, MakeRawCall(HttpPostIncomplete), YieldCall);
    } else {
      assert HandshakeTrace(c) == r;
    }
  }

  /** Decoy pinning: whenever the writer is wrapped or dialed, its raw flow
      already carries the decoy the reader's Dial chose, pinned. */
  lemma WriterDecoyPinned(c: Collaborators)
    ensures forall ev :: (ev in HandshakeTrace(c) && (ev.WrapCall? || ev.DialCall?) && ev.role == Upload
        ==> ev.decoy == c.readerDecoy && ev.pinned)
  {
    var r := ReaderTrace(c);
    var w := if ReaderReady(c) then WriterTrace(c) else [];
    assert forall ev :: ev in r && (ev.WrapCall? || ev.DialCall?) ==> ev.role == ReadOnly;
    assert forall ev :: ev in w && (ev.WrapCall? || ev.DialCall?) ==> ev.decoy == c.readerDecoy && ev.pinned;
    assert HandshakeTrace(c) == r + w;
  }

  function PairedPrefix(first: Role): string {
    match first
    case ReadOnly => "in paired readerConn: "
    case Upload => "in paired writerConn: "
  }

  /** The error the watcher puts on the partner of the flow that closed first:
      "in paired readerConn: " or "in paired writerConn: ", then the first
      flow's own error text. The role and the cause can be read back from it. */
  function PartnerClosedError(first: Role, cause: Error): (e: Error)
    ensures PartnerClosedCause(e) == Some((first, cause))
  {
    var e := Error(PairedPrefix(first) + cause.msg);
    assert e.msg[..|PairedPrefix(first)|] == PairedPrefix(first);
    assert e.msg[|PairedPrefix(first)|..] == cause.msg;
    assert PairedPrefix(ReadOnly)[10] != PairedPrefix(Upload)[10];
    e
  }

  /** Which flow closed first, and with what error, according to an error a
      watcher produced; None for an error no watcher produced. */
  function PartnerClosedCause(e: Error): Option<(Role, Error)> {
    var r := PairedPrefix(ReadOnly);
    var w := PairedPrefix(Upload);
    if |e.msg| >= |r| && e.msg[..|r|] == r then Some((ReadOnly, Error(e.msg[|r|..])))
    else if |e.msg| >= |w| && e.msg[..|w|] == w then Some((Upload, Error(e.msg[|w|..])))
    else None
  }
}
