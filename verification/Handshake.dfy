/** The connect and stream protocol (async.go, streamer.go): the caller's select, the round-trip goroutine, Stream and
    its two copiers, over an unbuffered connection channel, a closed-once done channel and two channels of capacity 1.
    A run is any sequence of events; each event is one atomic step of one goroutine. */
module Handshake {

  /** asyncSubresourceHelper: waiting in select, then returned. */
  datatype Helper = Selecting | GotConnection | GotError

  /** The goroutine that runs RoundTrip. */
  datatype RoundTrip =
    | Dialing
    | Offering      // blocked on Connection <- ws
    | AwaitingDone  // blocked on <-Done
    | Reporting     // RoundTrip returned; about to send on errChan
    | Finished

  datatype Copier = Idle | Copying | Stopped /* about to send on copyErr */ | Sent

  /** One call of Stream: waiting for a copier, then closing done, then returned. */
  datatype Streamer = NotCalled | Waiting | Closing | Returned

  datatype State = State(
    helper: Helper, trip: RoundTrip, dialled: bool, connOpen: bool, errChan: nat, doneClosed: nat,
    streamer: Streamer, copier1: Copier, copier2: Copier, copyErr: nat)

  const START := State(Selecting, Dialing, false, false, 0, 0, NotCalled, Idle, Idle, 0)

  datatype Event =
    | DialFails | DialSucceeds
    | HandOver         // the rendezvous on Connection, with the helper in its select
    | DoneSeen         // <-Done returns; the deferred conn.Close runs
    | SendResult       // errChan <- err
    | ReceiveError     // the helper's select takes errChan
    | CallStream       // the caller, once it holds the connection
    | CopierStops(first: bool)  // a copy ends: end of input, closure or error
    | CopierSends(first: bool)  // copyErr <- err
    | ReceiveCopyErr   // <-copyErr
    | CloseDone        // deferred streamDone

  const CAPACITY: nat := 1

  function WithCopier(s: State, first: bool, c: Copier): State {
    if first then s.(copier1 := c) else s.(copier2 := c)
  }

  function CopierOf(s: State, first: bool): Copier {
    if first then s.copier1 else s.copier2
  }

  predicate Enabled(s: State, e: Event) {
    match e
    case DialFails => s.trip == Dialing
    case DialSucceeds => s.trip == Dialing
    case HandOver => s.trip == Offering && s.helper == Selecting
    case DoneSeen => s.trip == AwaitingDone && s.doneClosed > 0
    case SendResult => s.trip == Reporting && s.errChan < CAPACITY
    case ReceiveError => s.helper == Selecting && s.errChan > 0
    case CallStream => s.helper == GotConnection && s.streamer == NotCalled
    case CopierStops(first) => CopierOf(s, first) == Copying
    case CopierSends(first) => CopierOf(s, first) == Stopped && s.copyErr < CAPACITY
    case ReceiveCopyErr => s.streamer == Waiting && s.copyErr > 0
    case CloseDone => s.streamer == Closing
  }

  function Step(s: State, e: Event): State
    requires Enabled(s, e)
  {
    match e
    case DialFails => s.(trip := Reporting)
    case DialSucceeds => s.(trip := Offering, dialled := true, connOpen := true)
    case HandOver => s.(trip := AwaitingDone, helper := GotConnection)
    case DoneSeen => s.(trip := Reporting, connOpen := false)
    case SendResult => s.(trip := Finished, errChan := s.errChan + 1)
    case ReceiveError => s.(helper := GotError, errChan := s.errChan - 1)
    case CallStream => s.(streamer := Waiting, copier1 := Copying, copier2 := Copying)
    case CopierStops(first) => WithCopier(s, first, Stopped)
    case CopierSends(first) => WithCopier(s, first, Sent).(copyErr := s.copyErr + 1)
    case ReceiveCopyErr => s.(streamer := Closing, copyErr := s.copyErr - 1)
    case CloseDone => s.(streamer := Returned, doneClosed := s.doneClosed + 1)
  }

  predicate IsRun(s: State, events: seq<Event>)
    decreases |events|
  {
    events == [] || (Enabled(s, events[0]) && IsRun(Step(s, events[0]), events[1..]))
  }

  function After(s: State, events: seq<Event>): State
    requires IsRun(s, events)
    decreases |events|
  {
    if events == [] then s else After(Step(s, events[0]), events[1..])
  }

  function Bit(b: bool): nat {
    if b then 1 else 0
  }

  /** What every reachable state satisfies. */
  predicate Inv(s: State) {
    && (s.dialled <==> s.trip == Offering || s.helper == GotConnection)
    && (s.helper == GotConnection ==> s.dialled && s.trip != Offering && s.trip != Dialing)
    && (s.helper == GotError ==> !s.dialled && s.trip == Finished)
    && (s.trip == AwaitingDone ==> s.helper == GotConnection)
    && (s.connOpen <==> s.trip == Offering || s.trip == AwaitingDone)
    && s.errChan == Bit(s.trip == Finished && s.helper != GotError)
    && s.doneClosed == Bit(s.streamer == Returned)
    && (s.streamer != NotCalled ==> s.helper == GotConnection)
    && (s.dialled && (s.trip == Reporting || s.trip == Finished) ==> s.doneClosed > 0)
    && (s.streamer == NotCalled <==> s.copier1 == Idle) && (s.streamer == NotCalled <==> s.copier2 == Idle)
    && s.copyErr + Bit(s.streamer == Closing || s.streamer == Returned)
       == Bit(s.copier1 == Sent) + Bit(s.copier2 == Sent)
  }

  lemma StepKeepsInv(s: State, e: Event)
    requires Inv(s) && Enabled(s, e)
    ensures Inv(Step(s, e))
  {
  }

  lemma {:induction false} RunKeepsInv(s: State, events: seq<Event>)
    requires Inv(s) && IsRun(s, events)
    ensures Inv(After(s, events))
    decreases |events|
  {
    if events != [] {
      StepKeepsInv(s, events[0]);
      RunKeepsInv(Step(s, events[0]), events[1..]);
    }
  }

  function Count(events: seq<Event>, e: Event): nat {
    if events == [] then 0 else Bit(events[0] == e) + Count(events[1..], e)
  }

  lemma ResultStep(s: State, e: Event)
    requires Enabled(s, e)
    ensures Bit(e == HandOver) + Bit(e == ReceiveError)
            == Bit(s.helper == Selecting && Step(s, e).helper != Selecting)
    ensures Step(s, e).helper == GotConnection <==> s.helper == GotConnection || e == HandOver
    ensures s.helper != Selecting ==> Step(s, e).helper == s.helper
    ensures Bit(e == CloseDone) == Bit(s.streamer != Returned && Step(s, e).streamer == Returned)
    ensures s.streamer == Returned ==> Step(s, e).streamer == Returned
  {
  }

  /** The caller gets exactly one of connection and error: once it has returned it holds one of them, and in no run
      are there two hand-overs, or a hand-over and an error. */
  lemma {:induction false} OneResult(s: State, events: seq<Event>)
    requires IsRun(s, events)
    ensures Count(events, HandOver) + Count(events, ReceiveError) ==
            Bit(s.helper == Selecting && After(s, events).helper != Selecting)
    ensures After(s, events).helper == GotConnection <==> s.helper == GotConnection || Count(events, HandOver) == 1
    ensures s.helper != Selecting ==> After(s, events).helper == s.helper
    decreases |events|
  {
    if events != [] {
      var next := Step(s, events[0]);
      ResultStep(s, events[0]);
      OneResult(next, events[1..]);
      assert Count(events, HandOver) == Bit(events[0] == HandOver) + Count(events[1..], HandOver);
      assert Count(events, ReceiveError) == Bit(events[0] == ReceiveError) + Count(events[1..], ReceiveError);
      assert After(s, events) == After(next, events[1..]);
    }
  }

  /** `done` is closed at most once, and exactly once when Stream has returned. */
  lemma {:induction false} DoneClosedOnce(s: State, events: seq<Event>)
    requires IsRun(s, events)
    ensures Count(events, CloseDone) == Bit(s.streamer != Returned && After(s, events).streamer == Returned)
    ensures s.streamer == Returned ==> After(s, events).streamer == Returned
    decreases |events|
  {
    if events != [] {
      ResultStep(s, events[0]);
      DoneClosedOnce(Step(s, events[0]), events[1..]);
    }
  }

  /** A dialled connection is closed only after `done` is closed. */
  lemma ClosedAfterDone(events: seq<Event>)
    requires IsRun(START, events)
    ensures var s := After(START, events); s.dialled && !s.connOpen ==> s.doneClosed == 1
  {
    RunKeepsInv(START, events);
  }

  /** The goroutine wants to send and could be blocked. */
  predicate WantsToSend(s: State, e: Event) {
    match e
    case SendResult => s.trip == Reporting
    case CopierSends(first) => CopierOf(s, first) == Stopped
    case HandOver => s.trip == Offering
    case _ => false
  }

  /** No send blocks for ever. The error channel always has room, as its only send comes once. The connection is
      taken as soon as it is offered. Once Stream has taken its one result there is room for the other copier's; before
      that, a full channel means that Stream can receive. */
  lemma NoSendBlocks(events: seq<Event>, e: Event)
    requires IsRun(START, events) && WantsToSend(After(START, events), e)
    ensures var s := After(START, events);
      || Enabled(s, e)
      || (e.CopierSends? && s.streamer == Waiting && Enabled(s, ReceiveCopyErr)
          && Enabled(Step(s, ReceiveCopyErr), e))
    ensures After(START, events).streamer == Returned ==> Enabled(After(START, events), e)
  {
    RunKeepsInv(START, events);
  }

  /** Everything still to happen, with the two that depend on the outside (dialling, copying) and the caller's own
      decision to stream left out. */
  predicate Stuck(s: State) {
    && !Enabled(s, HandOver) && !Enabled(s, DoneSeen) && !Enabled(s, SendResult) && !Enabled(s, ReceiveError)
    && !Enabled(s, CopierSends(true)) && !Enabled(s, CopierSends(false))
    && !Enabled(s, ReceiveCopyErr) && !Enabled(s, CloseDone)
  }

  /** No deadlock: when nothing can move by itself, the protocol is dialling, waiting for the caller to stream, waiting
      for both copies, or over: then the connection is closed, and only a copy that has not ended may be left. Unless
      it is still dialling, the caller has got exactly one result. */
  lemma NoDeadlock(events: seq<Event>)
    requires IsRun(START, events) && Stuck(After(START, events))
    ensures var s := After(START, events);
      || s.trip == Dialing
      || (s.helper == GotConnection && s.streamer == NotCalled && s.trip == AwaitingDone && s.connOpen)
      || (s.streamer == Waiting && s.copier1 == Copying && s.copier2 == Copying && s.connOpen)
      || (s.trip == Finished && s.helper == GotError && !s.dialled)
      || (s.trip == Finished && s.streamer == Returned && !s.connOpen && s.doneClosed == 1
          && s.copier1 != Stopped && s.copier2 != Stopped)
    ensures After(START, events).trip != Dialing ==> Count(events, HandOver) + Count(events, ReceiveError) == 1
  {
    RunKeepsInv(START, events);
    OneResult(START, events);
  }

  // ---------------------------------------------------------------- the protocol ends

  function CopierWork(c: Copier): nat {
    match c
    case Idle => 3
    case Copying => 2
    case Stopped => 1
    case Sent => 0
  }

  /** The most events that can still happen. */
  function Work(s: State): nat {
    (match s.trip case Dialing => 4 case Offering => 3 case AwaitingDone => 2 case Reporting => 1 case Finished => 0)
    + (match s.streamer case NotCalled => 3 case Waiting => 2 case Closing => 1 case Returned => 0)
    + (if s.helper == Selecting then 1 else 0) + CopierWork(s.copier1) + CopierWork(s.copier2)
  }

  lemma StepDoesWork(s: State, e: Event)
    requires Inv(s) && Enabled(s, e)
    ensures Work(Step(s, e)) < Work(s)
  {
  }

  /** No run is longer than this, so with NoDeadlock every run that goes on as long as it can ends in one of the
      states named there. */
  lemma {:induction false} RunsAreBounded(s: State, events: seq<Event>)
    requires Inv(s) && IsRun(s, events)
    ensures |events| + Work(After(s, events)) <= Work(s)
    decreases |events|
  {
    if events != [] {
      var next := Step(s, events[0]);
      StepKeepsInv(s, events[0]);
      StepDoesWork(s, events[0]);
      RunsAreBounded(next, events[1..]);
    }
  }
}
