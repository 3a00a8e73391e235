/** The signal supervisor of wrapper.go: a map from signals to handlers, a dispatch
    loop (wait) and Exec, which returns the first value written to the shared
    completion channel ww.err.

    Concurrency is replaced by traces. What wait's select receives is a sequence of
    events in the order they are received; what Exec's two writers do is that sequence
    with the moment the workload returns placed in it. */
module Wrapper {
  import opened Errors

  datatype OsSignal = SigHup | SigInt | SigQuit | SigUsr1 | SigUsr2 | SigTerm | OtherSignal(number: nat)

  type HandlerId = nat

  /** SignalHandlers: each signal is mapped to one handler. */
  type SignalHandlers = map<OsSignal, HandlerId>

  /** The Linux value of syscall.EINTR. */
  const EINTR: nat := 4

  /** Interrupt = syscall.EINTR: a handler result that stands for a clean stop. */
  const Interrupt: Error := Errno(EINTR)

  /** What signal.Notify(c, sigs...) subscribes c to: with no signal named, every
      incoming signal is relayed. */
  datatype Subscription = AllSignals | Only(signals: set<OsSignal>)

  /** The router ww, as far as wait and Exec use it. */
  datatype Router = Router(handlers: SignalHandlers, subscription: Subscription)

  predicate Distinct<T(==)>(s: seq<T>) {
    forall i, j :: 0 <= i < j < |s| ==> s[i] != s[j]
  }

  /** signals(handlers): the keys of the map, each once, in the map's iteration order. */
  method Signals(handlers: SignalHandlers) returns (handled: seq<OsSignal>)
    ensures |handled| == |handlers|
    ensures forall sig :: sig in handled <==> sig in handlers
    ensures Distinct(handled)
  {
    handled := [];
    var rest := handlers.Keys;
    while rest != {}
      invariant rest <= handlers.Keys
      invariant forall sig :: sig in handled <==> sig in handlers.Keys - rest
      invariant |handled| + |rest| == |handlers.Keys|
      invariant Distinct(handled)
      decreases rest
    {
      var sig :| sig in rest;
      assert sig !in handled;
      handled := handled + [sig];
      rest := rest - {sig};
    }
  }

  /** signal.Notify(c, sigs...). */
  function Notify(sigs: seq<OsSignal>): (sub: Subscription)
    ensures sigs == [] <==> sub == AllSignals
    ensures sigs != [] ==> forall sig :: sig in sub.signals <==> sig in sigs
  {
    if sigs == [] then AllSignals else Only(set sig | sig in sigs)
  }

  /** RegisterSignalHandlers(handlers): keeps the map and subscribes to its keys; an
      empty map names no signal, so every signal is relayed (and then ignored by wait). */
  method RegisterSignalHandlers(handlers: SignalHandlers) returns (ww: Router)
    ensures ww.handlers == handlers
    ensures |handlers| == 0 ==> ww.subscription == AllSignals
    ensures |handlers| > 0 ==> ww.subscription == Only(handlers.Keys)
  {
    var sigs := Signals(handlers);
    ww := Router(handlers, Notify(sigs));
    if |handlers| > 0 {
      assert ww.subscription.signals == handlers.Keys;
    }
  }

  /** What wait's select receives: the context is done, a signal arrives on ww.signal,
      or a dispatched handler writes a result to errCh. */
  datatype Event = CtxDone | Signal(sig: OsSignal) | HandlerResult(result: Option<Error>)

  /** One handler started by wait: `go handler(errCh)`. */
  datatype Dispatch = Dispatch(sig: OsSignal, handler: HandlerId)

  /** The value wait writes to ww.err for a non-nil handler result: nil when it is
      (or wraps) Interrupt, the error unchanged otherwise. */
  function Outcome(err: Error): (r: Option<Error>)
    ensures r.None? <==> Is(err, Interrupt)
    ensures r.Some? ==> r.value == err
  {
    if Is(err, Interrupt) then None else Some(err)
  }

  /** The events that make wait return: the context is done, or a non-nil handler result. */
  predicate Ends(e: Event) {
    e.CtxDone? || (e.HandlerResult? && e.result.Some?)
  }

  /** Where wait returns in a trace: the first ending event, or |trace| when there is none. */
  function FirstEnd(trace: seq<Event>): (k: nat)
    ensures k <= |trace|
    ensures forall i :: 0 <= i < k ==> !Ends(trace[i])
    ensures k < |trace| ==> Ends(trace[k])
  {
    if trace == [] then 0
    else if Ends(trace[0]) then 0
    else 1 + FirstEnd(trace[1..])
  }

  /** The first ending event is the one no earlier event ends before. */
  lemma FirstEndIs(trace: seq<Event>, k: nat)
    requires k <= |trace|
    requires forall j :: 0 <= j < k ==> !Ends(trace[j])
    requires k < |trace| ==> Ends(trace[k])
    ensures FirstEnd(trace) == k
  {
  }

  /** The handlers wait starts for the given events: one per registered signal, in order. */
  function Dispatches(h: SignalHandlers, events: seq<Event>): (r: seq<Dispatch>)
    ensures |r| <= |events|
    ensures forall d :: d in r ==> d.sig in h && d.handler == h[d.sig]
  {
    if events == [] then []
    else
      var last := events[|events| - 1];
      Dispatches(h, events[..|events| - 1]) +
        (if last.Signal? && last.sig in h then [Dispatch(last.sig, h[last.sig])] else [])
  }

  lemma {:induction false} DispatchesAppend(h: SignalHandlers, a: seq<Event>, b: seq<Event>)
    ensures Dispatches(h, a + b) == Dispatches(h, a) + Dispatches(h, b)
    decreases |b|
  {
    if b == [] {
      assert a + b == a;
    } else {
      var b' := b[..|b| - 1];
      assert (a + b)[..|a + b| - 1] == a + b';
      DispatchesAppend(h, a, b');
    }
  }

  /** One more event: it dispatches its handler when it is a registered signal. */
  lemma DispatchesSnoc(h: SignalHandlers, events: seq<Event>, i: nat)
    requires i < |events|
    ensures Dispatches(h, events[..i + 1]) == Dispatches(h, events[..i]) +
              (if events[i].Signal? && events[i].sig in h then [Dispatch(events[i].sig, h[events[i].sig])] else [])
  {
    assert events[..i + 1][..i] == events[..i];
  }

  /** A signal with no registered handler dispatches nothing. */
  lemma UnregisteredSignalIgnored(h: SignalHandlers, events: seq<Event>, sig: OsSignal)
    requires sig !in h
    ensures Dispatches(h, events + [Signal(sig)]) == Dispatches(h, events)
  {
  }

  /** Every arrival of a registered signal starts that signal's handler exactly once. */
  lemma {:induction false} DispatchedOncePerArrival(h: SignalHandlers, events: seq<Event>, sig: OsSignal)
    requires sig in h
    ensures multiset(Dispatches(h, events))[Dispatch(sig, h[sig])] == multiset(events)[Signal(sig)]
    decreases |events|
  {
    if events != [] {
      var init := events[..|events| - 1];
      assert events == init + [events[|events| - 1]];
      DispatchedOncePerArrival(h, init, sig);
    }
  }

  /** What wait did: the handlers it started, the value it wrote to ww.err (None: it
      wrote nothing; Some(None): it wrote nil) and the index of the event at which it
      returned (None: it is still waiting when the trace ends). */
  datatype WaitOutcome = WaitOutcome(dispatched: seq<Dispatch>, written: Option<Option<Error>>, returnedAt: Option<nat>)

  /** ww.wait(ctx) over the events its select receives. */
  method Wait(h: SignalHandlers, trace: seq<Event>) returns (o: WaitOutcome)
    ensures var k := FirstEnd(trace);
            o.dispatched == Dispatches(h, trace[..k]) &&
            o.returnedAt == (if k < |trace| then Some(k) else None) &&
            o.written == (if k < |trace| && trace[k].HandlerResult? then Some(Outcome(trace[k].result.value)) else None)
  {
    var dispatched: seq<Dispatch> := [];
    var i := 0;
    while i < |trace|
      invariant 0 <= i <= |trace|
      invariant forall j :: 0 <= j < i ==> !Ends(trace[j])
      invariant dispatched == Dispatches(h, trace[..i])
    {
      match trace[i] {
        case CtxDone =>
          FirstEndIs(trace, i);
          return WaitOutcome(dispatched, None, Some(i));
        case HandlerResult(err) =>
          if err.Some? {
            var v: Option<Error> := err;
            if Is(err.value, Interrupt) {
              v := None;
            }
            FirstEndIs(trace, i);
            return WaitOutcome(dispatched, Some(v), Some(i));
          }
          DispatchesSnoc(h, trace, i);
        case Signal(sig) =>
          DispatchesSnoc(h, trace, i);
          if sig in h {
            dispatched := dispatched + [Dispatch(sig, h[sig])];
          }
      }
      i := i + 1;
    }
    assert trace[..i] == trace;
    FirstEndIs(trace, i);
    return WaitOutcome(dispatched, None, None);
  }

  /** Only a handler wait started can write to errCh: a handler result is received only
      after some handler has been dispatched. */
  ghost predicate ResultsAfterDispatch(h: SignalHandlers, events: seq<Event>) {
    forall i :: 0 <= i < |events| && events[i].HandlerResult? ==> Dispatches(h, events[..i]) != []
  }

  lemma {:induction false} NoRegisteredSignalNoDispatch(h: SignalHandlers, events: seq<Event>)
    requires forall i :: 0 <= i < |events| && events[i].Signal? ==> events[i].sig !in h
    ensures Dispatches(h, events) == []
    decreases |events|
  {
    if events != [] {
      var init := events[..|events| - 1];
      assert forall i :: 0 <= i < |init| ==> init[i] == events[i];
      NoRegisteredSignalNoDispatch(h, init);
    }
  }

  /** With no registered signal among the events, no handler runs, so no handler result
      arrives and wait can only end on the context. */
  lemma NoHandlerNoResult(h: SignalHandlers, events: seq<Event>)
    requires ResultsAfterDispatch(h, events)
    requires forall i :: 0 <= i < |events| && events[i].Signal? ==> events[i].sig !in h
    ensures forall i :: 0 <= i < |events| ==> !events[i].HandlerResult?
  {
    forall i | 0 <= i < |events|
      ensures !events[i].HandlerResult?
    {
      NoRegisteredSignalNoDispatch(h, events[..i]);
    }
  }

  type Workload = nat

  /** What happens while Exec blocks: an event that wait receives, or the workload
      returning (exec writes its result to ww.err). */
  datatype ExecEvent = Loop(event: Event) | WorkloadReturned(result: Option<Error>)

  /** The events wait receives before the workload returns. */
  function LoopPrefix(trace: seq<ExecEvent>): (r: seq<Event>)
    ensures |r| <= |trace|
    ensures forall i :: 0 <= i < |r| ==> trace[i] == Loop(r[i])
    ensures |r| < |trace| ==> trace[|r|].WorkloadReturned?
  {
    if trace == [] || trace[0].WorkloadReturned? then []
    else [trace[0].event] + LoopPrefix(trace[1..])
  }

  /** What Exec did: what it returned (Blocked while nothing reached ww.err), whether it
      started the loop and the workload, the handlers started before it returned, and
      whether the cleanup Exec defers before its nil check (cancelFn and signal.Stop)
      ran on the way out. Go's defer guarantees the last two; the model sets them at
      each return to record that both return paths pass through the cleanup. */
  datatype ExecOutcome = ExecOutcome(
    result: Completion,
    loopStarted: bool,
    workloadStarted: bool,
    dispatched: seq<Dispatch>,
    cancelled: bool,
    unsubscribed: bool)

  /** ww.Exec(ctx, fn), with fn's nil-ness given by fn.None?. The trace is one the
      program can produce: only handlers wait dispatched write to errCh. */
  method Exec(ww: Router, fn: Option<Workload>, trace: seq<ExecEvent>) returns (o: ExecOutcome)
    requires ResultsAfterDispatch(ww.handlers, LoopPrefix(trace))
    ensures o.cancelled && o.unsubscribed
    ensures fn.None? ==> o == ExecOutcome(Returned(None), false, false, [], true, true)
    ensures fn.Some? ==> o.loopStarted && o.workloadStarted
    ensures fn.Some? ==>
              var loop := LoopPrefix(trace); var k := FirstEnd(loop);
              o.dispatched == Dispatches(ww.handlers, loop[..k]) &&
              o.result == (if k < |loop| && loop[k].HandlerResult? then Returned(Outcome(loop[k].result.value))
                           else if |loop| < |trace| then Returned(trace[|loop|].result)
                           else Blocked)
    // with no handler to run, only the workload can end Exec
    ensures fn.Some? && (forall i :: 0 <= i < |trace| && trace[i].Loop? && trace[i].event.Signal? ==>
                                       trace[i].event.sig !in ww.handlers) ==>
              var loop := LoopPrefix(trace);
              o.result == if |loop| < |trace| then Returned(trace[|loop|].result) else Blocked
  {
    if fn.None? {
      // the deferred cleanup runs
      return ExecOutcome(Returned(None), false, false, [], true, true);
    }
    var loop := LoopPrefix(trace);
    if forall i :: 0 <= i < |trace| && trace[i].Loop? && trace[i].event.Signal? ==> trace[i].event.sig !in ww.handlers {
      NoHandlerNoResult(ww.handlers, loop);
    }
    var w := Wait(ww.handlers, loop);
    var result: Completion;
    if w.written.Some? {
      result := Returned(w.written.value);
    } else if |loop| < |trace| {
      result := Returned(trace[|loop|].result);
    } else {
      result := Blocked;
    }
    // the deferred cleanup runs
    return ExecOutcome(result, true, true, w.dispatched, true, true);
  }

  /** The signal sequence of the package's example: SIGHUP and SIGUSR1 only log,
      SIGTERM's handler is still sleeping when SIGINT's handler writes Interrupt, and
      Exec returns nil after starting all four handlers. */
  method ExampleSignalSequence() {
    var h: SignalHandlers := map[SigHup := 1, SigUsr1 := 2, SigTerm := 3, SigInt := 4];
    var ww := RegisterSignalHandlers(h);
    var trace := [Loop(Signal(SigHup)), Loop(Signal(SigUsr1)), Loop(Signal(SigTerm)),
                  Loop(Signal(SigInt)), Loop(HandlerResult(Some(Interrupt)))];
    ghost var loop := LoopPrefix(trace);
    assert |loop| == 5;
    assert loop == [Signal(SigHup), Signal(SigUsr1), Signal(SigTerm), Signal(SigInt), HandlerResult(Some(Interrupt))];
    ExampleSignalSequenceWaits(h, loop);
    var o := Exec(ww, Some(0), trace);
    assert o.result == Returned(None);
    assert o.dispatched == [Dispatch(SigHup, 1), Dispatch(SigUsr1, 2), Dispatch(SigTerm, 3), Dispatch(SigInt, 4)];
  }

  /** What wait does with the example's events: it starts the four handlers and returns
      at the fifth event, the interrupt SIGINT's handler writes. */
  lemma ExampleSignalSequenceWaits(h: SignalHandlers, loop: seq<Event>)
    requires h == map[SigHup := 1, SigUsr1 := 2, SigTerm := 3, SigInt := 4]
    requires loop == [Signal(SigHup), Signal(SigUsr1), Signal(SigTerm), Signal(SigInt), HandlerResult(Some(Interrupt))]
    ensures FirstEnd(loop) == 4
    ensures Dispatches(h, loop[..4]) == [Dispatch(SigHup, 1), Dispatch(SigUsr1, 2), Dispatch(SigTerm, 3), Dispatch(SigInt, 4)]
    ensures ResultsAfterDispatch(h, loop)
  {
    FirstEndIs(loop, 4);
    ExampleSignalSequenceDispatches(h, loop[..4]);
    forall i | 0 <= i < |loop| && loop[i].HandlerResult?
      ensures Dispatches(h, loop[..i]) != []
    {
      assert i == 4;
    }
  }

  lemma ExampleSignalSequenceDispatches(h: SignalHandlers, signals: seq<Event>)
    requires h == map[SigHup := 1, SigUsr1 := 2, SigTerm := 3, SigInt := 4]
    requires signals == [Signal(SigHup), Signal(SigUsr1), Signal(SigTerm), Signal(SigInt)]
    ensures Dispatches(h, signals) == [Dispatch(SigHup, 1), Dispatch(SigUsr1, 2), Dispatch(SigTerm, 3), Dispatch(SigInt, 4)]
  {
    var d1, d2, d3 := Dispatch(SigHup, 1), Dispatch(SigUsr1, 2), Dispatch(SigTerm, 3);
    assert signals[..1][..0] == [];
    assert Dispatches(h, signals[..1]) == [d1];
    assert signals[..2][..1] == signals[..1];
    assert Dispatches(h, signals[..2]) == [d1, d2];
    assert signals[..3][..2] == signals[..2];
    assert Dispatches(h, signals[..3]) == [d1, d2, d3];
    assert signals[..3] == signals[..|signals| - 1];
  }

  /** The "empty" and "no signal" cases of the package's Exec test. */
  method ExampleExecCases() {
    var ww := RegisterSignalHandlers(map[]);
    var empty := Exec(ww, None, []);
    assert empty.result == Returned(None);
    var ww' := RegisterSignalHandlers(map[SigHup := 1]);
    var noSignal := Exec(ww', Some(0), [WorkloadReturned(None)]);
    assert noSignal.result == Returned(None);
  }
}
