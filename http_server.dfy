/** The HTTP listener builder of http_server.go: a configuration record filled in by an
    ordered list of fallible steps, then started (one server per listener) and stopped
    (listeners closed, servers shut down, errors collected and joined).

    Operating-system calls are oracles: a World says whether net.Listen succeeds for a
    network and address and what each inherited descriptor turns out to be; stop takes
    the outcome of every Close and Shutdown call as a function of the listener index. */
module Http {
  import opened Errors

  type int64 = x: int | -0x8000_0000_0000_0000 <= x < 0x8000_0000_0000_0000
  type int32 = x: int | -0x8000_0000 <= x < 0x8000_0000

  const UintptrModulus: int := 0x1_0000_0000_0000_0000

  /** The first descriptor a service manager passes (sd_listen_fds(3)). */
  const SdListenFdsStart: nat := 3

  /** Go's conversion uintptr(x) on a 64-bit platform: a negative value wraps. */
  function Uintptr(x: int): (r: nat)
    ensures r < UintptrModulus
    ensures 0 <= x < UintptrModulus ==> r == x
    ensures -UintptrModulus <= x < 0 ==> r == x + UintptrModulus
  {
    x % UintptrModulus
  }

  /** A Go slice: nil, or made (possibly empty). */
  datatype GoSlice<T> = Nil | Made(items: seq<T>) {
    function Items(): seq<T> {
      if Nil? then [] else items
    }

    /** append(s, x): never nil, and x follows the old elements. */
    function Append(x: T): (r: GoSlice<T>)
      ensures r.Made? && r.Items() == Items() + [x]
    {
      Made(Items() + [x])
    }
  }

  type HandlerRef = nat

  datatype Network = Tcp | Unix

  /** A listener, identified by how it was obtained. */
  datatype Listener = Bound(network: Network, addr: string) | Inherited(fd: nat)

  /** One entry of c.s, with whether its listener is served with TLS. */
  datatype Server = Server(listener: Listener, handler: Option<HandlerRef>, writeTimeout: int64, tls: bool)

  /** A context as stop sees it: still pending, or done with ctx.Err(). */
  datatype Context = Pending | Ended(err: Error)

  /** What os.NewFile(fd).Stat() and net.FileListener report for one inherited descriptor. */
  datatype FdProbe = StatFailed(err: Error) | NotSocket | FileListenerFailed(err: Error) | Socket

  /** The outcomes of the operating-system calls the steps make when they run. */
  datatype World = World(listen: (Network, string) -> Option<Error>, probe: nat -> FdProbe)

  /** The fields of the configuration record c. */
  datatype State = State(
    handler: Option<HandlerRef>,
    listeners: GoSlice<Listener>,
    servers: seq<Server>,
    writeTimeout: int64,
    cert: string,
    key: string)

  /** HttpServer's starting record: c{l: make([]net.Listener, 0)}. */
  const Initial: State := State(None, Made([]), [], 0, "", "")

  /** A SetFn, as the closure its constructor returned. WithTLSCert and OnSystemd decide
      when they are called which closure to return, so they are functions below. */
  datatype Step =
    | WriteWait(d: int64)
    | OnTCP(addr: string)
    | SetCert(cert: string, key: string)
    | Handler(h: Option<HandlerRef>)
    | OnSocket(path: string)
    | ListenFds(start: nat, limit: nat)
    | Fail(err: Error)

  datatype StepResult = StepResult(state: State, err: Option<Error>)

  /** The address OnTCP listens on. */
  function TcpAddress(addr: string, cert: string, key: string): (r: string)
    ensures addr != "" ==> r == addr
    ensures addr == "" ==> (r == ":https" <==> |key| + |cert| > 0)
    ensures addr == "" ==> (r == ":http" <==> |key| + |cert| == 0)
  {
    if addr != "" then addr
    else if |key| + |cert| > 0 then ":https"
    else ":http"
  }

  /** WithTLSCert(cert, key), given what fileExists reports for each path. */
  function WithTLSCert(cert: string, key: string, certExists: bool, keyExists: bool): (s: Step)
    ensures !certExists ==> s == Fail(InvalidCertificate(cert))
    ensures certExists && !keyExists ==> s == Fail(InvalidKey(key))
    ensures certExists && keyExists ==> s == SetCert(cert, key)
  {
    if !certExists then Fail(InvalidCertificate(cert))
    else if !keyExists then Fail(InvalidKey(key))
    else SetCert(cert, key)
  }

  /** OnSystemd(), given what strconv.Atoi makes of LISTEN_FDS and what
      strconv.ParseInt(_, 10, 32) makes of SD_LISTEN_FDS_START (None: a parse error). */
  function OnSystemd(listenFds: Option<int64>, fdStart: Option<int32>): (s: Step)
    ensures listenFds.None? || listenFds.value <= 0 ==> s == Fail(NotSocketActivated)
    ensures listenFds.Some? && listenFds.value > 0 && fdStart.None? ==>
              s == ListenFds(SdListenFdsStart, listenFds.value)
    ensures listenFds.Some? && listenFds.value > 0 && fdStart.Some? ==>
              s == ListenFds(Uintptr(fdStart.value), listenFds.value)
  {
    if listenFds.None? || listenFds.value <= 0 then Fail(NotSocketActivated)
    else
      var start := if fdStart.Some? then Uintptr(fdStart.value) else SdListenFdsStart;
      ListenFds(start, Uintptr(listenFds.value))
  }

  /** net.Listen(network, addr) run against c: it returns what net.Listen reports; on
      success the new listener follows the old ones and the slice is no longer nil, on
      failure c is left as it was. Nothing but the listener slice changes. */
  function Listen(s: State, network: Network, addr: string, w: World): (r: StepResult)
    ensures r.err == w.listen(network, addr)
    ensures r.state == s.(listeners := r.state.listeners)
    ensures r.err.None? ==>
              r.state.listeners.Made? && r.state.listeners.Items() == s.listeners.Items() + [Bound(network, addr)]
    ensures r.err.Some? ==> r.state == s
  {
    match w.listen(network, addr)
    case Some(e) => StepResult(s, Some(e))
    case None => StepResult(s.(listeners := s.listeners.Append(Bound(network, addr))), None)
  }

  /** The error the descriptor loop returns for a descriptor that is not a usable socket:
      the Stat or FileListener error as reported, and the "not socket activated" error
      for a descriptor that is not a socket. */
  function ProbeError(p: FdProbe): (r: Error)
    requires !p.Socket?
    ensures p.NotSocket? ==> r == NotSocketActivated
    ensures p.StatFailed? || p.FileListenerFailed? ==> r == p.err
  {
    match p
    case StatFailed(e) => e
    case NotSocket => NotSocketActivated
    case FileListenerFailed(e) => e
  }

  /** added holds Inherited(i), Inherited(i + 1), ... in order, each a socket. */
  ghost predicate InheritedInOrder(added: seq<Listener>, i: nat, probe: nat -> FdProbe) {
    forall k :: 0 <= k < |added| ==> added[k] == Inherited(i + k) && probe(i + k).Socket?
  }

  /** The descriptor loop of OnSystemd's closure, from descriptor i on (the loop
      `for i := start; i < nfds; i++`). */
  function InheritFrom(s: State, i: nat, limit: nat, probe: nat -> FdProbe): (r: StepResult)
    decreases limit - i
    ensures r.state == s.(listeners := r.state.listeners)
    ensures s.listeners.Made? ==> r.state.listeners.Made?
    ensures |s.listeners.Items()| <= |r.state.listeners.Items()|
    ensures r.state.listeners.Items()[..|s.listeners.Items()|] == s.listeners.Items()
  {
    if i >= limit then StepResult(s, None)
    else if !probe(i).Socket? then StepResult(s, Some(ProbeError(probe(i))))
    else
      var s' := s.(listeners := s.listeners.Append(Inherited(i)));
      var r := InheritFrom(s', i + 1, limit, probe);
      assert r.state.listeners.Items()[..|s.listeners.Items()|]
          == r.state.listeners.Items()[..|s'.listeners.Items()|][..|s.listeners.Items()|];
      r
  }

  /** The descriptor loop appends one Inherited listener per socket, in increasing
      descriptor order, at most limit - i of them; the first descriptor that is not a
      usable socket ends the step with its error and keeps what was appended before. */
  lemma {:induction false} InheritFromShape(s: State, i: nat, limit: nat, probe: nat -> FdProbe)
    ensures var r := InheritFrom(s, i, limit, probe);
            var added := r.state.listeners.Items()[|s.listeners.Items()|..];
            InheritedInOrder(added, i, probe) &&
            (i < limit ==> |added| <= limit - i) && (limit <= i ==> added == []) &&
            (r.err.None? <==> i + |added| >= limit) &&
            (r.err.Some? ==> !probe(i + |added|).Socket? && r.err.value == ProbeError(probe(i + |added|)))
    decreases limit - i
  {
    if i < limit && probe(i).Socket? {
      var s' := s.(listeners := s.listeners.Append(Inherited(i)));
      InheritFromShape(s', i + 1, limit, probe);
      var before, mid := s.listeners.Items(), s'.listeners.Items();
      assert InheritFrom(s, i, limit, probe) == InheritFrom(s', i + 1, limit, probe);
      var after := InheritFrom(s', i + 1, limit, probe).state.listeners.Items();
      assert mid == before + [Inherited(i)];
      assert after[..|mid|] == mid;
      var added, tail := after[|before|..], after[|mid|..];
      assert added == [Inherited(i)] + tail;
      forall k | 0 <= k < |added| ensures added[k] == Inherited(i + k) && probe(i + k).Socket? {
        if k > 0 {
          assert added[k] == tail[k - 1];
        }
      }
    }
  }

  /** What running one step does to c, and the error it returns. No setter touches the
      server list, and a failing setter other than the descriptor loop (which keeps the
      descriptors it inherited before the failure) leaves c exactly as it was. */
  function ApplyStep(s: State, step: Step, w: World): (r: StepResult)
    ensures r.state.servers == s.servers
    ensures r.err.Some? && !step.ListenFds? ==> r.state == s
    ensures step.Fail? ==> r.err == Some(step.err)
  {
    match step
    case WriteWait(d) => StepResult(s.(writeTimeout := d), None)
    case OnTCP(addr) => Listen(s, Tcp, TcpAddress(addr, s.cert, s.key), w)
    case SetCert(cert, key) => StepResult(s.(key := key, cert := cert), None)
    case Handler(h) => StepResult(s.(handler := h), None)
    case OnSocket(path) => Listen(s, Unix, path, w)
    case ListenFds(start, limit) => InheritFrom(s, start, limit, w.probe)
    case Fail(e) => StepResult(s, Some(e))
  }

  datatype RunResult = Stopped(at: nat, err: Error) | Completed(state: State)

  /** HttpServer's loop over its setters: in order, stopping at the first error. A stop
      names the index of a step that exists, and the steps never fill in the servers. */
  function Run(s: State, steps: seq<Step>, w: World): (r: RunResult)
    decreases |steps|
    ensures r.Stopped? ==> r.at < |steps|
    ensures r.Completed? ==> r.state.servers == s.servers
    ensures steps == [] ==> r == Completed(s)
  {
    if steps == [] then Completed(s)
    else
      var r := ApplyStep(s, steps[0], w);
      if r.err.Some? then Stopped(0, r.err.value)
      else
        match Run(r.state, steps[1..], w)
        case Stopped(k, e) => Stopped(k + 1, e)
        case Completed(t) => Completed(t)
  }

  datatype BuildResult = BuildFailed(err: Error) | BuildLive(state: State)

  /** What HttpServer returns: failing start/stop functions, or start and stop of c. A
      live record is the one every step completed on, with a non-nil listener slice and
      no server yet; a failure carries the error of a failed step or the "no listeners"
      error. */
  function Build(steps: seq<Step>, w: World): (r: BuildResult)
    ensures r.BuildLive? ==>
              Run(Initial, steps, w) == Completed(r.state) && r.state.listeners.Made? && r.state.servers == []
    ensures r.BuildFailed? ==>
              (Run(Initial, steps, w).Stopped? && r.err == Run(Initial, steps, w).err) || r.err == NoListeners
  {
    match Run(Initial, steps, w)
    case Stopped(_, e) => BuildFailed(e)
    case Completed(t) => if t.listeners.Nil? then BuildFailed(NoListeners) else BuildLive(t)
  }

  /** errStartFn(err): a start function that yields err whatever the context. */
  function ErrStartFn(err: Error): (start: Context -> Option<Error>)
    ensures forall ctx :: start(ctx) == Some(err)
  {
    ctx => Some(err)
  }

  /** emptyStopFn: a stop function that yields nil. */
  function EmptyStopFn(ctx: Context): (r: Option<Error>)
    ensures r.None?
  {
    None
  }

  /** Running a list of steps after another: the second list runs only when every
      step of the first succeeded, and starts from the state the first left. */
  lemma {:induction false} RunAppend(s: State, a: seq<Step>, b: seq<Step>, w: World)
    ensures Run(s, a + b, w) ==
      match Run(s, a, w)
      case Stopped(k, e) => Stopped(k, e)
      case Completed(t) =>
        match Run(t, b, w)
        case Stopped(k, e) => Stopped(|a| + k, e)
        case Completed(u) => Completed(u)
    decreases |a|
  {
    if a == [] {
      assert a + b == b;
    } else {
      assert (a + b)[0] == a[0];
      assert (a + b)[1..] == a[1..] + b;
      var r := ApplyStep(s, a[0], w);
      if r.err.None? {
        RunAppend(r.state, a[1..], b, w);
      }
    }
  }

  /** One more step after a completed prefix. */
  lemma RunSnoc(s: State, a: seq<Step>, x: Step, w: World)
    requires Run(s, a, w).Completed?
    ensures var t := Run(s, a, w).state; var r := ApplyStep(t, x, w);
            Run(s, a + [x], w) == if r.err.Some? then Stopped(|a|, r.err.value) else Completed(r.state)
  {
    RunAppend(s, a, [x], w);
  }

  /** The setters run strictly left to right: when step k fails after every earlier
      step succeeded, the whole run stops there with that error, whatever follows. */
  lemma RunStopsAtFirstFailure(s: State, steps: seq<Step>, w: World, k: nat)
    requires k < |steps|
    requires Run(s, steps[..k], w).Completed?
    requires ApplyStep(Run(s, steps[..k], w).state, steps[k], w).err.Some?
    ensures Run(s, steps, w) == Stopped(k, ApplyStep(Run(s, steps[..k], w).state, steps[k], w).err.value)
  {
    assert steps == steps[..k] + steps[k..];
    RunAppend(s, steps[..k], steps[k..], w);
  }

  /** A step only ever appends to the listener list and never makes it nil. */
  lemma ListenersOnlyGrow(s: State, step: Step, w: World)
    ensures var t := ApplyStep(s, step, w).state;
            |s.listeners.Items()| <= |t.listeners.Items()| &&
            t.listeners.Items()[..|s.listeners.Items()|] == s.listeners.Items() &&
            (s.listeners.Made? ==> t.listeners.Made?)
  {
    match step
    case ListenFds(start, limit) =>
    case OnTCP(addr) =>
      var t := ApplyStep(s, step, w).state;
      assert t.listeners.Items()[..|s.listeners.Items()|] == s.listeners.Items();
    case OnSocket(path) =>
      var t := ApplyStep(s, step, w).state;
      assert t.listeners.Items()[..|s.listeners.Items()|] == s.listeners.Items();
    case _ =>
  }

  lemma {:induction false} RunKeepsListenersMade(s: State, steps: seq<Step>, w: World)
    requires s.listeners.Made?
    ensures Run(s, steps, w).Completed? ==> Run(s, steps, w).state.listeners.Made?
    decreases |steps|
  {
    if steps != [] {
      ListenersOnlyGrow(s, steps[0], w);
      RunKeepsListenersMade(ApplyStep(s, steps[0], w).state, steps[1..], w);
    }
  }

  /** The "no listeners" guard tests for a nil slice, which c.l never is: HttpServer
      fails exactly when a step fails, and a run with no listener at all is live. */
  lemma BuildFailsOnlyAtAStep(steps: seq<Step>, w: World)
    ensures Build(steps, w).BuildFailed? <==> Run(Initial, steps, w).Stopped?
    ensures Build(steps, w).BuildFailed? ==> Build(steps, w).err == Run(Initial, steps, w).err
  {
    RunKeepsListenersMade(Initial, steps, w);
  }

  /** With no steps at all HttpServer still returns live start and stop functions. */
  lemma NoStepsIsLive(w: World)
    ensures Build([], w) == BuildLive(Initial)
    ensures Initial.listeners.Items() == []
  {
  }

  /** A failing WithTLSCert step fails each time it runs: even as the very first step. */
  lemma MissingCertificateFailsBuild(cert: string, key: string, keyExists: bool, rest: seq<Step>, w: World)
    ensures Build([WithTLSCert(cert, key, false, keyExists)] + rest, w) == BuildFailed(InvalidCertificate(cert))
  {
    var steps := [WithTLSCert(cert, key, false, keyExists)] + rest;
    assert steps[..0] == [];
    RunStopsAtFirstFailure(Initial, steps, w, 0);
  }

  /** The default TCP address depends on whether the certificate step ran before. */
  lemma DefaultAddressFollowsStepOrder(cert: string, key: string, w: World)
    requires |cert| + |key| > 0
    requires w.listen(Tcp, ":http") == None && w.listen(Tcp, ":https") == None
    ensures Run(Initial, [OnTCP(""), SetCert(cert, key)], w)
              == Completed(Initial.(listeners := Made([Bound(Tcp, ":http")]), cert := cert, key := key))
    ensures Run(Initial, [SetCert(cert, key), OnTCP("")], w)
              == Completed(Initial.(listeners := Made([Bound(Tcp, ":https")]), cert := cert, key := key))
  {
    var tcpFirst, certFirst := [OnTCP(""), SetCert(cert, key)], [SetCert(cert, key), OnTCP("")];
    RunAppend(Initial, [OnTCP("")], [SetCert(cert, key)], w);
    assert [OnTCP("")] + [SetCert(cert, key)] == tcpFirst;
    RunAppend(Initial, [SetCert(cert, key)], [OnTCP("")], w);
    assert [SetCert(cert, key)] + [OnTCP("")] == certFirst;
  }

  /** A negative SD_LISTEN_FDS_START wraps to a start beyond any count Atoi can
      return, so the step inherits nothing and succeeds. */
  lemma NegativeFdStartInheritsNothing(s: State, nfds: int64, start: int32, w: World)
    requires nfds > 0 && start < 0
    ensures ApplyStep(s, OnSystemd(Some(nfds), Some(start)), w) == StepResult(s, None)
  {
  }

  /** The errors stop collects in its first loop: for listener i, its Close error and
      then the Shutdown error of server i, each only when non-nil. */
  function CloseShutdownErrors(n: nat, closeResult: nat -> Option<Error>, shutdownResult: nat -> Option<Error>): (r: seq<Error>)
    ensures |r| <= 2 * n
  {
    if n == 0 then []
    else
      CloseShutdownErrors(n - 1, closeResult, shutdownResult)
        + NonNil([closeResult(n - 1)]) + NonNil([shutdownResult(n - 1)])
  }

  /** stop reports exactly the failures: an error is among those collected in the first
      loop precisely when some Close or Shutdown call returned it. */
  lemma {:induction false} CloseShutdownErrorsMembers(n: nat, closeResult: nat -> Option<Error>, shutdownResult: nat -> Option<Error>, e: Error)
    ensures e in CloseShutdownErrors(n, closeResult, shutdownResult) <==>
            exists i :: 0 <= i < n && (closeResult(i) == Some(e) || shutdownResult(i) == Some(e))
  {
    if n > 0 {
      CloseShutdownErrorsMembers(n - 1, closeResult, shutdownResult, e);
      NonNilSingle(closeResult(n - 1));
      NonNilSingle(shutdownResult(n - 1));
      if closeResult(n - 1) == Some(e) || shutdownResult(n - 1) == Some(e) {
        assert e in CloseShutdownErrors(n, closeResult, shutdownResult);
      }
    }
  }

  /** The errors stop's second loop adds: ctx.Err() once per listener when ctx is done. */
  function ContextErrors(n: nat, ctx: Context): (r: seq<Error>)
    ensures ctx.Pending? ==> r == []
    ensures ctx.Ended? ==> |r| == n && forall i :: 0 <= i < n ==> r[i] == ctx.err
  {
    if ctx.Pending? then [] else seq(n, _ => ctx.err)
  }

  /** Everything stop joins: the Close and Shutdown errors, followed, when ctx is done,
      by ctx.Err() once per listener. */
  function StopErrors(n: nat, closeResult: nat -> Option<Error>, shutdownResult: nat -> Option<Error>, ctx: Context): (r: seq<Error>)
    ensures var cs := CloseShutdownErrors(n, closeResult, shutdownResult);
            |cs| <= |r| && r[..|cs|] == cs &&
            |r| == |cs| + (if ctx.Ended? then n else 0) &&
            forall i :: |cs| <= i < |r| ==> ctx.Ended? && r[i] == ctx.err
  {
    CloseShutdownErrors(n, closeResult, shutdownResult) + ContextErrors(n, ctx)
  }

  lemma {:induction false} CloseShutdownErrorsEmpty(n: nat, closeResult: nat -> Option<Error>, shutdownResult: nat -> Option<Error>)
    ensures CloseShutdownErrors(n, closeResult, shutdownResult) == [] <==>
            forall i :: 0 <= i < n ==> closeResult(i).None? && shutdownResult(i).None?
  {
    if n > 0 {
      CloseShutdownErrorsEmpty(n - 1, closeResult, shutdownResult);
      var c := NonNil([closeResult(n - 1)]);
      var d := NonNil([shutdownResult(n - 1)]);
      assert c == [] <==> closeResult(n - 1).None?;
      assert d == [] <==> shutdownResult(n - 1).None?;
    }
  }

  /** stop returns nil exactly when every Close and every Shutdown succeeded and either
      there is no listener or the context is not done. */
  lemma StopSucceedsIff(n: nat, closeResult: nat -> Option<Error>, shutdownResult: nat -> Option<Error>, ctx: Context)
    ensures JoinErrors(StopErrors(n, closeResult, shutdownResult, ctx)).None? <==>
            (forall i :: 0 <= i < n ==> closeResult(i).None? && shutdownResult(i).None?) &&
            (n == 0 || ctx.Pending?)
  {
    CloseShutdownErrorsEmpty(n, closeResult, shutdownResult);
  }

  /** No failure is dropped: every failing Close and every failing Shutdown appears in
      what stop joins, and listener i's errors come before those of any later listener. */
  lemma {:induction false} StopReportsEveryFailure(n: nat, closeResult: nat -> Option<Error>, shutdownResult: nat -> Option<Error>, i: nat)
    requires i < n
    ensures var prefix := CloseShutdownErrors(i, closeResult, shutdownResult);
            var upto := CloseShutdownErrors(i + 1, closeResult, shutdownResult);
            var all := CloseShutdownErrors(n, closeResult, shutdownResult);
            |upto| <= |all| && all[..|upto|] == upto && upto[..|prefix|] == prefix &&
            upto[|prefix|..] == NonNil([closeResult(i)]) + NonNil([shutdownResult(i)])
  {
    CloseShutdownErrorsSnoc(i, closeResult, shutdownResult);
    CloseShutdownErrorsPrefix(i + 1, n, closeResult, shutdownResult);
  }

  /** Listener i's errors follow those of the listeners before it. */
  lemma CloseShutdownErrorsSnoc(i: nat, closeResult: nat -> Option<Error>, shutdownResult: nat -> Option<Error>)
    ensures var prefix := CloseShutdownErrors(i, closeResult, shutdownResult);
            var upto := CloseShutdownErrors(i + 1, closeResult, shutdownResult);
            |prefix| <= |upto| && upto[..|prefix|] == prefix &&
            upto[|prefix|..] == NonNil([closeResult(i)]) + NonNil([shutdownResult(i)])
  {
    var prefix := CloseShutdownErrors(i, closeResult, shutdownResult);
    var tail := NonNil([closeResult(i)]) + NonNil([shutdownResult(i)]);
    assert CloseShutdownErrors(i + 1, closeResult, shutdownResult) == prefix + tail;
    assert (prefix + tail)[..|prefix|] == prefix && (prefix + tail)[|prefix|..] == tail;
  }

  /** The errors of the first m listeners are a prefix of those of the first n. */
  lemma {:induction false} CloseShutdownErrorsPrefix(m: nat, n: nat, closeResult: nat -> Option<Error>, shutdownResult: nat -> Option<Error>)
    requires m <= n
    ensures var a := CloseShutdownErrors(m, closeResult, shutdownResult);
            var b := CloseShutdownErrors(n, closeResult, shutdownResult);
            |a| <= |b| && b[..|a|] == a
    decreases n
  {
    if m < n {
      CloseShutdownErrorsPrefix(m, n - 1, closeResult, shutdownResult);
      var a := CloseShutdownErrors(m, closeResult, shutdownResult);
      var prev := CloseShutdownErrors(n - 1, closeResult, shutdownResult);
      var tail := NonNil([closeResult(n - 1)]) + NonNil([shutdownResult(n - 1)]);
      assert CloseShutdownErrors(n, closeResult, shutdownResult) == prev + tail;
      assert (prev + tail)[..|a|] == prev[..|a|];
    }
  }

  /** The record c, updated in place by the steps, start and stop. */
  class Config {
    var handler: Option<HandlerRef>
    var listeners: GoSlice<Listener>
    var servers: seq<Server>
    var writeTimeout: int64
    var cert: string
    var key: string

    function Snapshot(): State
      reads this
    {
      State(handler, listeners, servers, writeTimeout, cert, key)
    }

    constructor ()
      ensures Snapshot() == Initial
    {
      handler, listeners, servers := None, Made([]), [];
      writeTimeout, cert, key := 0, "", "";
    }

    /** The closure of WriteWait(d). */
    method SetWriteTimeout(d: int64)
      modifies this
      ensures Snapshot() == old(Snapshot()).(writeTimeout := d)
    {
      writeTimeout := d;
    }

    /** The closure of OnTCP(addr). */
    method ListenTcp(addr: string, listen: (Network, string) -> Option<Error>) returns (err: Option<Error>)
      modifies this
      ensures var a := TcpAddress(addr, old(cert), old(key));
              err == listen(Tcp, a) &&
              Snapshot() == if err.None? then old(Snapshot()).(listeners := old(listeners).Append(Bound(Tcp, a)))
                            else old(Snapshot())
    {
      var a := addr;
      if a == "" {
        a := ":http";
        if |key| + |cert| > 0 {
          a := ":https";
        }
      }
      err := listen(Tcp, a);
      if err.Some? {
        return;
      }
      listeners := listeners.Append(Bound(Tcp, a));
    }

    /** The closure WithTLSCert returns when both files exist. */
    method SetCertificate(cert': string, key': string)
      modifies this
      ensures Snapshot() == old(Snapshot()).(key := key', cert := cert')
    {
      key := key';
      cert := cert';
    }

    /** The closure of Handler(h). */
    method SetHandler(h: Option<HandlerRef>)
      modifies this
      ensures Snapshot() == old(Snapshot()).(handler := h)
    {
      handler := h;
    }

    /** The closure of OnSocket(path). */
    method ListenUnix(path: string, listen: (Network, string) -> Option<Error>) returns (err: Option<Error>)
      modifies this
      ensures err == listen(Unix, path)
      ensures Snapshot() == if err.None? then old(Snapshot()).(listeners := old(listeners).Append(Bound(Unix, path)))
                            else old(Snapshot())
    {
      err := listen(Unix, path);
      if err.Some? {
        return;
      }
      listeners := listeners.Append(Bound(Unix, path));
    }

    /** The closure OnSystemd returns when LISTEN_FDS is a positive number. */
    method ListenInherited(start: nat, limit: nat, probe: nat -> FdProbe) returns (err: Option<Error>)
      modifies this
      ensures StepResult(Snapshot(), err) == InheritFrom(old(Snapshot()), start, limit, probe)
    {
      var i := start;
      while i < limit
        invariant InheritFrom(old(Snapshot()), start, limit, probe) == InheritFrom(Snapshot(), i, limit, probe)
        decreases limit - i
      {
        match probe(i) {
          case StatFailed(e) =>
            return Some(e);
          case NotSocket =>
            return Some(NotSocketActivated);
          case FileListenerFailed(e) =>
            return Some(e);
          case Socket =>
        }
        listeners := listeners.Append(Inherited(i));
        i := i + 1;
      }
      return None;
    }

    /** fn(&c) for one setter. */
    method Apply(step: Step, w: World) returns (err: Option<Error>)
      modifies this
      ensures StepResult(Snapshot(), err) == ApplyStep(old(Snapshot()), step, w)
    {
      match step {
        case WriteWait(d) =>
          SetWriteTimeout(d);
          err := None;
        case OnTCP(addr) =>
          err := ListenTcp(addr, w.listen);
        case SetCert(c, k) =>
          SetCertificate(c, k);
          err := None;
        case Handler(h) =>
          SetHandler(h);
          err := None;
        case OnSocket(path) =>
          err := ListenUnix(path, w.listen);
        case ListenFds(start, limit) =>
          err := ListenInherited(start, limit, w.probe);
        case Fail(e) =>
          err := Some(e);
      }
    }

    /** c.start: one server per listener, in listener order, served with TLS exactly when
        a certificate or key is set; then the collecting loop takes one report from the
        servers (reports: what arrives on errChan, in arrival order; each server sends one
        report, so there are at most as many as listeners) and breaks, so start returns
        the join of that single report, or blocks while no server has returned, and
        forever when there is no listener. */
    method Start(reports: seq<Option<Error>>) returns (o: Completion)
      requires |reports| <= |listeners.Items()|
      modifies this
      ensures listeners == old(listeners) && handler == old(handler) && writeTimeout == old(writeTimeout)
      ensures cert == old(cert) && key == old(key)
      ensures |servers| == |listeners.Items()|
      ensures forall i :: 0 <= i < |servers| ==>
                servers[i] == Server(listeners.Items()[i], handler, writeTimeout, |cert| + |key| > 0)
      ensures o == if reports == [] then Blocked else Returned(Join([reports[0]]))
      ensures listeners.Items() == [] ==> o == Blocked
    {
      var ls := listeners.Items();
      servers := [];
      var i := 0;
      while i < |ls|
        invariant 0 <= i <= |ls|
        invariant listeners == old(listeners) && handler == old(handler) && writeTimeout == old(writeTimeout)
        invariant cert == old(cert) && key == old(key)
        invariant |servers| == i
        invariant forall j :: 0 <= j < i ==> servers[j] == Server(ls[j], handler, writeTimeout, |cert| + |key| > 0)
      {
        var tls := |cert| + |key| > 0;
        servers := servers + [Server(ls[i], handler, writeTimeout, tls)];
        i := i + 1;
      }
      var errs: seq<Option<Error>> := [];
      var k := 0;
      var broken := false;  // the unconditional break that follows the select
      while !broken && k < |reports|
        invariant 0 <= k <= 1 && k <= |reports|
        invariant broken <==> k == 1
        invariant errs == reports[..k]
        decreases |reports| - k
      {
        errs := errs + [reports[k]];
        k := k + 1;
        broken := true;
      }
      if k == 0 {
        return Blocked;
      }
      return Returned(Join(errs));
    }

    /** c.stop(ctx). It reads c.s[i] for every listener i, so start must have run. */
    method Stop(ctx: Context, closeResult: nat -> Option<Error>, shutdownResult: nat -> Option<Error>) returns (r: Option<Error>)
      requires |listeners.Items()| <= |servers|
      ensures r == JoinErrors(StopErrors(|listeners.Items()|, closeResult, shutdownResult, ctx))
    {
      var ls := listeners.Items();
      var errs: seq<Error> := [];
      var i := 0;
      while i < |ls|
        invariant 0 <= i <= |ls|
        invariant errs == CloseShutdownErrors(i, closeResult, shutdownResult)
      {
        var closeErr := closeResult(i);
        NonNilSingle(closeErr);
        NonNilSingle(shutdownResult(i));
        if closeErr.Some? {
          errs := errs + [closeErr.value];
        }
        var srv := servers[i];
        var shutdownErr := shutdownResult(i);
        if shutdownErr.Some? {
          errs := errs + [shutdownErr.value];
        }
        i := i + 1;
      }
      var j := 0;
      while j < |ls|
        invariant 0 <= j <= |ls|
        invariant errs == CloseShutdownErrors(|ls|, closeResult, shutdownResult) + ContextErrors(j, ctx)
      {
        if ctx.Ended? {
          errs := errs + [ctx.err];
        }
        j := j + 1;
      }
      if |errs| > 0 {
        return Some(Joined(errs));
      }
      return None;
    }
  }

  /** HttpServer's two returned functions: errStartFn(err) and emptyStopFn, or start and
      stop of the record the steps built. */
  datatype Built =
    | Failed(err: Error, start: Context -> Option<Error>, stop: Context -> Option<Error>)
    | Live(config: Config)

  /** HttpServer(setters...). */
  method HttpServer(steps: seq<Step>, w: World) returns (b: Built)
    ensures b.Failed? ==> Build(steps, w) == BuildFailed(b.err)
    ensures b.Failed? ==> forall ctx :: b.start(ctx) == Some(b.err) && b.stop(ctx) == None
    ensures b.Live? ==> fresh(b.config) && Build(steps, w) == BuildLive(b.config.Snapshot())
  {
    var c := new Config();
    var i := 0;
    while i < |steps|
      invariant 0 <= i <= |steps|
      invariant Run(Initial, steps[..i], w) == Completed(c.Snapshot())
    {
      ghost var before := c.Snapshot();
      var err := c.Apply(steps[i], w);
      RunSnoc(Initial, steps[..i], steps[i], w);
      assert steps[..i] + [steps[i]] == steps[..i + 1];
      if err.Some? {
        RunStopsAtFirstFailure(Initial, steps, w, i);
        return Failed(err.value, ErrStartFn(err.value), EmptyStopFn);
      }
      i := i + 1;
    }
    assert steps[..i] == steps;
    if c.listeners.Nil? {
      return Failed(NoListeners, ErrStartFn(NoListeners), EmptyStopFn);
    }
    return Live(c);
  }
}
