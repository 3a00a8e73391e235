# wrapper: a Dafny model of the supervisor's decision logic

This project models the sequential decision logic of the Go package `wrapper`, a
process-lifecycle supervisor. The package has two parts.

- The signal router (`wrapper.go`): a map from OS signals to handlers, and a
  dispatch loop `wait` that starts a handler for every registered signal. The
  loop writes the first non-nil handler result to the completion channel
  `ww.err`. `Exec` returns the first value that reaches that channel, from
  either the loop or the workload.
- The HTTP listener builder (`http_server.go`): a configuration record `c` filled
  in by an ordered list of fallible setters (`SetFn`). `HttpServer` runs them
  left to right and stops at the first error. It returns either permanently
  failing start/stop functions or `c.start` and `c.stop`.

Files:

- `errors.dfy` (module `Errors`): the error values. It also holds `errors.Is`, and
  `errors.Join` with an aggregate error modelled as the sequence of its non-nil
  members.
- `http_server.dfy` (module `Http`): the record `c` as the class `Config`. Each
  setter's closure is a method of `Config`. The pure functions `ApplyStep`, `Run`
  and `Build` specify those methods and `HttpServer`. `Start` and `Stop` are
  methods of `Config`.
- `wrapper.dfy` (module `Wrapper`): `Signals`, `RegisterSignalHandlers`, the `Wait`
  state machine over an event trace, and `Exec`. There are also two client
  methods that replay the package's example and test cases.

Everything outside the core is a parameter:

- Operating-system calls are oracles. A `World` says, for each network and
  address, whether `net.Listen` succeeds. It also says what `Stat` and
  `net.FileListener` report for each inherited descriptor.
- `Stop` takes the outcome of every `Close` and `Shutdown` call as a function of
  the listener index.
- `fileExists`, `strconv.Atoi` and `strconv.ParseInt` are given as their results.
- Concurrency becomes traces. `wait` sees the events its `select` receives, in
  the order they are received. `start` sees the reports that arrive on its
  channel, in arrival order.

Behaviour as written, which the model keeps even where one might expect otherwise:

- The "no listeners" guard tests `c.l == nil`. `c.l` starts as a made, empty slice
  and is only ever appended to, so the guard never fires. A configuration with no
  listener at all is returned live (`BuildFailsOnlyAtAStep`, `NoStepsIsLive`). Go
  slices are modelled as `GoSlice = Nil | Made(items)` so that the guard can be
  stated.
- `start` leaves its collecting loop after one report, because `break` follows the
  `select` inside the `for`. It returns the join of that single report. It does
  not wait for every server. With no listener, no server ever reports, so `start`
  blocks forever.
- `RegisterSignalHandlers` with an empty map calls `signal.Notify` with no signal.
  By Go's documented behaviour, that relays every incoming signal. `wait` then
  ignores them all, because no handler is registered.
- An `Interrupt` result (`syscall.EINTR`, matched with `errors.Is`) is written to
  `ww.err` as nil, so it ends `Exec` as a clean stop. A nil handler result does
  not end the loop.
- `SD_LISTEN_FDS_START` is converted with `uintptr(...)`. A negative value therefore
  wraps to a start beyond any descriptor count, and the step inherits nothing
  (`NegativeFdStartInheritsNothing`).

## Model

| member | source | states |
|---|---|---|
| `Errors.Is` | wrapper.go:60 | errors.Is: an error matches a target when it is the target or wraps or joins an error that matches |
| `Errors.NonNil` | http_server.go:173-174 | the non-nil errors of a list: no longer than the list, and exactly the errors present in it |
| `Errors.NonNilAppend` | http_server.go:164-174 | the non-nil errors of two lists one after the other are those of the first followed by those of the second: order and multiplicity are kept |
| `Errors.NonNilSingle` | http_server.go:182-187 | one argument: a nil is dropped and an error is kept |
| `Errors.JoinErrors` | http_server.go:197-200 | joining a list without nils is nil exactly when the list is empty, otherwise one error holding the whole list |
| `Errors.Join` | http_server.go:173-176 | errors.Join is nil exactly when every argument is nil, otherwise it joins the non-nil arguments in order |
| `Http.Uintptr` | http_server.go:99-101 | uintptr conversion: identity on 0..2^64-1, a negative value wraps by 2^64 |
| `Http.TcpAddress` | http_server.go:43-50 | a non-empty address passes through unchanged; an empty one becomes ":https" exactly when len(key)+len(cert) > 0 and ":http" otherwise |
| `Http.WithTLSCert` | http_server.go:60-72 | the cert file is checked before the key file; a missing cert gives a step that always fails naming the cert (even if the key is missing too), a missing key one that names the key, otherwise a step that sets exactly key and cert |
| `Http.OnSystemd` | http_server.go:92-102 | an unparsable or non-positive LISTEN_FDS gives a step that always fails; otherwise descriptors from 3, or from the parsed SD_LISTEN_FDS_START converted to uintptr, up to LISTEN_FDS |
| `Http.GoSlice.Append` | http_server.go:55 | append never yields a nil slice and puts the new element after the old ones |
| `Http.Listen` | http_server.go:51-55 | the listen step shared by OnTCP and OnSocket (also lines 83-87) returns net.Listen's error; on success the new listener follows the old ones in a non-nil slice, on failure c is unchanged; nothing but the listeners changes |
| `Http.ProbeError` | http_server.go:105-116 | a descriptor that is not a socket gives the "not socket activated" error; a Stat or FileListener failure is returned as reported |
| `Http.InheritFrom` | http_server.go:104-120 | the descriptor loop changes only the listener list, keeps it non-nil and keeps every listener that was already there as a prefix |
| `Http.InheritFromShape` | http_server.go:104-120 | the loop appends Inherited(start), Inherited(start+1), ... (each a socket), at most max(0, nfds - start) of them; it succeeds exactly when it reached nfds; the first stat, non-socket or FileListener failure is returned and the listeners appended before it are kept |
| `Http.ApplyStep` | http_server.go:209 | no setter touches the server list; a failing setter other than the descriptor loop leaves c unchanged; a setter that always fails yields its error |
| `Http.Run` | http_server.go:208-212 | the setter loop stops, if at all, at the index of an existing setter, never fills in the servers, and with no setters completes on the record unchanged |
| `Http.Build` | http_server.go:204-217 | a live result is the record every setter completed on, with a non-nil listener slice and no server yet; a failure carries the failing setter's error or the "no listeners" error |
| `Http.ErrStartFn` | http_server.go:136-140 | the start function of a failed build yields its error for every context |
| `Http.EmptyStopFn` | http_server.go:141-143 | the stop function of a failed build yields nil |
| `Http.RunAppend` | http_server.go:208-212 | running a + b: b runs only if every step of a succeeded, and it starts from the state a left |
| `Http.RunSnoc` | http_server.go:208-212 | one more setter after a completed prefix: the run stops at it with its error, or completes with its new state |
| `Http.RunStopsAtFirstFailure` | http_server.go:208-212 | when setter k fails after all earlier ones succeeded, the run stops at k with that error, whatever setters follow |
| `Http.ListenersOnlyGrow` | http_server.go:36-120 | no setter removes or reorders listeners or makes the list nil |
| `Http.RunKeepsListenersMade` | http_server.go:205-212 | a completed run from a made listener slice ends with a made slice |
| `Http.BuildFailsOnlyAtAStep` | http_server.go:204-217 | HttpServer fails exactly when a setter fails, and with that setter's error; the nil-slice guard never fires |
| `Http.NoStepsIsLive` | http_server.go:205-217 | with no setters at all HttpServer returns live start/stop over zero listeners |
| `Http.MissingCertificateFailsBuild` | http_server.go:60-62 | a WithTLSCert step whose cert is missing makes HttpServer fail with the invalid-certificate error, whatever follows |
| `Http.DefaultAddressFollowsStepOrder` | http_server.go:43-50 | OnTCP("") before WithTLSCert listens on ":http"; after it, on ":https" |
| `Http.NegativeFdStartInheritsNothing` | http_server.go:99-104 | a negative SD_LISTEN_FDS_START makes the systemd step append nothing and succeed |
| `Http.ContextErrors` | http_server.go:190-196 | stop's second loop adds nothing while the context is pending, and ctx.Err() once per listener when it is done |
| `Http.CloseShutdownErrors` | http_server.go:181-189 | stop's first loop collects at most two errors per listener |
| `Http.CloseShutdownErrorsMembers` | http_server.go:181-189 | an error is collected by stop's first loop exactly when some Close or Shutdown call returned it |
| `Http.CloseShutdownErrorsSnoc` | http_server.go:181-189 | listener i's Close and Shutdown errors (each if non-nil) follow those of the listeners before it |
| `Http.CloseShutdownErrorsPrefix` | http_server.go:181-189 | the errors of the first m listeners are a prefix of those of the first n, for m <= n |
| `Http.StopErrors` | http_server.go:179-199 | what stop joins starts with the Close and Shutdown errors and continues, only when the context is done, with ctx.Err() once per listener |
| `Http.CloseShutdownErrorsEmpty` | http_server.go:181-189 | stop's first loop collects no error exactly when every Close and every Shutdown succeeded |
| `Http.StopSucceedsIff` | http_server.go:179-201 | stop returns nil exactly when every Close and Shutdown succeeded and there is no listener or the context is not done |
| `Http.StopReportsEveryFailure` | http_server.go:181-189 | for listener i, stop's list holds its Close error then server i's Shutdown error (each if non-nil), after those of earlier listeners and before those of later ones |
| `Http.Config.constructor` | http_server.go:205-207 | the record starts with a made, empty listener slice and every other field zero |
| `Http.Config.SetWriteTimeout` | http_server.go:36-41 | WriteWait's closure sets the write timeout and nothing else |
| `Http.Config.ListenTcp` | http_server.go:43-58 | OnTCP's closure listens on the defaulted address; on success it appends exactly that listener at the end and changes nothing else; on failure it returns the error and changes nothing |
| `Http.Config.SetCertificate` | http_server.go:67-71 | WithTLSCert's accepting closure sets exactly key and cert |
| `Http.Config.SetHandler` | http_server.go:74-79 | Handler's closure sets the handler and nothing else |
| `Http.Config.ListenUnix` | http_server.go:81-90 | OnSocket's closure appends exactly one Unix listener on success and changes nothing on failure |
| `Http.Config.ListenInherited` | http_server.go:103-120 | OnSystemd's closure loops over the descriptors exactly as the descriptor loop does |
| `Http.Config.Apply` | http_server.go:209 | running one setter on c has exactly the effect and the error of that step |
| `Http.Config.Start` | http_server.go:146-177 | start makes one server per listener, in listener order, served with TLS exactly when len(cert)+len(key) > 0, and changes no other field; each server reports at most once, so there are no more reports than listeners; it returns the join of the first report alone, blocks while no report has arrived, and with no listener blocks forever |
| `Http.Config.Stop` | http_server.go:179-201 | stop joins, in order: for each listener its Close error and then server i's Shutdown error (each if non-nil), then ctx.Err() once per listener if the context is done; nil when that list is empty; it needs start to have made a server per listener |
| `Http.HttpServer` | http_server.go:203-218 | HttpServer runs the setters in order; on failure it returns a start function that yields the error for every context and a stop function that yields nil, otherwise start/stop over the record the setters built |
| `Wrapper.Signals` | wrapper.go:29-35 | signals returns every key of the handler map exactly once: its length is the map's size and it has no duplicates |
| `Wrapper.Notify` | wrapper.go:46 | signal.Notify with no signal subscribes to every signal, otherwise to exactly the signals named |
| `Wrapper.RegisterSignalHandlers` | wrapper.go:40-48 | the router keeps the handler map and subscribes to exactly its keys, or to every signal when the map is empty |
| `Wrapper.Outcome` | wrapper.go:58-64 | a non-nil handler result is written as nil exactly when it matches Interrupt, and unchanged otherwise |
| `Wrapper.FirstEnd` | wrapper.go:53-65 | wait returns at the first context cancellation or non-nil handler result; no earlier event ends it |
| `Wrapper.Dispatches` | wrapper.go:66-70 | every handler started belongs to a registered signal and is that signal's handler; no more starts than events |
| `Wrapper.DispatchesSnoc` | wrapper.go:66-70 | one more event starts its handler exactly when it is a registered signal |
| `Wrapper.NoRegisteredSignalNoDispatch` | wrapper.go:66-70 | events with no registered signal start no handler |
| `Wrapper.FirstEndIs` | wrapper.go:53-65 | wait returns at the ending event that no earlier event ends before |
| `Wrapper.NoHandlerNoResult` | wrapper.go:58-69 | when only handlers wait started write to errCh and no registered signal arrives, no handler result arrives, so wait can end only on the context |
| `Wrapper.DispatchesAppend` | wrapper.go:53-72 | the handlers started for two stretches of events, one after the other, are those of the first followed by those of the second |
| `Wrapper.UnregisteredSignalIgnored` | wrapper.go:67-70 | a signal with no registered handler starts nothing |
| `Wrapper.DispatchedOncePerArrival` | wrapper.go:66-70 | each arrival of a registered signal starts that signal's handler exactly once |
| `Wrapper.Wait` | wrapper.go:50-73 | wait starts the handlers of the signals before its first ending event; it returns there; on a context cancellation it writes nothing, on a non-nil result it writes that result once (nil for Interrupt); nil results and unregistered signals do not end it |
| `Wrapper.LoopPrefix` | wrapper.go:101-108 | the events the loop receives before the workload's result reaches ww.err |
| `Wrapper.Exec` | wrapper.go:75-109 | a nil workload returns nil without starting the loop or the workload; otherwise Exec returns the first value written to ww.err, by the loop or by the workload, or blocks while none is; when no registered signal arrives (an empty map in particular) only the workload can end it; the deferred cleanup (cancel and signal.Stop) runs on both return paths |
| `Wrapper.ExampleSignalSequenceWaits` | wrapper_test.go:68-117 | in the package's example, wait starts the four handlers and returns at the Interrupt SIGINT's handler writes |
| `Wrapper.ExampleSignalSequenceDispatches` | wrapper_test.go:76-100 | the four example signals start their four handlers in arrival order |

## Left out

- Operating-system and library calls are not modelled, only their outcomes, taken
  as parameters: `net.Listen`, `os.NewFile`/`Stat`, `net.FileListener`,
  `os.Getenv`/`strconv`, `fileExists`, and `http.Server.Serve`/`ServeTLS`/`Shutdown`,
  `net.Listener.Close`.
- Goroutines, channels, `select` scheduling and `signal.Notify` delivery are
  replaced by event traces. Not modelled: channel capacities, handlers that block
  or sleep, signals dropped by the unbuffered `ww.signal` channel, and a late
  handler send on the closed `errCh`.
- `defaultTLSConfig` is a constant table with no logic; the model records only
  whether a server is served with TLS.
- Errors.Is: an error type's own `Is` method, and `Unwrap() []error` on custom
  error types other than the joined error, are not modelled. The model matches by
  equality and through `%w` wrapping and `errors.Join` only.
- `errors.Join` internals and error messages: a joined error is the sequence of its
  members, and a formatted error is a datatype constant.
- Http.Config.Start: what arrives on the report channel is a parameter. The model
  does not tie each report to the server that sent it, and it ignores `start`'s
  context, as the source does. The server's `Addr` field is not modelled.
- Http.Config.Stop: `Shutdown` outcomes are given per listener index. The source
  calls `Shutdown` on a copy of the server value `start` stored, not on the value
  being served; the model does not tell the two apart. It also takes `ctx.Done()`
  to stay the same during the second loop.
- Http.Config.ListenTcp: `OnTCP("")`'s closure overwrites its captured `addr` the
  first time it runs. The model treats every step as a fresh closure and derives
  the default again each time. So one `OnTCP("")` value passed to `HttpServer`
  twice, first without and then after a certificate is set, listens on ":http"
  both times in Go but on ":http" and then ":https" in the model. The same holds
  for one value reused across two `HttpServer` calls.
- Http.HttpServer: `net.Listen`'s outcome is a function of network and address, so
  two listens on the same address in one run get the same outcome.
- Wrapper.Exec: traces are restricted to those the program can produce, where a
  handler result comes only after some handler was started
  (`ResultsAfterDispatch`). Which started handler wrote a result is not tracked.
- Wrapper.Exec: the context is abstracted into the `CtxDone` event, so `Exec`'s
  nil-context default is not modelled. `exec`'s write of the workload result is
  the `WorkloadReturned` event.
- Wrapper.Wait: a nil handler function in the map, whose goroutine would panic,
  is not modelled.
- The unused mutex field `m` of `w`.
- `examples/main.go` is written against an older API and is not part of this
  model. `wrapper_test.go` served only as a source of expected outcomes
  (`ExampleSignalSequence`, `ExampleExecCases`).
