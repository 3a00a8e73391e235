/** Go's error values as the supervisor and the listener builder see them,
    with the two library operations the core relies on: errors.Is and errors.Join. */
module Errors {

  datatype Option<+T> = None | Some(value: T)

  /** The errors the model distinguishes. An error returned by an operating-system
      call that the model does not look into (net.Listen, Stat, Close, Shutdown,
      Serve) is carried as Opaque. */
  datatype Error =
    | Errno(code: nat)                 // a syscall.Errno value
    | Opaque(id: nat)                  // an error produced by a call outside the model
    | InvalidCertificate(path: string) // "invalid certificate file %q"
    | InvalidKey(path: string)         // "invalid key file %q"
    | NotSocketActivated               // "it appears that we're not expected to wait for a systemd socket connection"
    | NoListeners                      // "no listeners have been configured"
    | Canceled                         // context.Canceled
    | DeadlineExceeded                 // context.DeadlineExceeded
    | Wrapped(msg: string, inner: Error) // fmt.Errorf with a %w verb
    | Joined(errs: seq<Error>)         // the value errors.Join builds

  /** How a blocking call ends: it never returns, or it returns an error or nil. */
  datatype Completion = Blocked | Returned(err: Option<Error>)

  /** errors.Is: err matches target when it is target, or wraps or joins an error that does. */
  predicate Is(err: Error, target: Error)
    decreases err
  {
    err == target ||
    match err
    case Wrapped(_, inner) => Is(inner, target)
    case Joined(errs) => exists i :: 0 <= i < |errs| && Is(errs[i], target)
    case _ => false
  }

  /** The non-nil members of errs, in their order. */
  function NonNil(errs: seq<Option<Error>>): (r: seq<Error>)
    ensures |r| <= |errs|
    ensures forall e :: e in r <==> Some(e) in errs
  {
    if errs == [] then []
    else
      var rest := NonNil(errs[1..]);
      assert errs == [errs[0]] + errs[1..];
      match errs[0]
      case Some(e) => [e] + rest
      case None => rest
  }

  /** Each non-nil error is kept once per occurrence, in order: the non-nil errors of
      two lists one after the other are those of the first followed by those of the second. */
  lemma {:induction false} NonNilAppend(a: seq<Option<Error>>, b: seq<Option<Error>>)
    ensures NonNil(a + b) == NonNil(a) + NonNil(b)
    decreases |a|
  {
    if a == [] {
      assert a + b == b;
    } else {
      assert (a + b)[0] == a[0];
      assert (a + b)[1..] == a[1..] + b;
      NonNilAppend(a[1..], b);
    }
  }

  /** A single argument: a nil is dropped, an error is kept. */
  lemma NonNilSingle(e: Option<Error>)
    ensures NonNil([e]) == if e.Some? then [e.value] else []
  {
    assert [e][1..] == [];
  }

  /** errors.Join over a list that holds no nil: nil exactly when the list is empty. */
  function JoinErrors(errs: seq<Error>): (r: Option<Error>)
    ensures r.None? <==> errs == []
    ensures r.Some? ==> r.value == Joined(errs)
  {
    if |errs| > 0 then Some(Joined(errs)) else None
  }

  /** errors.Join: nil when every argument is nil, otherwise one error joining the
      non-nil arguments in order. */
  function Join(errs: seq<Option<Error>>): (r: Option<Error>)
    ensures r.None? <==> forall i :: 0 <= i < |errs| ==> errs[i].None?
    ensures r.Some? ==> r.value == Joined(NonNil(errs))
  {
    var nn := NonNil(errs);
    assert nn != [] ==> Some(nn[0]) in errs;
    JoinErrors(nn)
  }
}
