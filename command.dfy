/**
 * One spawn of the self-copy (`Cmd`): building it from the options, and
 * `run`, which wraps the execution in the pre-hook, the post-hook and a
 * deferred cleanup that closes the result pipe and calls the final hook.
 * Opening the pipe, executing the process and decoding the result pipe are
 * inputs (a `World`); what is modelled is the order of the steps, the
 * error that comes out and the trace of hook calls.
 */
module Command {
  import opened Optional
  import opened CommandOptions

  /** `CmdResult`, as the child writes it on the result pipe; `data` is the payload left encoded. */
  datatype CmdResult = CmdResult(data: string, error: string)

  /** What `getResult` gives back: a decoded record, or the decoder's error. */
  datatype Decoding = Decoded(result: CmdResult) | DecodeFailed(reason: string)

  /** What `os.Pipe` gives back: both ends, or its error. */
  datatype PipeOpening = Opened(reader: File, writer: File) | PipeFailed(reason: string)

  /**
   * Everything one `run` depends on and cannot compute: the pipe, the result of
   * each caller hook (by its name), the error of `exec.Cmd.Run` (`None` when the
   * child exited 0) and what decoding the pipe gives.
   */
  datatype World = World(pipe: PipeOpening, hookResult: nat -> Option<string>, exec: Option<string>, decoding: Decoding)

  /** The observable steps of a run, in the order they happen. */
  datatype Event =
    | PreHookCalled
    | Executed
    | ResultDecoded
    | PostHookCalled
    | PipeWriterClosed
    | PipeReaderClosed
    | FinalHookCalled(err: Option<string>)
    | UserHookRan(name: nat)
    | UserFinalizerRan(name: nat, err: Option<string>)
    | DrainJoined
    | DrainLeft

  /** The error a non-nil hook returns. */
  function CallHook(h: Hook, results: nat -> Option<string>): Option<string>
    requires h != NilHook
  {
    match h
    case NoOpHook => None
    case UserHook(n) => results(n)
    case Tracked(inner) => if inner == NilHook then None else CallHook(inner, results)
  }

  /** What calling a non-nil hook does. */
  function HookEvents(h: Hook): seq<Event>
    requires h != NilHook
  {
    match h
    case NoOpHook => []
    case UserHook(n) => [UserHookRan(n)]
    case Tracked(inner) => [DrainJoined] + (if inner == NilHook then [] else HookEvents(inner))
  }

  /** What calling a non-nil final hook with `err` does. */
  function FinalizerEvents(g: Finalizer, err: Option<string>): seq<Event>
    requires g != NilFinalizer
  {
    match g
    case NoOpFinalizer => []
    case UserFinalizer(n) => [UserFinalizerRan(n, err)]
    case Released(inner) => (if inner == NilFinalizer then [] else FinalizerEvents(inner, err)) + [DrainLeft]
  }

  const CommandErrorPrefix: string := "Command Error: "
  const DecodeFailureLabel: string := ", Failed to get result: "
  const MessageLabel: string := ", Message: "

  /** The error `run` returns when the child failed: the exec error, then what the result pipe said. */
  function CommandError(exec: string, d: Decoding): string {
    match d
    case DecodeFailed(reason) => CommandErrorPrefix + exec + DecodeFailureLabel + reason
    case Decoded(r) => if r.error != "" then CommandErrorPrefix + exec + MessageLabel + r.error else CommandErrorPrefix + exec
  }

  /** The part of a failed run's decoding that ends up in its error. */
  datatype Detail = Undecodable(reason: string) | Reported(message: string) | NoDetail

  function DetailOf(d: Decoding): Detail {
    match d
    case DecodeFailed(reason) => Undecodable(reason)
    case Decoded(r) => if r.error != "" then Reported(r.error) else NoDetail
  }

  /** The position of the first comma in `s`, or `|s|`. */
  function IndexOfComma(s: string): (i: nat)
    ensures i <= |s| && ',' !in s[..i] && (i < |s| ==> s[i] == ',')
  {
    if s == [] then 0
    else if s[0] == ',' then 0
    else
      var j := IndexOfComma(s[1..]);
      assert s[..1 + j] == [s[0]] + s[1..][..j];
      1 + j
  }

  /** Reads an error of the shape `CommandError` writes back into the exec error and the detail. */
  function ParseCommandError(msg: string): Option<(string, Detail)> {
    if !(CommandErrorPrefix <= msg) then None
    else
      var rest := msg[|CommandErrorPrefix|..];
      var i := IndexOfComma(rest);
      ReadDetail(rest[..i], rest[i..])
  }

  /** The detail that follows the exec error, from the first comma on. */
  function ReadDetail(exec: string, tail: string): Option<(string, Detail)> {
    if tail == [] then Some((exec, NoDetail))
    else if DecodeFailureLabel <= tail then Some((exec, Undecodable(tail[|DecodeFailureLabel|..])))
    else if MessageLabel <= tail && |tail| > |MessageLabel| then Some((exec, Reported(tail[|MessageLabel|..])))
    else None
  }

  /** What `CommandError` writes after the exec error. */
  function DetailText(d: Decoding): string {
    match d
    case DecodeFailed(reason) => DecodeFailureLabel + reason
    case Decoded(r) => if r.error != "" then MessageLabel + r.error else []
  }

  lemma {:induction false} IndexOfCommaAt(a: string, b: string)
    requires ',' !in a
    requires b == [] || b[0] == ','
    ensures IndexOfComma(a + b) == |a|
    decreases |a|
  {
    if a == [] {
      assert a + b == b;
    } else {
      assert (a + b)[0] == a[0];
      assert (a + b)[1..] == a[1..] + b;
      IndexOfCommaAt(a[1..], b);
    }
  }

  lemma ParseSplitsAtFirstComma(exec: string, tail: string)
    requires ',' !in exec
    requires tail == [] || tail[0] == ','
    ensures ParseCommandError(CommandErrorPrefix + exec + tail) == ReadDetail(exec, tail)
  {
    var msg := CommandErrorPrefix + exec + tail;
    assert msg == CommandErrorPrefix + (exec + tail);
    assert msg[|CommandErrorPrefix|..] == exec + tail;
    IndexOfCommaAt(exec, tail);
    assert (exec + tail)[..|exec|] == exec;
    assert (exec + tail)[|exec|..] == tail;
  }

  lemma ReadDetailInvertsDetailText(exec: string, d: Decoding)
    ensures ReadDetail(exec, DetailText(d)) == Some((exec, DetailOf(d)))
  {
    var tail := DetailText(d);
    match d
    case DecodeFailed(reason) =>
      assert tail[|DecodeFailureLabel|..] == reason;
    case Decoded(r) =>
      if r.error != "" {
        assert tail[2] == 'M';
        assert !(DecodeFailureLabel <= tail);
        assert tail[|MessageLabel|..] == r.error;
      }
  }

  /**
   * When the exec error holds no comma (as "exit status 1" does not), the
   * composed error determines the exec error and the decoding's detail.
   */
  lemma ParseInvertsCommandError(exec: string, d: Decoding)
    requires ',' !in exec
    ensures ParseCommandError(CommandError(exec, d)) == Some((exec, DetailOf(d)))
  {
    assert CommandError(exec, d) == CommandErrorPrefix + exec + DetailText(d);
    ParseSplitsAtFirstComma(exec, DetailText(d));
    ReadDetailInvertsDetailText(exec, d);
  }

  /** A run's error and trace. */
  datatype Outcome = Outcome(err: Option<string>, events: seq<Event>)

  /** The body of `run`, between opening the pipe and the deferred cleanup. */
  function Body(o: CmdOptions, w: World): Outcome {
    var pre := if o.preHook != NilHook then [PreHookCalled] + HookEvents(o.preHook) else [];
    if o.preHook != NilHook && CallHook(o.preHook, w.hookResult).Some? then
      Outcome(CallHook(o.preHook, w.hookResult), pre)
    else
      match w.exec
      case Some(e) => Outcome(Some(CommandError(e, w.decoding)), pre + [Executed, ResultDecoded])
      case None =>
        if o.postHook != NilHook then
          Outcome(CallHook(o.postHook, w.hookResult), pre + [Executed, PostHookCalled] + HookEvents(o.postHook))
        else Outcome(None, pre + [Executed])
  }

  /** The deferred closure: close both pipe ends, then hand the returned error to the final hook. */
  function Cleanup(o: CmdOptions, err: Option<string>): seq<Event> {
    [PipeWriterClosed, PipeReaderClosed]
      + (if o.finalHook != NilFinalizer then [FinalHookCalled(err)] + FinalizerEvents(o.finalHook, err) else [])
  }

  /** What `(*Cmd).run` does with options `o` in world `w`. */
  function RunSpec(o: CmdOptions, w: World): Outcome {
    match w.pipe
    case PipeFailed(reason) => Outcome(Some(reason), [])
    case Opened(_, _) =>
      var b := Body(o, w);
      Outcome(b.err, b.events + Cleanup(o, b.err))
  }

  /** The number of calls of the options' final hook in a trace. */
  function FinalCalls(t: seq<Event>): nat {
    if t == [] then 0 else (if t[0].FinalHookCalled? then 1 else 0) + FinalCalls(t[1..])
  }

  lemma {:induction false} FinalCallsAppend(a: seq<Event>, b: seq<Event>)
    ensures FinalCalls(a + b) == FinalCalls(a) + FinalCalls(b)
    decreases |a|
  {
    if a == [] {
      assert a + b == b;
    } else {
      assert (a + b)[1..] == a[1..] + b;
      FinalCallsAppend(a[1..], b);
    }
  }

  lemma {:induction false} NoFinalCallInHooks(h: Hook)
    requires h != NilHook
    ensures forall e :: e in HookEvents(h) ==> !e.FinalHookCalled?
  {
    if h.Tracked? && h.inner != NilHook {
      NoFinalCallInHooks(h.inner);
    }
  }

  lemma {:induction false} NoFinalCallInFinalizers(g: Finalizer, err: Option<string>)
    requires g != NilFinalizer
    ensures forall e :: e in FinalizerEvents(g, err) ==> !e.FinalHookCalled?
  {
    if g.Released? && g.inner != NilFinalizer {
      NoFinalCallInFinalizers(g.inner, err);
    }
  }

  lemma {:induction false} NoFinalCallsCounted(t: seq<Event>)
    requires forall e :: e in t ==> !e.FinalHookCalled?
    ensures FinalCalls(t) == 0
    decreases |t|
  {
    if t != [] {
      assert t[0] in t;
      assert forall e :: e in t[1..] ==> e in t;
      NoFinalCallsCounted(t[1..]);
    }
  }

  lemma BodyHasNoFinalCall(o: CmdOptions, w: World)
    ensures forall e :: e in Body(o, w).events ==> !e.FinalHookCalled?
  {
    if o.preHook != NilHook { NoFinalCallInHooks(o.preHook); }
    if o.postHook != NilHook { NoFinalCallInHooks(o.postHook); }
  }

  /** In `a + [e] + c` with no final-hook call in `a` or `c`, the only one sits at index `|a|`. */
  lemma OnlyFinalCallAt(a: seq<Event>, e: Event, c: seq<Event>)
    requires e.FinalHookCalled?
    requires forall x :: x in a ==> !x.FinalHookCalled?
    requires forall x :: x in c ==> !x.FinalHookCalled?
    ensures FinalCalls(a + [e] + c) == 1
    ensures forall i :: 0 <= i < |a + [e] + c| ==> ((a + [e] + c)[i].FinalHookCalled? <==> i == |a|)
  {
    NoFinalCallsCounted(a);
    NoFinalCallsCounted(c);
    FinalCallsAppend(a + [e], c);
    FinalCallsAppend(a, [e]);
    var t := a + [e] + c;
    forall i | 0 <= i < |t| ensures t[i].FinalHookCalled? <==> i == |a| {
      if i < |a| {
        assert t[i] == a[i] && a[i] in a;
      } else if i > |a| {
        assert t[i] == c[i - |a| - 1] && c[i - |a| - 1] in c;
      }
    }
  }

  /**
   * Once the pipe is open, the final hook (when set) is called exactly once,
   * with the error `run` returns, right after the writer and then the reader
   * end of the pipe are closed; a nil final hook is never called.
   */
  lemma FinalHookOnce(o: CmdOptions, w: World)
    requires w.pipe.Opened?
    ensures var r := RunSpec(o, w);
      && FinalCalls(r.events) == (if o.finalHook != NilFinalizer then 1 else 0)
      && forall i :: 0 <= i < |r.events| && r.events[i].FinalHookCalled? ==>
           2 <= i && r.events[i] == FinalHookCalled(r.err)
           && r.events[i - 2] == PipeWriterClosed && r.events[i - 1] == PipeReaderClosed
  {
    var b := Body(o, w);
    var r := RunSpec(o, w);
    BodyHasNoFinalCall(o, w);
    var a := b.events + [PipeWriterClosed, PipeReaderClosed];
    assert forall x :: x in a ==> !x.FinalHookCalled?;
    if o.finalHook != NilFinalizer {
      var fin := FinalizerEvents(o.finalHook, b.err);
      NoFinalCallInFinalizers(o.finalHook, b.err);
      assert r.events == a + [FinalHookCalled(b.err)] + fin;
      OnlyFinalCallAt(a, FinalHookCalled(b.err), fin);
      assert r.events[|a|] == FinalHookCalled(r.err);
      assert r.events[|a| - 2] == PipeWriterClosed && r.events[|a| - 1] == PipeReaderClosed;
    } else {
      assert r.events == a;
      NoFinalCallsCounted(a);
      forall i | 0 <= i < |a| ensures !a[i].FinalHookCalled? {
        assert a[i] in a;
      }
    }
  }

  /** When `os.Pipe` fails, `run` returns its error before anything else, the final hook included. */
  lemma PipeFailureReturnsAtOnce(o: CmdOptions, w: World)
    requires w.pipe.PipeFailed?
    ensures RunSpec(o, w) == Outcome(Some(w.pipe.reason), [])
  {
  }

  /** A pre-hook that fails stops the run: its error is returned and the command is never executed. */
  lemma PreHookFailureSkipsExecution(o: CmdOptions, w: World)
    requires w.pipe.Opened? && o.preHook != NilHook && CallHook(o.preHook, w.hookResult).Some?
    ensures RunSpec(o, w).err == CallHook(o.preHook, w.hookResult)
    ensures Executed !in RunSpec(o, w).events
  {
    NoFinalCallInHooks(o.preHook);
    var t := RunSpec(o, w).events;
    var b := Body(o, w);
    assert forall e :: e in HookEvents(o.preHook) ==> e != Executed by {
      ExecutionNotInHooks(o.preHook);
    }
    assert forall e :: e in Cleanup(o, b.err) ==> e != Executed by {
      if o.finalHook != NilFinalizer { ExecutionNotInFinalizers(o.finalHook, b.err); }
    }
    assert t == b.events + Cleanup(o, b.err);
  }

  lemma {:induction false} ExecutionNotInHooks(h: Hook)
    requires h != NilHook
    ensures forall e :: e in HookEvents(h) ==> !e.Executed? && !e.ResultDecoded?
  {
    if h.Tracked? && h.inner != NilHook {
      ExecutionNotInHooks(h.inner);
    }
  }

  lemma {:induction false} ExecutionNotInFinalizers(g: Finalizer, err: Option<string>)
    requires g != NilFinalizer
    ensures forall e :: e in FinalizerEvents(g, err) ==> !e.Executed? && !e.ResultDecoded?
  {
    if g.Released? && g.inner != NilFinalizer {
      ExecutionNotInFinalizers(g.inner, err);
    }
  }

  /** A pre-hook that passes (or none) and a child that fails: the composed command error, and the pipe was decoded. */
  lemma FailedChildComposesError(o: CmdOptions, w: World)
    requires w.pipe.Opened? && w.exec.Some?
    requires o.preHook == NilHook || CallHook(o.preHook, w.hookResult).None?
    ensures RunSpec(o, w).err == Some(CommandError(w.exec.value, w.decoding))
    ensures ResultDecoded in RunSpec(o, w).events && PostHookCalled !in RunSpec(o, w).events
  {
    var b := Body(o, w);
    var pre := if o.preHook != NilHook then [PreHookCalled] + HookEvents(o.preHook) else [];
    assert b.events == pre + [Executed, ResultDecoded];
    assert b.events[|pre| + 1] == ResultDecoded;
    assert RunSpec(o, w).events[|pre| + 1] == ResultDecoded;
    NotPostInHooks(o);
    NotPostInCleanup(o, b.err);
  }

  /** A pre-hook that passes (or none) and a child that exits 0: the post-hook's error, or nil; the pipe is not decoded. */
  lemma SucceededChildRunsPostHook(o: CmdOptions, w: World)
    requires w.pipe.Opened? && w.exec.None?
    requires o.preHook == NilHook || CallHook(o.preHook, w.hookResult).None?
    ensures RunSpec(o, w).err == if o.postHook != NilHook then CallHook(o.postHook, w.hookResult) else None
    ensures ResultDecoded !in RunSpec(o, w).events
    ensures Executed in RunSpec(o, w).events
  {
    var b := Body(o, w);
    var pre := if o.preHook != NilHook then [PreHookCalled] + HookEvents(o.preHook) else [];
    assert b.events[|pre|] == Executed;
    assert RunSpec(o, w).events[|pre|] == Executed;
    if o.preHook != NilHook { ExecutionNotInHooks(o.preHook); }
    if o.postHook != NilHook { ExecutionNotInHooks(o.postHook); }
    if o.finalHook != NilFinalizer { ExecutionNotInFinalizers(o.finalHook, b.err); }
  }

  lemma NotPostInHooks(o: CmdOptions)
    ensures o.preHook != NilHook ==> PostHookCalled !in HookEvents(o.preHook)
  {
    if o.preHook != NilHook { PostNotInHook(o.preHook); }
  }

  lemma {:induction false} PostNotInHook(h: Hook)
    requires h != NilHook
    ensures PostHookCalled !in HookEvents(h)
  {
    if h.Tracked? && h.inner != NilHook {
      PostNotInHook(h.inner);
    }
  }

  lemma {:induction false} PostNotInFinalizer(g: Finalizer, err: Option<string>)
    requires g != NilFinalizer
    ensures PostHookCalled !in FinalizerEvents(g, err)
  {
    if g.Released? && g.inner != NilFinalizer {
      PostNotInFinalizer(g.inner, err);
    }
  }

  lemma NotPostInCleanup(o: CmdOptions, err: Option<string>)
    ensures PostHookCalled !in Cleanup(o, err)
  {
    if o.finalHook != NilFinalizer { PostNotInFinalizer(o.finalHook, err); }
  }

  /** Joins minus leaves of the manager's drain group over a trace. */
  function DrainBalance(t: seq<Event>): int {
    if t == [] then 0
    else (if t[0] == DrainJoined then 1 else if t[0] == DrainLeft then -1 else 0) + DrainBalance(t[1..])
  }

  lemma {:induction false} DrainBalanceAppend(a: seq<Event>, b: seq<Event>)
    ensures DrainBalance(a + b) == DrainBalance(a) + DrainBalance(b)
    decreases |a|
  {
    if a == [] {
      assert a + b == b;
    } else {
      assert (a + b)[1..] == a[1..] + b;
      DrainBalanceAppend(a[1..], b);
    }
  }

  /** A hook that is not the manager's wrapper. */
  predicate Unwrapped(h: Hook) { h != NilHook && !h.Tracked? }

  /** A final hook that is not the manager's wrapper. */
  predicate UnwrappedFinalizer(g: Finalizer) { g != NilFinalizer && !g.Released? }

  lemma HookBalance(h: Hook)
    requires h != NilHook && (h.Tracked? ==> h.inner == NilHook || Unwrapped(h.inner))
    ensures DrainBalance(HookEvents(h)) == if h.Tracked? then 1 else 0
  {
    if h.Tracked? {
      DrainBalanceAppend([DrainJoined], if h.inner == NilHook then [] else HookEvents(h.inner));
    }
  }

  lemma FinalizerBalance(g: Finalizer, err: Option<string>)
    requires g != NilFinalizer && (g.Released? ==> g.inner == NilFinalizer || UnwrappedFinalizer(g.inner))
    ensures DrainBalance(FinalizerEvents(g, err)) == if g.Released? then -1 else 0
  {
    if g.Released? {
      DrainBalanceAppend(if g.inner == NilFinalizer then [] else FinalizerEvents(g.inner, err), [DrainLeft]);
    }
  }

  /** What `Body` records after the pre-hook's own events. */
  function AfterPreHook(o: CmdOptions, w: World): seq<Event>
    requires o.preHook != NilHook
  {
    if CallHook(o.preHook, w.hookResult).Some? then []
    else if w.exec.Some? then [Executed, ResultDecoded]
    else if o.postHook != NilHook then [Executed, PostHookCalled] + HookEvents(o.postHook)
    else [Executed]
  }

  lemma BodySplitsAtPreHook(o: CmdOptions, w: World)
    requires o.preHook != NilHook
    ensures Body(o, w).events == [PreHookCalled] + HookEvents(o.preHook) + AfterPreHook(o, w)
  {
  }

  lemma AfterPreHookIsQuiet(o: CmdOptions, w: World)
    requires o.preHook != NilHook
    requires o.postHook == NilHook || Unwrapped(o.postHook)
    ensures DrainBalance(AfterPreHook(o, w)) == 0
  {
    if CallHook(o.preHook, w.hookResult).Some? {
      assert AfterPreHook(o, w) == [];
    } else if w.exec.Some? {
      assert AfterPreHook(o, w) == [Executed, ResultDecoded];
      DrainBalanceAppend([Executed], [ResultDecoded]);
    } else if o.postHook != NilHook {
      HookBalance(o.postHook);
      DrainBalanceAppend([Executed], [PostHookCalled]);
      DrainBalanceAppend([Executed, PostHookCalled], HookEvents(o.postHook));
    } else {
      assert AfterPreHook(o, w) == [Executed];
    }
  }

  lemma BodyJoinsOnce(o: CmdOptions, w: World)
    requires o.preHook.Tracked? && (o.preHook.inner == NilHook || Unwrapped(o.preHook.inner))
    requires o.postHook == NilHook || Unwrapped(o.postHook)
    ensures DrainBalance(Body(o, w).events) == 1
  {
    var pre := [PreHookCalled] + HookEvents(o.preHook);
    HookBalance(o.preHook);
    DrainBalanceAppend([PreHookCalled], HookEvents(o.preHook));
    AfterPreHookIsQuiet(o, w);
    BodySplitsAtPreHook(o, w);
    DrainBalanceAppend(pre, AfterPreHook(o, w));
  }

  lemma CleanupLeavesOnce(o: CmdOptions, err: Option<string>)
    requires o.finalHook.Released? && (o.finalHook.inner == NilFinalizer || UnwrappedFinalizer(o.finalHook.inner))
    ensures DrainBalance(Cleanup(o, err)) == -1
  {
    FinalizerBalance(o.finalHook, err);
    var closes: seq<Event> := [PipeWriterClosed, PipeReaderClosed];
    DrainBalanceAppend(closes + [FinalHookCalled(err)], FinalizerEvents(o.finalHook, err));
    DrainBalanceAppend(closes, [FinalHookCalled(err)]);
    assert Cleanup(o, err) == closes + [FinalHookCalled(err)] + FinalizerEvents(o.finalHook, err);
  }

  /**
   * With the manager's wrappers installed once around the caller's hooks, every
   * path through `run` leaves the drain group as often as it joins it.
   */
  lemma DrainBalanced(o: CmdOptions, w: World)
    requires o.preHook.Tracked? && (o.preHook.inner == NilHook || Unwrapped(o.preHook.inner))
    requires o.finalHook.Released? && (o.finalHook.inner == NilFinalizer || UnwrappedFinalizer(o.finalHook.inner))
    requires o.postHook == NilHook || Unwrapped(o.postHook)
    ensures DrainBalance(RunSpec(o, w).events) == 0
  {
    if w.pipe.Opened? {
      var b := Body(o, w);
      BodyJoinsOnce(o, w);
      CleanupLeavesOnce(o, b.err);
      DrainBalanceAppend(b.events, Cleanup(o, b.err));
    }
  }

  /**
   * `exec.Cmd` as `NewCmd` and `run` leave it: the argument list, environment and
   * stdio, the extra files handed to the child, and the trace of what `run` did.
   */
  class Cmd {
    const args: seq<string>
    const options: CmdOptions
    var env: seq<string>
    var stdin: Stream
    var stdout: Stream
    var stderr: Stream
    var extraFiles: seq<File>
    ghost var events: seq<Event>

    /** `reexec.Command(args...)` with `options` kept beside it. */
    constructor (args: seq<string>, options: CmdOptions)
      ensures this.args == args && this.options == options
      ensures env == [] && stdin == NoStream && stdout == NoStream && stderr == NoStream
      ensures extraFiles == [] && events == []
    {
      this.args := args;
      this.options := options;
      env, stdin, stdout, stderr := [], NoStream, NoStream, NoStream;
      extraFiles := [];
      events := [];
    }

    /** `(*Cmd).run`: once the pipe is open the deferred cleanup runs on every return, with the error the body settled on. */
    method Run(w: World) returns (err: Option<string>)
      modifies this`extraFiles, this`events
      ensures err == RunSpec(options, w).err
      ensures events == old(events) + RunSpec(options, w).events
      ensures extraFiles == if w.pipe.Opened? then [w.pipe.writer] else old(extraFiles)
    {
      if w.pipe.PipeFailed? {
        return Some(w.pipe.reason);
      }
      extraFiles := [w.pipe.writer];
      err := Guarded(w);
      // the deferred closure
      events := events + [PipeWriterClosed, PipeReaderClosed];
      if options.finalHook != NilFinalizer {
        events := events + [FinalHookCalled(err)] + FinalizerEvents(options.finalHook, err);
      }
    }

    /** The body of `run` after the pipe is open: each `return` there only sets the named result `err`. */
    method Guarded(w: World) returns (err: Option<string>)
      modifies this`events
      ensures err == Body(options, w).err
      ensures events == old(events) + Body(options, w).events
    {
      var pre: seq<Event> := [];
      err := None;
      if options.preHook != NilHook {
        pre := [PreHookCalled] + HookEvents(options.preHook);
        events := events + pre;
        err := CallHook(options.preHook, w.hookResult);
        if err.Some? {
          return;
        }
      }
      events := events + [Executed];
      err := w.exec;
      if err.Some? {
        events := events + [ResultDecoded];
        err := Some(CommandError(err.value, w.decoding));
        assert events == old(events) + (pre + [Executed, ResultDecoded]);
      } else if options.postHook != NilHook {
        events := events + [PostHookCalled] + HookEvents(options.postHook);
        err := CallHook(options.postHook, w.hookResult);
        assert events == old(events) + (pre + [Executed, PostHookCalled] + HookEvents(options.postHook));
      } else {
        assert events == old(events) + (pre + [Executed]);
      }
    }
  }

  /** `NewCmd`: the options built from the defaults, the argument list `cmdStr` then the options' arguments, env and stdio copied. */
  method NewCmd(cmdStr: string, opts: seq<CmdOption>) returns (c: Cmd)
    ensures fresh(c)
    ensures c.options == ApplyAll(DefaultCmdOptions, opts)
    ensures c.args == [cmdStr] + c.options.commandLineArguments
    ensures c.env == c.options.environment
    ensures c.stdin == c.options.stdin && c.stdout == c.options.stdout && c.stderr == c.options.stderr
    ensures c.extraFiles == [] && c.events == []
  {
    var options := NewCmdOption(opts);
    c := new Cmd([cmdStr] + options.commandLineArguments, options);
    c.env := options.environment;
    c.stdin := options.stdin;
    c.stdout := options.stdout;
    c.stderr := options.stderr;
  }
}
