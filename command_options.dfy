/**
 * The child-process configuration bundle (`CmdOptions`) and the functional
 * options that build it: defaults first, then the options left to right,
 * each option overwriting exactly one field.
 */
module CommandOptions {
  import opened Optional

  /** An `io.Reader` / `io.Writer`: nil, one of the host's own streams, or one the caller supplies. */
  datatype Stream = NoStream | HostStdin | HostStdout | HostStderr | Supplied(handle: nat)

  /**
   * A `func() error` value. `NilHook` is Go's nil func, `NoOpHook` the default
   * `func() error { return nil }`, `UserHook` a caller's closure (its result is
   * an input of the run), and `Tracked(inner)` the wrapper the manager installs:
   * it joins the manager's drain group, then calls `inner` when it is not nil.
   */
  datatype Hook = NilHook | NoOpHook | UserHook(name: nat) | Tracked(inner: Hook)

  /**
   * A `func(error)` value. `Released(inner)` is the manager's wrapper: it calls
   * `inner` when it is not nil, then leaves the manager's drain group.
   */
  datatype Finalizer = NilFinalizer | NoOpFinalizer | UserFinalizer(name: nat) | Released(inner: Finalizer)

  /** An `*os.File`, by descriptor. */
  type File = nat

  datatype CmdOptions = CmdOptions(
    commandLineArguments: seq<string>,
    environment: seq<string>,
    stdin: Stream,
    stdout: Stream,
    stderr: Stream,
    response: Option<nat>,
    startBefore: Hook,
    startAfter: Hook,
    waitBefore: Hook,
    waitAfter: Hook,
    finalHook: Finalizer,
    extraFiles: seq<File>,
    preHook: Hook,
    postHook: Hook)

  /** `defaultCmdOptions`: the host's stdio, hooks that return nil, a final hook that does nothing. */
  const DefaultCmdOptions: CmdOptions :=
    CmdOptions([], [], HostStdin, HostStdout, HostStderr, None,
               NoOpHook, NoOpHook, NoOpHook, NoOpHook, NoOpFinalizer, [], NilHook, NilHook)

  /** Go's zero value `CmdOptions{}`: every slice, stream and func is nil. */
  const ZeroCmdOptions: CmdOptions :=
    CmdOptions([], [], NoStream, NoStream, NoStream, None,
               NilHook, NilHook, NilHook, NilHook, NilFinalizer, [], NilHook, NilHook)

  /** One `CmdOption` closure, named by the setter that made it and holding the value it stores. */
  datatype CmdOption =
    | CommandLineArguments(args: seq<string>)
    | Environment(envs: seq<string>)
    | Stdin(reader: Stream)
    | Stdout(writer: Stream)
    | Stderr(writer: Stream)
    | Response(slot: Option<nat>)
    | StartBefore(hook: Hook)
    | StartAfter(hook: Hook)
    | WaitBefore(hook: Hook)
    | WaitAfter(hook: Hook)
    | FinalHook(finalizer: Finalizer)
    | ExtraFiles(files: seq<File>)
    | PreHook(hook: Hook)
    | PostHook(hook: Hook)

  /** The fields of `CmdOptions`. */
  datatype Field =
    | ArgumentsField | EnvironmentField | StdinField | StdoutField | StderrField | ResponseField
    | StartBeforeField | StartAfterField | WaitBeforeField | WaitAfterField | FinalHookField
    | ExtraFilesField | PreHookField | PostHookField

  /** The one field an option writes. */
  function FieldOf(opt: CmdOption): Field {
    match opt
    case CommandLineArguments(_) => ArgumentsField
    case Environment(_) => EnvironmentField
    case Stdin(_) => StdinField
    case Stdout(_) => StdoutField
    case Stderr(_) => StderrField
    case Response(_) => ResponseField
    case StartBefore(_) => StartBeforeField
    case StartAfter(_) => StartAfterField
    case WaitBefore(_) => WaitBeforeField
    case WaitAfter(_) => WaitAfterField
    case FinalHook(_) => FinalHookField
    case ExtraFiles(_) => ExtraFilesField
    case PreHook(_) => PreHookField
    case PostHook(_) => PostHookField
  }

  /** The current value of field `f`, written as the option that would store it. */
  function Get(o: CmdOptions, f: Field): (opt: CmdOption)
    ensures FieldOf(opt) == f
  {
    match f
    case ArgumentsField => CommandLineArguments(o.commandLineArguments)
    case EnvironmentField => Environment(o.environment)
    case StdinField => Stdin(o.stdin)
    case StdoutField => Stdout(o.stdout)
    case StderrField => Stderr(o.stderr)
    case ResponseField => Response(o.response)
    case StartBeforeField => StartBefore(o.startBefore)
    case StartAfterField => StartAfter(o.startAfter)
    case WaitBeforeField => WaitBefore(o.waitBefore)
    case WaitAfterField => WaitAfter(o.waitAfter)
    case FinalHookField => FinalHook(o.finalHook)
    case ExtraFilesField => ExtraFiles(o.extraFiles)
    case PreHookField => PreHook(o.preHook)
    case PostHookField => PostHook(o.postHook)
  }

  /** Running one option closure on `*CmdOptions`: it stores its value in its own field, and only there. */
  function Apply(o: CmdOptions, opt: CmdOption): (r: CmdOptions)
    ensures Get(r, FieldOf(opt)) == opt
    ensures forall f :: f != FieldOf(opt) ==> Get(r, f) == Get(o, f)
  {
    match opt
    case CommandLineArguments(args) => o.(commandLineArguments := args)
    case Environment(envs) => o.(environment := envs)
    case Stdin(reader) => o.(stdin := reader)
    case Stdout(writer) => o.(stdout := writer)
    case Stderr(writer) => o.(stderr := writer)
    case Response(slot) => o.(response := slot)
    case StartBefore(hook) => o.(startBefore := hook)
    case StartAfter(hook) => o.(startAfter := hook)
    case WaitBefore(hook) => o.(waitBefore := hook)
    case WaitAfter(hook) => o.(waitAfter := hook)
    case FinalHook(finalizer) => o.(finalHook := finalizer)
    case ExtraFiles(files) => o.(extraFiles := files)
    case PreHook(hook) => o.(preHook := hook)
    case PostHook(hook) => o.(postHook := hook)
  }

  /** The options applied to `start` left to right (a left fold, peeled from the last option). */
  function ApplyAll(start: CmdOptions, opts: seq<CmdOption>): CmdOptions
    decreases |opts|
  {
    if opts == [] then start else Apply(ApplyAll(start, opts[..|opts| - 1]), opts[|opts| - 1])
  }

  /** The last option in `opts` that writes field `f`, if any. */
  function LastFor(opts: seq<CmdOption>, f: Field): (r: Option<CmdOption>)
    ensures r.Some? ==> FieldOf(r.value) == f && r.value in opts
    decreases |opts|
  {
    if opts == [] then None
    else if FieldOf(opts[|opts| - 1]) == f then Some(opts[|opts| - 1])
    else LastFor(opts[..|opts| - 1], f)
  }

  /** Two bundles that agree on every field are the same bundle. */
  lemma FieldsDetermine(a: CmdOptions, b: CmdOptions)
    requires forall f :: Get(a, f) == Get(b, f)
    ensures a == b
  {
    assert Get(a, ArgumentsField) == Get(b, ArgumentsField);
    assert Get(a, EnvironmentField) == Get(b, EnvironmentField);
    assert Get(a, StdinField) == Get(b, StdinField);
    assert Get(a, StdoutField) == Get(b, StdoutField);
    assert Get(a, StderrField) == Get(b, StderrField);
    assert Get(a, ResponseField) == Get(b, ResponseField);
    assert Get(a, StartBeforeField) == Get(b, StartBeforeField);
    assert Get(a, StartAfterField) == Get(b, StartAfterField);
    assert Get(a, WaitBeforeField) == Get(b, WaitBeforeField);
    assert Get(a, WaitAfterField) == Get(b, WaitAfterField);
    assert Get(a, FinalHookField) == Get(b, FinalHookField);
    assert Get(a, ExtraFilesField) == Get(b, ExtraFilesField);
    assert Get(a, PreHookField) == Get(b, PreHookField);
    assert Get(a, PostHookField) == Get(b, PostHookField);
  }

  /** Of two options for the same field, the later one wins outright. */
  lemma LaterOptionOverrides(o: CmdOptions, first: CmdOption, second: CmdOption)
    requires FieldOf(first) == FieldOf(second)
    ensures Apply(Apply(o, first), second) == Apply(o, second)
  {
    FieldsDetermine(Apply(Apply(o, first), second), Apply(o, second));
  }

  /** After applying `opts`, every field holds what the last option for it stored, or its starting value. */
  lemma {:induction false} LastOptionWins(start: CmdOptions, opts: seq<CmdOption>, f: Field)
    ensures Get(ApplyAll(start, opts), f) == match LastFor(opts, f) { case Some(opt) => opt case None => Get(start, f) }
    decreases |opts|
  {
    if opts != [] {
      LastOptionWins(start, opts[..|opts| - 1], f);
    }
  }

  /** Options that never write field `f` leave it as it started. */
  lemma UntouchedFieldKeepsStart(start: CmdOptions, opts: seq<CmdOption>, f: Field)
    requires forall opt :: opt in opts ==> FieldOf(opt) != f
    ensures Get(ApplyAll(start, opts), f) == Get(start, f)
  {
    LastOptionWins(start, opts, f);
  }

  /** Appending options applies them after the earlier ones. */
  lemma {:induction false} ApplyAllAppend(start: CmdOptions, a: seq<CmdOption>, b: seq<CmdOption>)
    ensures ApplyAll(start, a + b) == ApplyAll(ApplyAll(start, a), b)
    decreases |b|
  {
    if b == [] {
      assert a + b == a;
    } else {
      assert (a + b)[..|a + b| - 1] == a + b[..|b| - 1];
      ApplyAllAppend(start, a, b[..|b| - 1]);
    }
  }

  /** One more option is one more application. */
  lemma ApplyAllSnoc(start: CmdOptions, opts: seq<CmdOption>, opt: CmdOption)
    ensures ApplyAll(start, opts + [opt]) == Apply(ApplyAll(start, opts), opt)
  {
    assert (opts + [opt])[..|opts|] == opts;
  }

  /** A pre-hook and a final hook appended to the options are the ones the bundle ends up with; the post-hook is untouched. */
  lemma TrailingHooksWin(start: CmdOptions, opts: seq<CmdOption>, pre: Hook, fin: Finalizer)
    ensures var o := ApplyAll(start, opts + [PreHook(pre), FinalHook(fin)]);
      o.preHook == pre && o.finalHook == fin && o.postHook == ApplyAll(start, opts).postHook
  {
    assert opts + [PreHook(pre), FinalHook(fin)] == (opts + [PreHook(pre)]) + [FinalHook(fin)];
    ApplyAllSnoc(start, opts + [PreHook(pre)], FinalHook(fin));
    ApplyAllSnoc(start, opts, PreHook(pre));
  }

  /** The loop `for _, opt := range opts { opt(&options) }`, shared by every builder of `CmdOptions`. */
  method Build(start: CmdOptions, opts: seq<CmdOption>) returns (options: CmdOptions)
    ensures options == ApplyAll(start, opts)
  {
    options := start;
    for i := 0 to |opts|
      invariant options == ApplyAll(start, opts[..i])
    {
      assert opts[..i + 1][..i] == opts[..i];
      options := Apply(options, opts[i]);
    }
    assert opts[..|opts|] == opts;
  }

  /** `NewCmdOption`: a copy of the defaults with the options applied left to right. */
  method NewCmdOption(opts: seq<CmdOption>) returns (options: CmdOptions)
    ensures options == ApplyAll(DefaultCmdOptions, opts)
    ensures forall f :: Get(options, f) == match LastFor(opts, f) { case Some(opt) => opt case None => Get(DefaultCmdOptions, f) }
  {
    options := Build(DefaultCmdOptions, opts);
    forall f ensures Get(options, f) == match LastFor(opts, f) { case Some(opt) => opt case None => Get(DefaultCmdOptions, f) } {
      LastOptionWins(DefaultCmdOptions, opts, f);
    }
  }
}
