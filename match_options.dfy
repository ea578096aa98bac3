/**
 * The worker filter: `MatchOptions`, the functional options that fill it in,
 * and `Match`, which accepts a worker as soon as ANY one of the criteria that
 * are set holds (a disjunction, not a conjunction).
 */
module Matching {
  import opened Optional
  import opened Worker

  datatype MatchOptions = MatchOptions(
    ids: seq<string>,
    cmds: seq<string>,
    status: Option<Status>,
    hasError: bool,
    matchAll: bool)

  /** Go's zero `MatchOptions{}`: no ids, no commands, no status, both flags false. */
  const NoMatchOptions := MatchOptions([], [], None, false, false)

  /** One `MatchOption` closure, by the constructor that made it. */
  datatype MatchOption =
    | WithIDs(ids: seq<string>)
    | WithCmds(cmds: seq<string>)
    | WithStatus(status: Status)
    | WithHasError(hasError: bool)
    | WithMatchAll

  /** Running one option on the options: it overwrites its own field and no other. */
  function Apply(o: MatchOptions, opt: MatchOption): (r: MatchOptions)
    ensures r.ids == (if opt.WithIDs? then opt.ids else o.ids)
    ensures r.cmds == (if opt.WithCmds? then opt.cmds else o.cmds)
    ensures r.status == (if opt.WithStatus? then Some(opt.status) else o.status)
    ensures r.hasError == (if opt.WithHasError? then opt.hasError else o.hasError)
    ensures r.matchAll == (opt.WithMatchAll? || o.matchAll)
  {
    match opt
    case WithIDs(ids) => o.(ids := ids)
    case WithCmds(cmds) => o.(cmds := cmds)
    case WithStatus(s) => o.(status := Some(s))
    case WithHasError(b) => o.(hasError := b)
    case WithMatchAll => o.(matchAll := true)
  }

  /** The options in order, each applied to what the earlier ones left. */
  function ApplyAll(start: MatchOptions, opts: seq<MatchOption>): MatchOptions
    decreases |opts|
  {
    if opts == [] then start else Apply(ApplyAll(start, opts[..|opts| - 1]), opts[|opts| - 1])
  }

  /** `NewMatchOptions`: start from the zero value and run every option in order. */
  method NewMatchOptions(opts: seq<MatchOption>) returns (options: MatchOptions)
    ensures options == ApplyAll(NoMatchOptions, opts)
    ensures opts == [] ==> options == NoMatchOptions
  {
    options := NoMatchOptions;
    for i := 0 to |opts|
      invariant options == ApplyAll(NoMatchOptions, opts[..i])
    {
      assert opts[..i + 1][..i] == opts[..i];
      options := Apply(options, opts[i]);
    }
    assert opts[..|opts|] == opts;
  }

  /**
   * A later `WithIDs` replaces the list an earlier one set instead of extending
   * it: the ids are those of the last `WithIDs`, or the starting ones if there
   * is none.
   */
  lemma {:induction false} LastIDsWin(start: MatchOptions, opts: seq<MatchOption>, j: nat)
    requires j < |opts| && opts[j].WithIDs?
    requires forall i :: j < i < |opts| ==> !opts[i].WithIDs?
    ensures ApplyAll(start, opts).ids == opts[j].ids
    decreases |opts|
  {
    if j < |opts| - 1 {
      LastIDsWin(start, opts[..|opts| - 1], j);
    }
  }

  /** The same for `WithCmds`. */
  lemma {:induction false} LastCmdsWin(start: MatchOptions, opts: seq<MatchOption>, j: nat)
    requires j < |opts| && opts[j].WithCmds?
    requires forall i :: j < i < |opts| ==> !opts[i].WithCmds?
    ensures ApplyAll(start, opts).cmds == opts[j].cmds
    decreases |opts|
  {
    if j < |opts| - 1 {
      LastCmdsWin(start, opts[..|opts| - 1], j);
    }
  }

  /** Without any `WithIDs` the starting ids survive every option. */
  lemma {:induction false} IDsUntouched(start: MatchOptions, opts: seq<MatchOption>)
    requires forall i :: 0 <= i < |opts| ==> !opts[i].WithIDs?
    ensures ApplyAll(start, opts).ids == start.ids
    decreases |opts|
  {
    if opts != [] {
      IDsUntouched(start, opts[..|opts| - 1]);
    }
  }

  /** `Match`: the checks in the order Go's `Match` makes them, each one enough on its own. */
  function Match(o: MatchOptions, w: WorkerView): bool {
    if o.matchAll then true
    else if w.id in o.ids then true
    else if w.cmd in o.cmds then true
    else if o.status.Some? && o.status.value == w.status then true
    else if o.hasError && w.error.Some? then true
    else false
  }

  /** `stringInSlice`: a linear search that stops at the first equal element. */
  method StringInSlice(t: string, slice: seq<string>) returns (found: bool)
    ensures found <==> t in slice
  {
    for i := 0 to |slice|
      invariant t !in slice[..i]
    {
      if slice[i] == t {
        return true;
      }
    }
    assert slice[..|slice|] == slice;
    return false;
  }

  /** `Match` on a live worker, reading it through its getters and searching the lists with `StringInSlice`. */
  method Matches(o: MatchOptions, sp: Subproc) returns (b: bool)
    ensures b == Match(o, sp.View())
  {
    if o.matchAll {
      return true;
    }
    var inIDs := StringInSlice(sp.id, o.ids);
    if inIDs {
      return true;
    }
    var inCmds := StringInSlice(sp.cmd, o.cmds);
    if inCmds {
      return true;
    }
    if o.status.Some? && o.status.value == sp.status {
      return true;
    }
    if o.hasError && sp.error.Some? {
      return true;
    }
    return false;
  }

  /** One criterion a `MatchOptions` value sets. */
  datatype Criterion = ById(id: string) | ByCmd(cmd: string) | ByStatus(status: Status) | WithAnyError | Everything

  /** The criteria the options set: one per listed id and command, the status if set, and the two flags if true. */
  function Criteria(o: MatchOptions): set<Criterion> {
    (set id | id in o.ids :: ById(id))
    + (set c | c in o.cmds :: ByCmd(c))
    + (if o.status.Some? then {ByStatus(o.status.value)} else {})
    + (if o.hasError then {WithAnyError} else {})
    + (if o.matchAll then {Everything} else {})
  }

  predicate Meets(w: WorkerView, c: Criterion) {
    match c
    case ById(id) => w.id == id
    case ByCmd(cmd) => w.cmd == cmd
    case ByStatus(s) => w.status == s
    case WithAnyError => w.error.Some?
    case Everything => true
  }

  /** `Match` holds exactly when the worker meets at least one of the criteria that are set. */
  lemma MatchIsDisjunction(o: MatchOptions, w: WorkerView)
    ensures Match(o, w) <==> exists c :: c in Criteria(o) && Meets(w, c)
  {
    if Match(o, w) {
      var c :=
        if o.matchAll then Everything
        else if w.id in o.ids then ById(w.id)
        else if w.cmd in o.cmds then ByCmd(w.cmd)
        else if o.status.Some? && o.status.value == w.status then ByStatus(w.status)
        else WithAnyError;
      assert c in Criteria(o) && Meets(w, c);
    }
    if exists c :: c in Criteria(o) && Meets(w, c) {
      var c :| c in Criteria(o) && Meets(w, c);
      match c
      case ById(id) => assert id in o.ids;
      case ByCmd(cmd) => assert cmd in o.cmds;
      case ByStatus(s) => assert o.status == Some(s);
      case WithAnyError => assert o.hasError;
      case Everything => assert o.matchAll;
    }
  }

  /** Setting more criteria can only enlarge the set of matched workers. */
  lemma MatchMonotonic(o: MatchOptions, o': MatchOptions, w: WorkerView)
    requires Criteria(o) <= Criteria(o')
    ensures Match(o, w) ==> Match(o', w)
  {
    MatchIsDisjunction(o, w);
    MatchIsDisjunction(o', w);
  }

  /** `WithMatchAll`, `WithHasError(true)` and a `WithIDs` or `WithCmds` that keeps the old entries add criteria and remove none. */
  lemma AddingCriteriaEnlarges(o: MatchOptions, opt: MatchOption, w: WorkerView)
    requires || opt == WithMatchAll
             || opt == WithHasError(true)
             || (opt.WithIDs? && forall id :: id in o.ids ==> id in opt.ids)
             || (opt.WithCmds? && forall c :: c in o.cmds ==> c in opt.cmds)
    ensures Criteria(o) <= Criteria(Apply(o, opt))
    ensures Match(o, w) ==> Match(Apply(o, opt), w)
  {
    var r := Apply(o, opt);
    forall c | c in Criteria(o) ensures c in Criteria(r) {
      match c
      case ById(id) => assert id in r.ids;
      case ByCmd(cmd) => assert cmd in r.cmds;
      case ByStatus(s) =>
      case WithAnyError =>
      case Everything =>
    }
    MatchMonotonic(o, r, w);
  }

  /** `WithHasError(false)` never makes a worker match that did not match before. */
  lemma NoErrorFlagAddsNothing(o: MatchOptions, w: WorkerView)
    ensures Criteria(Apply(o, WithHasError(false))) <= Criteria(o)
    ensures Match(Apply(o, WithHasError(false)), w) ==> Match(o, w)
  {
    var r := Apply(o, WithHasError(false));
    forall c | c in Criteria(r) ensures c in Criteria(o) {
      match c
      case ById(id) => assert id in o.ids;
      case ByCmd(cmd) => assert cmd in o.cmds;
      case ByStatus(s) =>
      case WithAnyError =>
      case Everything =>
    }
    MatchMonotonic(r, o, w);
  }

  /** With `MatchAll` every worker matches; with no option at all none does. */
  lemma MatchAllAndNothing(opts: seq<MatchOption>, w: WorkerView)
    requires WithMatchAll in opts
    ensures Match(ApplyAll(NoMatchOptions, opts), w)
    ensures !Match(ApplyAll(NoMatchOptions, []), w)
  {
    MatchAllSticks(NoMatchOptions, opts);
  }

  /** Once an option sets `MatchAll`, no later option clears it. */
  lemma {:induction false} MatchAllSticks(start: MatchOptions, opts: seq<MatchOption>)
    requires WithMatchAll in opts
    ensures ApplyAll(start, opts).matchAll
    decreases |opts|
  {
    var last := opts[|opts| - 1];
    if last != WithMatchAll {
      assert opts == opts[..|opts| - 1] + [last];
      assert WithMatchAll in opts[..|opts| - 1];
      MatchAllSticks(start, opts[..|opts| - 1]);
    }
  }
}
