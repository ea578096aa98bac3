/**
 * The worker collection (`subProcManager`): a map from command name to the
 * ordered list of workers started for it, and a one-shot closed flag.
 *
 * Starting a worker's goroutine, the lock and the wait group are not modelled;
 * the uuid generator is the manager's `uuid` oracle, whose `minted`-th value
 * the next new worker receives.
 */
module Manager {
  import opened Optional
  import opened CommandOptions
  import opened Command
  import opened Worker

  /** The error `Run` and `ParallelismRun` return once the manager is closed. */
  const ClosedError := "SubProcManager is closed"

  /** The workers of a list, as a set. */
  ghost function Elems(l: seq<Subproc>): set<Subproc> {
    set w | w in l
  }

  /** `m[c]`: a missing key reads as the nil slice. */
  function Lookup(m: map<string, seq<Subproc>>, c: string): (l: seq<Subproc>)
    ensures c in m ==> l == m[c]
    ensures c !in m ==> l == []
  {
    if c in m then m[c] else []
  }

  /** Every worker the map holds. */
  ghost function AllWorkers(m: map<string, seq<Subproc>>): set<Subproc> {
    set c, w | c in m && w in m[c] :: w
  }

  // ---------------------------------------------------------------------------
  // The options a supervised worker is given
  // ---------------------------------------------------------------------------

  /**
   * `newSubProc`: the caller's options, then a pre-hook that joins the drain
   * group before running the caller's pre-hook, and a final hook that runs the
   * caller's final hook before leaving it. The caller's hooks are read from
   * the options applied to Go's zero `CmdOptions`.
   */
  function Supervised(opts: seq<CmdOption>): (r: seq<CmdOption>)
    ensures |r| == |opts| + 2 && r[..|opts|] == opts
  {
    var z := ApplyAll(ZeroCmdOptions, opts);
    opts + [PreHook(Tracked(z.preHook)), FinalHook(Released(z.finalHook))]
  }

  /** An option a caller can write: the drain wrappers only come from `newSubProc`. */
  predicate CallerOption(opt: CmdOption) {
    match opt
    case PreHook(h) => !h.Tracked?
    case PostHook(h) => !h.Tracked?
    case FinalHook(g) => !g.Released?
    case _ => true
  }

  /** Under caller options, the hook in field `f` after the options is the starting one or one the caller wrote. */
  lemma CallerHooksStayUnwrapped(start: CmdOptions, opts: seq<CmdOption>)
    requires forall opt :: opt in opts ==> CallerOption(opt)
    ensures var o := ApplyAll(start, opts);
      && (o.preHook == start.preHook || !o.preHook.Tracked?)
      && (o.postHook == start.postHook || !o.postHook.Tracked?)
      && (o.finalHook == start.finalHook || !o.finalHook.Released?)
  {
    LastOptionWins(start, opts, PreHookField);
    LastOptionWins(start, opts, PostHookField);
    LastOptionWins(start, opts, FinalHookField);
  }

  /** The supervised options end with the two wrappers around the caller's own hooks, and keep the caller's post-hook. */
  lemma SupervisedHooks(opts: seq<CmdOption>)
    ensures var z, base, o := ApplyAll(ZeroCmdOptions, opts), ApplyAll(DefaultCmdOptions, opts), ApplyAll(DefaultCmdOptions, Supervised(opts));
      o.preHook == Tracked(z.preHook) && o.finalHook == Released(z.finalHook) && o.postHook == base.postHook
  {
    var z := ApplyAll(ZeroCmdOptions, opts);
    TrailingHooksWin(DefaultCmdOptions, opts, Tracked(z.preHook), Released(z.finalHook));
  }

  /**
   * Every run of a supervised worker's command whose pipe opens joins the
   * manager's drain group exactly as often as it leaves it, so `Stop`'s
   * `wg.Wait` is not left waiting on a command that finished.
   */
  lemma SupervisedRunBalances(opts: seq<CmdOption>, w: World)
    requires forall opt :: opt in opts ==> CallerOption(opt)
    ensures DrainBalance(RunSpec(ApplyAll(DefaultCmdOptions, Supervised(opts)), w).events) == 0
  {
    CallerHooksStayUnwrapped(ZeroCmdOptions, opts);
    CallerHooksStayUnwrapped(DefaultCmdOptions, opts);
    SupervisedHooks(opts);
    DrainBalanced(ApplyAll(DefaultCmdOptions, Supervised(opts)), w);
  }

  /**
   * Ids are `cmd + "-" + uuid`: with uuids of one length, two ids are equal
   * exactly when both the commands and the uuids are.
   */
  lemma IdsDistinguishWorkers(c1: string, c2: string, u1: string, u2: string)
    requires |u1| == |u2|
    ensures (c1 + "-" + u1 == c2 + "-" + u2) <==> (c1 == c2 && u1 == u2)
  {
    if c1 + "-" + u1 == c2 + "-" + u2 {
      var a, b := c1 + "-" + u1, c2 + "-" + u2;
      assert |c1| == |c2|;
      assert c1 == a[..|c1|] && c2 == b[..|c2|];
      assert u1 == a[|c1| + 1..] && u2 == b[|c2| + 1..];
    }
  }

  // ---------------------------------------------------------------------------
  // What `kill` leaves
  // ---------------------------------------------------------------------------

  /** The workers of `l` that `selected` rejects, in their original order. */
  function Survivors(l: seq<Subproc>, selected: Subproc -> bool): (r: seq<Subproc>)
    ensures |r| <= |l|
    ensures forall w :: w in r ==> w in l && !selected(w)
    ensures forall w :: w in l && !selected(w) ==> w in r
  {
    if l == [] then [] else (if selected(l[0]) then [] else [l[0]]) + Survivors(l[1..], selected)
  }

  /** The survivors of a concatenation are the survivors of each part, in order. */
  lemma {:induction false} SurvivorsAppend(a: seq<Subproc>, b: seq<Subproc>, selected: Subproc -> bool)
    ensures Survivors(a + b, selected) == Survivors(a, selected) + Survivors(b, selected)
    decreases |a|
  {
    if a == [] {
      assert a + b == b;
    } else {
      assert (a + b)[1..] == a[1..] + b;
      SurvivorsAppend(a[1..], b, selected);
    }
  }

  /** A list with no matching worker survives whole; one whose every worker matches is emptied. */
  lemma {:induction false} SurvivorsExtremes(l: seq<Subproc>, selected: Subproc -> bool)
    ensures (forall w :: w in l ==> !selected(w)) ==> Survivors(l, selected) == l
    ensures (forall w :: w in l ==> selected(w)) ==> Survivors(l, selected) == []
    decreases |l|
  {
    if l != [] {
      assert forall w :: w in l[1..] ==> w in l;
      SurvivorsExtremes(l[1..], selected);
    }
  }

  /**
   * The map after the sweep of the keys in `done`: each swept list keeps its
   * survivors, and a swept key goes when its non-empty list lost every worker.
   */
  function KilledOn(m: map<string, seq<Subproc>>, selected: Subproc -> bool, swept: set<string>): (r: map<string, seq<Subproc>>)
    ensures r.Keys <= m.Keys
    ensures forall c :: c in m && c !in swept ==> c in r && r[c] == m[c]
  {
    map c | c in m && (c !in swept || m[c] == [] || Survivors(m[c], selected) != [])
      :: if c in swept then Survivors(m[c], selected) else m[c]
  }

  /** `kill(selected)`: every key swept. */
  function Killed(m: map<string, seq<Subproc>>, selected: Subproc -> bool): map<string, seq<Subproc>> {
    KilledOn(m, selected, m.Keys)
  }

  /** `Kill`'s closure: the worker's id is one of `ids`. */
  function HasIDIn(ids: seq<string>): Subproc -> bool {
    (w: Subproc) => w.id in ids
  }

  /** `KillCmd`'s closure: the worker's command is one of `cmds`. */
  function HasCmdIn(cmds: seq<string>): Subproc -> bool {
    (w: Subproc) => w.cmd in cmds
  }

  /** `Killall`'s closure. */
  function Everyone(): Subproc -> bool {
    (w: Subproc) => true
  }

  /** No command is mapped to an empty list. */
  predicate NoEmptyLists(m: map<string, seq<Subproc>>) {
    forall c :: c in m ==> m[c] != []
  }

  /** Every worker sits under its own command. */
  predicate Keyed(m: map<string, seq<Subproc>>) {
    forall c, w :: c in m && w in m[c] ==> w.cmd == c
  }

  /** `kill` keeps exactly the workers `selected` rejects, in order, and removes only the keys whose lists it emptied. */
  lemma KilledKeepsSurvivors(m: map<string, seq<Subproc>>, selected: Subproc -> bool, c: string)
    requires c in m
    ensures c in Killed(m, selected) <==> (m[c] == [] || exists w :: w in m[c] && !selected(w))
    ensures c in Killed(m, selected) ==> Killed(m, selected)[c] == Survivors(m[c], selected)
  {
    var r := Survivors(m[c], selected);
    if (exists w :: w in m[c] && !selected(w)) {
      var w :| w in m[c] && !selected(w);
      assert w in r;
    }
    if r != [] {
      assert r[0] in r;
    }
  }

  /** A command none of whose workers match keeps its list as it was. */
  lemma KilledLeavesUnmatched(m: map<string, seq<Subproc>>, selected: Subproc -> bool, c: string)
    requires c in m && forall w :: w in m[c] ==> !selected(w)
    ensures c in Killed(m, selected) && Killed(m, selected)[c] == m[c]
  {
    SurvivorsExtremes(m[c], selected);
  }

  /** `Killall` leaves only the keys that were already mapped to empty lists; without those the map ends empty. */
  lemma KillallEmpties(m: map<string, seq<Subproc>>)
    ensures Killed(m, Everyone()) == map c | c in m && m[c] == [] :: []
    ensures NoEmptyLists(m) ==> Killed(m, Everyone()) == map[]
  {
    forall c | c in m ensures Survivors(m[c], Everyone()) == [] {
      SurvivorsExtremes(m[c], Everyone());
    }
  }

  /**
   * `KillCmd(cmds)` on a map whose workers sit under their own commands drops
   * the listed commands that had workers and leaves every other list as it was.
   */
  lemma KillCmdDropsCommands(m: map<string, seq<Subproc>>, cmds: seq<string>)
    requires Keyed(m)
    ensures forall c :: c in m && c !in cmds ==> c in Killed(m, HasCmdIn(cmds)) && Killed(m, HasCmdIn(cmds))[c] == m[c]
    ensures forall c :: c in m && c in cmds ==> (c in Killed(m, HasCmdIn(cmds)) <==> m[c] == [])
  {
    forall c | c in m
      ensures c !in cmds ==> c in Killed(m, HasCmdIn(cmds)) && Killed(m, HasCmdIn(cmds))[c] == m[c]
      ensures c in cmds ==> (c in Killed(m, HasCmdIn(cmds)) <==> m[c] == [])
    {
      SurvivorsExtremes(m[c], HasCmdIn(cmds));
    }
  }

  /** `kill` keeps the two invariants: no empty list and every worker under its own command. */
  lemma KilledKeepsInvariants(m: map<string, seq<Subproc>>, selected: Subproc -> bool)
    ensures NoEmptyLists(m) ==> NoEmptyLists(Killed(m, selected))
    ensures Keyed(m) ==> Keyed(Killed(m, selected))
  {
  }

  /**
   * Which uuid, counted from the first one `ParallelismRun` mints, ends up in
   * slot `j` when a list of `cur` workers is resized to `size`: the grown tail
   * is minted first, then the reloaded old slots in order.
   */
  function UuidSlot(cur: nat, size: nat, j: nat): nat {
    if j >= cur then j - cur else (if size > cur then size - cur else 0) + j
  }

  /** A result of `ParallelismRun`: Go's `return`, or the panic a negative target size causes when slicing. */
  datatype Completion = Returned(err: Option<string>) | Panicked(reason: string)

  function Min(a: int, b: int): (r: int)
    ensures r <= a && r <= b && (r == a || r == b)
  {
    if a > b then b else a
  }

  class SubProcManager {
    var subprocs: map<string, seq<Subproc>>
    /** The `done` channel: closed or not. */
    var done: bool
    /** The uuid generator, and how many uuids it has handed out. */
    const uuid: nat -> string
    var minted: nat

    ghost function Workers(): set<Subproc>
      reads this
    {
      AllWorkers(subprocs)
    }

    /** The manager's invariant: every worker sits under the command it was started for. */
    ghost predicate Valid()
      reads this
    {
      Keyed(subprocs)
    }

    /** `NewSubProcManager`. */
    constructor (uuid: nat -> string)
      ensures subprocs == map[] && !done && this.uuid == uuid && minted == 0
      ensures Valid()
    {
      subprocs := map[];
      done := false;
      this.uuid := uuid;
      minted := 0;
    }

    /** `isStopped`. */
    predicate IsStopped()
      reads this
    {
      done
    }

    /** A worker as `newSubProc` configures it: its command, the supervised options and the `k`-th uuid. */
    ghost predicate Minted(sp: Subproc, cmd: string, opts: seq<CmdOption>, k: nat) {
      sp.cmd == cmd && sp.options == Supervised(opts) && sp.id == cmd + "-" + uuid(k)
    }

    /** `made[j]` is the worker minted `j` calls after the `k`-th, for every slot. */
    ghost predicate MintedRun(made: seq<Subproc>, cmd: string, opts: seq<CmdOption>, k: nat) {
      forall j :: 0 <= j < |made| ==> Minted(made[j], cmd, opts, k + j)
    }

    /** The next worker minted extends the run by one slot. */
    lemma MintedRunExtends(made: seq<Subproc>, sp: Subproc, cmd: string, opts: seq<CmdOption>, k: nat)
      requires MintedRun(made, cmd, opts, k) && Minted(sp, cmd, opts, k + |made|)
      ensures MintedRun(made + [sp], cmd, opts, k)
    {
      assert forall j :: 0 <= j < |made| ==> (made + [sp])[j] == made[j];
    }

    /** A worker whose restart loop has not begun: `Creating`, no restarts, no error, not stopped. */
    ghost predicate Unstarted(sp: Subproc)
      reads sp
    {
      sp.Valid() && sp.status == Creating && sp.restarts == 0 && sp.error == None && !sp.done
    }

    /** `newSubProc`, collection effect only: a fresh worker with the supervised options and the next uuid. */
    method NewWorker(cmd: string, opts: seq<CmdOption>) returns (sp: Subproc)
      modifies this`minted
      ensures fresh(sp) && Minted(sp, cmd, opts, old(minted)) && Unstarted(sp)
      ensures minted == old(minted) + 1
    {
      sp := new Subproc(cmd, Supervised(opts), uuid(minted));
      minted := minted + 1;
    }

    /** `Run`: on a closed manager an error and no change; otherwise one fresh worker at the end of `cmd`'s list. */
    method Run(cmd: string, opts: seq<CmdOption>) returns (err: Option<string>)
      requires Valid()
      modifies this`subprocs, this`minted
      ensures Valid()
      ensures old(done) ==> err == Some(ClosedError) && subprocs == old(subprocs) && minted == old(minted)
      ensures !old(done) ==> (
        && err == None && minted == old(minted) + 1
        && cmd in subprocs
        && subprocs == old(subprocs)[cmd := subprocs[cmd]]
        && |subprocs[cmd]| == |Lookup(old(subprocs), cmd)| + 1
        && subprocs[cmd][..|subprocs[cmd]| - 1] == Lookup(old(subprocs), cmd)
        && fresh(subprocs[cmd][|subprocs[cmd]| - 1])
        && Minted(subprocs[cmd][|subprocs[cmd]| - 1], cmd, opts, old(minted))
        && Unstarted(subprocs[cmd][|subprocs[cmd]| - 1]))
    {
      if IsStopped() {
        return Some(ClosedError);
      }
      var sp := NewWorker(cmd, opts);
      var l := Lookup(subprocs, cmd) + [sp];
      assert l[..|l| - 1] == Lookup(subprocs, cmd);
      subprocs := subprocs[cmd := l];
      return None;
    }

    /**
     * `ParallelismRun`: resize `cmd`'s list to `parallelism` workers, then
     * replace every slot that existed before with a fresh worker. Growing mints
     * the uuids of the new tail first; the reload then mints those of the old
     * slots in order. A negative size makes Go's slicing panic before anything
     * changes.
     */
    method ParallelismRun(parallelism: int, cmd: string, opts: seq<CmdOption>) returns (c: Completion)
      requires Valid()
      modifies this`subprocs, this`minted, Elems(Lookup(subprocs, cmd))`done
      ensures Valid()
      ensures old(done) ==> c == Returned(Some(ClosedError))
      ensures !old(done) && parallelism < 0 ==> c.Panicked?
      ensures !old(done) && parallelism >= 0 ==> c == Returned(None)
      ensures c != Returned(None) ==> subprocs == old(subprocs) && minted == old(minted)
      ensures forall w :: w in old(Lookup(subprocs, cmd)) ==> w.done == (old(w.done) || c == Returned(None))
      ensures c == Returned(None) ==>
        var cur := |old(Lookup(subprocs, cmd))|;
        && parallelism >= 0
        && subprocs == (if cmd in old(subprocs) || parallelism > 0 then old(subprocs)[cmd := Lookup(subprocs, cmd)] else old(subprocs))
        && |Lookup(subprocs, cmd)| == parallelism
        && minted == old(minted) + parallelism
        && forall j :: 0 <= j < parallelism ==>
             fresh(Lookup(subprocs, cmd)[j]) && Minted(Lookup(subprocs, cmd)[j], cmd, opts, old(minted) + UuidSlot(cur, parallelism, j))
    {
      if IsStopped() {
        return Returned(Some(ClosedError));
      }
      var size := parallelism;
      var curSize := |Lookup(subprocs, cmd)|;
      if size > curSize {
        ScaleUp(cmd, opts, size, Lookup(subprocs, cmd));
      } else {
        if size < 0 {
          return Panicked("slice bounds out of range");
        }
        ScaleDown(cmd, opts, size);
      }
      return Returned(None);
    }

    /** The growing branch followed by the reload: the old workers' slots get fresh workers after the new tail has been minted. */
    method ScaleUp(cmd: string, opts: seq<CmdOption>, size: nat, ghost l: seq<Subproc>)
      requires l == Lookup(subprocs, cmd) && size > |l|
      modifies this`subprocs, this`minted, Elems(l)`done
      ensures cmd in subprocs && subprocs == old(subprocs)[cmd := subprocs[cmd]]
      ensures |subprocs[cmd]| == size && minted == old(minted) + size
      ensures forall j :: 0 <= j < |l| ==>
        fresh(subprocs[cmd][j]) && Minted(subprocs[cmd][j], cmd, opts, old(minted) + (size - |l|) + j)
      ensures forall j :: |l| <= j < size ==>
        fresh(subprocs[cmd][j]) && Minted(subprocs[cmd][j], cmd, opts, old(minted) + (j - |l|))
      ensures forall j :: 0 <= j < |l| ==> l[j].done
    {
      ghost var k0 := minted;
      var curSize := |Lookup(subprocs, cmd)|;
      Grow(cmd, opts, size - curSize);
      ghost var g := subprocs[cmd];
      ghost var k1 := minted;
      assert g[..curSize] == l;
      ReloadGrown(cmd, opts, curSize, l, g);
      ghost var r := subprocs[cmd];
      assert k1 == k0 + (size - curSize);
      forall j | curSize <= j < size
        ensures fresh(r[j]) && Minted(r[j], cmd, opts, k0 + (j - curSize))
      {
        assert r[j] == g[j];
      }
    }

    /** The reload after growing: the `curSize` old slots at the front of the grown list `g` are reseated, and its new tail is kept. */
    method ReloadGrown(cmd: string, opts: seq<CmdOption>, curSize: nat, ghost l: seq<Subproc>, ghost g: seq<Subproc>)
      requires cmd in subprocs && subprocs[cmd] == g && curSize == |l| < |g| && g[..curSize] == l
      modifies this`subprocs, this`minted, Elems(l)`done
      ensures cmd in subprocs && subprocs == old(subprocs)[cmd := subprocs[cmd]]
      ensures |subprocs[cmd]| == |g| && minted == old(minted) + curSize
      ensures forall j :: 0 <= j < curSize ==> fresh(subprocs[cmd][j]) && Minted(subprocs[cmd][j], cmd, opts, old(minted) + j)
      ensures forall j :: curSize <= j < |g| ==> subprocs[cmd][j] == g[j]
      ensures forall j :: 0 <= j < curSize ==> l[j].done
    {
      Reload(cmd, opts, Min(curSize, |Lookup(subprocs, cmd)|));
      forall j | 0 <= j < curSize
        ensures l[j].done
      {
        assert l[j] == g[j];
      }
    }

    /** The shrinking branch (when the list is longer than `size`) followed by the reload of the `size` slots that remain. */
    method ScaleDown(cmd: string, opts: seq<CmdOption>, size: nat)
      requires size <= |Lookup(subprocs, cmd)|
      modifies this`subprocs, this`minted, Elems(Lookup(subprocs, cmd))`done
      ensures subprocs == (if cmd in old(subprocs) || size > 0 then old(subprocs)[cmd := Lookup(subprocs, cmd)] else old(subprocs))
      ensures |Lookup(subprocs, cmd)| == size && minted == old(minted) + size
      ensures forall j :: 0 <= j < size ==>
        fresh(Lookup(subprocs, cmd)[j]) && Minted(Lookup(subprocs, cmd)[j], cmd, opts, old(minted) + j)
      ensures forall j :: 0 <= j < |old(Lookup(subprocs, cmd))| ==> old(Lookup(subprocs, cmd))[j].done
    {
      var curSize := |Lookup(subprocs, cmd)|;
      ghost var l := Lookup(subprocs, cmd);
      if size < curSize {
        Shrink(cmd, size);
      }
      Reload(cmd, opts, Min(curSize, |Lookup(subprocs, cmd)|));
      assert l[..size] + l[size..] == l;
    }

    /** The growing branch: `delta` fresh workers appended to `cmd`'s list. */
    method Grow(cmd: string, opts: seq<CmdOption>, delta: nat)
      requires delta > 0
      modifies this`subprocs, this`minted
      ensures var l := Lookup(old(subprocs), cmd);
        && cmd in subprocs && subprocs == old(subprocs)[cmd := subprocs[cmd]]
        && |subprocs[cmd]| == |l| + delta && subprocs[cmd][..|l|] == l
        && forall j :: |l| <= j < |l| + delta ==>
             fresh(subprocs[cmd][j]) && Minted(subprocs[cmd][j], cmd, opts, old(minted) + (j - |l|))
      ensures minted == old(minted) + delta
    {
      ghost var l := Lookup(subprocs, cmd);
      for i := 0 to delta
        invariant subprocs == if i == 0 then old(subprocs) else old(subprocs)[cmd := Lookup(subprocs, cmd)]
        invariant |Lookup(subprocs, cmd)| == |l| + i && Lookup(subprocs, cmd)[..|l|] == l
        invariant forall j :: |l| <= j < |l| + i ==>
          fresh(Lookup(subprocs, cmd)[j]) && Minted(Lookup(subprocs, cmd)[j], cmd, opts, old(minted) + (j - |l|))
        invariant minted == old(minted) + i
      {
        var sp := NewWorker(cmd, opts);
        subprocs := subprocs[cmd := Lookup(subprocs, cmd) + [sp]];
      }
    }

    /** The shrinking branch: cut `cmd`'s list to its first `size` workers and stop the rest. */
    method Shrink(cmd: string, size: nat)
      requires cmd in subprocs && size < |subprocs[cmd]|
      modifies this`subprocs, Elems(subprocs[cmd][size..])`done
      ensures subprocs == old(subprocs)[cmd := old(subprocs[cmd])[..size]]
      ensures forall j :: size <= j < |old(subprocs[cmd])| ==> old(subprocs[cmd])[j].done
    {
      ghost var l := subprocs[cmd];
      var removed := subprocs[cmd][size..];
      subprocs := subprocs[cmd := subprocs[cmd][..size]];
      for j := 0 to |removed|
        invariant subprocs == old(subprocs)[cmd := l[..size]]
        invariant forall k :: 0 <= k < j ==> removed[k].done
      {
        removed[j].Stop();
      }
    }

    /** The reload loop: stop the worker in each of the first `n` slots of `cmd`'s list and put a fresh one there. */
    method Reload(cmd: string, opts: seq<CmdOption>, n: nat)
      requires n <= |Lookup(subprocs, cmd)|
      modifies this`subprocs, this`minted, Elems(Lookup(subprocs, cmd)[..n])`done
      ensures var l := Lookup(old(subprocs), cmd);
        && subprocs == (if n == 0 then old(subprocs) else old(subprocs)[cmd := Lookup(subprocs, cmd)])
        && |Lookup(subprocs, cmd)| == |l| && (forall j :: n <= j < |l| ==> Lookup(subprocs, cmd)[j] == l[j])
        && (forall j :: 0 <= j < n ==>
              fresh(Lookup(subprocs, cmd)[j]) && Minted(Lookup(subprocs, cmd)[j], cmd, opts, old(minted) + j))
        && (forall j :: 0 <= j < n ==> l[j].done)
      ensures minted == old(minted) + n
    {
      ghost var l := Lookup(subprocs, cmd);
      ghost var made: seq<Subproc> := [];
      for i := 0 to n
        invariant |made| == i
        invariant subprocs == (if i == 0 then old(subprocs) else old(subprocs)[cmd := made + l[i..]])
        invariant forall w :: w in made ==> fresh(w)
        invariant MintedRun(made, cmd, opts, old(minted))
        invariant forall j :: 0 <= j < i ==> l[j].done
        invariant minted == old(minted) + i
      {
        assert Lookup(subprocs, cmd) == made + l[i..];
        Spliced(made, l, i);
        var sp := Reseat(cmd, opts, i, l);
        Replaced(made, l, i, sp);
        MintedRunExtends(made, sp, cmd, opts, old(minted));
        made := made + [sp];
      }
      assert n > 0 ==> Lookup(subprocs, cmd) == made + l[n..];
      forall j | 0 <= j < n
        ensures Lookup(subprocs, cmd)[j] == made[j] && made[j] in made
      {
      }
    }

    /** One round of the reload loop: stop the worker in slot `i` and put a fresh one there. */
    method Reseat(cmd: string, opts: seq<CmdOption>, i: nat, ghost l: seq<Subproc>) returns (sp: Subproc)
      requires cmd in subprocs && i < |subprocs[cmd]|
      requires i < |l| && subprocs[cmd][i] == l[i] && forall j :: 0 <= j < i ==> l[j].done
      modifies this`subprocs, this`minted, {subprocs[cmd][i]}`done
      ensures subprocs == old(subprocs)[cmd := old(subprocs[cmd])[i := sp]]
      ensures fresh(sp) && Minted(sp, cmd, opts, old(minted))
      ensures forall j :: 0 <= j <= i ==> l[j].done
      ensures minted == old(minted) + 1
    {
      var w := subprocs[cmd][i];
      w.Stop();
      sp := NewWorker(cmd, opts);
      subprocs := subprocs[cmd := subprocs[cmd][i := sp]];
    }

    /** `remove`: stop the worker at `i`, splice it out, and drop the key once its list is empty. */
    method Remove(cmd: string, i: nat)
      requires cmd in subprocs && i < |subprocs[cmd]|
      modifies this`subprocs, {subprocs[cmd][i]}`done
      ensures old(subprocs[cmd][i]).done
      ensures var l := old(subprocs[cmd])[..i] + old(subprocs[cmd])[i + 1..];
        subprocs == if l == [] then old(subprocs) - {cmd} else old(subprocs)[cmd := l]
    {
      subprocs[cmd][i].Stop();
      var l := subprocs[cmd][..i] + subprocs[cmd][i + 1..];
      subprocs := subprocs[cmd := l];
      if |subprocs[cmd]| == 0 {
        subprocs := subprocs - {cmd};
      }
    }

    /** The inner loop of `kill`: walk `cmd`'s list from the back, removing each worker `selected` accepts. */
    method Sweep(cmd: string, selected: Subproc -> bool)
      requires cmd in subprocs
      modifies this`subprocs, Elems(subprocs[cmd])`done
      ensures forall w :: w in old(subprocs[cmd]) ==> w.done == (old(w.done) || selected(w))
      ensures var l := old(subprocs[cmd]);
        subprocs == if l != [] && Survivors(l, selected) == [] then old(subprocs) - {cmd}
                    else old(subprocs)[cmd := Survivors(l, selected)]
    {
      ghost var l := subprocs[cmd];
      ghost var m0 := subprocs;
      ghost var stopped0 := set w | w in l && w.done;
      var i: int := |subprocs[cmd]| - 1;
      SweepStarts(m0, cmd, selected);
      while i >= 0
        invariant -1 <= i < |l|
        invariant subprocs == SweepState(m0, cmd, selected, i)
        invariant SweepProgress(l, stopped0, selected, i)
        decreases i + 1
      {
        Visit(cmd, selected, m0, i, stopped0);
        i := i - 1;
      }
      SweepEnds(m0, cmd, selected);
    }

    /** One step of that loop: remove the worker at index `i` when `selected` accepts it. */
    method Visit(cmd: string, selected: Subproc -> bool, ghost m0: map<string, seq<Subproc>>, i: nat, ghost stopped0: set<Subproc>)
      requires cmd in m0 && i < |m0[cmd]| && subprocs == SweepState(m0, cmd, selected, i)
      requires SweepProgress(m0[cmd], stopped0, selected, i)
      modifies this`subprocs, {m0[cmd][i]}`done
      ensures subprocs == SweepState(m0, cmd, selected, i - 1)
      ensures SweepProgress(m0[cmd], stopped0, selected, i - 1)
    {
      SweepAt(m0, cmd, selected, i);
      SweepAdvances(m0, cmd, selected, i);
      HitAdvances(m0[cmd], selected, i);
      var sp := subprocs[cmd][i];
      if selected(sp) {
        Remove(cmd, i);
      }
    }

    /** `kill(selected)`: sweep every key there was when it began, in any order. */
    method KillMatching(selected: Subproc -> bool)
      modifies this`subprocs, Workers()`done
      ensures subprocs == Killed(old(subprocs), selected)
      ensures forall w :: w in old(Workers()) ==> w.done == (old(w.done) || selected(w))
    {
      ghost var m0 := subprocs;
      ghost var stopped0 := set w | w in AllWorkers(m0) && w.done;
      ghost var swept: set<string> := {};
      ghost var processed: set<Subproc> := {};
      var keys := subprocs.Keys;
      while keys != {}
        invariant keys == m0.Keys - swept && swept <= m0.Keys
        invariant subprocs == KilledOn(m0, selected, swept)
        invariant KillProgress(m0, stopped0, selected, processed)
        invariant forall c :: c in swept ==> Elems(m0[c]) <= processed
        decreases keys
      {
        var c :| c in keys;
        ElemsInAll(m0, c);
        SweepKey(c, selected, m0, stopped0, swept, processed);
        processed := processed + Elems(m0[c]);
        swept := swept + {c};
        keys := keys - {c};
      }
      assert swept == m0.Keys;
      CoveredWorkers(m0, processed);
    }

    /** One round of `kill`'s outer loop: sweep key `c`, which nothing has touched yet, and count its workers as processed. */
    method SweepKey(c: string, selected: Subproc -> bool, ghost m0: map<string, seq<Subproc>>,
                    ghost stopped0: set<Subproc>, ghost swept: set<string>, ghost processed: set<Subproc>)
      requires c in m0 && c !in swept && subprocs == KilledOn(m0, selected, swept)
      requires KillProgress(m0, stopped0, selected, processed)
      modifies this`subprocs, Elems(m0[c])`done
      ensures subprocs == KilledOn(m0, selected, swept + {c})
      ensures KillProgress(m0, stopped0, selected, processed + Elems(m0[c]))
    {
      KilledOnStep(m0, selected, swept, c);
      ElemsInAll(m0, c);
      Sweep(c, selected);
    }

    /** `Kill(ids...)`: stop and remove the workers with one of these ids. */
    method Kill(ids: seq<string>)
      requires Valid()
      modifies this`subprocs, Workers()`done
      ensures Valid()
      ensures subprocs == Killed(old(subprocs), HasIDIn(ids))
      ensures forall w :: w in old(Workers()) ==> w.done == (old(w.done) || w.id in ids)
    {
      KilledKeepsInvariants(subprocs, HasIDIn(ids));
      KillMatching(HasIDIn(ids));
    }

    /** `KillCmd(cmds...)`: stop and remove the workers of these commands. */
    method KillCmd(cmds: seq<string>)
      requires Valid()
      modifies this`subprocs, Workers()`done
      ensures Valid()
      ensures subprocs == Killed(old(subprocs), HasCmdIn(cmds))
      ensures forall w :: w in old(Workers()) ==> w.done == (old(w.done) || w.cmd in cmds)
      ensures forall c :: c in old(subprocs) && c !in cmds ==> c in subprocs && subprocs[c] == old(subprocs)[c]
      ensures forall c :: c in old(subprocs) && c in cmds ==> (c in subprocs <==> old(subprocs)[c] == [])
    {
      KilledKeepsInvariants(subprocs, HasCmdIn(cmds));
      KillCmdDropsCommands(subprocs, cmds);
      KillMatching(HasCmdIn(cmds));
    }

    /** `Killall`: stop and remove every worker. */
    method Killall()
      requires Valid()
      modifies this`subprocs, Workers()`done
      ensures Valid()
      ensures subprocs == Killed(old(subprocs), Everyone())
      ensures forall w :: w in old(Workers()) ==> w.done
    {
      KilledKeepsInvariants(subprocs, Everyone());
      KillMatching(Everyone());
    }

    /** `List`: a new map with the same keys and lists; nothing changes. */
    method List() returns (list: map<string, seq<Subproc>>)
      ensures list == subprocs
    {
      list := map[];
      var keys := subprocs.Keys;
      while keys != {}
        invariant keys <= subprocs.Keys
        invariant list == KeysOf(subprocs, subprocs.Keys - keys)
        decreases keys
      {
        var c :| c in keys;
        list := list[c := subprocs[c]];
        keys := keys - {c};
      }
      assert subprocs.Keys - keys == subprocs.Keys;
    }

    /** `Stop`: the first call closes the manager and kills every worker; later calls change nothing. */
    method Stop()
      requires Valid()
      modifies this`done, this`subprocs, Workers()`done
      ensures Valid()
      ensures done
      ensures old(done) ==> subprocs == old(subprocs)
      ensures !old(done) ==> subprocs == Killed(old(subprocs), Everyone())
      ensures forall w :: w in old(Workers()) ==> w.done == (old(w.done) || !old(done))
    {
      if IsStopped() {
        return;
      }
      done := true;
      Killall();
    }
  }

  /** The part of `m` on the keys in `ks`. */
  function KeysOf(m: map<string, seq<Subproc>>, ks: set<string>): (r: map<string, seq<Subproc>>)
    ensures r.Keys == m.Keys * ks && forall c :: c in r ==> r[c] == m[c]
  {
    map c | c in m && c in ks :: m[c]
  }

  /** `cmd`'s list once `Sweep` has visited the indices from the back down to `i + 1`: the unvisited prefix, then the survivors. */
  function Swept(l: seq<Subproc>, selected: Subproc -> bool, i: int): seq<Subproc>
    requires -1 <= i < |l|
  {
    l[..i + 1] + Survivors(l[i + 1..], selected)
  }

  /** The map at that point: the key is gone once its non-empty list was emptied. */
  function SweepState(m0: map<string, seq<Subproc>>, cmd: string, selected: Subproc -> bool, i: int): map<string, seq<Subproc>>
    requires cmd in m0 && -1 <= i < |m0[cmd]|
  {
    var l := Swept(m0[cmd], selected, i);
    if l == [] && m0[cmd] != [] then m0 - {cmd} else m0[cmd := l]
  }

  /** The workers `Sweep` has stopped by then. */
  ghost function Hit(l: seq<Subproc>, selected: Subproc -> bool, i: int): set<Subproc>
    requires -1 <= i < |l|
  {
    set w | w in l[i + 1..] && selected(w)
  }

  lemma SweepStarts(m0: map<string, seq<Subproc>>, cmd: string, selected: Subproc -> bool)
    requires cmd in m0
    ensures SweepState(m0, cmd, selected, |m0[cmd]| - 1) == m0
    ensures Hit(m0[cmd], selected, |m0[cmd]| - 1) == {}
  {
    var l := m0[cmd];
    assert l[..|l|] == l && l[|l|..] == [];
    assert Survivors(l[|l|..], selected) == [];
    assert Swept(l, selected, |l| - 1) == l;
    assert m0[cmd := l] == m0;
  }

  /** Slot `i` of `made + l[i..]` still holds `l[i]`. */
  lemma Spliced<T>(made: seq<T>, l: seq<T>, i: nat)
    requires |made| == i < |l|
    ensures (made + l[i..])[i] == l[i] && |made + l[i..]| == |l|
  {
  }

  /** Putting `x` in slot `i` of `made + l[i..]` extends the new prefix by one slot. */
  lemma Replaced<T>(made: seq<T>, l: seq<T>, i: nat, x: T)
    requires |made| == i < |l|
    ensures (made + l[i..])[i := x] == (made + [x]) + l[i + 1..]
  {
    assert l[i..][1..] == l[i + 1..];
  }

  /** Peeling the first worker off a suffix of `l`: it survives exactly when `selected` rejects it. */
  lemma SurvivorsPeel(l: seq<Subproc>, selected: Subproc -> bool, i: int)
    requires 0 <= i < |l|
    ensures Survivors(l[i..], selected) == (if selected(l[i]) then [] else [l[i]]) + Survivors(l[i + 1..], selected)
  {
    assert l[i..][0] == l[i] && l[i..][1..] == l[i + 1..];
  }

  /** Splicing the element at index `|p|` out of `p + [x] + rest` leaves `p + rest`; keeping it changes nothing. */
  lemma Splice<T>(p: seq<T>, x: T, rest: seq<T>)
    ensures var cur := p + [x] + rest;
      && |p| < |cur| && cur[|p|] == x
      && cur[..|p|] + cur[|p| + 1..] == p + rest
      && cur == p + ([x] + rest)
  {
    var cur := p + [x] + rest;
    assert cur[..|p|] == p;
    assert cur[|p| + 1..] == rest;
  }

  /** Visiting index `i` of the list: the worker there is `l[i]`, and splicing it out exactly when it is selected gives the next list. */
  lemma SweptAdvances(l: seq<Subproc>, selected: Subproc -> bool, i: int)
    requires 0 <= i < |l|
    ensures var cur := Swept(l, selected, i);
      && i < |cur| && cur[i] == l[i]
      && Swept(l, selected, i - 1) == (if selected(l[i]) then cur[..i] + cur[i + 1..] else cur)
      && (Swept(l, selected, i - 1) == [] ==> i == 0)
  {
    var rest := Survivors(l[i + 1..], selected);
    SurvivorsPeel(l, selected, i);
    assert l[..i + 1] == l[..i] + [l[i]];
    Splice(l[..i], l[i], rest);
    if selected(l[i]) {
      assert [] + rest == rest;
    }
    assert |Swept(l, selected, i - 1)| >= i;
  }

  /** While index `i` is being visited the map holds the swept list, non-empty, under `cmd`. */
  lemma SweepAt(m0: map<string, seq<Subproc>>, cmd: string, selected: Subproc -> bool, i: int)
    requires cmd in m0 && 0 <= i < |m0[cmd]|
    ensures SweepState(m0, cmd, selected, i) == m0[cmd := Swept(m0[cmd], selected, i)]
    ensures i < |Swept(m0[cmd], selected, i)| && Swept(m0[cmd], selected, i)[i] == m0[cmd][i]
  {
    SweptAdvances(m0[cmd], selected, i);
  }

  /** The same step on the map: `remove` at `i` when selected, nothing otherwise. */
  lemma SweepAdvances(m0: map<string, seq<Subproc>>, cmd: string, selected: Subproc -> bool, i: int)
    requires cmd in m0 && 0 <= i < |m0[cmd]| && i < |Swept(m0[cmd], selected, i)|
    ensures var cur := m0[cmd := Swept(m0[cmd], selected, i)];
      SweepState(m0, cmd, selected, i - 1) ==
        if selected(m0[cmd][i]) then
          var l' := cur[cmd][..i] + cur[cmd][i + 1..];
          if l' == [] then cur - {cmd} else cur[cmd := l']
        else cur
  {
    var l := m0[cmd];
    SweptAdvances(l, selected, i);
    var cur := Swept(l, selected, i);
    var next := Swept(l, selected, i - 1);
    if !selected(l[i]) {
    } else if next == [] {
      assert m0[cmd := cur] - {cmd} == m0 - {cmd};
    } else {
      assert m0[cmd := cur][cmd := next] == m0[cmd := next];
    }
  }

  /** How far `Sweep` has got: a worker of `l` is stopped exactly when it was at the start or is selected and visited. */
  ghost predicate SweepProgress(l: seq<Subproc>, stopped0: set<Subproc>, selected: Subproc -> bool, i: int)
    requires -1 <= i < |l|
    reads Elems(l)
  {
    forall w :: w in l ==> w.done == (w in stopped0 || w in Hit(l, selected, i))
  }

  /** Visiting index `i` adds `l[i]` to the stopped workers exactly when it is selected. */
  lemma HitAdvances(l: seq<Subproc>, selected: Subproc -> bool, i: int)
    requires 0 <= i < |l|
    ensures Hit(l, selected, i - 1) == Hit(l, selected, i) + (if selected(l[i]) then {l[i]} else {})
  {
    assert l[i..] == [l[i]] + l[i + 1..];
  }

  lemma SweepEnds(m0: map<string, seq<Subproc>>, cmd: string, selected: Subproc -> bool)
    requires cmd in m0
    ensures var l := m0[cmd];
      SweepState(m0, cmd, selected, -1) ==
        if l != [] && Survivors(l, selected) == [] then m0 - {cmd} else m0[cmd := Survivors(l, selected)]
    ensures forall w :: w in Hit(m0[cmd], selected, -1) <==> w in m0[cmd] && selected(w)
  {
    var l := m0[cmd];
    assert l[0..] == l && l[..0] == [];
    assert Swept(l, selected, -1) == Survivors(l, selected);
  }

  /**
   * How far `kill` has got: every worker of `m0` is stopped exactly when it was
   * stopped at the start (`stopped0`) or is selected and already processed.
   */
  ghost predicate KillProgress(m0: map<string, seq<Subproc>>, stopped0: set<Subproc>, selected: Subproc -> bool, processed: set<Subproc>)
    reads AllWorkers(m0)
  {
    forall w :: w in AllWorkers(m0) ==> w.done == (w in stopped0 || (selected(w) && w in processed))
  }

  /** The workers of one list are among the workers of the map. */
  lemma ElemsInAll(m: map<string, seq<Subproc>>, c: string)
    requires c in m
    ensures Elems(m[c]) <= AllWorkers(m)
  {
  }

  /** Once the workers of every key are processed, so is every worker of the map. */
  lemma CoveredWorkers(m: map<string, seq<Subproc>>, processed: set<Subproc>)
    requires forall c :: c in m ==> Elems(m[c]) <= processed
    ensures AllWorkers(m) <= processed
  {
    forall w | w in AllWorkers(m) ensures w in processed {
      var c :| c in m && w in m[c];
      assert w in Elems(m[c]);
    }
  }

  /** Sweeping one more key `c` of `m0` moves it from untouched to swept. */
  lemma KilledOnStep(m0: map<string, seq<Subproc>>, selected: Subproc -> bool, swept: set<string>, c: string)
    requires c in m0 && c !in swept
    ensures var m := KilledOn(m0, selected, swept);
      c in m && m[c] == m0[c]
      && KilledOn(m0, selected, swept + {c}) ==
           if m0[c] != [] && Survivors(m0[c], selected) == [] then m - {c} else m[c := Survivors(m0[c], selected)]
  {
  }

}
