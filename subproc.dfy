/**
 * One supervised worker (`subproc`): its identity, its options, and the
 * restart loop that keeps spawning the child until an attempt succeeds, the
 * worker is stopped, or the restart counter reaches `MaxInt32`, waiting
 * 2^restarts × 100ms after each failure.
 *
 * The concurrent stop signal is modelled by a `Script`: the outcome of every
 * attempt, and at most one point of the loop where `Stop` is called. Because
 * the stop channel is one-shot, a single stop point covers every schedule.
 */
module Worker {
  import opened Optional
  import opened CommandOptions

  datatype Status = Creating | Running | CrashLoopBackOff | Exited

  /** `math.MaxInt32`, the ceiling of the restart counter. */
  const MaxInt32: int := 0x7fff_ffff

  function Pow2(n: nat): (r: nat)
    ensures r >= 1
  {
    if n == 0 then 1 else 2 * Pow2(n - 1)
  }

  /** The wait after a failed attempt whose counter value is `n`, in milliseconds. */
  function Backoff(n: nat): (ms: nat)
    ensures ms >= 100
  {
    Pow2(n) * 100
  }

  /** The wait starts at 100ms and doubles with every restart. */
  lemma BackoffDoubles(n: nat)
    ensures Backoff(0) == 100
    ensures Backoff(n + 1) == 2 * Backoff(n)
  {
  }

  /** The status writes the loop performs one after the other. */
  predicate Step(a: Status, b: Status) {
    || (a == Creating && b == Running)
    || (a == Running && b == Exited)
    || (a == Exited && b == CrashLoopBackOff)
    || (a == CrashLoopBackOff && b == Running)
  }

  /** A status history in which every write follows `Step`. */
  predicate Legal(h: seq<Status>) {
    forall i :: 0 < i < |h| ==> Step(h[i - 1], h[i])
  }

  /** The fields the restart loop reads and writes. */
  datatype LoopState = LoopState(restarts: int, status: Status, error: Option<string>, stopped: bool)

  /** Where in a round of the loop the stop signal arrives. */
  datatype Phase = BeforeAttempt | DuringAttempt | DuringBackoff

  datatype StopPoint = StopPoint(round: nat, phase: Phase)

  /** The outcome of the attempt in each round (`None`: the child exited cleanly), and when `Stop` is called. */
  datatype Script = Script(outcome: nat -> Option<string>, stopAt: Option<StopPoint>)

  predicate Fires(sc: Script, k: nat, p: Phase) {
    sc.stopAt == Some(StopPoint(k, p))
  }

  /** What a run of the loop did: its last state, the status writes, the waits asked for and the children started. */
  datatype Trajectory = Trajectory(final: LoopState, statuses: seq<Status>, waits: seq<nat>, spawns: nat)

  /** Whether round `k`, started in `s`, fails and goes on to the next round. */
  predicate Continues(s: LoopState, sc: Script, k: nat) {
    && !s.stopped
    && !Fires(sc, k, BeforeAttempt)
    && sc.outcome(k).Some?
    && !Fires(sc, k, DuringAttempt)
    && !Fires(sc, k, DuringBackoff)
  }

  /** One pass through the body of the `for` loop, up to and including the post-statement `restarts++`. */
  function Round(s: LoopState, sc: Script, k: nat): Trajectory {
    var stopped := s.stopped || Fires(sc, k, BeforeAttempt);
    var err := if stopped then None else sc.outcome(k);
    var spawned := if stopped then 0 else 1;
    var stoppedAfter := stopped || Fires(sc, k, DuringAttempt);
    if err == None || stoppedAfter then
      Trajectory(LoopState(s.restarts, Exited, None, stoppedAfter), [Running, Exited], [], spawned)
    else if Fires(sc, k, DuringBackoff) then
      Trajectory(LoopState(s.restarts, CrashLoopBackOff, err, true), [Running, Exited, CrashLoopBackOff], [Backoff(if s.restarts < 0 then 0 else s.restarts)], 1)
    else
      Trajectory(LoopState(s.restarts + 1, CrashLoopBackOff, err, false), [Running, Exited, CrashLoopBackOff], [Backoff(if s.restarts < 0 then 0 else s.restarts)], 1)
  }

  /** The loop `for ; restarts < MaxInt32; restarts++`, from round `k` in state `s`. */
  function Loop(s: LoopState, sc: Script, k: nat): Trajectory
    decreases MaxInt32 - s.restarts
  {
    if s.restarts >= MaxInt32 then Trajectory(s, [], [], 0)
    else
      var t := Round(s, sc, k);
      if Continues(s, sc, k) then
        var rest := Loop(t.final, sc, k + 1);
        Trajectory(rest.final, t.statuses + rest.statuses, t.waits + rest.waits, t.spawns + rest.spawns)
      else t
  }

  /** One unfolding of `Loop`. */
  lemma LoopUnfolds(s: LoopState, sc: Script, k: nat)
    requires s.restarts < MaxInt32
    ensures var r := Round(s, sc, k); var t := Loop(s, sc, k);
      if Continues(s, sc, k) then
        var rest := Loop(r.final, sc, k + 1);
        && t.final == rest.final && t.statuses == r.statuses + rest.statuses
        && t.waits == r.waits + rest.waits && t.spawns == r.spawns + rest.spawns
      else t == r
  {
  }

  /** `whole` is what is recorded so far followed by what the loop still does from round `k` in `cur`. */
  ghost predicate Tracks(whole: Trajectory, accH: seq<Status>, accW: seq<nat>, accN: nat, cur: LoopState, sc: Script, k: nat) {
    var rest := Loop(cur, sc, k);
    && whole.final == rest.final
    && whole.statuses == accH + rest.statuses
    && whole.waits == accW + rest.waits
    && whole.spawns == accN + rest.spawns
  }

  lemma TracksAdvance(whole: Trajectory, accH: seq<Status>, accW: seq<nat>, accN: nat, cur: LoopState, sc: Script, k: nat)
    requires Tracks(whole, accH, accW, accN, cur, sc, k) && cur.restarts < MaxInt32
    ensures var r := Round(cur, sc, k);
      if Continues(cur, sc, k) then Tracks(whole, accH + r.statuses, accW + r.waits, accN + r.spawns, r.final, sc, k + 1)
      else whole == Trajectory(r.final, accH + r.statuses, accW + r.waits, accN + r.spawns)
  {
    var r := Round(cur, sc, k);
    LoopUnfolds(cur, sc, k);
    if Continues(cur, sc, k) {
      var rest := Loop(r.final, sc, k + 1);
      assert accH + r.statuses + rest.statuses == accH + (r.statuses + rest.statuses);
      assert accW + r.waits + rest.waits == accW + (r.waits + rest.waits);
    } else {
      assert accH + r.statuses == accH + Loop(cur, sc, k).statuses;
    }
  }

  lemma TracksAtExit(whole: Trajectory, accH: seq<Status>, accW: seq<nat>, accN: nat, cur: LoopState, sc: Script, k: nat)
    requires Tracks(whole, accH, accW, accN, cur, sc, k) && cur.restarts >= MaxInt32
    ensures whole == Trajectory(cur, accH, accW, accN)
  {
    assert accH + [] == accH && accW + [] == accW;
  }

  /**
   * Where the loop ends: with `Exited` and no error, or with `CrashLoopBackOff`
   * and the last error when it was stopped during the wait or the counter ran
   * out; the counter only grows, and never past `MaxInt32`.
   */
  lemma {:induction false} LoopSettles(s: LoopState, sc: Script, k: nat)
    requires 0 <= s.restarts < MaxInt32
    ensures var t := Loop(s, sc, k);
      && s.restarts <= t.final.restarts <= MaxInt32
      && (t.final.status == Exited || t.final.status == CrashLoopBackOff)
      && (t.final.status == Exited ==> t.final.error == None)
      && (t.final.status == CrashLoopBackOff ==> t.final.error.Some? && (t.final.stopped || t.final.restarts == MaxInt32))
    decreases MaxInt32 - s.restarts
  {
    if Continues(s, sc, k) && s.restarts + 1 < MaxInt32 {
      LoopSettles(Round(s, sc, k).final, sc, k + 1);
    }
  }

  /** The i-th wait the loop asks for is the backoff for counter value `restarts + i`, and there is one per failure. */
  lemma {:induction false} LoopWaits(s: LoopState, sc: Script, k: nat)
    requires 0 <= s.restarts <= MaxInt32 && (s.restarts == MaxInt32 ==> !s.stopped)
    ensures var t := Loop(s, sc, k);
      && (forall i :: 0 <= i < |t.waits| ==> t.waits[i] == Backoff(s.restarts + i))
      && |t.waits| == t.final.restarts - s.restarts + (if t.final.status == CrashLoopBackOff && t.final.stopped then 1 else 0)
    decreases MaxInt32 - s.restarts
  {
    if s.restarts < MaxInt32 && Continues(s, sc, k) {
      var t := Round(s, sc, k);
      LoopWaits(t.final, sc, k + 1);
      var rest := Loop(t.final, sc, k + 1);
      assert Loop(s, sc, k).waits == [Backoff(s.restarts)] + rest.waits;
    }
  }

  /** A worker that is already stopped runs no child: one `Running`, then `Exited`, no error, the counter untouched. */
  lemma LoopWhenStopped(s: LoopState, sc: Script, k: nat)
    requires s.stopped && 0 <= s.restarts < MaxInt32
    ensures Loop(s, sc, k) == Trajectory(LoopState(s.restarts, Exited, None, true), [Running, Exited], [], 0)
  {
  }

  /**
   * Once `Stop` is called in round `j`, no later round starts: the counter grows
   * by at most `j - k` and at most one child per round up to `j` is started
   * (none in round `j` if the signal came before its attempt).
   */
  lemma {:induction false} NoAttemptAfterStop(s: LoopState, sc: Script, k: nat, j: nat, p: Phase)
    requires sc.stopAt == Some(StopPoint(j, p)) && k <= j && 0 <= s.restarts
    ensures Loop(s, sc, k).final.restarts <= s.restarts + (j - k)
    ensures Loop(s, sc, k).spawns <= (j - k) + (if p == BeforeAttempt then 0 else 1)
    decreases MaxInt32 - s.restarts
  {
    if s.restarts < MaxInt32 && Continues(s, sc, k) {
      assert k != j || p != BeforeAttempt;
      assert k < j;
      NoAttemptAfterStop(Round(s, sc, k).final, sc, k + 1, j, p);
    }
  }

  /** Without a stop and with every attempt failing, the loop only ends when the counter reaches `MaxInt32`. */
  lemma {:induction false} LoopExhausts(s: LoopState, sc: Script, k: nat)
    requires forall i: nat :: sc.outcome(i).Some?
    requires sc.stopAt == None && !s.stopped && 0 <= s.restarts <= MaxInt32
    ensures Loop(s, sc, k).final.restarts == MaxInt32
    ensures Loop(s, sc, k).spawns == MaxInt32 - s.restarts
    ensures s.restarts < MaxInt32 ==> Loop(s, sc, k).final.status == CrashLoopBackOff
    decreases MaxInt32 - s.restarts
  {
    if s.restarts < MaxInt32 {
      assert Continues(s, sc, k);
      LoopExhausts(Round(s, sc, k).final, sc, k + 1);
    }
  }

  /** Started from `Creating` or `CrashLoopBackOff`, the loop writes the status only along `Step`. */
  lemma {:induction false} LoopHistoryLegal(s: LoopState, sc: Script, k: nat)
    requires s.status == Creating || s.status == CrashLoopBackOff
    requires 0 <= s.restarts
    ensures Legal([s.status] + Loop(s, sc, k).statuses)
    decreases MaxInt32 - s.restarts
  {
    if s.restarts < MaxInt32 {
      LoopUnfolds(s, sc, k);
      RoundLegal(s, sc, k);
      if Continues(s, sc, k) {
        var r := Round(s, sc, k);
        LoopHistoryLegal(r.final, sc, k + 1);
        var rest := Loop(r.final, sc, k + 1);
        assert [s.status] + (r.statuses + rest.statuses) == [s.status, Running, Exited] + ([CrashLoopBackOff] + rest.statuses);
        LegalAppend([s.status, Running, Exited], [CrashLoopBackOff] + rest.statuses);
      }
    }
  }

  /** The loop's last status write is the status it ends in. */
  lemma {:induction false} LoopEndsOnLastWrite(s: LoopState, sc: Script, k: nat)
    requires s.status == Creating || s.status == CrashLoopBackOff
    ensures var t := Loop(s, sc, k); t.statuses != [] ==> t.statuses[|t.statuses| - 1] == t.final.status
    decreases MaxInt32 - s.restarts
  {
    if s.restarts < MaxInt32 {
      LoopUnfolds(s, sc, k);
      RoundLegal(s, sc, k);
      if Continues(s, sc, k) {
        var r := Round(s, sc, k);
        LoopEndsOnLastWrite(r.final, sc, k + 1);
        var rest := Loop(r.final, sc, k + 1);
        if rest.statuses == [] {
          assert r.statuses + rest.statuses == r.statuses;
        } else {
          assert (r.statuses + rest.statuses)[|r.statuses + rest.statuses| - 1] == rest.statuses[|rest.statuses| - 1];
        }
      }
    }
  }

  /** One round writes a legal history that ends in the status it leaves behind; a round that goes on ends in `CrashLoopBackOff`. */
  lemma RoundLegal(s: LoopState, sc: Script, k: nat)
    requires s.status == Creating || s.status == CrashLoopBackOff
    ensures var r := Round(s, sc, k);
      && Legal([s.status] + r.statuses) && r.statuses != [] && r.statuses[|r.statuses| - 1] == r.final.status
      && (Continues(s, sc, k) ==> r.statuses == [Running, Exited, CrashLoopBackOff] && r.final.status == CrashLoopBackOff)
  {
  }

  /** Two legal histories joined by a legal write form a legal history. */
  lemma LegalAppend(a: seq<Status>, b: seq<Status>)
    requires Legal(a) && Legal(b) && a != [] && b != [] && Step(a[|a| - 1], b[0])
    ensures Legal(a + b)
  {
    var h := a + b;
    forall i | 0 < i < |h| ensures Step(h[i - 1], h[i]) {
      if i > |a| {
        assert h[i - 1] == b[i - 1 - |a|] && h[i] == b[i - |a|];
      }
    }
  }

  /** A fresh worker whose first child exits cleanly: one attempt, then `Exited` with no error and no restart. */
  lemma FirstAttemptSucceeds(sc: Script)
    requires sc.outcome(0) == None && sc.stopAt == None
    ensures Loop(LoopState(0, Creating, None, false), sc, 0)
      == Trajectory(LoopState(0, Exited, None, false), [Running, Exited], [], 1)
  {
  }

  /**
   * A fresh worker whose child always fails with `e`, stopped while waiting
   * after its fourth failure: four attempts, waits of 100, 200, 400 and 800ms,
   * and it ends in `CrashLoopBackOff` with the counter at 3 and the last error.
   */
  lemma StoppedDuringFourthBackoff(sc: Script, e: string)
    requires forall i: nat :: sc.outcome(i) == Some(e)
    requires sc.stopAt == Some(StopPoint(3, DuringBackoff))
    ensures var t := Loop(LoopState(0, Creating, None, false), sc, 0);
      && t.final == LoopState(3, CrashLoopBackOff, Some(e), true)
      && t.waits == [100, 200, 400, 800]
      && t.spawns == 4
      && t.statuses == [Running, Exited, CrashLoopBackOff, Running, Exited, CrashLoopBackOff,
                        Running, Exited, CrashLoopBackOff, Running, Exited, CrashLoopBackOff]
  {
    var rec: seq<Status> := [Running, Exited, CrashLoopBackOff];
    SecondToFourthRounds(sc, e);
    assert Backoff(0) == 100;
    FailedRoundGoesOn(LoopState(0, Creating, None, false), sc, 0);
    assert rec + (rec + (rec + rec)) == [Running, Exited, CrashLoopBackOff, Running, Exited, CrashLoopBackOff,
                                         Running, Exited, CrashLoopBackOff, Running, Exited, CrashLoopBackOff];
  }

  /** The second to fourth rounds of that run: from a counter of 1 on, three more failures, the last one stopped. */
  lemma SecondToFourthRounds(sc: Script, e: string)
    requires forall i: nat :: sc.outcome(i) == Some(e)
    requires sc.stopAt == Some(StopPoint(3, DuringBackoff))
    ensures var rec: seq<Status> := [Running, Exited, CrashLoopBackOff];
      Loop(LoopState(1, CrashLoopBackOff, Some(e), false), sc, 1)
        == Trajectory(LoopState(3, CrashLoopBackOff, Some(e), true), rec + (rec + rec), [200, 400, 800], 3)
  {
    ThirdAndFourthRounds(sc, e);
    assert Backoff(1) == 200;
    FailedRoundGoesOn(LoopState(1, CrashLoopBackOff, Some(e), false), sc, 1);
  }

  lemma ThirdAndFourthRounds(sc: Script, e: string)
    requires forall i: nat :: sc.outcome(i) == Some(e)
    requires sc.stopAt == Some(StopPoint(3, DuringBackoff))
    ensures var rec: seq<Status> := [Running, Exited, CrashLoopBackOff];
      Loop(LoopState(2, CrashLoopBackOff, Some(e), false), sc, 2)
        == Trajectory(LoopState(3, CrashLoopBackOff, Some(e), true), rec + rec, [400, 800], 2)
  {
    FourthRound(sc, e);
    assert Backoff(2) == 400;
    FailedRoundGoesOn(LoopState(2, CrashLoopBackOff, Some(e), false), sc, 2);
  }

  /** The fourth round fails too, and the stop arrives while it waits 800ms. */
  lemma FourthRound(sc: Script, e: string)
    requires forall i: nat :: sc.outcome(i) == Some(e)
    requires sc.stopAt == Some(StopPoint(3, DuringBackoff))
    ensures Loop(LoopState(3, CrashLoopBackOff, Some(e), false), sc, 3)
      == Trajectory(LoopState(3, CrashLoopBackOff, Some(e), true), [Running, Exited, CrashLoopBackOff], [800], 1)
  {
    assert Backoff(3) == 800;
    LoopUnfolds(LoopState(3, CrashLoopBackOff, Some(e), false), sc, 3);
  }

  /** A round that fails and is not stopped bumps the counter and hands over to the next round. */
  lemma FailedRoundGoesOn(s: LoopState, sc: Script, k: nat)
    requires 0 <= s.restarts < MaxInt32 && !s.stopped && sc.outcome(k).Some?
    requires !Fires(sc, k, BeforeAttempt) && !Fires(sc, k, DuringAttempt) && !Fires(sc, k, DuringBackoff)
    ensures var rest := Loop(LoopState(s.restarts + 1, CrashLoopBackOff, sc.outcome(k), false), sc, k + 1);
      Loop(s, sc, k) == Trajectory(rest.final, [Running, Exited, CrashLoopBackOff] + rest.statuses,
                                   [Backoff(s.restarts)] + rest.waits, 1 + rest.spawns)
  {
    LoopUnfolds(s, sc, k);
  }

  /** The caller-visible part of a worker that the match predicate looks at. */
  datatype WorkerView = WorkerView(id: string, cmd: string, status: Status, error: Option<string>)

  /** A worker, as `NewSubProc` creates it and its restart loop updates it. */
  class Subproc {
    const id: string
    const cmd: string
    const options: seq<CmdOption>
    var restarts: int
    var status: Status
    var error: Option<string>
    /** The one-shot stop channel: closed or not. */
    var done: bool
    /** Every status the worker has had, oldest first. */
    ghost var history: seq<Status>
    /** Every backoff wait the loop asked for, oldest first. */
    ghost var waits: seq<nat>
    /** How many children were started. */
    ghost var spawns: nat

    ghost predicate Valid()
      reads this
    {
      && 0 <= restarts <= MaxInt32
      && |history| > 0
      && history[|history| - 1] == status
    }

    function State(): LoopState
      reads this
    {
      LoopState(restarts, status, error, done)
    }

    function View(): WorkerView
      reads this
    {
      WorkerView(id, cmd, status, error)
    }

    /** `NewSubProc`: `suffix` stands for the generated uuid. */
    constructor (cmd: string, options: seq<CmdOption>, suffix: string)
      ensures id == cmd + "-" + suffix && cmd + "-" <= id
      ensures this.cmd == cmd && this.options == options
      ensures restarts == 0 && status == Creating && error == None && !done
      ensures history == [Creating] && waits == [] && spawns == 0
      ensures Valid()
    {
      id := cmd + "-" + suffix;
      this.cmd := cmd;
      this.options := options;
      restarts := 0;
      status := Creating;
      error := None;
      done := false;
      history := [Creating];
      waits := [];
      spawns := 0;
    }

    /** `Stop`: closes the stop channel the first time; later calls change nothing. */
    method Stop()
      modifies this`done
      ensures done
    {
      if done {
        return;
      }
      done := true;
    }

    /** `Options`: the worker's options applied to Go's zero `CmdOptions`. */
    method Options() returns (o: CmdOptions)
      ensures o == ApplyAll(ZeroCmdOptions, options)
    {
      o := Build(ZeroCmdOptions, options);
    }

    /** `run`: a stopped worker returns nil without starting a child; otherwise the child is started and `outcome` is what it ended with. */
    method Attempt(outcome: Option<string>) returns (err: Option<string>)
      modifies this`spawns
      ensures err == if done then None else outcome
      ensures spawns == old(spawns) + (if done then 0 else 1)
    {
      if done {
        return None;
      }
      spawns := spawns + 1;
      err := outcome;
    }

    /** One pass through the loop body; `finished` tells whether it returned instead of reaching `restarts++`. */
    method RunRound(sc: Script, k: nat) returns (finished: bool)
      requires Valid() && restarts < MaxInt32
      modifies this`restarts, this`status, this`error, this`done, this`history, this`waits, this`spawns
      ensures Valid()
      ensures var r := Round(old(State()), sc, k);
        && finished == !Continues(old(State()), sc, k)
        && State() == r.final
        && history == old(history) + r.statuses
        && waits == old(waits) + r.waits
        && spawns == old(spawns) + r.spawns
    {
      ghost var h0, n0, s0 := history, spawns, State();
      error := None;
      status := Running;
      history := history + [Running];
      if Fires(sc, k, BeforeAttempt) {
        Stop();
      }
      ghost var stopped := done;
      assert stopped == (s0.stopped || Fires(sc, k, BeforeAttempt));
      var err := Attempt(sc.outcome(k));
      assert err == (if stopped then None else sc.outcome(k));
      assert spawns == n0 + (if stopped then 0 else 1);
      if Fires(sc, k, DuringAttempt) {
        Stop();
      }
      assert done == (stopped || Fires(sc, k, DuringAttempt));
      status := Exited;
      history := history + [Exited];
      assert history == h0 + [Running, Exited];
      if err == None || done {
        return true;
      }
      error := err;
      status := CrashLoopBackOff;
      history := history + [CrashLoopBackOff];
      assert history == h0 + [Running, Exited, CrashLoopBackOff];
      var wait := Backoff(restarts);
      waits := waits + [wait];
      if Fires(sc, k, DuringBackoff) {
        Stop();
      }
      if done {
        return true;
      }
      restarts := restarts + 1;
      return false;
    }

    /** The records so far are `h0`, `w0`, `n0` followed by `accH`, `accW`, `accN`, and from round `k` the loop still does the rest of `whole`. */
    ghost predicate OnTrack(whole: Trajectory, h0: seq<Status>, w0: seq<nat>, n0: nat, accH: seq<Status>, accW: seq<nat>, accN: nat, sc: Script, k: nat)
      reads this
    {
      && Valid()
      && history == h0 + accH && waits == w0 + accW && spawns == n0 + accN
      && Tracks(whole, accH, accW, accN, State(), sc, k)
    }

    lemma Advance(whole: Trajectory, h0: seq<Status>, w0: seq<nat>, n0: nat, accH: seq<Status>, accW: seq<nat>, accN: nat, head: LoopState, sc: Script, k: nat, finished: bool)
        returns (accH': seq<Status>, accW': seq<nat>, accN': nat)
      requires Tracks(whole, accH, accW, accN, head, sc, k) && head.restarts < MaxInt32 && Valid()
      requires var r := Round(head, sc, k);
        && finished == !Continues(head, sc, k)
        && State() == r.final
        && history == h0 + accH + r.statuses
        && waits == w0 + accW + r.waits
        && spawns == n0 + accN + r.spawns
      ensures !finished ==> OnTrack(whole, h0, w0, n0, accH', accW', accN', sc, k + 1)
      ensures finished ==> whole == Trajectory(State(), accH', accW', accN') && history == h0 + accH' && waits == w0 + accW' && spawns == n0 + accN'
    {
      var r := Round(head, sc, k);
      TracksAdvance(whole, accH, accW, accN, head, sc, k);
      accH', accW', accN' := accH + r.statuses, accW + r.waits, accN + r.spawns;
      assert history == h0 + accH' && waits == w0 + accW';
    }

    /** `Run`: the restart loop, with the concurrent `Stop` calls placed where `sc` says. */
    method Run(sc: Script)
      requires Valid()
      modifies this`restarts, this`status, this`error, this`done, this`history, this`waits, this`spawns
      ensures Valid()
      ensures var t := Loop(old(State()), sc, 0);
        && State() == t.final
        && history == old(history) + t.statuses
        && waits == old(waits) + t.waits
        && spawns == old(spawns) + t.spawns
    {
      ghost var whole := Loop(State(), sc, 0);
      ghost var h0, w0, n0 := history, waits, spawns;
      ghost var accH: seq<Status> := [];
      ghost var accW: seq<nat> := [];
      ghost var accN: nat := 0;
      var k: nat := 0;
      assert history == h0 + accH && waits == w0 + accW;
      while restarts < MaxInt32
        invariant OnTrack(whole, h0, w0, n0, accH, accW, accN, sc, k)
        decreases MaxInt32 - restarts
      {
        ghost var head := State();
        var finished := RunRound(sc, k);
        accH, accW, accN := Advance(whole, h0, w0, n0, accH, accW, accN, head, sc, k, finished);
        if finished {
          return;
        }
        k := k + 1;
      }
      TracksAtExit(whole, accH, accW, accN, State(), sc, k);
    }
  }
}
