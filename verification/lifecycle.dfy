/**
 * The start/stop/pause/resume protocol shared, line for line, by the three
 * `LogicEngine` classes and `KeyHandling`, and the pacing arithmetic of their
 * `run()` loops. The worker thread itself is not modelled: `hasThread` stands
 * for `runThread != null` and `threadAlive` for `runThread.isAlive()`.
 */
module Lifecycle {

  /** How a protocol call ends. */
  datatype Outcome = Done | IllegalState | Exit(status: int)

  const TicksPerSecond: int := 60

  /** `(int) (1000 / TICKS_PER_SECOND)`, integer division. */
  const TickMillis: int := 1000 / TicksPerSecond

  class LoopControl {
    var hasThread: bool
    var threadAlive: bool
    var isRunning: bool
    var isPaused: bool

    constructor ()
      ensures !hasThread && !threadAlive && !isRunning && !isPaused
    {
      hasThread, threadAlive, isRunning, isPaused := false, false, false, false;
    }

    /**
     * `start()`: raises both flags first; then creates and starts a thread
     * unless one is alive, in which case it throws (leaving the flags raised).
     */
    method Start() returns (r: Outcome)
      modifies this
      ensures isRunning && !isPaused
      ensures r == (if old(hasThread && threadAlive) then IllegalState else Done)
      ensures r == Done ==> hasThread && threadAlive
      ensures r == IllegalState ==> hasThread && threadAlive
    {
      isRunning := true;
      isPaused := false;
      if hasThread && threadAlive {
        return IllegalState;
      }
      hasThread, threadAlive := true, true;
      return Done;
    }

    /** `stop()`: clears `isRunning`, wakes and joins the thread, then ends the process with status 0. */
    method Stop() returns (r: Outcome)
      modifies this
      ensures !old(hasThread) ==> r == IllegalState && isRunning == old(isRunning) && threadAlive == old(threadAlive)
      ensures old(hasThread) ==> r == Exit(0) && !isRunning && !threadAlive
      ensures hasThread == old(hasThread) && isPaused == old(isPaused)
    {
      if !hasThread {
        return IllegalState;
      }
      isRunning := false;
      threadAlive := false;
      return Exit(0);
    }

    /** `pause()`: only raises `isPaused`; the loop honours it at the end of its current iteration. */
    method Pause() returns (r: Outcome)
      modifies this`isPaused
      ensures r == (if old(hasThread) then Done else IllegalState)
      ensures isPaused == (old(isPaused) || old(hasThread))
    {
      if !hasThread {
        return IllegalState;
      }
      isPaused := true;
      return Done;
    }

    /** `resume()`: clears `isPaused` and notifies the waiting thread. */
    method Resume() returns (r: Outcome)
      modifies this`isPaused
      ensures r == (if old(hasThread) then Done else IllegalState)
      ensures isPaused == (old(isPaused) && !old(hasThread))
    {
      if !hasThread {
        return IllegalState;
      }
      isPaused := false;
      return Done;
    }

    /**
     * `run()`, fed what the logic thread observes: one `Pass` per iteration.
     * The loop runs while `isRunning` holds; a pass during which `stop()`
     * clears it is the last. Once the loop exits, `isPaused` is cleared and
     * the thread ends; if the passes run out first, the thread is still
     * running and `trace` is what it has done so far.
     */
    method Run(passes: seq<Pass>) returns (trace: seq<Event>)
      modifies this`isRunning, this`isPaused, this`threadAlive
      ensures trace == Trace(passes[..if old(isRunning) then RunsTo(passes, 0) else 0])
      ensures isRunning <==> old(isRunning) && forall j :: 0 <= j < |passes| ==> !passes[j].stopped
      ensures !isRunning ==> !isPaused && !threadAlive
      ensures isRunning ==> isPaused == old(isPaused) && threadAlive == old(threadAlive)
    {
      trace := [];
      var k := 0;
      while isRunning && k < |passes|
        invariant k <= |passes| && trace == Trace(passes[..k])
        invariant isRunning ==> old(isRunning) && RunsTo(passes, k) == RunsTo(passes, 0)
        invariant isRunning ==> forall j :: 0 <= j < k ==> !passes[j].stopped
        invariant !isRunning && old(isRunning) ==> 0 < k == RunsTo(passes, 0) && passes[k - 1].stopped
        invariant !old(isRunning) ==> k == 0
        invariant isPaused == old(isPaused) && threadAlive == old(threadAlive)
        decreases |passes| - k
      {
        var pass := passes[k];
        trace := trace + [Logic];
        var amountToSleep := TickMillis - pass.elapsed;
        trace := trace + [Sleep(if amountToSleep > 0 then amountToSleep else 0)];
        if pass.pausedAfterSleep {
          trace := trace + [Wait];
        }
        if pass.stopped {
          isRunning := false;
        }
        assert passes[..k + 1][..k] == passes[..k];
        assert trace == Trace(passes[..k + 1]);
        k := k + 1;
      }
      if !isRunning {
        isPaused := false;
        threadAlive := false;
      }
    }
  }

  /**
   * The sleep after a tick that took `elapsed` ms: `amountToSleep > 0 ? amountToSleep : 0`.
   * A tick never takes less than the nominal period, and a slow tick only shortens
   * or drops the sleep; there is no catching up.
   */
  function SleepMillis(elapsed: int): (ms: int)
    ensures ms >= 0
    ensures elapsed + ms >= TickMillis
    ensures ms > 0 ==> elapsed + ms == TickMillis
  {
    var amountToSleep := TickMillis - elapsed;
    if amountToSleep > 0 then amountToSleep else 0
  }

  /** What the logic thread does, in order. */
  datatype Event = Logic | Sleep(ms: int) | Wait

  /**
   * What one iteration of `run()` depends on: how long `doLogic()` took, whether
   * `isPaused` is set once the sleep is over, and whether `stop()` clears
   * `isRunning` before the loop tests it again.
   */
  datatype Pass = Pass(elapsed: int, pausedAfterSleep: bool, stopped: bool)

  /** The events of one iteration: the logic, the sleep, and a wait when paused. */
  function Iteration(p: Pass): seq<Event> {
    [Logic, Sleep(SleepMillis(p.elapsed))] + (if p.pausedAfterSleep then [Wait] else [])
  }

  /** The events of the iterations `ps`, in order. */
  function Trace(ps: seq<Pass>): seq<Event>
    decreases |ps|
  {
    if ps == [] then [] else Trace(ps[..|ps| - 1]) + Iteration(ps[|ps| - 1])
  }

  /**
   * Where a running loop that has made the passes before `k` stops: just
   * after the first pass from `k` on that stops it, or at the end of `ps`.
   */
  function RunsTo(ps: seq<Pass>, k: nat): (n: nat)
    requires k <= |ps|
    ensures k <= n <= |ps| && (k < |ps| ==> k < n)
    ensures forall j :: k <= j < n - 1 ==> !ps[j].stopped
    ensures n < |ps| ==> ps[n - 1].stopped
    decreases |ps| - k
  {
    if k == |ps| then k else if ps[k].stopped then k + 1 else RunsTo(ps, k + 1)
  }

  /**
   * Each wait comes straight after a sleep, which comes straight after the
   * logic; each logic is followed by its sleep; and sleeps are never negative.
   */
  predicate WellOrdered(t: seq<Event>) {
    (forall j :: 0 <= j < |t| && t[j] == Wait ==> 2 <= j && t[j - 1].Sleep? && t[j - 2] == Logic) &&
    (forall j :: 0 <= j < |t| && t[j].Sleep? ==> 1 <= j && t[j - 1] == Logic && t[j].ms >= 0) &&
    (forall j :: 0 <= j < |t| && t[j] == Logic ==> j + 1 < |t| && t[j + 1].Sleep?)
  }

  lemma WellOrderedAppend(a: seq<Event>, p: Pass)
    requires WellOrdered(a)
    ensures WellOrdered(a + Iteration(p))
  {
    var t := a + Iteration(p);
    var n := |a|;
    assert t[n] == Logic && t[n + 1] == Sleep(SleepMillis(p.elapsed));
    assert p.pausedAfterSleep ==> t[n + 2] == Wait;
    forall j | 0 <= j < |t| && t[j] == Logic
      ensures j + 1 < |t| && t[j + 1].Sleep?
    {
      if j < n {
        assert a[j] == Logic;
      }
    }
  }

  /** In the trace of any passes, each wait follows a sleep that follows the logic, and each logic is followed by its sleep. */
  lemma {:induction false} TraceWellOrdered(ps: seq<Pass>)
    ensures WellOrdered(Trace(ps))
    decreases |ps|
  {
    if ps != [] {
      TraceWellOrdered(ps[..|ps| - 1]);
      WellOrderedAppend(Trace(ps[..|ps| - 1]), ps[|ps| - 1]);
    }
  }

  /** The thread waits exactly when some pass found `isPaused` set after its sleep. */
  lemma {:induction false} TraceWaits(ps: seq<Pass>)
    ensures Wait in Trace(ps) <==> exists j :: 0 <= j < |ps| && ps[j].pausedAfterSleep
    decreases |ps|
  {
    if ps != [] {
      var init := ps[..|ps| - 1];
      TraceWaits(init);
      assert Trace(ps) == Trace(init) + Iteration(ps[|ps| - 1]);
      if exists j :: 0 <= j < |ps| && ps[j].pausedAfterSleep {
        var j :| 0 <= j < |ps| && ps[j].pausedAfterSleep;
        if j < |ps| - 1 {
          assert init[j] == ps[j];
        }
      }
      if exists j :: 0 <= j < |init| && init[j].pausedAfterSleep {
        var j :| 0 <= j < |init| && init[j].pausedAfterSleep;
        assert ps[j] == init[j];
      }
    }
  }

  /** One `doLogic()` call per pass. */
  lemma {:induction false} TraceLogicCount(ps: seq<Pass>)
    ensures multiset(Trace(ps))[Logic] == |ps|
    decreases |ps|
  {
    if ps != [] {
      var init := ps[..|ps| - 1];
      TraceLogicCount(init);
      assert Trace(ps) == Trace(init) + Iteration(ps[|ps| - 1]);
      assert multiset(Iteration(ps[|ps| - 1]))[Logic] == 1;
    }
  }

  /** While no tick takes negative time, no sleep is longer than the 16 ms period. */
  lemma {:induction false} TraceSleepBound(ps: seq<Pass>)
    requires forall j :: 0 <= j < |ps| ==> ps[j].elapsed >= 0
    ensures forall e :: e in Trace(ps) && e.Sleep? ==> e.ms <= TickMillis
    decreases |ps|
  {
    if ps != [] {
      var init := ps[..|ps| - 1];
      assert forall j :: 0 <= j < |init| ==> init[j] == ps[j];
      TraceSleepBound(init);
      assert Trace(ps) == Trace(init) + Iteration(ps[|ps| - 1]);
    }
  }
}
