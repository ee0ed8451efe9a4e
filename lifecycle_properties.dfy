/** Properties of ending a machine, of recovering from a failed state run, of the external
    switches and of TimeInStatePassed, proved about the reference semantics. */
module LifecycleProperties {
  import opened Semantics
  import opened MachineProperties

  // ---------------------------------------------------------------------------------------
  // The watchdog's headroom

  /** The watchdog lets at least `n` more state runs through in frame `frame`. */
  ghost predicate Headroom(m: Machine, frame: int, n: nat) {
    !m.watchdogEnabled || m.watchdogLimit <= 0
    || (if m.watchdogLastFrame == frame then m.watchdogRuns else 0) + n <= m.watchdogLimit
  }

  lemma HeadroomUsed(m: Machine, frame: int, n: nat)
    requires Headroom(m, frame, n + 1)
    ensures var w := Watchdog(m, frame); w.out.Ok? && Headroom(w.m, frame, n)
  {
  }

  /** The old state's body makes no request on its exit pass. */
  ghost predicate QuietOnExit(env: Env, s: StateId) {
    forall v: View :: v.exit ==> env.script(s, v) == []
  }

  /** The body of `s` makes no request on its enter pass. */
  ghost predicate QuietOnEnter(env: Env, s: StateId) {
    forall v: View :: v.enter && !v.exit ==> env.script(s, v) == []
  }

  // ---------------------------------------------------------------------------------------
  // End

  /** Events with no "ended, but still updating" warning. */
  ghost predicate Unwarned(es: seq<Event>) {
    forall i :: 0 <= i < |es| ==> es[i] != Warned(EndedButStillUpdating)
  }

  lemma UnwarnedAppend(a: seq<Event>, b: seq<Event>, c: seq<Event>)
    requires a <= b <= c && Unwarned(b[|a|..]) && Unwarned(c[|b|..])
    ensures a <= c && Unwarned(c[|a|..])
  {
    assert c[|a|..] == b[|a|..] + c[|b|..];
  }

  /** The machine as End's final pass finds it: ended, with ignoreEndUpdate set. */
  ghost predicate FinalPass(m: Machine) {
    m.ended && m.ignoreEndUpdate
  }

  /** During the final pass a body's call keeps it final and gives no "still updating"
      warning: an End called again does nothing on the ended machine. */
  lemma PerformInFinalPass(m: Machine, req: Request, env: Env, fuel: nat)
    requires FinalPass(m)
    ensures var r := Perform(m, req, env, fuel);
            FinalPass(r.m) && m.events <= r.m.events && Unwarned(r.m.events[|m.events|..])
  {
    if req == EndMachine {
      assert Perform(m, req, env, fuel) == Step(m, Ok);
      assert m.events[|m.events|..] == [];
    } else {
      PerformWithoutEnd(m, req, env, fuel);
    }
  }

  lemma {:induction false} ExecInFinalPass(m: Machine, reqs: seq<Request>, env: Env, fuel: nat)
    requires FinalPass(m)
    ensures var r := Exec(m, reqs, env, fuel);
            FinalPass(r.m) && m.events <= r.m.events && Unwarned(r.m.events[|m.events|..])
    decreases |reqs|
  {
    if reqs == [] {
      assert m.events[|m.events|..] == [];
    } else {
      PerformInFinalPass(m, reqs[0], env, fuel);
      var r1 := Perform(m, reqs[0], env, fuel);
      if r1.out.Ok? {
        ExecInFinalPass(r1.m, reqs[1..], env, fuel);
        UnwarnedAppend(m.events, r1.m.events, Exec(r1.m, reqs[1..], env, fuel).m.events);
      }
    }
  }

  lemma RunInFinalPass(m: Machine, env: Env, fuel: nat)
    requires FinalPass(m)
    ensures var r := RunState(m, env, fuel);
            FinalPass(r.m) && m.events <= r.m.events && Unwarned(r.m.events[|m.events|..])
  {
    var w := Watchdog(m, env.frame);
    if w.out.Ok? && w.m.current.Some? {
      var s := w.m.current.value;
      var x := w.m.(events := w.m.events + [Ran(s, ViewOf(w.m))]);
      ExecInFinalPass(x, env.script(s, ViewOf(w.m)), env, fuel);
      assert x.events[|m.events|..] == [Ran(s, ViewOf(w.m))];
      UnwarnedAppend(m.events, x.events, Exec(x, env.script(s, ViewOf(w.m)), env, fuel).m.events);
    } else {
      assert m.events[|m.events|..] == [];
    }
    var b := BaseRunState(m, env, fuel);
    if env.catching.Catching? && b.out.Raised? {
      var rep := env.catching.onException(b.m.current, b.out.failure);
      RecoveryWithoutRuns(b.m, b.out.failure, rep);
      UnwarnedAppend(m.events, b.m.events, RunState(m, env, fuel).m.events);
    }
  }

  lemma {:induction false} LoopInFinalPass(m: Machine, dt: real, env: Env, fuel: nat)
    requires FinalPass(m)
    ensures var r := Loop(m, dt, env, fuel);
            FinalPass(r.m) && m.events <= r.m.events && Unwarned(r.m.events[|m.events|..])
    decreases fuel
  {
    if m.next.Some? && fuel > 0 {
      var m1 := Entered(m);
      RunInFinalPass(m1, env, fuel - 1);
      var r1 := RunState(m1, env, fuel - 1);
      if r1.out.Ok? {
        LoopInFinalPass(r1.m.(enter := false), 0.0, env, fuel - 1);
        UnwarnedAppend(m.events, r1.m.events, Loop(r1.m.(enter := false), 0.0, env, fuel - 1).m.events);
      }
    } else {
      assert Loop(m, dt, env, fuel).m.events[|m.events|..] == [];
    }
  }

  /** End's final pass gives no "ended, but still updating" warning, whatever the states do. */
  lemma UpdateInFinalPass(m: Machine, dt: real, env: Env, fuel: nat)
    requires FinalPass(m)
    ensures var r := Update(m, dt, env, fuel);
            FinalPass(r.m) && m.events <= r.m.events && Unwarned(r.m.events[|m.events|..])
  {
    var m0 := Started(m, dt);
    RunInFinalPass(m0, env, fuel);
    var r1 := RunState(m0, env, fuel);
    if r1.out.Ok? {
      var m2 := r1.m.(enter := false, events := r1.m.events + StillUpdating(r1.m));
      assert m2.events == r1.m.events;
      LoopInFinalPass(m2, dt, env, fuel);
      UnwarnedAppend(m.events, r1.m.events, Loop(m2, dt, env, fuel).m.events);
    }
  }

  /** A run that the watchdog lets through is logged first, whatever its body then does. */
  lemma RunLogsFirst(m: Machine, env: Env, fuel: nat)
    requires m.current.Some? && Watchdog(m, env.frame).out.Ok?
    ensures var r := RunState(m, env, fuel);
            |r.m.events| > |m.events| && r.m.events[|m.events|] == Ran(m.current.value, ViewOf(m))
  {
    var w := Watchdog(m, env.frame);
    assert ViewOf(w.m) == ViewOf(m);
    var e := m.events + [Ran(m.current.value, ViewOf(m))];
    var b := BaseRunState(m, env, fuel);
    assert e <= b.m.events;
    assert e <= RunState(m, env, fuel).m.events;
  }

  /** The first End on a machine, whatever its states do. The OnExitState and OnEndSM
      subscribers are notified before anything runs; then, if the watchdog lets it, the
      current state runs once more, seeing EnterState false, Ended true and DeltaTime 0. No
      "ended, but still updating" warning is given during that final pass, and a normal return
      clears ignoreEndUpdate again. */
  lemma EndFirstCall(m: Machine, env: Env, fuel: nat)
    requires !m.ended
    ensures var r := End(m, env, fuel);
            var e := Ending(m);
            r.m.ended && e.events <= r.m.events
            && (forall i :: |e.events| <= i < |r.m.events| ==>
                  r.m.events[i] != Warned(EndedButStillUpdating))
            && (r.out.Ok? ==> !r.m.ignoreEndUpdate)
    ensures var r := End(m, env, fuel);
            var e := Ending(m);
            var v := ViewOf(Started(e, 0.0));
            !v.enter && v.ended && v.exit == m.exit && v.deltaTime == 0.0
            && (Watchdog(Started(e, 0.0), env.frame).out.Ok? && m.current.Some? ==>
                  |r.m.events| > |e.events| && r.m.events[|e.events|] == Ran(m.current.value, v))
  {
    var e := Ending(m);
    var m0 := Started(e, 0.0);
    UpdateInFinalPass(e, 0.0, env, fuel);
    var u := Update(e, 0.0, env, fuel);
    var r := End(m, env, fuel);
    assert r.m.events == u.m.events;
    forall i | |e.events| <= i < |r.m.events|
      ensures r.m.events[i] != Warned(EndedButStillUpdating)
    {
      assert r.m.events[i] == r.m.events[|e.events|..][i - |e.events|];
    }
    if Watchdog(m0, env.frame).out.Ok? && m.current.Some? {
      RunLogsFirst(m0, env, fuel);
      var f := RunState(m0, env, fuel);
      if f.out.Ok? {
        var m2 := f.m.(enter := false, events := f.m.events + StillUpdating(f.m));
        assert u == Loop(m2, 0.0, env, fuel);
        assert f.m.events <= u.m.events;
      }
    }
  }

  /** End is idempotent: a second End, with any fuel, changes nothing. */
  lemma EndTwice(m: Machine, env: Env, fuel1: nat, fuel2: nat)
    ensures var r := End(m, env, fuel1);
            End(r.m, env, fuel2) == Step(r.m, Ok)
  {
  }

  // ---------------------------------------------------------------------------------------
  // Recovery in StateMachineWithExceptionCatching

  /** The forced switch of SwitchStateWithoutExitStateDoNotUseUnlessDesperate, in its delayed
      mode: the current state becomes null with `s` pending, EnterState and ExitState are both
      true (the forced switch still goes through `_SwitchState`), both counters are zero and
      the OnExitState subscribers are notified once and cleared; nothing runs. */
  lemma ForceStateFacts(m: Machine, s: StateRef)
    ensures var r := ForceState(m, s);
            r.current.None? && r.next == s && r.forceNext == (if m.executing then None else s)
            && r.enter && r.exit && r.framesInState == 0 && r.timeInState == 0.0
            && r.exitHandlers == [] && m.events <= r.events
            && ExitNotified(r.events[|m.events|..]) == m.exitHandlers
  {
    assert ForceState(m, s).events[|m.events|..]
        == WarnIf(m.ended, SwitchOnEnded) + ExitEvents(m.exitHandlers);
    ExitNotifiedAppend(WarnIf(m.ended, SwitchOnEnded), ExitEvents(m.exitHandlers));
    WarnIfNotifiesNone(m.ended, SwitchOnEnded);
    ExitEventsNotify(m.exitHandlers);
  }

  /** A run that fails, in a machine with an exception handler. The handler is asked with the
      state that was current when the run began and with the very failure, and the failure is
      logged. A non-null answer F suppresses the exception and makes the forced switch to F
      (see ForceStateFacts); a null answer rethrows the failure unchanged. */
  lemma RecoveryAfterFailure(m: Machine, env: Env, fuel: nat)
    requires RunCallsNoEnd(m, env) && env.catching.Catching?
    requires BaseRunState(m, env, fuel).out.Raised?
    ensures var b := BaseRunState(m, env, fuel);
            var r := RunState(m, env, fuel);
            var caught := b.m.(events := b.m.events + [Warned(StateExceptionCaught(b.out.failure))]);
            var rep := env.catching.onException(m.current, b.out.failure);
            b.m.executing == m.executing && b.m.ended == m.ended
            && b.m.ignoreEndUpdate == m.ignoreEndUpdate
            && (rep.Some? ==> r == Step(ForceState(caught, rep), Ok))
            && (rep.None? ==> r == Step(caught, b.out))
  {
    BaseRunWithoutEnd(m, env, fuel);
  }

  /** A watchdog trip happens inside the base RunState, so the same handler catches it: it is
      asked about WatchdogTriggered and may redirect it. */
  lemma WatchdogTripIsCaught(m: Machine, env: Env, fuel: nat)
    requires env.catching.Catching? && Watchdog(m, env.frame).out.Raised?
    ensures var r := RunState(m, env, fuel);
            var rep := env.catching.onException(m.current, WatchdogTriggered);
            m.events + [Warned(StateExceptionCaught(WatchdogTriggered))] <= r.m.events
            && (rep.Some? ==> r.out.Ok? && r.m.next == rep && r.m.current.None?)
            && (rep.None? ==> r.out == Raised(WatchdogTriggered))
  {
    assert BaseRunState(m, env, fuel) == Watchdog(m, env.frame);
  }

  /** A run of a state whose body asks for nothing, when the watchdog lets it through. */
  lemma QuietRun(m: Machine, env: Env, fuel: nat)
    requires m.current.Some? && Watchdog(m, env.frame).out.Ok?
    requires env.script(m.current.value, ViewOf(m)) == []
    ensures var w := Watchdog(m, env.frame);
            RunState(m, env, fuel)
              == Step(w.m.(events := w.m.events + [Ran(m.current.value, ViewOf(m))]), Ok)
  {
    var w := Watchdog(m, env.frame);
    var x := w.m.(events := w.m.events + [Ran(m.current.value, ViewOf(m))]);
    assert ViewOf(w.m) == ViewOf(m);
    assert Exec(x, [], env, fuel) == Step(x, Ok);
    assert BaseRunState(m, env, fuel) == Step(x, Ok);
  }

  /** The transition loop takes a pending state and runs it first, seeing EnterState true and
      ExitState false, when the watchdog lets it. */
  lemma LoopEntersPending(m: Machine, dt: real, env: Env, fuel: nat)
    requires m.next.Some? && fuel > 0 && Watchdog(Entered(m), env.frame).out.Ok?
    ensures var r := Loop(m, dt, env, fuel);
            m.events <= r.m.events && |r.m.events| > |m.events|
            && r.m.events[|m.events|] == Ran(m.next.value, ViewOf(Entered(m)))
  {
    var m1 := Entered(m);
    RunLogsFirst(m1, env, fuel - 1);
    var r1 := RunState(m1, env, fuel - 1);
    if r1.out.Ok? {
      assert Loop(m, dt, env, fuel) == Loop(r1.m.(enter := false), 0.0, env, fuel - 1);
    }
  }

  /** Inside Update, the replacement the handler names after a failed first run is entered in
      the same call (not at the next Update): it runs at once, with EnterState true and
      ExitState false, if the watchdog lets it. */
  lemma RecoveredStateRunsInSameUpdate(m: Machine, dt: real, env: Env, fuel: nat)
    requires RunCallsNoEnd(Started(m, dt), env) && env.catching.Catching? && fuel > 0
    requires var b := BaseRunState(Started(m, dt), env, fuel);
             b.out.Raised? && env.catching.onException(m.current, b.out.failure).Some?
    ensures var b := BaseRunState(Started(m, dt), env, fuel);
            var rep := env.catching.onException(m.current, b.out.failure);
            var f := FirstRun(m, dt, env, fuel);
            var g := f.m.(enter := false, events := f.m.events + StillUpdating(m));
            var r := Update(m, dt, env, fuel);
            f.out.Ok? && f.m.next == rep && f.m.current.None?
            && (Watchdog(Entered(g), env.frame).out.Ok? ==>
                  |r.m.events| > |g.events| && r.m.events[|g.events|] == Ran(rep.value, ViewOf(Entered(g))))
  {
    var m0 := Started(m, dt);
    RecoveryAfterFailure(m0, env, fuel);
    var b := BaseRunState(m0, env, fuel);
    var caught := b.m.(events := b.m.events + [Warned(StateExceptionCaught(b.out.failure))]);
    ForceStateFacts(caught, env.catching.onException(m.current, b.out.failure));
    var f := FirstRun(m, dt, env, fuel);
    var g := f.m.(enter := false, events := f.m.events + StillUpdating(m));
    assert Update(m, dt, env, fuel) == Loop(g, dt, env, fuel);
    if Watchdog(Entered(g), env.frame).out.Ok? {
      LoopEntersPending(g, dt, env, fuel);
    }
  }

  // ---------------------------------------------------------------------------------------
  // External switches

  /** SwitchStateExternalDelayed, from outside any state run, leaves the current state in
      place and pends `s`. On the next Update the old state runs first, seeing ExitState true,
      and `s` is entered right after it, seeing EnterState true and ExitState false. */
  lemma DelayedSwitchNextUpdate(m: Machine, s: StateId, dt: real, env: Env, fuel: nat)
    requires !m.executing && !m.ended && m.current.Some? && fuel > 0
    requires QuietOnExit(env, m.current.value)
    requires Headroom(m, env.frame, 2)
    ensures var d := SwitchStateExternalDelayed(m, Some(s));
            d.current == m.current && d.next == Some(s) && d.forceNext == Some(s) && d.exit
            && !d.pushed
    ensures var d := SwitchStateExternalDelayed(m, Some(s));
            var r := Update(d, dt, env, fuel);
            var v := ViewOf(Started(d, dt));
            var e := |d.events|;
            v.exit && |r.m.events| > e + 1 && r.m.events[e] == Ran(m.current.value, v)
            && r.m.events[e + 1].Ran? && r.m.events[e + 1].state == s
            && r.m.events[e + 1].view.enter && !r.m.events[e + 1].view.exit
  {
    var d := SwitchStateExternalDelayed(m, Some(s));
    var m0 := Started(d, dt);
    HeadroomUsed(m0, env.frame, 1);
    QuietRun(m0, env, fuel);
    var w0 := Watchdog(m0, env.frame);
    var f0 := w0.m.(events := w0.m.events + [Ran(m.current.value, ViewOf(m0))]);
    var g := f0.(enter := false, events := f0.events + StillUpdating(d));
    assert g.events == f0.events;
    assert Update(d, dt, env, fuel) == Loop(g, dt, env, fuel);
    HeadroomUsed(Entered(g), env.frame, 0);
    LoopEntersPending(g, dt, env, fuel);
  }

  /** SwitchStateExternalImmidiate, from outside any state run, when neither the old state's
      exit pass nor the new state's enter pass asks for anything more: on return `s` is the
      current state, it has run for one frame and no time, and nothing is pending. */
  lemma ImmediateSwitchLands(m: Machine, s: StateId, env: Env, fuel: nat)
    requires !m.executing && !m.ended && m.current.Some? && fuel > 0
    requires QuietOnExit(env, m.current.value) && QuietOnEnter(env, s)
    requires Headroom(m, env.frame, 2)
    ensures var r := SwitchStateExternalImmidiate(m, Some(s), env, fuel);
            r.out.Ok? && r.m.current == Some(s) && r.m.next.None? && r.m.forceNext.None?
            && !r.m.executing && !r.m.enter && !r.m.exit && !r.m.pushed
            && r.m.framesInState == 1 && r.m.timeInState == 0.0
  {
    var d := SwitchStateExternalDelayed(m, Some(s));
    var m0 := Started(d, 0.0);
    HeadroomUsed(m0, env.frame, 1);
    var w0 := Watchdog(m0, env.frame);
    var c := m.current.value;
    assert ViewOf(w0.m) == ViewOf(m0);
    var f0 := w0.m.(events := w0.m.events + [Ran(c, ViewOf(m0))]);
    assert env.script(c, ViewOf(m0)) == [];
    assert BaseRunState(m0, env, fuel) == Step(f0, Ok);
    assert RunState(m0, env, fuel) == Step(f0, Ok);
    var g := f0.(enter := false, events := f0.events + StillUpdating(d));
    var m1 := Entered(g);
    HeadroomUsed(m1, env.frame, 0);
    var w1 := Watchdog(m1, env.frame);
    assert ViewOf(w1.m) == ViewOf(m1);
    var f1 := w1.m.(events := w1.m.events + [Ran(s, ViewOf(m1))]);
    assert env.script(s, ViewOf(m1)) == [];
    assert BaseRunState(m1, env, fuel - 1) == Step(f1, Ok);
    assert RunState(m1, env, fuel - 1) == Step(f1, Ok);
    assert Update(d, 0.0, env, fuel) == Loop(f1.(enter := false), 0.0, env, fuel - 1);
  }

  // ---------------------------------------------------------------------------------------
  // TimeInStatePassed

  /** The time in state after runs with the DeltaTimes `ds`: TimeInState grows by DeltaTime
      once per frame. */
  function Elapsed(ds: seq<real>): real {
    if ds == [] then 0.0 else Elapsed(ds[..|ds| - 1]) + ds[|ds| - 1]
  }

  lemma {:induction false} ElapsedGrows(ds: seq<real>, j: nat, k: nat)
    requires j <= k <= |ds| && forall i :: 0 <= i < |ds| ==> ds[i] >= 0.0
    ensures Elapsed(ds[..j]) <= Elapsed(ds[..k])
    decreases k
  {
    if j < k {
      ElapsedGrows(ds, j, k - 1);
      assert ds[..k][..k - 1] == ds[..k - 1];
    }
  }

  /** What a state body sees on the runs of one activation, frame by frame: on run `k`,
      TimeInState is the time accumulated over the runs before it and DeltaTime is the
      frame's own. */
  ghost predicate Activation(vs: seq<View>, ds: seq<real>) {
    |vs| == |ds|
    && (forall k :: 0 <= k < |ds| ==> ds[k] >= 0.0)
    && forall k :: 0 <= k < |vs| ==>
         vs[k].timeInState == Elapsed(ds[..k]) && vs[k].deltaTime == ds[k]
  }

  /** TimeInStatePassed(t) answers true on at most one run of an activation ... */
  lemma PassedAtMostOnce(vs: seq<View>, ds: seq<real>, t: real, j: nat, k: nat)
    requires Activation(vs, ds) && j < k < |vs|
    ensures !(TimeInStatePassed(vs[j], t) && TimeInStatePassed(vs[k], t))
  {
    ElapsedGrows(ds, j + 1, k);
    assert ds[..j + 1][..j] == ds[..j];
  }

  /** ... on one when `t` lies in the time the activation covers ... */
  lemma {:induction false} PassedOnce(vs: seq<View>, ds: seq<real>, t: real)
    requires Activation(vs, ds) && 0.0 <= t < Elapsed(ds)
    ensures exists k :: 0 <= k < |vs| && TimeInStatePassed(vs[k], t)
    decreases |ds|
  {
    var n := |ds| - 1;
    assert ds[..n + 1] == ds;
    if t < Elapsed(ds[..n]) {
      forall k | 0 <= k < n
        ensures ds[..n][..k] == ds[..k]
      {
      }
      PassedOnce(vs[..n], ds[..n], t);
      var k :| 0 <= k < n && TimeInStatePassed(vs[..n][k], t);
      assert TimeInStatePassed(vs[k], t);
    } else {
      assert TimeInStatePassed(vs[n], t);
    }
  }

  /** ... and on none when it does not. */
  lemma PassedNever(vs: seq<View>, ds: seq<real>, t: real, k: nat)
    requires Activation(vs, ds) && k < |vs| && Elapsed(ds) <= t
    ensures !TimeInStatePassed(vs[k], t)
  {
    ElapsedGrows(ds, k + 1, |ds|);
    assert ds[..k + 1][..k] == ds[..k];
    assert ds[..|ds|] == ds;
  }

  /** A state whose body asks for nothing, except perhaps once another request has begun its
      exit pass: once it is current it stays current from frame to frame. */
  ghost predicate Steady(env: Env, s: StateId) {
    forall v: View :: !v.exit ==> env.script(s, v) == []
  }

  /** Between two frames, with `s` current and nothing pending; End has not been called. */
  predicate Settled(m: Machine, s: StateId) {
    m.current == Some(s) && !m.exit && !m.executing && !m.ended
    && m.next.None? && m.forceNext.None?
  }

  /** One Update per frame, in frames `f0`, `f0 + 1`, ..., with the DeltaTimes `ds`, stopping
      at the first Update that does not return normally. */
  function Frames(m: Machine, ds: seq<real>, env: Env, f0: int, fuel: nat): Step
    decreases |ds|
  {
    if ds == [] then Step(m, Ok)
    else
      var p := Frames(m, ds[..|ds| - 1], env, f0, fuel);
      if !p.out.Ok? then p else Update(p.m, ds[|ds| - 1], env.(frame := f0 + |ds| - 1), fuel)
  }

  /** What the current state sees on its run in each of those frames. */
  function FrameViews(m: Machine, ds: seq<real>, env: Env, f0: int, fuel: nat): seq<View> {
    seq(|ds|, k requires 0 <= k < |ds| => ViewOf(Started(Frames(m, ds[..k], env, f0, fuel).m, ds[k])))
  }

  /** One frame of a steady state: it runs once, seeing the frame's DeltaTime, and the frame
      adds that DeltaTime to TimeInState. */
  lemma SteadyFrame(m: Machine, s: StateId, dt: real, env: Env, fuel: nat)
    requires Settled(m, s) && Steady(env, s) && m.watchdogLastFrame < env.frame
    ensures var r := Update(m, dt, env, fuel);
            r.out.Ok? && Settled(r.m, s) && r.m.timeInState == m.timeInState + dt
            && r.m.events == m.events + [Ran(s, ViewOf(Started(m, dt)))]
            && r.m.watchdogLastFrame <= env.frame
  {
    var m0 := Started(m, dt);
    HeadroomUsed(m0, env.frame, 0);
    assert env.script(s, ViewOf(m0)) == [];
    QuietRun(m0, env, fuel);
  }

  /** Frame after frame, a steady state stays current and TimeInState grows by the frames'
      DeltaTimes. */
  lemma {:induction false} SteadyFrames(m: Machine, s: StateId, ds: seq<real>, env: Env, f0: int,
                                        fuel: nat)
    requires Settled(m, s) && Steady(env, s) && m.watchdogLastFrame < f0
    ensures var r := Frames(m, ds, env, f0, fuel);
            r.out.Ok? && Settled(r.m, s) && r.m.timeInState == m.timeInState + Elapsed(ds)
            && r.m.watchdogLastFrame < f0 + |ds|
    decreases |ds|
  {
    if ds != [] {
      var n := |ds| - 1;
      SteadyFrames(m, s, ds[..n], env, f0, fuel);
      var p := Frames(m, ds[..n], env, f0, fuel);
      SteadyFrame(p.m, s, ds[n], env.(frame := f0 + n), fuel);
      assert Frames(m, ds, env, f0, fuel) == Update(p.m, ds[n], env.(frame := f0 + n), fuel);
    }
  }

  /** The views of the first frames do not depend on the frames after them. */
  lemma FrameViewsPrefix(m: Machine, ds: seq<real>, env: Env, f0: int, fuel: nat, n: nat, k: nat)
    requires k < n <= |ds|
    ensures FrameViews(m, ds[..n], env, f0, fuel)[k] == FrameViews(m, ds, env, f0, fuel)[k]
  {
    assert ds[..n][..k] == ds[..k];
  }

  lemma FrameViewsSnoc(m: Machine, ds: seq<real>, env: Env, f0: int, fuel: nat)
    requires ds != []
    ensures var n := |ds| - 1;
            FrameViews(m, ds, env, f0, fuel)
              == FrameViews(m, ds[..n], env, f0, fuel)
                 + [ViewOf(Started(Frames(m, ds[..n], env, f0, fuel).m, ds[n]))]
  {
    var n := |ds| - 1;
    forall k | 0 <= k < n
      ensures FrameViews(m, ds[..n], env, f0, fuel)[k] == FrameViews(m, ds, env, f0, fuel)[k]
    {
      FrameViewsPrefix(m, ds, env, f0, fuel, n, k);
    }
  }

  /** A run of `s` for each view, in order. */
  function RunsOf(s: StateId, vs: seq<View>): seq<Event> {
    seq(|vs|, k requires 0 <= k < |vs| => Ran(s, vs[k]))
  }

  lemma RunsOfSnoc(s: StateId, vs: seq<View>, v: View)
    ensures RunsOf(s, vs + [v]) == RunsOf(s, vs) + [Ran(s, v)]
  {
  }

  /** Every one of those frames logs one run of the state, with what it saw, and nothing
      else. */
  lemma {:induction false} SteadyFramesLog(m: Machine, s: StateId, ds: seq<real>, env: Env,
                                           f0: int, fuel: nat)
    requires Settled(m, s) && Steady(env, s) && m.watchdogLastFrame < f0
    ensures Frames(m, ds, env, f0, fuel).m.events
            == m.events + RunsOf(s, FrameViews(m, ds, env, f0, fuel))
    decreases |ds|
  {
    if ds == [] {
      assert RunsOf(s, FrameViews(m, ds, env, f0, fuel)) == [];
    } else {
      var n := |ds| - 1;
      SteadyFramesLog(m, s, ds[..n], env, f0, fuel);
      SteadyFrames(m, s, ds[..n], env, f0, fuel);
      var p := Frames(m, ds[..n], env, f0, fuel);
      SteadyFrame(p.m, s, ds[n], env.(frame := f0 + n), fuel);
      assert Frames(m, ds, env, f0, fuel) == Update(p.m, ds[n], env.(frame := f0 + n), fuel);
      FrameViewsSnoc(m, ds, env, f0, fuel);
      RunsOfSnoc(s, FrameViews(m, ds[..n], env, f0, fuel), ViewOf(Started(p.m, ds[n])));
    }
  }

  /** The runs of a steady state from a frame at which its TimeInState is 0 form one
      activation: the initial state before its first Update is one such. */
  lemma SteadyRunsActivation(m: Machine, s: StateId, ds: seq<real>, env: Env, f0: int, fuel: nat)
    requires Settled(m, s) && Steady(env, s) && m.watchdogLastFrame < f0 && m.timeInState == 0.0
    requires forall k :: 0 <= k < |ds| ==> ds[k] >= 0.0
    ensures Activation(FrameViews(m, ds, env, f0, fuel), ds)
  {
    var vs := FrameViews(m, ds, env, f0, fuel);
    forall k | 0 <= k < |ds|
      ensures vs[k].timeInState == Elapsed(ds[..k]) && vs[k].deltaTime == ds[k]
    {
      SteadyFrames(m, s, ds[..k], env, f0, fuel);
    }
  }

  /** Over the frames of such an activation, TimeInStatePassed(t) is true on some run exactly
      when `t` lies within the time the frames cover, and never on two runs. */
  lemma SteadyStatePassesOnce(m: Machine, s: StateId, ds: seq<real>, env: Env, f0: int,
                              fuel: nat, t: real)
    requires Settled(m, s) && Steady(env, s) && m.watchdogLastFrame < f0 && m.timeInState == 0.0
    requires (forall k :: 0 <= k < |ds| ==> ds[k] >= 0.0) && 0.0 <= t
    ensures var vs := FrameViews(m, ds, env, f0, fuel);
            (exists k :: 0 <= k < |ds| && TimeInStatePassed(vs[k], t)) <==> t < Elapsed(ds)
    ensures var vs := FrameViews(m, ds, env, f0, fuel);
            forall j, k :: 0 <= j < k < |ds| ==> !(TimeInStatePassed(vs[j], t) && TimeInStatePassed(vs[k], t))
  {
    var vs := FrameViews(m, ds, env, f0, fuel);
    SteadyRunsActivation(m, s, ds, env, f0, fuel);
    if t < Elapsed(ds) {
      PassedOnce(vs, ds, t);
    } else {
      forall k | 0 <= k < |ds|
        ensures !TimeInStatePassed(vs[k], t)
      {
        PassedNever(vs, ds, t, k);
      }
    }
    forall j, k | 0 <= j < k < |ds|
      ensures !(TimeInStatePassed(vs[j], t) && TimeInStatePassed(vs[k], t))
    {
      PassedAtMostOnce(vs, ds, t, j, k);
    }
  }

  /** The initial state, from its first Update on, as long as it asks for nothing. */
  lemma InitialActivation(s: StateId, ds: seq<real>, env: Env, f0: int, fuel: nat)
    requires Steady(env, s) && f0 >= 0 && forall k :: 0 <= k < |ds| ==> ds[k] >= 0.0
    ensures Activation(FrameViews(Init(Some(s)), ds, env, f0, fuel), ds)
  {
    SteadyRunsActivation(Init(Some(s)), s, ds, env, f0, fuel);
  }

  /** A run of `p` whose body asks only to switch to `s`, when the watchdog lets it. */
  lemma SwitchingRun(m: Machine, p: StateId, s: StateId, env: Env, fuel: nat)
    requires m.current == Some(p) && env.script(p, ViewOf(m)) == [Switch(Some(s))]
    requires Watchdog(m, env.frame).out.Ok?
    ensures var w := Watchdog(m, env.frame);
            RunState(m, env, fuel)
              == Step(SwitchState(w.m.(events := w.m.events + [Ran(p, ViewOf(m))]), Some(s)), Ok)
  {
    var w := Watchdog(m, env.frame);
    assert ViewOf(w.m) == ViewOf(m);
    var x := w.m.(events := w.m.events + [Ran(p, ViewOf(m))]);
    var y := SwitchState(x, Some(s));
    assert Exec(y, [], env, fuel) == Step(y, Ok);
    assert Exec(x, [Switch(Some(s))], env, fuel) == Step(y, Ok);
    assert BaseRunState(m, env, fuel) == Step(y, Ok);
  }

  /** The frame in which a state is entered by a transition: its entry run sees TimeInState 0
      and the frame's DeltaTime, and the frame ends with its TimeInState still 0. */
  lemma EnteringFrame(m: Machine, p: StateId, s: StateId, dt: real, env: Env, fuel: nat)
    requires Settled(m, p) && env.script(p, ViewOf(Started(m, dt))) == [Switch(Some(s))]
    requires Steady(env, s) && fuel > 0 && Headroom(m, env.frame, 2)
    ensures var r := Update(m, dt, env, fuel);
            var n := |r.m.events|;
            r.out.Ok? && Settled(r.m, s) && r.m.timeInState == 0.0
            && r.m.watchdogLastFrame == (if m.watchdogEnabled then env.frame else m.watchdogLastFrame)
            && n > 0 && r.m.events[n - 1].Ran? && r.m.events[n - 1].state == s
            && r.m.events[n - 1].view.enter && r.m.events[n - 1].view.timeInState == 0.0
            && r.m.events[n - 1].view.deltaTime == dt
  {
    var m0 := Started(m, dt);
    SwitchingRun(m0, p, s, env, fuel);
    HeadroomUsed(m0, env.frame, 1);
    var w0 := Watchdog(m0, env.frame);
    var y := SwitchState(w0.m.(events := w0.m.events + [Ran(p, ViewOf(m0))]), Some(s));
    var g := y.(enter := false, events := y.events + StillUpdating(y));
    assert g.events == y.events;
    assert Update(m, dt, env, fuel) == Loop(g, dt, env, fuel);
    var m1 := Entered(g);
    HeadroomUsed(m1, env.frame, 0);
    var w1 := Watchdog(m1, env.frame);
    assert ViewOf(w1.m) == ViewOf(m1);
    var f1 := w1.m.(events := w1.m.events + [Ran(s, ViewOf(m1))]);
    assert env.script(s, ViewOf(m1)) == [];
    assert BaseRunState(m1, env, fuel - 1) == Step(f1, Ok);
    assert RunState(m1, env, fuel - 1) == Step(f1, Ok);
    assert Loop(g, dt, env, fuel) == Loop(f1.(enter := false), 0.0, env, fuel - 1);
  }

  /** So the state's run in the next frame sees TimeInState 0 again, now with that frame's
      DeltaTime `dt1`: for any `t` below both DeltaTimes, TimeInStatePassed(t) is true on both
      its entry run and that next run. */
  lemma EnteredStatePassesTwice(m: Machine, p: StateId, s: StateId, dt0: real, dt1: real,
                                t: real, env: Env, fuel: nat)
    requires Settled(m, p) && env.script(p, ViewOf(Started(m, dt0))) == [Switch(Some(s))]
    requires Steady(env, s) && fuel > 0
    requires m.watchdogLastFrame < env.frame && Headroom(m, env.frame, 2)
    requires 0.0 <= t < dt0 && t < dt1
    ensures var r := Update(m, dt0, env, fuel);
            var n := |r.m.events|;
            r.out.Ok? && Settled(r.m, s) && n > 0 && r.m.events[n - 1].Ran?
            && r.m.events[n - 1].state == s && r.m.events[n - 1].view.enter
            && TimeInStatePassed(r.m.events[n - 1].view, t)
    ensures var r := Update(m, dt0, env, fuel);
            var q := Update(r.m, dt1, env.(frame := env.frame + 1), fuel);
            var w := ViewOf(Started(r.m, dt1));
            q.out.Ok? && q.m.events == r.m.events + [Ran(s, w)] && TimeInStatePassed(w, t)
  {
    EnteringFrame(m, p, s, dt0, env, fuel);
    var r := Update(m, dt0, env, fuel);
    SteadyFrame(r.m, s, dt1, env.(frame := env.frame + 1), fuel);
  }
}
