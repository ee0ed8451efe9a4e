/** The game of Game.cs: a component whose machine moves between the menu, the phone held in
    the hand, the phone falling and the phone hitting something, and which keeps the records
    shown on screen.

    A state body of the game does two kinds of things when it runs: it asks its machine to
    switch, and it acts on the game (the menu and score panels, the fall timer, the sounds,
    the records). What it asks depends only on what it reads of the machine and on the
    sensors, never on the game's own fields, so the requests are a function of the state's view
    (`GameScript`) and the game's side of every run is replayed, in run order, from the
    machine's log of runs after the machine's Update returns. */
module Game {
  import opened Semantics
  import opened StateMachineRuntime
  import opened StateMachineHost
  import opened MachineProperties

  const InitState: StateId := 0
  const MenuState: StateId := 1
  const FallingState: StateId := 2
  const InHandState: StateId := 3
  const HitState: StateId := 4
  const EndState: StateId := 5

  /** What the sensors report in one frame: where the accelerometer level stands against the
      `stationary`, `freefall` and `high` levels, and the accumulated rotation. */
  datatype Reading = Reading(stationary: bool, freefall: bool, atLeastHigh: bool,
                             rotationSum: real)

  /** The inputs of one frame: the sensors, the engine's frame delta time, and the outcomes of
      the two random draws (HalfChanceInTime(3) in StateInHand, GetBool in StateHit). */
  datatype FrameInput = FrameInput(reading: Reading, frameDelta: real, taunt: bool,
                                   survived: bool)

  datatype Sound = Thrown | Taunt | Hurt | Survived | Record

  /** The three records the score panel shows. */
  datatype Records = Records(longestFreefall: real, longestStableThrow: real,
                             mostRotations: real)

  /** The game's side: whether the menu and the score panel are active, the fall timer and
      the rotation at the start of the fall, the records, and the sounds played so far. */
  datatype Scene = Scene(menuActive: bool, uiActive: bool, t: real, startRotation: real,
                         records: Records, sounds: seq<Sound>)

  // ---------------------------------------------------------------------------------------
  // What the state bodies ask of the machine

  /** What a body reads of its machine right after its own SwitchState: ExitState is true,
      both counters are zero and IsPushedState is false. */
  function AfterSwitch(v: View): (r: View)
    ensures r.exit && r.timeInState == 0.0 && r.framesInState == 0 && !r.pushed
    ensures r.enter == v.enter && r.ended == v.ended && r.deltaTime == v.deltaTime
  {
    v.(exit := true, timeInState := 0.0, framesInState := 0, pushed := false)
  }

  /** A conditional SwitchState inside a body: the requests so far grow and the body's view
      moves on when `cond` holds. */
  datatype Body = Body(reqs: seq<Request>, view: View)

  function SwitchIf(b: Body, cond: bool, target: StateId): Body {
    if cond then Body(b.reqs + [Switch(Some(target))], AfterSwitch(b.view)) else b
  }

  function InitRequests(v: View): (r: seq<Request>)
    ensures r == [Switch(Some(MenuState))]
  {
    [Switch(Some(MenuState))]
  }

  function MenuBody(v: View, rd: Reading): Body {
    SwitchIf(Body([], v), rd.atLeastHigh, InHandState)
  }

  /** StateMenu asks for StateInHand exactly when the accelerometer is at least `high`. */
  function MenuRequests(v: View, rd: Reading): (r: seq<Request>)
    ensures r == (if rd.atLeastHigh then [Switch(Some(InHandState))] else [])
  {
    MenuBody(v, rd).reqs
  }

  function FallingBody(v: View, rd: Reading): Body {
    var b1 := SwitchIf(Body([], v), rd.stationary && v.timeInState > 0.25, InHandState);
    SwitchIf(b1, rd.atLeastHigh && b1.view.timeInState > 0.1, HitState)
  }

  /** StateFalling: back in the hand once stationary after a quarter second, otherwise hit
      once the accelerometer reads `high` after a tenth of a second. The second test reads
      TimeInState after the first switch, which zeroed it, so at most one switch is asked. */
  function FallingRequests(v: View, rd: Reading): (r: seq<Request>)
    ensures r == if rd.stationary && v.timeInState > 0.25 then [Switch(Some(InHandState))]
                 else if rd.atLeastHigh && v.timeInState > 0.1 then [Switch(Some(HitState))]
                 else []
  {
    FallingBody(v, rd).reqs
  }

  function InHandBody(v: View, rd: Reading): Body {
    var b1 := SwitchIf(Body([], v), rd.freefall && v.timeInState > 0.2, FallingState);
    var b2 := SwitchIf(b1, rd.atLeastHigh && b1.view.timeInState > 0.2, FallingState);
    SwitchIf(b2, b2.view.timeInState > 8.0, MenuState)
  }

  /** StateInHand: falling once in free fall or at `high` after a fifth of a second, back to
      the menu after eight seconds. Each later test reads TimeInState after the earlier
      switches, which zeroed it: after eight seconds in the hand a throw still heads to
      StateFalling, and StateMenu is asked only when neither throw test fired. */
  function InHandRequests(v: View, rd: Reading): (r: seq<Request>)
    ensures r == if v.timeInState > 0.2 && (rd.freefall || rd.atLeastHigh)
                 then [Switch(Some(FallingState))]
                 else if v.timeInState > 8.0 then [Switch(Some(MenuState))]
                 else []
  {
    InHandBody(v, rd).reqs
  }

  function HitBody(v: View, rd: Reading): Body {
    var b1 := SwitchIf(Body([], v), rd.stationary && v.timeInState > 0.3, InHandState);
    SwitchIf(b1, rd.freefall && b1.view.timeInState > 0.3, FallingState)
  }

  /** StateHit: back in the hand once stationary, or falling again once in free fall, after
      three tenths of a second; at most one switch is asked. */
  function HitRequests(v: View, rd: Reading): (r: seq<Request>)
    ensures r == if rd.stationary && v.timeInState > 0.3 then [Switch(Some(InHandState))]
                 else if rd.freefall && v.timeInState > 0.3 then [Switch(Some(FallingState))]
                 else []
  {
    HitBody(v, rd).reqs
  }

  /** The game's state bodies for one frame; the host adds StateEnd. */
  function GameScript(rd: Reading): (r: Script)
    ensures forall v: View :: r(InitState, v) == [Switch(Some(MenuState))]
    ensures forall s: StateId, v: View :: s > HitState ==> r(s, v) == []
  {
    var script := (s: StateId, v: View) =>
      if s == InitState then InitRequests(v)
      else if s == MenuState then MenuRequests(v, rd)
      else if s == FallingState then FallingRequests(v, rd)
      else if s == InHandState then InHandRequests(v, rd)
      else if s == HitState then HitRequests(v, rd)
      else [];
    assert forall v: View :: script(InitState, v) == InitRequests(v);
    script
  }

  /** A body's view after its own SwitchState is what the machine then holds: the threading
      of `AfterSwitch` through the bodies is the machine's own behaviour. */
  lemma SwitchViewMatches(m: Machine, s: StateRef)
    ensures ViewOf(SwitchState(m, s)) == AfterSwitch(ViewOf(m))
  {
  }

  /** Every game state asks for at most one switch, and never for End. */
  lemma GameScriptShape(rd: Reading, s: StateId, v: View)
    ensures var reqs := GameScript(rd)(s, v);
            reqs == [] || (|reqs| == 1 && reqs[0].Switch? && reqs[0].target.Some?)
  {
    var reqs := GameScript(rd)(s, v);
    if s == InitState {
      assert reqs == InitRequests(v);
    } else if s == MenuState {
      assert reqs == MenuRequests(v, rd);
    } else if s == FallingState {
      assert reqs == FallingRequests(v, rd);
    } else if s == InHandState {
      assert reqs == InHandRequests(v, rd);
    } else if s == HitState {
      assert reqs == HitRequests(v, rd);
    }
  }

  /** No game state calls End. */
  lemma GameNeverEnds(rd: Reading)
    ensures forall s: StateId, v: View :: EndMachine !in GameScript(rd)(s, v)
  {
    forall s: StateId, v: View
      ensures EndMachine !in GameScript(rd)(s, v)
    {
      GameScriptShape(rd, s, v);
    }
  }

  /** One frame of the game, with the watchdog on, returns (normally or by an exception), and
      every state run in it reads the frame's delta time, unless StateEnd runs in that frame. */
  lemma GameFrameSettles(m: Machine, input: FrameInput, frame: int, fuel: nat)
    requires m.watchdogEnabled && m.watchdogLimit > 0 && m.watchdogRuns >= 0
    requires fuel >= m.watchdogLimit
    ensures var r := Semantics.Update(m, input.frameDelta,
                                      HostEnv(GameScript(input.reading), EndState, frame), fuel);
            RanSince(EndState, r.m.events, |m.events|)
            || (!r.out.Diverged? && r.m.deltaTime == input.frameDelta
                && forall i :: |m.events| <= i < |r.m.events| && r.m.events[i].Ran? ==>
                     r.m.events[i].view.deltaTime == input.frameDelta)
  {
    GameNeverEnds(input.reading);
    HostUpdateSettles(m, GameScript(input.reading), EndState, input.frameDelta, frame, fuel);
    HostUpdateKeepsDeltaTime(m, GameScript(input.reading), EndState, input.frameDelta, frame, fuel);
  }

  /** So a run of a game state leaves exactly the state it asks for pending, with ExitState
      raised and both counters zeroed, or changes nothing when it asks for none. */
  lemma GameRunPends(m: Machine, rd: Reading, s: StateId, env: Env, fuel: nat)
    ensures var reqs := GameScript(rd)(s, ViewOf(m));
            var r := Exec(m, reqs, env, fuel);
            r.out.Ok? && EndMachine !in reqs
            && (reqs != [] ==> reqs[0].Switch? && r.m.next == reqs[0].target && r.m.exit
                               && r.m.framesInState == 0 && r.m.timeInState == 0.0)
            && (reqs == [] ==> r.m == m)
  {
    var reqs := GameScript(rd)(s, ViewOf(m));
    GameScriptShape(rd, s, ViewOf(m));
    if reqs != [] {
      LastSwitchWins(m, reqs, env, fuel);
    }
  }

  // ---------------------------------------------------------------------------------------
  // Scores

  datatype Score = Score(records: Records, improved: bool)

  /** What SubmitScore does to the records: a fall shorter than a tenth of a second counts for
      nothing; otherwise the longest fall and the most rotations keep their maxima, the
      longest stable throw takes `t` only for a throw under 100 degrees, and `improved` tells
      whether at least one record strictly improved. */
  function ScoreRecords(old_: Records, t: real, rotation: real): (r: Score)
    ensures t < 0.1 ==> r == Score(old_, false)
    ensures t >= 0.1 ==>
              r.records.longestFreefall == (if t > old_.longestFreefall then t else old_.longestFreefall)
              && r.records.mostRotations
                 == (if rotation > old_.mostRotations then rotation else old_.mostRotations)
              && r.records.longestStableThrow
                 == (if rotation < 100.0 && t > old_.longestStableThrow then t
                     else old_.longestStableThrow)
    ensures r.records.longestFreefall >= old_.longestFreefall
            && r.records.mostRotations >= old_.mostRotations
            && r.records.longestStableThrow >= old_.longestStableThrow
    ensures r.improved <==> r.records != old_
  {
    if t < 0.1 then Score(old_, false)
    else
      var freefall := t > old_.longestFreefall;
      var stable := rotation < 100.0 && t > old_.longestStableThrow;
      var rotations := rotation > old_.mostRotations;
      Score(Records(if freefall then t else old_.longestFreefall,
                    if stable then t else old_.longestStableThrow,
                    if rotations then rotation else old_.mostRotations),
            freefall || stable || rotations)
  }

  // ---------------------------------------------------------------------------------------
  // What the state bodies do to the game

  /** SubmitScore: the records take the new score, and the record sound plays exactly when
      one of them changed. */
  function Submit(sc: Scene, t: real, rotation: real): (r: Scene)
    ensures r.records == ScoreRecords(sc.records, t, rotation).records
    ensures r.sounds == sc.sounds + (if r.records != sc.records then [Record] else [])
    ensures r == sc.(records := r.records, sounds := r.sounds)
  {
    var s := ScoreRecords(sc.records, t, rotation);
    sc.(records := s.records, sounds := sc.sounds + (if s.improved then [Record] else []))
  }

  /** StateMenu only shows and hides the menu and the score panel. */
  function MenuEffects(sc: Scene, v: View, rd: Reading): (r: Scene)
    ensures r == sc.(menuActive := r.menuActive, uiActive := r.uiActive)
  {
    var sc1 := if v.enter then sc.(menuActive := true, uiActive := false) else sc;
    if MenuBody(v, rd).view.exit then sc1.(menuActive := false, uiActive := true) else sc1
  }

  /** StateFalling never touches the menu or the score panel's visibility, and only adds
      sounds. */
  function FallingEffects(sc: Scene, v: View, input: FrameInput): (r: Scene)
    ensures r.menuActive == sc.menuActive && r.uiActive == sc.uiActive && sc.sounds <= r.sounds
  {
    var sc1 := if v.enter then sc.(sounds := sc.sounds + [Sound.Thrown],
                                   startRotation := input.reading.rotationSum, t := 0.0)
               else sc;
    var sc2 := sc1.(t := sc1.t + input.frameDelta);
    if FallingBody(v, input.reading).view.exit
    then Submit(sc2, sc2.t, input.reading.rotationSum - sc2.startRotation)
    else sc2
  }

  /** StateInHand only plays sounds. */
  function InHandEffects(sc: Scene, input: FrameInput): (r: Scene)
    ensures r == sc.(sounds := r.sounds) && sc.sounds <= r.sounds
  {
    if input.taunt then sc.(sounds := sc.sounds + [Taunt]) else sc
  }

  /** StateHit only plays sounds. */
  function HitEffects(sc: Scene, v: View, input: FrameInput): (r: Scene)
    ensures r == sc.(sounds := r.sounds) && sc.sounds <= r.sounds
  {
    var sc1 := if v.enter then sc.(sounds := sc.sounds + [Hurt]) else sc;
    if HitBody(v, input.reading).view.exit && input.survived
    then sc1.(sounds := sc1.sounds + [Survived]) else sc1
  }

  /** The game's side of one state run that started with view `v`. */
  function RunEffects(sc: Scene, s: StateId, v: View, input: FrameInput): (r: Scene)
    ensures sc.sounds <= r.sounds
    ensures s == InitState || s > HitState ==> r == sc
  {
    if s == MenuState then MenuEffects(sc, v, input.reading)
    else if s == FallingState then FallingEffects(sc, v, input)
    else if s == InHandState then InHandEffects(sc, input)
    else if s == HitState then HitEffects(sc, v, input)
    else sc
  }

  /** The game's side of a stretch of the machine's log, in order. */
  function Replay(sc: Scene, es: seq<Event>, input: FrameInput): (r: Scene)
    ensures sc.sounds <= r.sounds
  {
    if es == [] then sc
    else
      var before := Replay(sc, es[..|es| - 1], input);
      var e := es[|es| - 1];
      if e.Ran? then RunEffects(before, e.state, e.view, input) else before
  }

  /** StateMenu shows the menu and hides the score panel on its enter pass, and does the
      reverse on its exit pass, which is also the run that asks for StateInHand. */
  lemma MenuShowsAndHides(sc: Scene, v: View, rd: Reading)
    ensures var r := MenuEffects(sc, v, rd);
            var leaving := v.exit || rd.atLeastHigh;
            r.records == sc.records && r.sounds == sc.sounds && r.t == sc.t
            && (leaving ==> !r.menuActive && r.uiActive)
            && (v.enter && !leaving ==> r.menuActive && !r.uiActive)
            && (!v.enter && !leaving ==> r == sc)
  {
  }

  /** StateFalling restarts the fall timer on its enter pass, adds the frame's delta time on
      every run, and submits the score exactly on its exit pass, with the rotation since the
      fall began. */
  lemma FallingTimesAndSubmits(sc: Scene, v: View, input: FrameInput)
    ensures var r := FallingEffects(sc, v, input);
            var start := if v.enter then input.reading.rotationSum else sc.startRotation;
            var t := (if v.enter then 0.0 else sc.t) + input.frameDelta;
            var leaving := FallingRequests(v, input.reading) != [] || v.exit;
            r.t == t && r.startRotation == start && r.menuActive == sc.menuActive
            && (leaving ==>
                  r.records == ScoreRecords(sc.records, t, input.reading.rotationSum - start).records)
            && (!leaving ==> r.records == sc.records)
  {
  }

  /** StateHit plays the hurt sound on its enter pass and, on its exit pass (a switch it asks
      for itself or one made before the run), the survived sound when the draw allows;
      nothing else about the game changes. */
  lemma HitSounds(sc: Scene, v: View, input: FrameInput)
    ensures var r := HitEffects(sc, v, input);
            var leaving := HitRequests(v, input.reading) != [] || v.exit;
            r == sc.(sounds := sc.sounds + (if v.enter then [Hurt] else [])
                               + (if leaving && input.survived then [Survived] else []))
  {
  }

  /** StateInHand only taunts, when the frame's draw says so; its switches leave the game
      untouched. */
  lemma InHandOnlyTaunts(sc: Scene, input: FrameInput)
    ensures var r := InHandEffects(sc, input);
            r.records == sc.records && r.menuActive == sc.menuActive && r.uiActive == sc.uiActive
            && r.t == sc.t && r.sounds == sc.sounds + (if input.taunt then [Taunt] else [])
  {
  }

  /** Records never decrease, whatever the game does in a stretch of runs. */
  lemma {:induction false} ReplayKeepsRecords(sc: Scene, es: seq<Event>, input: FrameInput)
    ensures var r := Replay(sc, es, input).records;
            r.longestFreefall >= sc.records.longestFreefall
            && r.mostRotations >= sc.records.mostRotations
            && r.longestStableThrow >= sc.records.longestStableThrow
    decreases |es|
  {
    if es != [] {
      ReplayKeepsRecords(sc, es[..|es| - 1], input);
    }
  }

  // ---------------------------------------------------------------------------------------
  // The objects

  /** The score panel's fields. */
  class UI {
    var longestFreefall: real
    var longestStableThrow: real
    var mostRotations: real

    constructor ()
      ensures longestFreefall == 0.0 && longestStableThrow == 0.0 && mostRotations == 0.0
    {
      longestFreefall := 0.0;
      longestStableThrow := 0.0;
      mostRotations := 0.0;
    }
  }

  class Game {
    const host: StateMachineMonoBehaviour
    const ui: UI
    var menuActive: bool       // menu.activeSelf
    var uiActive: bool         // ui.gameObject.activeSelf
    var t: real
    var startRotation: real
    var sounds: seq<Sound>     // what the audio player was asked to play, in order

    function SceneOf(): Scene
      reads this, ui
    {
      Scene(menuActive, uiActive, t, startRotation,
            Records(ui.longestFreefall, ui.longestStableThrow, ui.mostRotations), sounds)
    }

    constructor (menuActive: bool, uiActive: bool)
      ensures host.sm == null && host.initState == InitState && host.endState == EndState
      ensures SceneOf() == Scene(menuActive, uiActive, 0.0, 0.0, Records(0.0, 0.0, 0.0), [])
      ensures fresh(host) && fresh(ui)
    {
      host := new StateMachineMonoBehaviour(InitState, EndState);
      ui := new UI();
      this.menuActive := menuActive;
      this.uiActive := uiActive;
      t := 0.0;
      startRotation := 0.0;
      sounds := [];
    }

    method SubmitScore(t: real, rotation: real)
      modifies this, ui
      ensures SceneOf() == Submit(old(SceneOf()), t, rotation)
    {
      if t < 0.1 {
        return;
      }
      var record := false;
      if t > ui.longestFreefall {
        record := true;
        ui.longestFreefall := t;
      }
      if rotation < 100.0 && t > ui.longestStableThrow {
        record := true;
        ui.longestStableThrow := t;
      }
      if rotation > ui.mostRotations {
        record := true;
        ui.mostRotations := rotation;
      }
      if record {
        sounds := sounds + [Record];
      }
    }

    method StateMenu(v: View, rd: Reading)
      modifies this
      ensures SceneOf() == MenuEffects(old(SceneOf()), v, rd)
    {
      if v.enter {
        menuActive := true;
        uiActive := false;
      }
      if MenuBody(v, rd).view.exit {
        menuActive := false;
        uiActive := true;
      }
    }

    method StateFalling(v: View, input: FrameInput)
      modifies this, ui
      ensures SceneOf() == FallingEffects(old(SceneOf()), v, input)
    {
      if v.enter {
        sounds := sounds + [Sound.Thrown];
        startRotation := input.reading.rotationSum;
        t := 0.0;
      }
      t := t + input.frameDelta;
      if FallingBody(v, input.reading).view.exit {
        SubmitScore(t, input.reading.rotationSum - startRotation);
      }
    }

    method StateInHand(input: FrameInput)
      modifies this
      ensures SceneOf() == InHandEffects(old(SceneOf()), input)
    {
      if input.taunt {
        sounds := sounds + [Taunt];
      }
    }

    method StateHit(v: View, input: FrameInput)
      modifies this
      ensures SceneOf() == HitEffects(old(SceneOf()), v, input)
    {
      if v.enter {
        sounds := sounds + [Hurt];
      }
      if HitBody(v, input.reading).view.exit && input.survived {
        sounds := sounds + [Survived];
      }
    }

    method RunState(s: StateId, v: View, input: FrameInput)
      modifies this, ui
      ensures SceneOf() == RunEffects(old(SceneOf()), s, v, input)
    {
      if s == MenuState {
        StateMenu(v, input.reading);
      } else if s == FallingState {
        StateFalling(v, input);
      } else if s == InHandState {
        StateInHand(input);
      } else if s == HitState {
        StateHit(v, input);
      }
    }

    /** One frame of the component: its machine's Update, during which the machine runs the
        game's states in order. */
    method Update(input: FrameInput, frame: int, fuel: nat) returns (o: Outcome)
      requires host.sm != null && host.sm.catching == Catching(StateException)
      requires host.endState == EndState
      modifies host.sm, this, ui
      ensures var r := Semantics.Update(old(host.sm.Snapshot()), input.frameDelta,
                                        HostEnv(GameScript(input.reading), EndState, frame), fuel);
              host.sm.Snapshot() == r.m && o == r.out
              && SceneOf() == Replay(old(SceneOf()), r.m.events[|old(host.sm.events)|..], input)
    {
      var sm := host.sm;
      var start := |sm.events|;
      o := host.Update(GameScript(input.reading), input.frameDelta, frame, fuel);
      ReplayRuns(sm.events[start..], input);
    }

    /** The state methods the machine called, in the order of its log of runs. */
    method ReplayRuns(es: seq<Event>, input: FrameInput)
      modifies this, ui
      ensures SceneOf() == Replay(old(SceneOf()), es, input)
    {
      var i := 0;
      while i < |es|
        invariant 0 <= i <= |es|
        invariant SceneOf() == Replay(old(SceneOf()), es[..i], input)
      {
        assert es[..i + 1][..i] == es[..i];
        if es[i].Ran? {
          RunState(es[i].state, es[i].view, input);
        }
        i := i + 1;
      }
      assert es[..|es|] == es;
    }
  }
}
