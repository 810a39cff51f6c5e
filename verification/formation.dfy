/** The one-way formation of the tree. The application state record and the
    scene's own `treeFormed` flag move together through three phases: dormant,
    waking up (the particles are flying to their places) and formed. */
module Formation {
  import opened AppModel
  import GiftLayout

  datatype Phase = Dormant | WakingUp | Formed

  function PhaseOf(s: AppState): Phase {
    if s.isWakingUp then WakingUp
    else if s.isFormed then Formed
    else Dormant
  }

  /** The condition under which the formation effect starts the tree. */
  predicate StartGuard(s: AppState, sceneReady: bool) {
    s.isFist && !s.isFormed && !s.isWakingUp && sceneReady
  }

  /** What can happen: the camera comes up; the gesture callback publishes a
      fist flag; the formation effect runs (its dependencies changed) with or
      without a scene; the particle tween finishes. */
  datatype Event =
    | CameraStarted
    | FistSignal(isFist: bool)
    | FormationEffect(sceneReady: bool)
    | TweenComplete

  /** The application state, whether the particle tween is in flight (so that
      its completion callback is pending), the scene's `treeFormed` flag, and
      how many gifts the scene holds. */
  datatype Machine = Machine(app: AppState, tweenPending: bool, treeFormed: bool, gifts: nat)

  const Initial: Machine := Machine(InitialState, false, false, 0)

  function Step(m: Machine, e: Event): (m': Machine)
    ensures m'.app.cameraActive == (m.app.cameraActive || e == CameraStarted)
    ensures m'.app.isFist == if e.FistSignal? then e.isFist else m.app.isFist
  {
    match e
    case CameraStarted => m.(app := m.app.(cameraActive := true))
    case FistSignal(f) => m.(app := m.app.(isFist := f))
    case FormationEffect(ready) =>
      if StartGuard(m.app, ready) then m.(app := m.app.(isWakingUp := true), tweenPending := true)
      else m
    case TweenComplete =>
      if m.tweenPending then
        Machine(m.app.(isFormed := true, isWakingUp := false), false, true, m.gifts + GiftLayout.GiftCount)
      else m
  }

  function Run(m: Machine, es: seq<Event>): Machine
    decreases |es|
  {
    if |es| == 0 then m else Run(Step(m, es[0]), es[1..])
  }

  /** The states the machine can be in: never formed and waking up at once, a
      completion pending exactly while waking up, the scene flag in step with
      the state record, and 90 gifts exactly once formed. */
  ghost predicate Inv(m: Machine) {
    && !(m.app.isFormed && m.app.isWakingUp)
    && m.tweenPending == m.app.isWakingUp
    && m.treeFormed == m.app.isFormed
    && m.gifts == (if m.app.isFormed then GiftLayout.GiftCount else 0)
  }

  lemma InitialIsDormant()
    ensures Inv(Initial) && PhaseOf(Initial.app) == Dormant
  {
  }

  /** Every step keeps the invariant and moves only along
      Dormant -> WakingUp -> Formed: leaving Dormant needs a formation effect
      whose guard holds, leaving WakingUp needs the tween's completion, and
      nothing leaves Formed. */
  lemma StepTransitions(m: Machine, e: Event)
    requires Inv(m)
    ensures Inv(Step(m, e))
    ensures PhaseOf(m.app) == Dormant ==>
      PhaseOf(Step(m, e).app) in {Dormant, WakingUp}
      && (PhaseOf(Step(m, e).app) == WakingUp <==> e.FormationEffect? && StartGuard(m.app, e.sceneReady))
    ensures PhaseOf(m.app) == WakingUp ==>
      PhaseOf(Step(m, e).app) in {WakingUp, Formed}
      && (PhaseOf(Step(m, e).app) == Formed <==> e == TweenComplete)
    ensures PhaseOf(m.app) == Formed ==> PhaseOf(Step(m, e).app) == Formed
  {
  }

  /** Starting sets `isWakingUp`, nothing else in the record, and arms the
      completion callback. */
  lemma StartEffect(m: Machine, ready: bool)
    requires StartGuard(m.app, ready)
    ensures Step(m, FormationEffect(ready)).app == m.app.(isWakingUp := true)
    ensures Step(m, FormationEffect(ready)).tweenPending
  {
  }

  /** Completion sets `isFormed`, clears `isWakingUp`, sets the scene's
      `treeFormed` and adds the 90 gifts. */
  lemma CompleteEffect(m: Machine)
    requires Inv(m) && PhaseOf(m.app) == WakingUp
    ensures var m' := Step(m, TweenComplete);
      m'.app.isFormed && !m'.app.isWakingUp && m'.treeFormed
      && m'.gifts == GiftLayout.GiftCount && m'.app.isFist == m.app.isFist
  {
  }

  /** Any run keeps the invariant. */
  lemma {:induction false} RunKeepsInv(m: Machine, es: seq<Event>)
    requires Inv(m)
    ensures Inv(Run(m, es))
    decreases |es|
  {
    if |es| > 0 {
      StepTransitions(m, es[0]);
      RunKeepsInv(Step(m, es[0]), es[1..]);
    }
  }

  /** Once formed, the tree stays formed whatever follows: fist signals and
      effect runs cause no further transition, the start guard never holds
      again, and the gift count stays at 90. */
  lemma {:induction false} FormedIsFinal(m: Machine, es: seq<Event>)
    requires Inv(m) && PhaseOf(m.app) == Formed
    ensures PhaseOf(Run(m, es).app) == Formed
    ensures Run(m, es).treeFormed && Run(m, es).gifts == GiftLayout.GiftCount
    ensures forall ready :: !StartGuard(Run(m, es).app, ready)
    decreases |es|
  {
    if |es| > 0 {
      StepTransitions(m, es[0]);
      FormedIsFinal(Step(m, es[0]), es[1..]);
    }
  }

  /** From start-up, the tree is formed only after it has been started:
      whenever a run ends formed, some run prefix passed through WakingUp. */
  lemma {:induction false} FormedOnlyAfterWakingUp(m: Machine, es: seq<Event>)
    requires Inv(m) && PhaseOf(m.app) != Formed
    requires PhaseOf(Run(m, es).app) == Formed
    ensures exists k :: 0 <= k < |es| && PhaseOf(Run(m, es[..k]).app) == WakingUp && es[k] == TweenComplete
    decreases |es|
  {
    if |es| == 0 {
      assert false;
    }
    var m1 := Step(m, es[0]);
    StepTransitions(m, es[0]);
    assert es[..0] == [];
    if PhaseOf(m1.app) == Formed {
      assert PhaseOf(Run(m, es[..0]).app) == WakingUp && es[0] == TweenComplete;
    } else {
      FormedOnlyAfterWakingUp(m1, es[1..]);
      var k :| 0 <= k < |es[1..]| && PhaseOf(Run(m1, es[1..][..k]).app) == WakingUp && es[1..][k] == TweenComplete;
      assert es[..k + 1] == [es[0]] + es[1..][..k];
      assert Run(m, es[..k + 1]) == Run(m1, es[1..][..k]);
    }
  }
}
