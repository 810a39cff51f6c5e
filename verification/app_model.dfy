/** The application state record, its initial value, the instruction line chosen
    from it, and the decoration selection bar. */
module AppModel {
  import opened Common
  import opened Decorations

  datatype AppState = AppState(
    isWakingUp: bool,
    isFormed: bool,
    isFist: bool,
    cameraActive: bool)

  const InitialState: AppState := AppState(false, false, false, false)
  const InitialSelection: string := "westie"
  const InitialInstruction: string := "Waiting for camera..."

  const CameraMessage: string := "Please allow camera access to start the magic."
  const FistMessage: string := "Clench your hand into a FIST to summon the tree!"
  const CrystalMessage: string := "The ice is crystallizing..."
  const DecorateMessage: string := "Select a decoration and click the tree!"

  /** The identifiers offered by the selection bar, in display order. */
  const DecoIds: seq<string> := ["westie", "bell", "ornament", "snowflake", "candycane"]

  /** The instruction the effect sets for state `s`, or None when no branch of
      the if/else chain fires. */
  function SelectInstruction(s: AppState): (r: Option<string>)
    // the chain is exhaustive
    ensures r.Some?
    ensures r == Some(CameraMessage) <==> !s.cameraActive
    ensures r == Some(FistMessage) <==> s.cameraActive && !s.isFormed && !s.isWakingUp
    ensures r == Some(CrystalMessage) <==> s.cameraActive && s.isWakingUp
    ensures r == Some(DecorateMessage) <==> s.cameraActive && s.isFormed && !s.isWakingUp
  {
    if !s.cameraActive then Some(CameraMessage)
    else if !s.isFormed && !s.isWakingUp then Some(FistMessage)
    else if s.isWakingUp then Some(CrystalMessage)
    else if s.isFormed then Some(DecorateMessage)
    else None
  }

  /** The instruction shown after the effect has run on state `s`. */
  function InstructionAfter(current: string, s: AppState): (r: string)
    ensures r == CameraMessage || r == FistMessage || r == CrystalMessage || r == DecorateMessage
    ensures r == CameraMessage <==> !s.cameraActive
    ensures r == DecorateMessage <==> s.cameraActive && s.isFormed && !s.isWakingUp
  {
    match SelectInstruction(s)
    case Some(m) => m
    case None => current
  }

  /** Because the chain always fires, the instruction shown depends on the
      state alone and not on what was shown before. */
  lemma InstructionForgetsPrevious(a: string, b: string, s: AppState)
    ensures InstructionAfter(a, s) == InstructionAfter(b, s)
    ensures InstructionAfter(a, s) != a ==> SelectInstruction(s) == Some(InstructionAfter(a, s))
  {
  }

  /** The ids shown in the selection bar: the whole list once the tree is
      formed, nothing before. */
  function SelectionBar(s: AppState): (ids: seq<string>)
    ensures |ids| > 0 <==> s.isFormed
    ensures forall k :: 0 <= k < |ids| ==> IsExplicitId(ids[k])
    ensures forall k :: 0 <= k < |ids| ==> IdOf(KindOf(ids[k])) == ids[k]
    // once formed, every decoration kind has its button
    ensures forall kind: Kind :: IdOf(kind) in ids <==> s.isFormed
  {
    if s.isFormed then DecoIds else []
  }

  /** Pressing button `choice` of the bar selects its id; with no bar shown
      (or no such button) the selection stays. */
  function Pick(s: AppState, current: string, choice: nat): (next: string)
    ensures next == current || (s.isFormed && next in DecoIds)
    ensures IsExplicitId(current) ==> IsExplicitId(next)
    ensures s.isFormed && choice < |DecoIds| ==> next == DecoIds[choice]
    ensures !s.isFormed || choice >= |DecoIds| ==> next == current
  {
    var bar := SelectionBar(s);
    if choice < |bar| then bar[choice] else current
  }

  /** Once the tree is formed, one press selects any decoration kind, whatever
      was selected before. */
  lemma EveryKindSelectable(s: AppState, current: string, kind: Kind)
    requires s.isFormed
    ensures exists choice: nat :: choice < |DecoIds| && KindOf(Pick(s, current, choice)) == kind
  {
    var choice: nat := match kind
      case Westie => 0
      case Bell => 1
      case Ornament => 2
      case Snowflake => 3
      case CandyCane => 4;
    assert Pick(s, current, choice) == IdOf(kind);
    DispatchRoundTrip(kind);
  }

  /** At start-up nothing is active, and the first run of the effect replaces
      the placeholder with the camera-access request. */
  lemma InitialView()
    ensures !InitialState.isWakingUp && !InitialState.isFormed
    ensures !InitialState.isFist && !InitialState.cameraActive
    ensures IsExplicitId(InitialSelection) && KindOf(InitialSelection) == Westie
    ensures InstructionAfter(InitialInstruction, InitialState) == CameraMessage
    ensures SelectionBar(InitialState) == []
  {
  }

  /** Every selection reachable from the initial one by pressing bar buttons is
      dispatched to its own builder, never to the fallback. */
  lemma {:induction false} SelectionsAreExplicit(states: seq<AppState>, choices: seq<nat>)
    requires |states| == |choices|
    ensures IsExplicitId(PickAll(states, choices, InitialSelection))
    ensures IdOf(KindOf(PickAll(states, choices, InitialSelection))) == PickAll(states, choices, InitialSelection)
  {
    PickAllKeepsExplicit(states, choices, InitialSelection);
  }

  /** The selection after a sequence of button presses, each made in the
      corresponding state. */
  function PickAll(states: seq<AppState>, choices: seq<nat>, current: string): string
    requires |states| == |choices|
    decreases |states|
  {
    if |states| == 0 then current
    else PickAll(states[1..], choices[1..], Pick(states[0], current, choices[0]))
  }

  lemma {:induction false} PickAllKeepsExplicit(states: seq<AppState>, choices: seq<nat>, current: string)
    requires |states| == |choices|
    requires IsExplicitId(current)
    ensures IsExplicitId(PickAll(states, choices, current))
    decreases |states|
  {
    if |states| > 0 {
      PickAllKeepsExplicit(states[1..], choices[1..], Pick(states[0], current, choices[0]));
    }
  }
}
