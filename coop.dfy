/** The co-op stage loop (`module/coop/coop.py`): `ensure_into_coop` with its
    two entry loops, then `try_to_current_stage`, whose rules are tried in a
    fixed order and whose only way out is OPERATION_FAILED followed by
    `ensure_back`.

    Each pass of a loop sees one `CoopFrame`: what `click_timer.reached()`,
    `handle_paid_gift()`, `handle_red_circles()`, `appear` and
    `appear_then_click` return at that pass. The three loops take their
    frames one after another. A loop entered with `skip_first_screenshot`
    reuses the last screenshot for its first pass; its frame here is
    unconstrained, which covers that reuse. */
module Coop {

  datatype CoopFrame = CoopFrame(
    clickReached: bool,
    paidGift: bool,          // handle_paid_gift() handled one
    towerCheck: bool,        // TRIBE_TOWER_CHECK, interval 5
    tribeCheck: bool,        // appear_then_click(TRIBE_CHECK)
    detailedCheck: bool,     // TRIBE_TOWER_DETAILED_CHECK
    detailedCheckDue: bool,  // TRIBE_TOWER_DETAILED_CHECK, interval 5
    stageInfoCheck: bool,    // STAGE_INFO_CHECK
    fight: bool,             // appear_then_click(FIGHT)
    autoShoot: bool,         // appear_then_click(AUTO_SHOOT)
    autoBurst: bool,         // appear_then_click(AUTO_BURST)
    pause: bool,             // PAUSE
    redCirclesHandled: bool, // handle_red_circles()
    nextStage: bool,         // NEXT_STAGE
    endCheck: bool,          // appear_then_click(END_CHECK)
    operationFailed: bool)   // OPERATION_FAILED

  /** What one pass does. `LeaveTower` and `LeaveDetail` are the `break`s of
      the two entry loops, `Failed` the `raise OperationFailed`. */
  datatype CoopAction =
    | HandlePaidGift
    | ClickTribe
    | LeaveTower
    | ClickStage        // the click at (360, 560)
    | LeaveDetail
    | ClickFight
    | ClickAutoShoot
    | ClickAutoBurst
    | HandleRedCircles
    | ClickNextStage    // followed by device.sleep(5)
    | ClickEndCheck
    | Failed
    | Wait

  /** Which of the three loops is running. */
  datatype Phase = Tower | Detail | Stage

  /** One pass of the first entry loop (lines 21-32). */
  function TowerStep(f: CoopFrame): (a: CoopAction)
    ensures a in {HandlePaidGift, ClickTribe, LeaveTower, Wait}
    ensures a == ClickTribe <==> !(f.clickReached && f.paidGift) && f.clickReached && f.towerCheck && f.tribeCheck
    ensures a == LeaveTower <==>
              !(f.clickReached && (f.paidGift || (f.towerCheck && f.tribeCheck))) && f.detailedCheck
  {
    if f.clickReached && f.paidGift then HandlePaidGift
    else if f.clickReached && f.towerCheck && f.tribeCheck then ClickTribe
    else if f.detailedCheck then LeaveTower
    else Wait
  }

  /** One pass of the second entry loop (lines 40-52). */
  function DetailStep(f: CoopFrame): (a: CoopAction)
    ensures a in {HandlePaidGift, ClickStage, LeaveDetail, Wait}
    ensures a == ClickStage <==> !(f.clickReached && f.paidGift) && f.clickReached && f.detailedCheckDue
    ensures a == LeaveDetail <==>
              !(f.clickReached && (f.paidGift || f.detailedCheckDue)) && f.stageInfoCheck
  {
    if f.clickReached && f.paidGift then HandlePaidGift
    else if f.clickReached && f.detailedCheckDue then ClickStage
    else if f.stageInfoCheck then LeaveDetail
    else Wait
  }

  /** The guards of the stage loop's rules in the order they are tried
      (lines 65-103): paid gift, FIGHT, AUTO_SHOOT, AUTO_BURST, red circles,
      NEXT_STAGE, END_CHECK, OPERATION_FAILED. */
  function StageGuards(redCircle: bool, f: CoopFrame): seq<bool>
  {
    [f.clickReached && f.paidGift,
     f.clickReached && f.fight,
     f.clickReached && f.autoShoot,
     f.clickReached && f.autoBurst,
     redCircle && f.pause && f.redCirclesHandled,
     f.clickReached && f.nextStage,
     f.clickReached && !f.nextStage && f.endCheck,
     f.operationFailed]
  }

  /** The action of each rule, in the same order. */
  const StageActions: seq<CoopAction> :=
    [HandlePaidGift, ClickFight, ClickAutoShoot, ClickAutoBurst, HandleRedCircles,
     ClickNextStage, ClickEndCheck, Failed]

  /** One pass of the stage loop. */
  function StageStep(redCircle: bool, f: CoopFrame): (a: CoopAction)
    ensures a in StageActions || a == Wait
  {
    if f.clickReached && f.paidGift then HandlePaidGift
    else if f.clickReached && f.fight then ClickFight
    else if f.clickReached && f.autoShoot then ClickAutoShoot
    else if f.clickReached && f.autoBurst then ClickAutoBurst
    else if redCircle && f.pause && f.redCirclesHandled then HandleRedCircles
    else if f.clickReached && f.nextStage then ClickNextStage
    else if f.clickReached && !f.nextStage && f.endCheck then ClickEndCheck
    else if f.operationFailed then Failed
    else Wait
  }

  /** Each pass fires at most one rule: the rule whose guard holds while no
      earlier rule's guard does. OPERATION_FAILED is therefore looked at
      only when no other rule fired, and a pass waits exactly when no guard
      holds. */
  lemma StagePriority(redCircle: bool, f: CoopFrame)
    ensures var g := StageGuards(redCircle, f);
            var a := StageStep(redCircle, f);
            (a == HandlePaidGift <==> g[0])
            && (a == ClickFight <==> !g[0] && g[1])
            && (a == ClickAutoShoot <==> !g[0] && !g[1] && g[2])
            && (a == ClickAutoBurst <==> !g[0] && !g[1] && !g[2] && g[3])
            && (a == HandleRedCircles <==> !g[0] && !g[1] && !g[2] && !g[3] && g[4])
            && (a == ClickNextStage <==> !g[0] && !g[1] && !g[2] && !g[3] && !g[4] && g[5])
            && (a == ClickEndCheck <==> !g[0] && !g[1] && !g[2] && !g[3] && !g[4] && !g[5] && g[6])
            && (a == Failed <==> !g[0] && !g[1] && !g[2] && !g[3] && !g[4] && !g[5] && !g[6] && g[7])
            && (a == Wait <==> !g[0] && !g[1] && !g[2] && !g[3] && !g[4] && !g[5] && !g[6] && !g[7])
  {
  }

  /** END_CHECK is clicked only when NEXT_STAGE is not visible, and the red
      circle rule fires without the click timer. */
  lemma StageSideConditions(redCircle: bool, f: CoopFrame)
    ensures StageStep(redCircle, f) == ClickEndCheck ==> !f.nextStage && f.clickReached
    ensures StageStep(redCircle, f) == HandleRedCircles ==> redCircle && f.pause
    ensures !f.clickReached && redCircle && f.pause && f.redCirclesHandled ==>
              StageStep(redCircle, f) == HandleRedCircles
  {
  }

  function Step(phase: Phase, redCircle: bool, f: CoopFrame): CoopAction
  {
    match phase
    case Tower => TowerStep(f)
    case Detail => DetailStep(f)
    case Stage => StageStep(redCircle, f)
  }

  /** The loop after the given entry loop. */
  function NextPhase(phase: Phase): Phase
  {
    match phase
    case Tower => Detail
    case _ => Stage
  }

  /** The phase after an action: the `break`s move to the next loop. */
  function After(phase: Phase, a: CoopAction): Phase
  {
    if a == LeaveTower then Detail else if a == LeaveDetail then Stage else phase
  }

  /** How the co-op run ended: `ensure_back` after OPERATION_FAILED, or still
      in the given loop when the frames ran out. */
  datatype CoopEnd = BackedOut | Running(phase: Phase)

  datatype CoopTrace = CoopTrace(actions: seq<CoopAction>, end: CoopEnd)

  /** The loops from `phase` on over the frames, one action per frame. */
  function Coop(phase: Phase, redCircle: bool, frames: seq<CoopFrame>): (t: CoopTrace)
    ensures |t.actions| <= |frames|
    decreases |frames|
  {
    if frames == [] then CoopTrace([], Running(phase))
    else
      var a := Step(phase, redCircle, frames[0]);
      if a == Failed then CoopTrace([a], BackedOut)
      else
        var rest := Coop(After(phase, a), redCircle, frames[1..]);
        CoopTrace([a] + rest.actions, rest.end)
  }

  function CoopAfter(actions: seq<CoopAction>, t: CoopTrace): CoopTrace
  {
    CoopTrace(actions + t.actions, t.end)
  }

  lemma CoopAfterStep(actions: seq<CoopAction>, a: CoopAction, t: CoopTrace)
    ensures CoopAfter(actions, CoopTrace([a] + t.actions, t.end)) == CoopAfter(actions + [a], t)
  {
    assert actions + ([a] + t.actions) == (actions + [a]) + t.actions;
  }

  lemma CoopAfterAfter(first: seq<CoopAction>, second: seq<CoopAction>, t: CoopTrace)
    ensures CoopAfter(first, CoopAfter(second, t)) == CoopAfter(first + second, t)
  {
    assert first + (second + t.actions) == (first + second) + t.actions;
  }

  /** The phase reached after the given actions, from `phase`. */
  function PhaseAfter(phase: Phase, actions: seq<CoopAction>): Phase
    decreases |actions|
  {
    if actions == [] then phase else PhaseAfter(After(phase, actions[0]), actions[1..])
  }

  /** The actions each loop can take. */
  function ActionsOf(phase: Phase): set<CoopAction>
  {
    match phase
    case Tower => {HandlePaidGift, ClickTribe, LeaveTower, Wait}
    case Detail => {HandlePaidGift, ClickStage, LeaveDetail, Wait}
    case Stage => {HandlePaidGift, ClickFight, ClickAutoShoot, ClickAutoBurst, HandleRedCircles,
                   ClickNextStage, ClickEndCheck, Failed, Wait}
  }

  /** Along a run each action belongs to the loop reached by the actions
      before it: the second loop starts strictly after the first has left on
      TRIBE_TOWER_DETAILED_CHECK, and the stage loop strictly after the second
      has left on STAGE_INFO_CHECK. */
  lemma {:induction false} CoopPhases(phase: Phase, redCircle: bool, frames: seq<CoopFrame>, i: nat)
    requires i < |Coop(phase, redCircle, frames).actions|
    ensures var t := Coop(phase, redCircle, frames);
            t.actions[i] in ActionsOf(PhaseAfter(phase, t.actions[..i]))
    decreases |frames|
  {
    var t := Coop(phase, redCircle, frames);
    var a := Step(phase, redCircle, frames[0]);
    assert t.actions[0] == a;
    if i > 0 {
      var rest := Coop(After(phase, a), redCircle, frames[1..]);
      assert t.actions == [a] + rest.actions;
      CoopPhases(After(phase, a), redCircle, frames[1..], i - 1);
      assert t.actions[..i] == [a] + rest.actions[..i - 1];
      assert ([a] + rest.actions[..i - 1])[1..] == rest.actions[..i - 1];
      assert t.actions[i] == rest.actions[i - 1];
    }
  }

  /** The run ends only through OPERATION_FAILED: a run that backed out has
      `Failed` as its last action and nowhere before. */
  lemma {:induction false} CoopOnlyExit(phase: Phase, redCircle: bool, frames: seq<CoopFrame>)
    ensures var t := Coop(phase, redCircle, frames);
            (t.end == BackedOut <==> |t.actions| > 0 && t.actions[|t.actions| - 1] == Failed)
            && forall j :: 0 <= j < |t.actions| - 1 ==> t.actions[j] != Failed
    decreases |frames|
  {
    if frames != [] {
      var a := Step(phase, redCircle, frames[0]);
      if a != Failed {
        CoopOnlyExit(After(phase, a), redCircle, frames[1..]);
        var rest := Coop(After(phase, a), redCircle, frames[1..]);
        var t := Coop(phase, redCircle, frames);
        assert t.actions == [a] + rest.actions;
        assert forall j :: 1 <= j < |t.actions| ==> t.actions[j] == rest.actions[j - 1];
      }
    }
  }

  /** `try_to_current_stage`: the stage loop until OPERATION_FAILED, which is
      caught and answered by `ensure_back`. */
  method TryToCurrentStage(redCircle: bool, frames: seq<CoopFrame>) returns (actions: seq<CoopAction>, end: CoopEnd)
    ensures CoopTrace(actions, end) == Coop(Stage, redCircle, frames)
  {
    actions := [];
    var i := 0;
    while i < |frames|
      invariant 0 <= i <= |frames|
      invariant Coop(Stage, redCircle, frames) == CoopAfter(actions, Coop(Stage, redCircle, frames[i..]))
    {
      var f := frames[i];
      assert frames[i..][0] == f && frames[i..][1..] == frames[i + 1..];
      var a := StageStep(redCircle, f);
      if a == Failed {
        actions := actions + [Failed];
        return actions, BackedOut;
      }
      CoopAfterStep(actions, a, Coop(Stage, redCircle, frames[i + 1..]));
      actions := actions + [a];
      i := i + 1;
    }
    return actions, Running(Stage);
  }

  /** One of the two entry loops, run until its `break` (which moves to the
      next phase) or until the frames run out. */
  method EntryLoop(phase: Phase, redCircle: bool, frames: seq<CoopFrame>)
    returns (actions: seq<CoopAction>, consumed: nat, next: Phase)
    requires phase in {Tower, Detail}
    ensures consumed <= |frames|
    ensures next == phase ==> consumed == |frames|
    ensures next != phase ==> next == NextPhase(phase)
    ensures Coop(phase, redCircle, frames) == CoopAfter(actions, Coop(next, redCircle, frames[consumed..]))
  {
    actions := [];
    consumed := 0;
    next := phase;
    while consumed < |frames| && next == phase
      invariant 0 <= consumed <= |frames|
      invariant next == phase || next == NextPhase(phase)
      invariant Coop(phase, redCircle, frames) == CoopAfter(actions, Coop(next, redCircle, frames[consumed..]))
    {
      var f := frames[consumed];
      assert frames[consumed..][0] == f && frames[consumed..][1..] == frames[consumed + 1..];
      var a := Step(phase, redCircle, f);
      CoopAfterStep(actions, a, Coop(After(phase, a), redCircle, frames[consumed + 1..]));
      actions := actions + [a];
      consumed := consumed + 1;
      next := After(phase, a);
    }
  }

  /** `ensure_into_coop`: the first entry loop, the second, then the stage. */
  method EnsureIntoCoop(redCircle: bool, frames: seq<CoopFrame>) returns (actions: seq<CoopAction>, end: CoopEnd)
    ensures CoopTrace(actions, end) == Coop(Tower, redCircle, frames)
  {
    var towerActions, i, phase := EntryLoop(Tower, redCircle, frames);
    if phase == Tower {
      assert frames[i..] == [];
      assert towerActions + [] == towerActions;
      return towerActions, Running(Tower);
    }
    var rest := frames[i..];
    var detailActions, j, phase2 := EntryLoop(Detail, redCircle, rest);
    CoopAfterAfter(towerActions, detailActions, Coop(phase2, redCircle, rest[j..]));
    if phase2 == Detail {
      assert rest[j..] == [];
      actions := towerActions + detailActions;
      assert actions + [] == actions;
      return actions, Running(Detail);
    }
    var stageActions, stageEnd := TryToCurrentStage(redCircle, rest[j..]);
    actions := (towerActions + detailActions) + stageActions;
    end := stageEnd;
  }
}
