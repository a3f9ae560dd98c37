/** The rookie arena (`module/rookie_arena/rookie_arena.py`): its slot
    buttons and the shared competition, entry and task loops. The strategy
    selection is inherited from `ArenaBase` (line 147), whose code is not
    part of this model: each screen carries the slot id it returns. */
module RookieArena {
  import opened Wrappers
  import opened Geometry
  import opened ArenaLoop

  /** `button`: where START_COMPETITION is clicked for slots 1, 2 and 3. */
  const Buttons: seq<Point> := [Point(590, 730), Point(590, 900), Point(590, 1100)]

  /** A slot id, as `select_strategy(False)["id"]` returns one. */
  type SlotId = k: int | 1 <= k <= 3 witness 3

  /** One pass of `start_competition`: the shared sight and the slot id
      the inherited selection would return on this screen. */
  datatype Screen = Screen(sight: Sight, strategyId: SlotId)

  function Frames(screens: seq<Screen>): (frames: seq<Frame>)
    ensures |frames| == |screens|
    ensures forall i :: 0 <= i < |screens| ==>
              frames[i].sight == screens[i].sight && frames[i].selection == Ok(screens[i].strategyId as int)
  {
    seq(|screens|, i requires 0 <= i < |screens| => Frame(screens[i].sight, Ok(screens[i].strategyId as int)))
  }

  /** Id k clicks `button[k - 1]`: the three slot points. */
  lemma SlotPoints()
    ensures SlotButton(Buttons, 1) == Some(Point(590, 730))
    ensures SlotButton(Buttons, 2) == Some(Point(590, 900))
    ensures SlotButton(Buttons, 3) == Some(Point(590, 1100))
  {
  }

  /** `start_competition` on the rookie arena. It never raises, every
      opponent click is on the button of the chosen slot, and slot 3 is
      clicked when selection is disabled. */
  method StartCompetition(selectionEnabled: bool, screens: seq<Screen>) returns (steps: seq<Step>, outcome: Outcome)
    ensures Trace(steps, outcome) == Run(false, selectionEnabled, Buttons, Frames(screens))
    ensures !outcome.Raised?
    ensures forall i :: 0 <= i < |steps| && steps[i].action.ClickOpponent? ==>
              1 <= steps[i].action.id <= 3 && steps[i].action.at == Buttons[steps[i].action.id - 1]
              && (!selectionEnabled ==> steps[i].action.at == Point(590, 1100))
  {
    var frames := Frames(screens);
    steps, outcome := ArenaLoop.StartCompetition(selectionEnabled, Buttons, frames);
    forall i | 0 <= i < |steps| && steps[i].action.ClickOpponent?
      ensures 1 <= steps[i].action.id <= 3 && steps[i].action.at == Buttons[steps[i].action.id - 1]
              && (!selectionEnabled ==> steps[i].action.id == 3)
    {
      RunClicksSlots(false, selectionEnabled, Buttons, frames, i);
    }
    RunFaults(false, selectionEnabled, Buttons, frames);
  }

  /** `run`: `RookieArenaIsUnavailable` is swallowed, nothing else can be
      raised, and whenever `run` ends its scheduler task is delayed to the next server
      update. */
  method RunTask(selectionEnabled: bool, entryFrames: seq<EntryFrame>, screens: seq<Screen>) returns (end: TaskEnd)
    ensures !end.Crashed?
    ensures end.Delayed? ==> end.serverUpdate
    ensures Entry(entryFrames).raised.Some? ==> end == Delayed(true)
    ensures Entry(entryFrames).arrived == Some(false) ==> end == Delayed(true)
    ensures Entry(entryFrames).arrived == Some(true) ==>
              (end == StillRunning <==> Run(false, selectionEnabled, Buttons, Frames(screens)).outcome == Running)
  {
    var frames := Frames(screens);
    end := ArenaLoop.RunTask(entryFrames, selectionEnabled, Buttons, frames);
    RunFaults(false, selectionEnabled, Buttons, frames);
  }
}
