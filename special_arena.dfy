/** The special arena (`module/special_arena/special_arena.py`): its slot
    buttons, the strategy selection feeding the opponent rule, and the
    shared competition, entry and task loops instantiated with them. */
module SpecialArena {
  import opened Wrappers
  import opened Geometry
  import opened ArenaLoop
  import Selection

  /** `button`: where START_COMPETITION is clicked for slots 1, 2 and 3. */
  const Buttons: seq<Point> := [Point(590, 800), Point(590, 950), Point(590, 1100)]

  /** The `OpponentSelection_*` settings; the sorting weights are the object
      `json.loads` returns, with numbers as reals. */
  datatype Config = Config(selectionEnabled: bool, weights: map<string, real>, strategy: string)

  /** One pass of `start_competition`: the shared sight, and what OCR reads
      on the three opponent cards. */
  datatype Screen = Screen(sight: Sight, first: Selection.Reading, second: Selection.Reading,
                           third: Selection.Reading)

  /** `self.select_strategy()["id"]`: the id of the selected opponent, a
      KeyError for a missing weight, or a TypeError when the strategy is
      none of Max, Min, Middle and `select_strategy` returned None. */
  function SelectedId(config: Config, s: Screen): (r: Result<int, Fault>)
    ensures r.Ok? ==> 1 <= r.value <= 3
    ensures Selection.MissingWeight(config.weights).Some? ==>
              r == Err(KeyError(Selection.MissingWeight(config.weights).value))
    ensures Selection.MissingWeight(config.weights).None? && config.strategy !in {"Max", "Min", "Middle"} ==>
              r == Err(TypeError)
    ensures Selection.MissingWeight(config.weights).None? && config.strategy in {"Max", "Min", "Middle"} ==>
              r.Ok?
    ensures r.Err? ==> r.error.KeyError? || r.error == TypeError
  {
    Selection.SelectedSlot(s.first, s.second, s.third, config.weights, config.strategy);
    match Selection.Selected(Selection.OpponentsData(s.first, s.second, s.third), config.weights, config.strategy)
    case Err(key) => Err(KeyError(key))
    case Ok(None) => Err(TypeError)
    case Ok(Some(o)) => Ok(o.id)
  }

  function ToFrame(config: Config, s: Screen): Frame
  {
    Frame(s.sight, SelectedId(config, s))
  }

  function Frames(config: Config, screens: seq<Screen>): (frames: seq<Frame>)
    ensures |frames| == |screens|
    ensures SelectionsInSlots(Buttons, frames)
  {
    seq(|screens|, i requires 0 <= i < |screens| => ToFrame(config, screens[i]))
  }

  /** With an unknown strategy, the first pass whose opponent rule fires
      raises TypeError on `None["id"]`. */
  lemma UnknownStrategyRaises(config: Config, s: Screen)
    requires config.selectionEnabled && Selection.HasAllWeights(config.weights)
    requires config.strategy !in {"Max", "Min", "Middle"}
    requires OpponentGuard(false, s.sight)
    ensures Decide(false, true, Buttons, ToFrame(config, s)) == Err(TypeError)
  {
  }

  /** `start_competition` on the special arena. Every opponent click is on
      the button of the selected slot, slot 3 when selection is disabled,
      and the loop raises only the selection's KeyError or TypeError. */
  method StartCompetition(config: Config, screens: seq<Screen>) returns (steps: seq<Step>, outcome: Outcome)
    ensures Trace(steps, outcome) == Run(false, config.selectionEnabled, Buttons, Frames(config, screens))
    ensures forall i :: 0 <= i < |steps| && steps[i].action.ClickOpponent? ==>
              1 <= steps[i].action.id <= 3 && steps[i].action.at == Buttons[steps[i].action.id - 1]
              && (!config.selectionEnabled ==> steps[i].action.at == Point(590, 1100))
    ensures outcome.Raised? ==> config.selectionEnabled && (outcome.fault.KeyError? || outcome.fault == TypeError)
  {
    var frames := Frames(config, screens);
    steps, outcome := ArenaLoop.StartCompetition(config.selectionEnabled, Buttons, frames);
    forall i | 0 <= i < |steps| && steps[i].action.ClickOpponent?
      ensures 1 <= steps[i].action.id <= 3 && steps[i].action.at == Buttons[steps[i].action.id - 1]
              && (!config.selectionEnabled ==> steps[i].action.id == 3)
    {
      RunClicksSlots(false, config.selectionEnabled, Buttons, frames, i);
    }
    RunFaults(false, config.selectionEnabled, Buttons, frames);
  }

  /** `run`: enter the special arena, compete, and delay the scheduler task to the
      next server update; NEXT_SEASON ends in the delay too, and only a
      failing selection escapes before it. */
  method RunTask(config: Config, entryFrames: seq<EntryFrame>, screens: seq<Screen>) returns (end: TaskEnd)
    ensures Entry(entryFrames).raised.Some? ==> end == Delayed(true)
    ensures end.Delayed? ==> end.serverUpdate
    ensures end.Crashed? ==> config.selectionEnabled && (end.fault.KeyError? || end.fault == TypeError)
    ensures Entry(entryFrames).arrived == Some(false) ==> end == Delayed(true)
  {
    var frames := Frames(config, screens);
    end := ArenaLoop.RunTask(entryFrames, config.selectionEnabled, Buttons, frames);
    RunFaults(false, config.selectionEnabled, Buttons, frames);
  }
}
