/** The competition and entry loops shared, line for line, by the special
    arena and the rookie arena: `start_competition` with its `already_start`
    latch and prioritised rules, `ensure_into_*` with the NEXT_SEASON check
    first, and `run`, which swallows the arena's "unavailable" exception and
    then always delays its scheduler task.

    Perception and timers are inputs: each pass of a `while 1` loop sees one
    `Frame`, which records what `Timer.reached()`, `appear` and
    `appear_then_click` return in that pass; a loop that has not left when the
    frames run out is reported as still running. */
module ArenaLoop {
  import opened Wrappers
  import opened Geometry

  /** The exceptions the arena code raises: the arena's own "unavailable"
      exception, and what Python raises in the opponent rule on a missing
      weight, on `None["id"]` and on a bad list index. */
  datatype Fault = ArenaUnavailable | KeyError(key: string) | TypeError | IndexError

  /** `xs[index]` with Python's negative indices; None stands for IndexError. */
  function PyIndex<T>(xs: seq<T>, index: int): (r: Option<T>)
    ensures r.Some? <==> -|xs| <= index < |xs|
    ensures 0 <= index < |xs| ==> r == Some(xs[index])
    ensures -|xs| <= index < 0 ==> r == Some(xs[|xs| + index])
  {
    if 0 <= index < |xs| then Some(xs[index])
    else if -|xs| <= index < 0 then Some(xs[|xs| + index])
    else None
  }

  /** `self.button[opponent_id - 1]`. */
  function SlotButton(slots: seq<Point>, id: int): (r: Option<Point>)
    ensures 1 <= id <= |slots| ==> r == Some(slots[id - 1])
  {
    PyIndex(slots, id - 1)
  }

  /** The three timers of `start_competition` (the entry loop uses the first two). */
  datatype Timer = ConfirmTimer | ClickTimer | ClickTimer2

  /** What one pass of `start_competition` sees of the timers and the screen. */
  datatype Sight = Sight(
    clickReached: bool,
    click2Reached: bool,
    confirmReached: bool,
    freeOpportunity: bool,
    skip: bool,
    intoCompetition: bool,
    endCompetition: bool,
    arenaCheck: bool)

  /** One pass's input: the sight, and what `select_strategy(...)["id"]`
      gives on this screen or the exception it raises; the selection is
      consulted only when it is enabled. */
  datatype Frame = Frame(sight: Sight, selection: Result<int, Fault>)

  /** What one pass does. */
  datatype Action =
    | ClickOpponent(id: int, at: Point)  // the START_COMPETITION click on a slot
    | ClickSkip
    | ClickInto
    | ClickEnd                            // END_COMPETITION, clicked at (100, 100)
    | Leave                               // the `break`
    | Wait                                // no rule fired: take the next screenshot

  /** An action with the timers reset beside it. */
  datatype Step = Step(action: Action, resets: set<Timer>)

  /** A step and the value of `already_start` after it. */
  datatype Decision = Decision(step: Step, started: bool)

  /** The guard of the opponent rule. */
  predicate OpponentGuard(started: bool, s: Sight)
  {
    !started && s.clickReached && s.click2Reached && s.freeOpportunity
  }

  /** The opponent the rule clicks: slot 3 unless selection is enabled. */
  function ChosenOpponent(selectionEnabled: bool, slots: seq<Point>, f: Frame): (r: Result<Action, Fault>)
    ensures !selectionEnabled && |slots| >= 3 ==> r == Ok(ClickOpponent(3, slots[2]))
    ensures r.Ok? ==> r.value.ClickOpponent? && SlotButton(slots, r.value.id) == Some(r.value.at)
    ensures r.Ok? && selectionEnabled ==> f.selection == Ok(r.value.id)
    ensures selectionEnabled && f.selection.Err? ==> r == Err(f.selection.error)
  {
    var id := if selectionEnabled then f.selection else Ok(3);
    match id
    case Err(e) => Err(e)
    case Ok(k) =>
      match SlotButton(slots, k)
      case None => Err(IndexError)
      case Some(p) => Ok(ClickOpponent(k, p))
  }

  /** One pass of the `start_competition` loop: the first rule whose guard
      holds fires. */
  function Decide(started: bool, selectionEnabled: bool, slots: seq<Point>, f: Frame): Result<Decision, Fault>
  {
    if OpponentGuard(started, f.sight) then
      match ChosenOpponent(selectionEnabled, slots, f)
      case Err(e) => Err(e)
      case Ok(a) => Ok(Decision(Step(a, {ConfirmTimer, ClickTimer, ClickTimer2}), started))
    else if f.sight.clickReached && f.sight.skip then
      Ok(Decision(Step(ClickSkip, {ConfirmTimer, ClickTimer}), started))
    else if !started && f.sight.clickReached && f.sight.intoCompetition then
      Ok(Decision(Step(ClickInto, {ConfirmTimer, ClickTimer}), started))
    else if f.sight.clickReached && f.sight.endCompetition then
      Ok(Decision(Step(ClickEnd, {ConfirmTimer, ClickTimer}), true))
    else if started && f.sight.arenaCheck && f.sight.confirmReached then
      Ok(Decision(Step(Leave, {}), started))
    else
      Ok(Decision(Step(Wait, {}), started))
  }

  /** The latch: `already_start` is set only by the END_COMPETITION rule and
      never cleared inside a pass; once set, neither the opponent rule nor the
      INTO_COMPETITION rule fires; the loop leaves only when the latch, the
      arena check and the confirm timer all hold. */
  lemma DecideLatch(started: bool, selectionEnabled: bool, slots: seq<Point>, f: Frame)
    ensures Decide(started, selectionEnabled, slots, f).Ok? ==>
              var d := Decide(started, selectionEnabled, slots, f).value;
              (d.started <==> started || d.step.action == ClickEnd)
              && (d.step.action.ClickOpponent? || d.step.action == ClickInto ==> !started)
              && (d.step.action == Leave ==> started && f.sight.arenaCheck && f.sight.confirmReached)
    ensures Decide(started, selectionEnabled, slots, f).Err? ==> !started
  {
  }

  /** The rule priority: each rule fires exactly when its own guard holds and
      no earlier rule's guard does, and it resets the timers the source resets. */
  lemma DecidePriority(started: bool, selectionEnabled: bool, slots: seq<Point>, f: Frame)
    ensures OpponentGuard(started, f.sight) <==>
              Decide(started, selectionEnabled, slots, f).Err?
              || Decide(started, selectionEnabled, slots, f).value.step.action.ClickOpponent?
    ensures Decide(started, selectionEnabled, slots, f).Ok? ==>
              var s := Decide(started, selectionEnabled, slots, f).value.step;
              (s.action.ClickOpponent? ==> s.resets == {ConfirmTimer, ClickTimer, ClickTimer2})
              && (s.action == ClickSkip <==> !OpponentGuard(started, f.sight) && f.sight.clickReached && f.sight.skip)
              && (s.action == ClickInto <==>
                    !OpponentGuard(started, f.sight) && f.sight.clickReached && !f.sight.skip && !started && f.sight.intoCompetition)
              && (s.action == ClickEnd <==>
                    !OpponentGuard(started, f.sight) && f.sight.clickReached && !f.sight.skip
                    && (started || !f.sight.intoCompetition) && f.sight.endCompetition)
              && (s.action in {ClickSkip, ClickInto, ClickEnd} ==> s.resets == {ConfirmTimer, ClickTimer})
              && (s.action == Wait ==> s.resets == {})
  {
  }

  // ---------------------------------------------------------------------
  // The loop

  /** How a loop ended, if it did. */
  datatype Outcome =
    | Done                 // left, and no free opportunity remained
    | NoFreeOpportunity    // `ensure_into_*` arrived but had no free ticket
    | Raised(fault: Fault)
    | Running              // the frames ran out first

  /** The steps taken, one per frame consumed, and how the loop ended. */
  datatype Trace = Trace(steps: seq<Step>, outcome: Outcome)

  function Prepend(s: Step, t: Trace): Trace
  {
    Trace([s] + t.steps, t.outcome)
  }

  /** `steps` taken before the trace `t`. */
  function Append(steps: seq<Step>, t: Trace): Trace
  {
    Trace(steps + t.steps, t.outcome)
  }

  lemma AppendPrepend(steps: seq<Step>, s: Step, t: Trace)
    ensures Append(steps, Prepend(s, t)) == Append(steps + [s], t)
  {
    assert steps + ([s] + t.steps) == (steps + [s]) + t.steps;
  }

  /** `start_competition` over the frames, from latch value `started`. After
      the `break`, a remaining free opportunity re-enters `start_competition`
      (line 229 of the special arena), which restarts with a cleared latch;
      otherwise the competition is done. */
  function Run(started: bool, selectionEnabled: bool, slots: seq<Point>, frames: seq<Frame>): (t: Trace)
    ensures |t.steps| <= |frames|
    ensures t.outcome in {Done, Running} || t.outcome.Raised?
    decreases |frames|
  {
    if frames == [] then Trace([], Running)
    else
      match Decide(started, selectionEnabled, slots, frames[0])
      case Err(e) => Trace([], Raised(e))
      case Ok(d) =>
        if d.step.action == Leave && !frames[0].sight.freeOpportunity then Trace([d.step], Done)
        else
          var next := if d.step.action == Leave then false else d.started;
          Prepend(d.step, Run(next, selectionEnabled, slots, frames[1..]))
  }

  /** `already_start` as it stands after the given steps, from `started`:
      set by END_COMPETITION, cleared when the loop is re-entered. */
  function Latch(started: bool, steps: seq<Step>): bool
    decreases |steps|
  {
    if steps == [] then started
    else
      var a := steps[0].action;
      Latch(if a == ClickEnd then true else if a == Leave then false else started, steps[1..])
  }

  lemma LatchStep(started: bool, s: Step, steps: seq<Step>)
    ensures Latch(started, [s] + steps)
            == Latch(if s.action == ClickEnd then true else if s.action == Leave then false else started, steps)
  {
    assert ([s] + steps)[1..] == steps;
  }

  /** Over a whole run: an opponent or INTO_COMPETITION click only ever
      happens while the latch (replayed from the steps before it) is clear,
      and every `break` happens while it is set. */
  lemma {:induction false} RunRespectsLatch(started: bool, selectionEnabled: bool, slots: seq<Point>,
                                            frames: seq<Frame>, i: nat)
    requires i < |Run(started, selectionEnabled, slots, frames).steps|
    ensures var steps := Run(started, selectionEnabled, slots, frames).steps;
            (steps[i].action.ClickOpponent? || steps[i].action == ClickInto ==> !Latch(started, steps[..i]))
            && (steps[i].action == Leave ==> Latch(started, steps[..i]))
    decreases |frames|
  {
    var d := Decide(started, selectionEnabled, slots, frames[0]).value;
    DecideLatch(started, selectionEnabled, slots, frames[0]);
    var steps := Run(started, selectionEnabled, slots, frames).steps;
    assert steps[0] == d.step;
    if i > 0 {
      var next := if d.step.action == Leave then false else d.started;
      var rest := Run(next, selectionEnabled, slots, frames[1..]).steps;
      assert steps == [d.step] + rest;
      RunRespectsLatch(next, selectionEnabled, slots, frames[1..], i - 1);
      assert steps[..i] == [d.step] + rest[..i - 1];
      LatchStep(started, d.step, rest[..i - 1]);
      assert steps[i] == rest[i - 1];
    }
  }

  /** Every id a frame's selection can yield names one of the slots. */
  predicate SelectionsInSlots(slots: seq<Point>, frames: seq<Frame>)
  {
    forall k :: 0 <= k < |frames| && frames[k].selection.Ok? ==> 1 <= frames[k].selection.value <= |slots|
  }

  /** Every opponent click of a run is on the button of the chosen slot, and
      on slot 3 when selection is disabled. */
  lemma {:induction false} RunClicksSlots(started: bool, selectionEnabled: bool, slots: seq<Point>,
                                          frames: seq<Frame>, i: nat)
    requires |slots| >= 3 && SelectionsInSlots(slots, frames)
    requires i < |Run(started, selectionEnabled, slots, frames).steps|
    ensures var a := Run(started, selectionEnabled, slots, frames).steps[i].action;
            a.ClickOpponent? ==>
              1 <= a.id <= |slots| && a.at == slots[a.id - 1] && (!selectionEnabled ==> a.id == 3)
    decreases |frames|
  {
    var d := Decide(started, selectionEnabled, slots, frames[0]).value;
    if i > 0 {
      var next := if d.step.action == Leave then false else d.started;
      assert SelectionsInSlots(slots, frames[1..]) by {
        forall k | 0 <= k < |frames[1..]| ensures frames[1..][k] == frames[k + 1] { }
      }
      RunClicksSlots(next, selectionEnabled, slots, frames[1..], i - 1);
    }
  }

  /** A run raises only what some frame's selection raised (with selection
      enabled), when every selected id names a slot: there is no IndexError. */
  lemma {:induction false} RunFaults(started: bool, selectionEnabled: bool, slots: seq<Point>,
                                     frames: seq<Frame>)
    requires |slots| >= 3 && SelectionsInSlots(slots, frames)
    ensures Run(started, selectionEnabled, slots, frames).outcome.Raised? ==>
              selectionEnabled &&
              exists k :: 0 <= k < |frames| &&
                frames[k].selection == Err(Run(started, selectionEnabled, slots, frames).outcome.fault)
    decreases |frames|
  {
    if frames != [] {
      var r := Decide(started, selectionEnabled, slots, frames[0]);
      if r.Err? {
        assert selectionEnabled && frames[0].selection.Err?;
      } else {
        var d := r.value;
        if !(d.step.action == Leave && !frames[0].sight.freeOpportunity) {
          var next := if d.step.action == Leave then false else d.started;
          assert SelectionsInSlots(slots, frames[1..]) by {
            forall k | 0 <= k < |frames[1..]| ensures frames[1..][k] == frames[k + 1] { }
          }
          RunFaults(next, selectionEnabled, slots, frames[1..]);
          if Run(next, selectionEnabled, slots, frames[1..]).outcome.Raised? {
            var k :| 0 <= k < |frames[1..]| &&
                     frames[1..][k].selection == Err(Run(next, selectionEnabled, slots, frames[1..]).outcome.fault);
            assert frames[k + 1] == frames[1..][k];
          }
        }
      }
    }
  }

  /** The body of one pass of the `start_competition` loop as the source
      writes it, with its `continue`s: the rules tried in order, the first
      that fires ends the pass. It is proved to decide what `Decide`
      specifies. */
  method Pass(started: bool, selectionEnabled: bool, slots: seq<Point>, f: Frame)
    returns (r: Result<Decision, Fault>)
    ensures r == Decide(started, selectionEnabled, slots, f)
  {
    if !started && f.sight.clickReached && f.sight.click2Reached && f.sight.freeOpportunity {
      var id := 3;
      if selectionEnabled {
        if f.selection.Err? {
          return Err(f.selection.error);
        }
        id := f.selection.value;
      }
      var at := SlotButton(slots, id);
      if at.None? {
        return Err(IndexError);
      }
      return Ok(Decision(Step(ClickOpponent(id, at.value), {ConfirmTimer, ClickTimer, ClickTimer2}), started));
    }
    if f.sight.clickReached && f.sight.skip {
      return Ok(Decision(Step(ClickSkip, {ConfirmTimer, ClickTimer}), started));
    }
    if !started && f.sight.clickReached && f.sight.intoCompetition {
      return Ok(Decision(Step(ClickInto, {ConfirmTimer, ClickTimer}), started));
    }
    if f.sight.clickReached && f.sight.endCompetition {
      return Ok(Decision(Step(ClickEnd, {ConfirmTimer, ClickTimer}), true));
    }
    if started && f.sight.arenaCheck && f.sight.confirmReached {
      return Ok(Decision(Step(Leave, {}), started));
    }
    return Ok(Decision(Step(Wait, {}), started));
  }

  /** The `start_competition` loop. The tail call on line 229 of the special
      arena is the `continue` with a cleared latch. */
  method StartCompetition(selectionEnabled: bool, slots: seq<Point>, frames: seq<Frame>)
    returns (steps: seq<Step>, outcome: Outcome)
    ensures Trace(steps, outcome) == Run(false, selectionEnabled, slots, frames)
  {
    var started := false;
    var i := 0;
    steps := [];
    while i < |frames|
      invariant 0 <= i <= |frames|
      invariant Run(false, selectionEnabled, slots, frames)
                == Append(steps, Run(started, selectionEnabled, slots, frames[i..]))
    {
      var f := frames[i];
      assert frames[i..][0] == f && frames[i..][1..] == frames[i + 1..];
      var r := Pass(started, selectionEnabled, slots, f);
      if r.Err? {
        return steps, Raised(r.error);
      }
      var d := r.value;
      AppendPrepend(steps, d.step, Run(if d.step.action == Leave then false else d.started,
                                       selectionEnabled, slots, frames[i + 1..]));
      steps := steps + [d.step];
      i := i + 1;
      if d.step.action == Leave {
        if !f.sight.freeOpportunity {
          return steps, Done;
        }
        started := false;
      } else {
        started := d.started;
      }
    }
    return steps, Running;
  }


  // ---------------------------------------------------------------------
  // Entering the arena

  /** What one pass of `ensure_into_*` observes. */
  datatype EntryFrame = EntryFrame(
    nextSeason: bool,
    clickReached: bool,
    gotoArena: bool,
    arenaCheck: bool,
    confirmReached: bool,
    freeOpportunity: bool)

  datatype EntryAction = ClickGoto | Arrive | Idle

  /** One pass: NEXT_SEASON raises before anything else is looked at. */
  function EntryDecide(f: EntryFrame): (r: Result<EntryAction, Fault>)
    ensures r.Err? <==> f.nextSeason
    ensures r.Err? ==> r.error == ArenaUnavailable
    ensures r == Ok(ClickGoto) <==> !f.nextSeason && f.clickReached && f.gotoArena
    ensures r == Ok(Arrive) <==>
              !f.nextSeason && !(f.clickReached && f.gotoArena) && f.arenaCheck && f.confirmReached
  {
    if f.nextSeason then Err(ArenaUnavailable)
    else if f.clickReached && f.gotoArena then Ok(ClickGoto)
    else if f.arenaCheck && f.confirmReached then Ok(Arrive)
    else Ok(Idle)
  }

  /** The entry loop's passes and how it ended: `Some(ticket)` when it
      arrived, with the free-opportunity check of that last screen. */
  datatype EntryTrace = EntryTrace(actions: seq<EntryAction>, raised: Option<Fault>, arrived: Option<bool>)

  function Entry(frames: seq<EntryFrame>): (t: EntryTrace)
    ensures t.raised.Some? ==> t.arrived.None?
    ensures |t.actions| <= |frames|
    ensures t.raised.Some? ==> t.raised == Some(ArenaUnavailable)
    decreases |frames|
  {
    if frames == [] then EntryTrace([], None, None)
    else
      match EntryDecide(frames[0])
      case Err(e) => EntryTrace([], Some(e), None)
      case Ok(a) =>
        if a == Arrive then EntryTrace([a], None, Some(frames[0].freeOpportunity))
        else
          var rest := Entry(frames[1..]);
          EntryTrace([a] + rest.actions, rest.raised, rest.arrived)
  }

  /** The entry loop never arrives past a NEXT_SEASON screen: if one comes
      before any arriving screen, the loop raises. */
  lemma {:induction false} EntryRaisesOnNextSeason(frames: seq<EntryFrame>, k: nat)
    requires k < |frames| && frames[k].nextSeason
    requires forall j :: 0 <= j < k ==> EntryDecide(frames[j]) != Ok(Arrive) && !frames[j].nextSeason
    ensures Entry(frames).raised == Some(ArenaUnavailable) && Entry(frames).arrived.None?
    decreases k
  {
    if k > 0 {
      assert EntryDecide(frames[0]).Ok?;
      forall j | 0 <= j < k - 1
        ensures EntryDecide(frames[1..][j]) != Ok(Arrive) && !frames[1..][j].nextSeason
      {
        assert frames[1..][j] == frames[j + 1];
      }
      EntryRaisesOnNextSeason(frames[1..], k - 1);
    }
  }

  /** `ensure_into_*` followed by the competition: after arriving, the
      competition runs on the following frames when a free opportunity
      remains; otherwise the method only logs. */
  function EnsureInto(entryFrames: seq<EntryFrame>, selectionEnabled: bool, slots: seq<Point>,
                      frames: seq<Frame>): (r: (EntryTrace, Trace))
    ensures r.0 == Entry(entryFrames)
    ensures r.0.raised.Some? ==> r.1 == Trace([], Raised(r.0.raised.value))
    ensures r.0.arrived == Some(false) ==> r.1 == Trace([], NoFreeOpportunity)
    ensures r.0.arrived == Some(true) ==> r.1 == Run(false, selectionEnabled, slots, frames)
    ensures r.0.raised.None? && r.0.arrived.None? ==> r.1 == Trace([], Running)
  {
    var e := Entry(entryFrames);
    if e.raised.Some? then (e, Trace([], Raised(e.raised.value)))
    else if e.arrived == Some(true) then (e, Run(false, selectionEnabled, slots, frames))
    else if e.arrived == Some(false) then (e, Trace([], NoFreeOpportunity))
    else (e, Trace([], Running))
  }

  /** `actions` taken before the entry trace `t`. */
  function EntryAfter(actions: seq<EntryAction>, t: EntryTrace): EntryTrace
  {
    EntryTrace(actions + t.actions, t.raised, t.arrived)
  }

  lemma EntryAfterStep(actions: seq<EntryAction>, a: EntryAction, t: EntryTrace)
    ensures EntryAfter(actions, EntryTrace([a] + t.actions, t.raised, t.arrived))
            == EntryAfter(actions + [a], t)
  {
    assert actions + ([a] + t.actions) == (actions + [a]) + t.actions;
  }

  /** The entry loop, then the competition. */
  method EnsureIntoArena(entryFrames: seq<EntryFrame>, selectionEnabled: bool, slots: seq<Point>,
                         frames: seq<Frame>)
    returns (actions: seq<EntryAction>, steps: seq<Step>, outcome: Outcome)
    ensures actions == Entry(entryFrames).actions
    ensures Trace(steps, outcome) == EnsureInto(entryFrames, selectionEnabled, slots, frames).1
  {
    actions := [];
    var i := 0;
    while i < |entryFrames|
      invariant 0 <= i <= |entryFrames|
      invariant Entry(entryFrames) == EntryAfter(actions, Entry(entryFrames[i..]))
    {
      var f := entryFrames[i];
      assert entryFrames[i..][0] == f && entryFrames[i..][1..] == entryFrames[i + 1..];
      if f.nextSeason {
        assert Entry(entryFrames[i..]) == EntryTrace([], Some(ArenaUnavailable), None);
        assert actions + [] == actions;
        return actions, [], Raised(ArenaUnavailable);
      }
      var a: EntryAction := Idle;
      if f.clickReached && f.gotoArena {
        a := ClickGoto;
      } else if f.arenaCheck && f.confirmReached {
        a := Arrive;
      }
      if a == Arrive {
        assert Entry(entryFrames[i..]) == EntryTrace([a], None, Some(f.freeOpportunity));
        actions := actions + [a];
        if f.freeOpportunity {
          steps, outcome := StartCompetition(selectionEnabled, slots, frames);
        } else {
          steps, outcome := [], NoFreeOpportunity;
        }
        return;
      }
      EntryAfterStep(actions, a, Entry(entryFrames[i + 1..]));
      actions := actions + [a];
      i := i + 1;
    }
    return actions, [], Running;
  }

  // ---------------------------------------------------------------------
  // The scheduler task

  /** How `run` ends: with `task_delay(server_update=True)`, with an
      exception escaping, or not yet. */
  datatype TaskEnd = Delayed(serverUpdate: bool) | Crashed(fault: Fault) | StillRunning

  /** `run`: the "unavailable" exception is swallowed and the scheduler task is then
      delayed to the next server update; any other exception escapes before
      the delay. */
  method RunTask(entryFrames: seq<EntryFrame>, selectionEnabled: bool, slots: seq<Point>, frames: seq<Frame>)
    returns (end: TaskEnd)
    ensures var o := EnsureInto(entryFrames, selectionEnabled, slots, frames).1.outcome;
            (end.Delayed? <==> o in {Done, NoFreeOpportunity, Raised(ArenaUnavailable)})
            && (end.Delayed? ==> end.serverUpdate)
            && (end.Crashed? <==> o.Raised? && o.fault != ArenaUnavailable)
            && (end.Crashed? ==> end.fault == o.fault)
  {
    var _, _, outcome := EnsureIntoArena(entryFrames, selectionEnabled, slots, frames);
    if outcome == Running {
      return StillRunning;
    }
    if outcome.Raised? && outcome.fault != ArenaUnavailable {
      return Crashed(outcome.fault);
    }
    return Delayed(true);
  }
}
