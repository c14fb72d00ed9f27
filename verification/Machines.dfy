/**
 The two engagement state machines: openpilot's (selfdrive/selfdrived/state.py) and that of the always-on lateral mode
 MADS (sunnypilot/mads/state.py). They share one soft-disable timer and one list of current alert types, both owned by
 openpilot's machine.
 */
module Machines {

  datatype EventType = ENABLE | PRE_ENABLE | OVERRIDE_LATERAL | OVERRIDE_LONGITUDINAL | NO_ENTRY | WARNING
                     | USER_DISABLE | SOFT_DISABLE | IMMEDIATE_DISABLE | PERMANENT

  datatype OpState = Disabled | PreEnabled | Enabled | SoftDisabling | Overriding

  datatype MadsState = MadsDisabled | MadsPaused | MadsEnabled | MadsSoftDisabling | MadsOverriding

  /** int(3 s / 0.01 s) */
  const SOFT_DISABLE_STEPS: int := 300

  predicate OpEnabled(state: OpState) {
    state != Disabled
  }

  predicate OpActive(state: OpState) {
    state in {Enabled, SoftDisabling, Overriding}
  }

  predicate MadsIsEnabled(state: MadsState) {
    state != MadsDisabled
  }

  predicate MadsIsActive(state: MadsState) {
    state in {MadsEnabled, MadsSoftDisabling, MadsOverriding}
  }

  /** The value of openpilot's machine: its state, the shared timer and the shared alert types. */
  datatype Machine = Machine(state: OpState, timer: int, alerts: seq<EventType>)

  predicate Overrides(seen: set<EventType>) {
    OVERRIDE_LATERAL in seen || OVERRIDE_LONGITUDINAL in seen
  }

  predicate Forced(seen: set<EventType>) {
    USER_DISABLE in seen || IMMEDIATE_DISABLE in seen
  }

  predicate MayEnter(seen: set<EventType>) {
    ENABLE in seen && NO_ENTRY !in seen
  }

  // ---------------------------------------------------------------- openpilot's machine

  function OpNext(state: OpState, timer: int, seen: set<EventType>): OpState {
    match state
    case Disabled =>
      if !MayEnter(seen) then Disabled
      else if PRE_ENABLE in seen then PreEnabled
      else if Overrides(seen) then Overriding
      else Enabled
    case _ =>
      if Forced(seen) then Disabled
      else match state
        case PreEnabled => if PRE_ENABLE in seen then PreEnabled else Enabled
        case SoftDisabling =>
          if SOFT_DISABLE !in seen then Enabled else if timer > 0 then SoftDisabling else Disabled
        case _ => if SOFT_DISABLE in seen then SoftDisabling else if Overrides(seen) then Overriding else Enabled
  }

  /** The machine enters soft disabling in this step. */
  predicate OpStartsSoftDisable(state: OpState, seen: set<EventType>) {
    state in {Enabled, Overriding} && !Forced(seen) && SOFT_DISABLE in seen
  }

  function Ticked(timer: int): int {
    if timer - 1 > 0 then timer - 1 else 0
  }

  function OpAlerts(state: OpState, timer: int, seen: set<EventType>): seq<EventType> {
    if state == Disabled then
      if ENABLE !in seen then [] else if NO_ENTRY in seen then [NO_ENTRY] else [ENABLE]
    else if USER_DISABLE in seen then [USER_DISABLE]
    else if IMMEDIATE_DISABLE in seen then [IMMEDIATE_DISABLE]
    else
      var next := OpNext(state, timer, seen);
      match next
      case PreEnabled => [PRE_ENABLE]
      case SoftDisabling => [SOFT_DISABLE]
      case Overriding => [OVERRIDE_LATERAL, OVERRIDE_LONGITUDINAL]
      case _ => []
  }

  function OpUpdate(m: Machine, seen: set<EventType>): Machine {
    var timer := Ticked(m.timer);
    var next := OpNext(m.state, timer, seen);
    Machine(next,
            if OpStartsSoftDisable(m.state, seen) then SOFT_DISABLE_STEPS else timer,
            [PERMANENT] + OpAlerts(m.state, timer, seen) + if OpActive(next) then [WARNING] else [])
  }

  class StateMachine {
    var currentAlertTypes: seq<EventType>
    var state: OpState
    var softDisableTimer: int

    function Value(): Machine
      reads this
    {
      Machine(state, softDisableTimer, currentAlertTypes)
    }

    constructor ()
      ensures Value() == Machine(Disabled, 0, [PERMANENT])
    {
      currentAlertTypes := [PERMANENT];
      state := Disabled;
      softDisableTimer := 0;
    }

    method Update(events: set<EventType>) returns (enabled: bool, active: bool)
      modifies this
      ensures Value() == OpUpdate(old(Value()), events)
      ensures enabled == OpEnabled(state) && active == OpActive(state)
    {
      softDisableTimer := if softDisableTimer - 1 > 0 then softDisableTimer - 1 else 0;
      currentAlertTypes := [PERMANENT];
      if state != Disabled {
        if USER_DISABLE in events {
          state := Disabled;
          currentAlertTypes := currentAlertTypes + [USER_DISABLE];
        } else if IMMEDIATE_DISABLE in events {
          state := Disabled;
          currentAlertTypes := currentAlertTypes + [IMMEDIATE_DISABLE];
        } else if state == Enabled {
          if SOFT_DISABLE in events {
            state := SoftDisabling;
            softDisableTimer := SOFT_DISABLE_STEPS;
            currentAlertTypes := currentAlertTypes + [SOFT_DISABLE];
          } else if OVERRIDE_LATERAL in events || OVERRIDE_LONGITUDINAL in events {
            state := Overriding;
            currentAlertTypes := currentAlertTypes + [OVERRIDE_LATERAL, OVERRIDE_LONGITUDINAL];
          }
        } else if state == SoftDisabling {
          if SOFT_DISABLE !in events {
            state := Enabled;
          } else if softDisableTimer > 0 {
            currentAlertTypes := currentAlertTypes + [SOFT_DISABLE];
          } else {
            state := Disabled;
          }
        } else if state == PreEnabled {
          if PRE_ENABLE !in events {
            state := Enabled;
          } else {
            currentAlertTypes := currentAlertTypes + [PRE_ENABLE];
          }
        } else {
          if SOFT_DISABLE in events {
            state := SoftDisabling;
            softDisableTimer := SOFT_DISABLE_STEPS;
            currentAlertTypes := currentAlertTypes + [SOFT_DISABLE];
          } else if !(OVERRIDE_LATERAL in events || OVERRIDE_LONGITUDINAL in events) {
            state := Enabled;
          } else {
            currentAlertTypes := currentAlertTypes + [OVERRIDE_LATERAL, OVERRIDE_LONGITUDINAL];
          }
        }
      } else if ENABLE in events {
        if NO_ENTRY in events {
          currentAlertTypes := currentAlertTypes + [NO_ENTRY];
        } else {
          if PRE_ENABLE in events {
            state := PreEnabled;
          } else if OVERRIDE_LATERAL in events || OVERRIDE_LONGITUDINAL in events {
            state := Overriding;
          } else {
            state := Enabled;
          }
          currentAlertTypes := currentAlertTypes + [ENABLE];
        }
      }
      enabled := state in {PreEnabled, Enabled, SoftDisabling, Overriding};
      active := state in {Enabled, SoftDisabling, Overriding};
      if active {
        currentAlertTypes := currentAlertTypes + [WARNING];
      }
    }
  }

  // ---------------------------------------------------------------- the MADS machine

  /**
   What the MADS machine reads in a step: the event types in either list, whether the silent disable event is there,
   whether one of the events that allow pausing is there, and whether openpilot is enabled.
   */
  datatype MadsView = MadsView(seen: set<EventType>, silentDisable: bool, allowsPause: bool, opEnabled: bool)

  function MadsNext(state: MadsState, timer: int, v: MadsView): MadsState {
    var on := if OVERRIDE_LATERAL in v.seen then MadsOverriding else MadsEnabled;
    if state == MadsDisabled then
      if MayEnter(v.seen) then on
      else if ENABLE in v.seen && v.allowsPause then MadsPaused
      else MadsDisabled
    else if USER_DISABLE in v.seen then (if v.silentDisable then MadsPaused else MadsDisabled)
    else if IMMEDIATE_DISABLE in v.seen then MadsDisabled
    else match state
      case MadsPaused => if MayEnter(v.seen) then on else MadsPaused
      case MadsSoftDisabling =>
        if SOFT_DISABLE !in v.seen then MadsEnabled else if timer > 0 then MadsSoftDisabling else MadsDisabled
      case _ => if SOFT_DISABLE in v.seen then MadsSoftDisabling else on
  }

  predicate MadsStartsSoftDisable(state: MadsState, v: MadsView) {
    state in {MadsEnabled, MadsOverriding} && !Forced(v.seen) && SOFT_DISABLE in v.seen
  }

  function Unless(silent: bool, alerts: seq<EventType>): seq<EventType> {
    if silent then [] else alerts
  }

  function MadsAlerts(state: MadsState, timer: int, v: MadsView): seq<EventType> {
    if state in {MadsDisabled, MadsPaused} && (state == MadsDisabled || !Forced(v.seen)) then
      if ENABLE !in v.seen then [] else Unless(v.opEnabled, [if NO_ENTRY in v.seen then NO_ENTRY else ENABLE])
    else if USER_DISABLE in v.seen then [USER_DISABLE]
    else if IMMEDIATE_DISABLE in v.seen then Unless(v.opEnabled, [IMMEDIATE_DISABLE])
    else match MadsNext(state, timer, v)
      case MadsSoftDisabling => Unless(v.opEnabled, [SOFT_DISABLE])
      case MadsOverriding => Unless(v.opEnabled && state == MadsEnabled, [OVERRIDE_LATERAL])
      case _ => []
  }

  /** The MADS machine may write the shared timer only as it starts a soft disable with openpilot disengaged. */
  function MadsUpdate(state: MadsState, m: Machine, v: MadsView): (MadsState, Machine) {
    var next := MadsNext(state, m.timer, v);
    (next, m.(timer := if MadsStartsSoftDisable(state, v) && !v.opEnabled then SOFT_DISABLE_STEPS else m.timer,
              alerts := m.alerts + MadsAlerts(state, m.timer, v) + Unless(v.opEnabled || !MadsIsActive(next), [WARNING])))
  }

  class MadsStateMachine {
    var state: MadsState
    const ss: StateMachine

    constructor (ss: StateMachine)
      ensures this.ss == ss && state == MadsDisabled
    {
      this.ss := ss;
      state := MadsDisabled;
    }

    method AddCurrentAlertTypes(opEnabled: bool, alertType: EventType)
      modifies ss`currentAlertTypes
      ensures ss.currentAlertTypes == old(ss.currentAlertTypes) + Unless(opEnabled, [alertType])
    {
      if !opEnabled {
        ss.currentAlertTypes := ss.currentAlertTypes + [alertType];
      }
    }

    method StartSoftDisable(opEnabled: bool)
      modifies this`state, ss`currentAlertTypes, ss`softDisableTimer
      ensures state == MadsSoftDisabling
      ensures ss.currentAlertTypes == old(ss.currentAlertTypes) + Unless(opEnabled, [SOFT_DISABLE])
      ensures ss.softDisableTimer == if opEnabled then old(ss.softDisableTimer) else SOFT_DISABLE_STEPS
    {
      state := MadsSoftDisabling;
      if !opEnabled {
        ss.softDisableTimer := SOFT_DISABLE_STEPS;
        ss.currentAlertTypes := ss.currentAlertTypes + [SOFT_DISABLE];
      }
    }

    method Update(v: MadsView) returns (enabled: bool, active: bool)
      modifies this`state, ss`currentAlertTypes, ss`softDisableTimer
      ensures (state, ss.Value()) == MadsUpdate(old(state), old(ss.Value()), v)
      ensures enabled == MadsIsEnabled(state) && active == MadsIsActive(state)
    {
      if state != MadsDisabled {
        if USER_DISABLE in v.seen {
          state := if v.silentDisable then MadsPaused else MadsDisabled;
          ss.currentAlertTypes := ss.currentAlertTypes + [USER_DISABLE];
        } else if IMMEDIATE_DISABLE in v.seen {
          state := MadsDisabled;
          AddCurrentAlertTypes(v.opEnabled, IMMEDIATE_DISABLE);
        } else if state == MadsEnabled {
          if SOFT_DISABLE in v.seen {
            StartSoftDisable(v.opEnabled);
          } else if OVERRIDE_LATERAL in v.seen {
            state := MadsOverriding;
            AddCurrentAlertTypes(v.opEnabled, OVERRIDE_LATERAL);
          }
        } else if state == MadsSoftDisabling {
          if SOFT_DISABLE !in v.seen {
            state := MadsEnabled;
          } else if ss.softDisableTimer > 0 {
            AddCurrentAlertTypes(v.opEnabled, SOFT_DISABLE);
          } else {
            state := MadsDisabled;
          }
        } else if state == MadsPaused {
          if ENABLE in v.seen {
            if NO_ENTRY in v.seen {
              AddCurrentAlertTypes(v.opEnabled, NO_ENTRY);
            } else {
              state := if OVERRIDE_LATERAL in v.seen then MadsOverriding else MadsEnabled;
              AddCurrentAlertTypes(v.opEnabled, ENABLE);
            }
          }
        } else {
          if SOFT_DISABLE in v.seen {
            StartSoftDisable(v.opEnabled);
          } else if OVERRIDE_LATERAL !in v.seen {
            state := MadsEnabled;
          } else {
            ss.currentAlertTypes := ss.currentAlertTypes + [OVERRIDE_LATERAL];
          }
        }
      } else if ENABLE in v.seen {
        if NO_ENTRY in v.seen {
          if v.allowsPause {
            state := MadsPaused;
          }
          AddCurrentAlertTypes(v.opEnabled, NO_ENTRY);
        } else {
          state := if OVERRIDE_LATERAL in v.seen then MadsOverriding else MadsEnabled;
          AddCurrentAlertTypes(v.opEnabled, ENABLE);
        }
      }
      enabled := state in {MadsPaused, MadsEnabled, MadsSoftDisabling, MadsOverriding};
      active := state in {MadsEnabled, MadsSoftDisabling, MadsOverriding};
      if active {
        AddCurrentAlertTypes(v.opEnabled, WARNING);
      }
      assert forall a: seq<EventType> :: a + [] == a;
    }
  }

  /** Entry looks at ENABLE and NO_ENTRY alone: a disable in the entering step itself does not stop it. */
  lemma EntryIgnoresDisables(timer: int, seen: set<EventType>, v: MadsView)
    ensures OpEnabled(OpNext(Disabled, timer, seen)) <==> MayEnter(seen)
    ensures MadsIsActive(MadsNext(MadsDisabled, timer, v)) <==> MayEnter(v.seen)
    ensures MadsIsActive(MadsNext(MadsPaused, timer, v)) <==> MayEnter(v.seen) && !Forced(v.seen)
  {
  }

  // ---------------------------------------------------------------- which way each state is reached and shown

  /** Exactly when a step of openpilot's machine ends in each of its states. */
  lemma OpReaches(state: OpState, timer: int, seen: set<EventType>)
    ensures var r := OpNext(state, timer, seen);
            var (off, over) := (USER_DISABLE in seen || IMMEDIATE_DISABLE in seen, OVERRIDE_LATERAL in seen || OVERRIDE_LONGITUDINAL in seen);
            var enter := state == Disabled && ENABLE in seen && NO_ENTRY !in seen;
            && (r == Disabled <==> if state == Disabled then !enter else off || (state == SoftDisabling && SOFT_DISABLE in seen && timer <= 0))
            && (r == PreEnabled <==> PRE_ENABLE in seen && (enter || (state == PreEnabled && !off)))
            && (r == SoftDisabling <==> SOFT_DISABLE in seen && !off
                                        && (state == Enabled || state == Overriding || (state == SoftDisabling && timer > 0)))
            && (r == Overriding <==> over && if state == Disabled then enter && PRE_ENABLE !in seen
                                             else !off && SOFT_DISABLE !in seen && (state == Enabled || state == Overriding))
            && (r == Enabled && state == PreEnabled ==> PRE_ENABLE !in seen)
            && (r == Enabled && state == SoftDisabling ==> SOFT_DISABLE !in seen)
  {
  }

  /** And for the MADS machine. */
  lemma MadsReaches(state: MadsState, timer: int, v: MadsView)
    ensures var r := MadsNext(state, timer, v);
            var (user, immediate, over) := (USER_DISABLE in v.seen, IMMEDIATE_DISABLE in v.seen, OVERRIDE_LATERAL in v.seen);
            var enter := (state == MadsDisabled || (state == MadsPaused && !user && !immediate)) && ENABLE in v.seen && NO_ENTRY !in v.seen;
            && (r == MadsDisabled <==>
                  if state == MadsDisabled then !(ENABLE in v.seen && (NO_ENTRY in v.seen ==> v.allowsPause))
                  else if user then !v.silentDisable
                  else immediate || (state == MadsSoftDisabling && SOFT_DISABLE in v.seen && timer <= 0))
            && (r == MadsPaused <==>
                  if state == MadsDisabled then ENABLE in v.seen && NO_ENTRY in v.seen && v.allowsPause
                  else if user then v.silentDisable
                  else state == MadsPaused && !immediate && !enter)
            && (r == MadsSoftDisabling <==>
                  SOFT_DISABLE in v.seen && !user && !immediate
                  && (state == MadsEnabled || state == MadsOverriding || (state == MadsSoftDisabling && timer > 0)))
            && (r == MadsOverriding <==>
                  over && (enter || ((state == MadsEnabled || state == MadsOverriding)
                                     && !user && !immediate && SOFT_DISABLE !in v.seen)))
            && (r == MadsEnabled && state == MadsSoftDisabling ==> SOFT_DISABLE !in v.seen)
  {
  }

  /** What each alert type tells after a step of openpilot's machine. */
  lemma OpAlertsTell(m: Machine, seen: set<EventType>)
    ensures var (r, off) := (OpUpdate(m, seen), m.state == Disabled);
            && r.alerts[..1] == [PERMANENT]
            && (WARNING in r.alerts <==> r.state in {Enabled, SoftDisabling, Overriding})
            && (ENABLE in r.alerts <==> off && r.state != Disabled)
            && (NO_ENTRY in r.alerts <==> off && ENABLE in seen && r.state == Disabled)
            && (USER_DISABLE in r.alerts <==> !off && USER_DISABLE in seen)
            && (IMMEDIATE_DISABLE in r.alerts <==> !off && IMMEDIATE_DISABLE in seen && USER_DISABLE !in seen)
            && (SOFT_DISABLE in r.alerts <==> r.state == SoftDisabling)
            && (PRE_ENABLE in r.alerts <==> !off && r.state == PreEnabled)
            && (OVERRIDE_LATERAL in r.alerts <==> !off && r.state == Overriding)
            && (OVERRIDE_LONGITUDINAL in r.alerts <==> !off && r.state == Overriding)
            && r.timer == if r.state == SoftDisabling && m.state != SoftDisabling then 300 else if m.timer > 1 then m.timer - 1 else 0
  {
    var timer := Ticked(m.timer);
    OpReaches(m.state, timer, seen);
    OpAlertsMean(m.state, timer, seen);
    var (a, next) := (OpAlerts(m.state, timer, seen), OpNext(m.state, timer, seen));
    hide OpAlerts, OpNext;
    var w := if OpActive(next) then [WARNING] else [];
    InEither([PERMANENT] + a, w);
    InEither([PERMANENT], a);
    assert ([PERMANENT] + a + w)[..1] == [PERMANENT];
  }

  lemma InEither(a: seq<EventType>, b: seq<EventType>)
    ensures forall t :: t in a + b <==> t in a || t in b
  {
  }

  lemma OpAlertsMean(state: OpState, timer: int, seen: set<EventType>)
    ensures var (a, next, off) := (OpAlerts(state, timer, seen), OpNext(state, timer, seen), state == Disabled);
            && PERMANENT !in a && WARNING !in a
            && (ENABLE in a <==> off && next != Disabled)
            && (NO_ENTRY in a <==> off && ENABLE in seen && next == Disabled)
            && (USER_DISABLE in a <==> !off && USER_DISABLE in seen)
            && (IMMEDIATE_DISABLE in a <==> !off && IMMEDIATE_DISABLE in seen && USER_DISABLE !in seen)
            && (SOFT_DISABLE in a <==> next == SoftDisabling)
            && (PRE_ENABLE in a <==> !off && next == PreEnabled)
            && (OVERRIDE_LATERAL in a <==> !off && next == Overriding)
            && (OVERRIDE_LONGITUDINAL in a <==> !off && next == Overriding)
  {
  }

  /** The alert types that the MADS machine appends with openpilot off. */
  lemma MadsAlertsTell(state: MadsState, m: Machine, v: MadsView)
    requires !v.opEnabled
    ensures var (next, r) := MadsUpdate(state, m, v);
            var (a, on) := (r.alerts[|m.alerts|..], state in {MadsEnabled, MadsSoftDisabling, MadsOverriding});
            && m.alerts <= r.alerts
            && (WARNING in a <==> next in {MadsEnabled, MadsSoftDisabling, MadsOverriding})
            && (ENABLE in a <==> !on && next in {MadsEnabled, MadsOverriding})
            && (NO_ENTRY in a <==> ENABLE in v.seen && NO_ENTRY in v.seen
                                   && (state == MadsDisabled || (state == MadsPaused && USER_DISABLE !in v.seen && IMMEDIATE_DISABLE !in v.seen)))
            && (USER_DISABLE in a <==> state != MadsDisabled && USER_DISABLE in v.seen)
            && (IMMEDIATE_DISABLE in a <==> state != MadsDisabled && IMMEDIATE_DISABLE in v.seen && USER_DISABLE !in v.seen)
            && (SOFT_DISABLE in a <==> next == MadsSoftDisabling)
            && (OVERRIDE_LATERAL in a <==> on && next == MadsOverriding)
  {
    MadsAlertsMean(state, m.timer, v);
    MadsAppends(state, m, v);
    WarningAppended(MadsAlerts(state, m.timer, v), MadsIsActive(MadsNext(state, m.timer, v)));
    hide MadsAlerts, MadsNext, MadsUpdate, Unless;
  }

  lemma MadsAppends(state: MadsState, m: Machine, v: MadsView)
    requires !v.opEnabled
    ensures var (next, r) := MadsUpdate(state, m, v);
            && next == MadsNext(state, m.timer, v) && m.alerts <= r.alerts
            && r.alerts[|m.alerts|..] == MadsAlerts(state, m.timer, v) + Unless(!MadsIsActive(next), [WARNING])
  {
    hide MadsAlerts, MadsNext, Unless, MadsIsActive;
    var (next, r) := MadsUpdate(state, m, v);
    AfterFirst(m.alerts, MadsAlerts(state, m.timer, v), Unless(!MadsIsActive(next), [WARNING]));
  }

  lemma AfterFirst(x: seq<EventType>, a: seq<EventType>, w: seq<EventType>)
    ensures x <= x + a + w && (x + a + w)[|x|..] == a + w
  {
  }

  lemma WarningAppended(a: seq<EventType>, active: bool)
    ensures forall t :: t in a + Unless(!active, [WARNING]) <==> t in a || (active && t == WARNING)
  {
    InEither(a, Unless(!active, [WARNING]));
  }

  /** With openpilot off the timer is set to 300 exactly as MADS starts a soft disable. */
  lemma MadsTimerTells(state: MadsState, m: Machine, v: MadsView)
    requires !v.opEnabled
    ensures var (next, r) := MadsUpdate(state, m, v);
            r.timer == if next == MadsSoftDisabling && state != MadsSoftDisabling then 300 else m.timer
  {
    MadsReaches(state, m.timer, v);
    hide MadsAlerts, MadsNext;
  }

  lemma MadsAlertsMean(state: MadsState, timer: int, v: MadsView)
    requires !v.opEnabled
    ensures var (a, next) := (MadsAlerts(state, timer, v), MadsNext(state, timer, v));
            var on := state in {MadsEnabled, MadsSoftDisabling, MadsOverriding};
            && WARNING !in a
            && (ENABLE in a <==> !on && next in {MadsEnabled, MadsOverriding})
            && (NO_ENTRY in a <==> ENABLE in v.seen && NO_ENTRY in v.seen
                                   && (state == MadsDisabled || (state == MadsPaused && USER_DISABLE !in v.seen && IMMEDIATE_DISABLE !in v.seen)))
            && (USER_DISABLE in a <==> state != MadsDisabled && USER_DISABLE in v.seen)
            && (IMMEDIATE_DISABLE in a <==> state != MadsDisabled && IMMEDIATE_DISABLE in v.seen && USER_DISABLE !in v.seen)
            && (SOFT_DISABLE in a <==> next == MadsSoftDisabling)
            && (OVERRIDE_LATERAL in a <==> on && next == MadsOverriding)
  {
  }

  /** With openpilot on it adds a user disable or an override that lasts, nothing else, and leaves the timer alone. */
  lemma MadsIsSilentBesideOp(state: MadsState, m: Machine, v: MadsView)
    requires v.opEnabled
    ensures var (next, r) := MadsUpdate(state, m, v);
            && r.timer == m.timer
            && r.alerts == m.alerts + if state != MadsDisabled && USER_DISABLE in v.seen then [USER_DISABLE]
                                      else if state == MadsOverriding && next == MadsOverriding then [OVERRIDE_LATERAL] else []
  {
    MadsReaches(state, m.timer, v);
  }
}
