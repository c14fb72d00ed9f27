/**
 One control cycle of selfdrived (selfdrive/selfdrived/selfdrived.py) with MADS inside it (sunnypilot/mads/mads.py):
 sample, collect events, run openpilot's machine, rewrite the events, run the MADS machine. Then whole runs of cycles.
 */
module Engagement {
  import opened Machines
  import opened MadsEvents

  datatype Panda = Panda(ignored: bool, controlsAllowed: bool, controlsAllowedLateral: bool)

  datatype Config = Config(passive: bool, notCar: bool, madsToggle: bool, brakeMode: BrakeMode,
                           disengageOnAccelerator: bool, allowAlways: bool, noMainCruise: bool, types: Table)

  /** One cycle's inputs; `events` and `eventsSP` are those the rest of selfdrived adds, `ready` ends initialization. */
  datatype Input = Input(ready: bool, pandas: seq<Panda>, events: multiset<Event>, eventsSP: multiset<EventSP>,
                         car: Car, mainEnabledToggle: bool, unifiedEngagementMode: bool)

  datatype System = System(
    initialized: bool, enabled: bool, active: bool, enabledPrev: bool, mismatch: int, machine: Machine,
    mads: MadsState, madsEnabled: bool, madsActive: bool, lateralMismatch: int, carPrev: Car)

  ghost predicate Start(s: System) {
    && !s.initialized && !s.enabled && !s.active && !s.enabledPrev && s.mismatch == 0 && s.machine == Machine(Disabled, 0, [PERMANENT])
    && s.mads == MadsDisabled && !s.madsEnabled && !s.madsActive && s.lateralMismatch == 0
  }

  predicate Refuses(pandas: seq<Panda>) {
    exists k :: 0 <= k < |pandas| && !pandas[k].ignored && !pandas[k].controlsAllowed
  }

  predicate RefusesLateral(pandas: seq<Panda>) {
    exists k :: 0 <= k < |pandas| && !pandas[k].ignored && !pandas[k].controlsAllowedLateral
  }

  predicate Runs(c: Config, s: System) {
    !c.passive && s.initialized
  }

  // ---------------------------------------------------------------- one cycle as a function

  function Sampled(s: System, i: Input): System {
    s.(initialized := s.initialized || i.ready,
       mismatch := if !s.enabled then 0 else if Refuses(i.pandas) then s.mismatch + 1 else s.mismatch)
  }

  /** Each panda reports the mismatch once. */
  function OpEvents(c: Config, s: System, i: Input): multiset<Event> {
    i.events + multiset(seq(if Runs(c, s) && s.mismatch >= 200 then |i.pandas| else 0, _ => ControlsMismatch))
  }

  function OpPhase(c: Config, s: System, seen: set<EventType>): System {
    if !Runs(c, s) then s
    else
      var m := OpUpdate(s.machine, seen);
      s.(machine := m, enabled := OpEnabled(m.state), active := OpActive(m.state))
  }

  function MadsSampled(s: System, i: Input): System {
    s.(lateralMismatch :=
         if !s.madsActive || s.enabled then 0
         else if RefusesLateral(i.pandas) then s.lateralMismatch + 1 else s.lateralMismatch)
  }

  function ContextOf(c: Config, s: System, i: Input): Context {
    Context(c.types, c.brakeMode, c.disengageOnAccelerator, c.allowAlways, c.noMainCruise, i.mainEnabledToggle,
            i.unifiedEngagementMode, s.mads, s.madsEnabled, s.lateralMismatch, s.enabled, s.enabledPrev, i.car, s.carPrev)
  }

  function MadsMachinePhase(c: Config, s: System, v: MadsView): System {
    if !Runs(c, s) then s
    else
      var (mads, m) := MadsUpdate(s.mads, s.machine, v);
      s.(mads := mads, machine := m, madsEnabled := MadsIsEnabled(mads), madsActive := MadsIsActive(mads))
  }

  predicate MadsOn(c: Config) {
    !c.notCar && c.madsToggle
  }

  /** What openpilot's machine sees in a cycle from `s`. */
  function OpSeen(c: Config, s: System, i: Input): set<EventType> {
    c.types.OpSees(OpEvents(c, Sampled(s, i), i))
  }

  function AfterOp(c: Config, s: System, i: Input): System {
    OpPhase(c, Sampled(s, i), OpSeen(c, s, i))
  }

  /** What the MADS machine sees in a cycle from `s`. */
  function MadsSeen(c: Config, s: System, i: Input): MadsView {
    var s1 := MadsSampled(AfterOp(c, s, i), i);
    ViewOf(c.types, Rewritten(ContextOf(c, s1, i), Events(OpEvents(c, Sampled(s, i), i), i.eventsSP)), s1.enabled)
  }

  function Cycle(c: Config, s: System, i: Input): System {
    var s1 := AfterOp(c, s, i);
    var s2 :=
      if !MadsOn(c) then s1
      else
        var s3 := MadsMachinePhase(c, MadsSampled(s1, i), MadsSeen(c, s, i));
        s3.(enabledPrev := s3.enabled);
    s2.(carPrev := i.car)
  }

  function Run(c: Config, s: System, inputs: seq<Input>): System {
    if |inputs| == 0 then s
    else Cycle(c, Run(c, s, inputs[..|inputs| - 1]), inputs[|inputs| - 1])
  }

  // ---------------------------------------------------------------- the cycle in place

  class Selfdrived {
    const config: Config
    const stateMachine: StateMachine
    const mads: MadsStateMachine
    const lists: Lists
    var initialized: bool
    var enabled: bool
    var active: bool
    var enabledPrev: bool
    var mismatchCounter: int
    var madsEnabled: bool
    var madsActive: bool
    var lateralMismatchCounter: int
    var carPrev: Car

    ghost predicate Valid() {
      mads.ss == stateMachine && lists.types == config.types
    }

    function Value(): System
      reads this, stateMachine, mads
    {
      System(initialized, enabled, active, enabledPrev, mismatchCounter, stateMachine.Value(),
             mads.state, madsEnabled, madsActive, lateralMismatchCounter, carPrev)
    }

    constructor (config: Config, carPrev: Car)
      ensures Valid() && Start(Value()) && this.config == config && Value().carPrev == carPrev
    {
      this.config := config;
      var m := new StateMachine();
      stateMachine := m;
      mads := new MadsStateMachine(m);
      lists := new Lists(config.types);
      initialized, enabled, active, enabledPrev := false, false, false, false;
      mismatchCounter, lateralMismatchCounter := 0, 0;
      madsEnabled, madsActive := false, false;
      this.carPrev := carPrev;
    }

    method DataSample(i: Input)
      modifies this`initialized, this`mismatchCounter
      ensures Value() == Sampled(old(Value()), i)
    {
      if !initialized {
        if i.ready {
          initialized := true;
        }
      }
      if !enabled {
        mismatchCounter := 0;
      }
      if enabled && Refuses(i.pandas) {
        mismatchCounter := mismatchCounter + 1;
      }
    }

    method UpdateEvents(i: Input)
      requires Valid()
      modifies lists
      ensures lists.Value() == Events(OpEvents(config, Value(), i), i.eventsSP)
    {
      lists.events := i.events;
      lists.eventsSP := i.eventsSP;
      var n := if !config.passive && initialized && mismatchCounter >= 200 then |i.pandas| else 0;
      for k := 0 to n
        invariant lists.events == i.events + multiset(seq(k, _ => ControlsMismatch))
        invariant lists.eventsSP == i.eventsSP
      {
        lists.events := lists.events + multiset{ControlsMismatch};
        assert seq(k + 1, _ => ControlsMismatch) == seq(k, _ => ControlsMismatch) + [ControlsMismatch];
      }
    }

    method MadsDataSample(i: Input)
      modifies this`lateralMismatchCounter
      ensures Value() == MadsSampled(old(Value()), i)
    {
      if !madsActive || enabled {
        lateralMismatchCounter := 0;
      } else if RefusesLateral(i.pandas) {
        lateralMismatchCounter := lateralMismatchCounter + 1;
      }
    }

    method UpdateMads(i: Input)
      requires Valid()
      modifies this`madsEnabled, this`madsActive, this`lateralMismatchCounter, this`enabledPrev,
               mads`state, stateMachine`currentAlertTypes, stateMachine`softDisableTimer, lists
      ensures var s1 := MadsSampled(old(Value()), i);
              var v := ViewOf(config.types, Rewritten(ContextOf(config, s1, i), old(lists.Value())), s1.enabled);
              Value() == if config.madsToggle then MadsMachinePhase(config, s1, v).(enabledPrev := s1.enabled) else old(Value())
    {
      hide Rewritten, ViewOf, MadsUpdate;
      if !config.madsToggle {
        return;
      }
      MadsDataSample(i);
      var context := ContextOf(config, Value(), i);
      lists.UpdateEvents(context);
      var v := lists.View(enabled);
      if !config.passive && initialized {
        madsEnabled, madsActive := mads.Update(v);
      }
      enabledPrev := enabled;
    }

    method Step(i: Input)
      requires Valid()
      modifies this, stateMachine, mads, lists
      ensures Value() == Cycle(config, old(Value()), i)
    {
      hide Rewritten, ViewOf, MadsUpdate, OpUpdate, OpEvents, Table.OpSees, ContextOf, RefusesLateral, Refuses;
      DataSample(i);
      UpdateEvents(i);
      if !config.passive && initialized {
        var seen := lists.types.OpSees(lists.events);
        enabled, active := stateMachine.Update(seen);
      }
      assert Value() == AfterOp(config, old(Value()), i);
      if !config.notCar {
        UpdateMads(i);
      }
      carPrev := i.car;
    }
  }

  // ---------------------------------------------------------------- the invariant

  ghost predicate Inv(c: Config, s: System) {
    && s.enabled == OpEnabled(s.machine.state) && s.active == OpActive(s.machine.state)
    && s.madsEnabled == MadsIsEnabled(s.mads) && s.madsActive == MadsIsActive(s.mads)
    && 0 <= s.machine.timer <= SOFT_DISABLE_STEPS
    && 0 <= s.mismatch <= 200 && (s.enabled ==> s.mismatch < 200)
    && 0 <= s.lateralMismatch <= 200 && (s.madsActive ==> s.lateralMismatch < 200)
    && (!Runs(c, s) ==> !s.enabled && !s.madsEnabled)
    && (!MadsOn(c) ==> !s.madsEnabled)
  }

  lemma StartIsInv(c: Config, s: System)
    requires Start(s)
    ensures Inv(c, s)
  {
  }

  lemma MismatchSeen(c: Config, s: System, i: Input)
    requires c.types.Known() && Runs(c, s) && s.mismatch >= 200 && |i.pandas| > 0
    ensures IMMEDIATE_DISABLE in c.types.OpSees(OpEvents(c, s, i))
  {
    var reports := seq(|i.pandas|, _ => ControlsMismatch);
    assert reports[0] == ControlsMismatch;
    assert ControlsMismatch in multiset(reports);
    assert c.types.OpHas(OpEvents(c, s, i), IMMEDIATE_DISABLE);
  }

  /** The 200th mismatching sample of an engagement disengages openpilot in that same cycle. */
  lemma MismatchDisengages(c: Config, s: System, i: Input)
    requires c.types.Known() && Inv(c, s) && s.enabled && s.mismatch == 199 && Refuses(i.pandas)
    ensures !AfterOp(c, s, i).enabled && IMMEDIATE_DISABLE in OpSeen(c, s, i)
  {
    hide OpEvents, Table.OpSees;
    MismatchSeen(c, Sampled(s, i), i);
  }

  lemma OpKeepsInv(c: Config, s: System, i: Input)
    requires c.types.Known() && Inv(c, s)
    ensures Inv(c, AfterOp(c, s, i))
  {
    if s.enabled && s.mismatch == 199 && Refuses(i.pandas) {
      MismatchDisengages(c, s, i);
    }
    hide OpEvents, Table.OpSees, Refuses;
  }

  lemma LateralMismatchSeen(c: Config, s: System, e: Events, i: Input)
    requires c.types.Known() && s.lateralMismatch >= 200
    ensures IMMEDIATE_DISABLE in ViewOf(c.types, Rewritten(ContextOf(c, s, i), e), s.enabled).seen
  {
    var r := Rewritten(ContextOf(c, s, i), e);
    hide Rewritten;
    MismatchIsReported(ContextOf(c, s, i), e);
    assert c.types.SPHas(r.sp, IMMEDIATE_DISABLE);
  }

  lemma MadsKeepsInv(c: Config, s: System, i: Input, v: MadsView)
    requires Inv(c, s) && MadsOn(c)
    requires MadsSampled(s, i).lateralMismatch >= 200 ==> IMMEDIATE_DISABLE in v.seen
    ensures Inv(c, MadsMachinePhase(c, MadsSampled(s, i), v))
  {
    hide RefusesLateral, MadsAlerts;
  }

  lemma InvIgnoresPrevious(c: Config, s: System, enabledPrev: bool, carPrev: Car)
    requires Inv(c, s)
    ensures Inv(c, s.(carPrev := carPrev)) && Inv(c, s.(enabledPrev := enabledPrev).(carPrev := carPrev))
  {
  }

  lemma CycleKeepsInv(c: Config, s: System, i: Input)
    requires c.types.Known() && Inv(c, s)
    ensures Inv(c, Cycle(c, s, i))
  {
    hide Inv, MadsMachinePhase, AfterOp, MadsSampled, Rewritten, ViewOf, OpEvents, ContextOf;
    var s1 := AfterOp(c, s, i);
    var s2 := MadsSampled(s1, i);
    OpKeepsInv(c, s, i);
    if MadsOn(c) {
      var v := MadsSeen(c, s, i);
      if s2.lateralMismatch >= 200 {
        LateralMismatchSeen(c, s2, Events(OpEvents(c, Sampled(s, i), i), i.eventsSP), i);
      }
      MadsKeepsInv(c, s1, i, v);
      var s3 := MadsMachinePhase(c, s2, v);
      InvIgnoresPrevious(c, s3, s3.enabled, i.car);
    } else {
      InvIgnoresPrevious(c, s1, false, i.car);
    }
  }

  /** Over every run: both mismatch counters stay at 200 or below, below 200 while engaged, and the timer in its range. */
  lemma {:induction false} RunKeepsInv(c: Config, s: System, inputs: seq<Input>)
    requires c.types.Known() && Inv(c, s)
    ensures Inv(c, Run(c, s, inputs))
  {
    if |inputs| > 0 {
      hide Inv;
      RunKeepsInv(c, s, inputs[..|inputs| - 1]);
      CycleKeepsInv(c, Run(c, s, inputs[..|inputs| - 1]), inputs[|inputs| - 1]);
    }
  }

  lemma RunNothing(c: Config, s: System, inputs: seq<Input>)
    requires |inputs| == 0
    ensures Run(c, s, inputs) == s
  {
  }

  lemma RunLast(c: Config, s: System, inputs: seq<Input>)
    requires |inputs| > 0
    ensures Run(c, s, inputs) == Cycle(c, Run(c, s, inputs[..|inputs| - 1]), inputs[|inputs| - 1])
  {
  }

  // ---------------------------------------------------------------- engagement over whole runs

  lemma CycleOpState(c: Config, s: System, i: Input)
    requires Inv(c, s)
    ensures var s1 := Cycle(c, s, i);
            s1.machine.state == if Runs(c, Sampled(s, i)) then OpNext(s.machine.state, Ticked(s.machine.timer), OpSeen(c, s, i))
                                else s.machine.state
  {
    hide OpEvents, Table.OpSees, MadsSeen, MadsNext, MadsAlerts;
  }

  /** In cycle `j` openpilot is enabled already and sees nothing that forces it off. */
  ghost predicate OpHeld(c: Config, s: System, inputs: seq<Input>, j: nat)
    requires j < |inputs|
  {
    var t := Run(c, s, inputs[..j]);
    t.enabled && !Forced(OpSeen(c, t, inputs[j]))
  }

  /** In cycle `k` openpilot is off and sees an enabling event and none that forbids entry. */
  ghost predicate OpEnters(c: Config, s: System, inputs: seq<Input>, k: nat)
    requires k < |inputs|
  {
    var t := Run(c, s, inputs[..k]);
    !t.enabled && MayEnter(OpSeen(c, t, inputs[k]))
  }

  lemma OpEntersOrHolds(c: Config, s: System, inputs: seq<Input>)
    requires c.types.Known() && Start(s) && |inputs| > 0 && Run(c, s, inputs).enabled
    ensures OpEnters(c, s, inputs, |inputs| - 1) || OpHeld(c, s, inputs, |inputs| - 1)
  {
    var n := |inputs| - 1;
    StartIsInv(c, s);
    RunKeepsInv(c, s, inputs[..n]);
    RunKeepsInv(c, s, inputs);
    CycleOpState(c, Run(c, s, inputs[..n]), inputs[n]);
    hide Cycle, OpSeen, Sampled;
  }

  lemma OpSamePrefix(c: Config, s: System, inputs: seq<Input>, j: nat)
    requires j < |inputs| - 1
    ensures OpHeld(c, s, inputs[..|inputs| - 1], j) <==> OpHeld(c, s, inputs, j)
    ensures OpEnters(c, s, inputs[..|inputs| - 1], j) <==> OpEnters(c, s, inputs, j)
  {
    assert inputs[..|inputs| - 1][..j] == inputs[..j];
    hide Run, OpSeen;
  }

  lemma NotActiveAtStart(c: Config, s: System)
    requires Start(s)
    ensures !Run(c, s, []).enabled && !Run(c, s, []).madsActive
  {
  }

  lemma OpWasEnabled(c: Config, s: System, inputs: seq<Input>, j: nat)
    requires j < |inputs| && OpHeld(c, s, inputs, j)
    ensures Run(c, s, inputs[..j]).enabled
  {
    hide Run, OpSeen;
  }

  /**
   Whenever openpilot is enabled there was a cycle in which it was disabled, an enabling event was present and none
   that forbids entry; in every cycle since, it has seen no user disable and no immediate disable.
   */
  lemma {:induction false} OpEngagement(c: Config, s: System, inputs: seq<Input>) returns (k: nat)
    requires c.types.Known() && Start(s) && Run(c, s, inputs).enabled
    ensures k < |inputs| && OpEnters(c, s, inputs, k)
    ensures forall j :: k < j < |inputs| ==> OpHeld(c, s, inputs, j)
  {
    hide Run, OpHeld, OpEnters;
    assert |inputs| > 0 by { NotActiveAtStart(c, s); }
    var n := |inputs| - 1;
    OpEntersOrHolds(c, s, inputs);
    k := n;
    if !OpEnters(c, s, inputs, n) {
      OpWasEnabled(c, s, inputs, n);
      k := OpEngagement(c, s, inputs[..n]);
      OpSamePrefix(c, s, inputs, k);
      forall j | k < j < |inputs| ensures OpHeld(c, s, inputs, j) {
        if j < n { OpSamePrefix(c, s, inputs, j); }
      }
    }
  }

  lemma CycleMadsState(c: Config, s: System, i: Input)
    requires Inv(c, s)
    ensures var s1 := Cycle(c, s, i);
            s1.mads == if MadsOn(c) && Runs(c, Sampled(s, i)) then MadsNext(s.mads, AfterOp(c, s, i).machine.timer, MadsSeen(c, s, i))
                       else s.mads
  {
    hide OpEvents, Table.OpSees, MadsSeen, MadsNext, MadsAlerts, OpUpdate;
  }

  ghost predicate MadsHeld(c: Config, s: System, inputs: seq<Input>, j: nat)
    requires j < |inputs|
  {
    var t := Run(c, s, inputs[..j]);
    t.madsActive && !Forced(MadsSeen(c, t, inputs[j]).seen)
  }

  ghost predicate MadsEnters(c: Config, s: System, inputs: seq<Input>, k: nat)
    requires k < |inputs|
  {
    var t := Run(c, s, inputs[..k]);
    !t.madsActive && MayEnter(MadsSeen(c, t, inputs[k]).seen)
  }

  lemma MadsNextActive(state: MadsState, timer: int, v: MadsView)
    requires MadsIsActive(MadsNext(state, timer, v))
    ensures if MadsIsActive(state) then !Forced(v.seen) else MayEnter(v.seen)
  {
  }

  lemma MadsStepActive(c: Config, s: System, i: Input)
    requires c.types.Known() && Inv(c, s) && Cycle(c, s, i).madsActive
    ensures if s.madsActive then !Forced(MadsSeen(c, s, i).seen) else MayEnter(MadsSeen(c, s, i).seen)
  {
    hide Cycle, MadsSeen, AfterOp, MadsNext, MayEnter, Forced, Refuses;
    CycleKeepsInv(c, s, i);
    CycleMadsState(c, s, i);
    assert MadsIsActive(Cycle(c, s, i).mads);
    if MadsOn(c) && Runs(c, Sampled(s, i)) {
      MadsNextActive(s.mads, AfterOp(c, s, i).machine.timer, MadsSeen(c, s, i));
    }
  }

  lemma MadsEntersOrHolds(c: Config, s: System, inputs: seq<Input>)
    requires c.types.Known() && Start(s) && |inputs| > 0 && Run(c, s, inputs).madsActive
    ensures MadsEnters(c, s, inputs, |inputs| - 1) || MadsHeld(c, s, inputs, |inputs| - 1)
  {
    var n := |inputs| - 1;
    StartIsInv(c, s);
    RunKeepsInv(c, s, inputs[..n]);
    RunLast(c, s, inputs);
    hide Run, Cycle, MadsSeen, Inv;
    MadsStepActive(c, Run(c, s, inputs[..n]), inputs[n]);
  }

  lemma MadsSamePrefix(c: Config, s: System, inputs: seq<Input>, j: nat)
    requires j < |inputs| - 1
    ensures MadsHeld(c, s, inputs[..|inputs| - 1], j) <==> MadsHeld(c, s, inputs, j)
    ensures MadsEnters(c, s, inputs[..|inputs| - 1], j) <==> MadsEnters(c, s, inputs, j)
  {
    assert inputs[..|inputs| - 1][..j] == inputs[..j];
    hide Run, MadsSeen;
  }

  lemma MadsWasActive(c: Config, s: System, inputs: seq<Input>, j: nat)
    requires j < |inputs| && MadsHeld(c, s, inputs, j)
    ensures Run(c, s, inputs[..j]).madsActive
  {
    hide Run, MadsSeen;
  }

  /** The same for MADS and the rewritten events it sees; it may also enter from its paused state. */
  lemma {:induction false} MadsEngagement(c: Config, s: System, inputs: seq<Input>) returns (k: nat)
    requires c.types.Known() && Start(s) && Run(c, s, inputs).madsActive
    ensures k < |inputs| && MadsEnters(c, s, inputs, k)
    ensures forall j :: k < j < |inputs| ==> MadsHeld(c, s, inputs, j)
  {
    hide Run, MadsHeld, MadsEnters;
    assert |inputs| > 0 by { NotActiveAtStart(c, s); }
    var n := |inputs| - 1;
    MadsEntersOrHolds(c, s, inputs);
    k := n;
    if !MadsEnters(c, s, inputs, n) {
      MadsWasActive(c, s, inputs, n);
      k := MadsEngagement(c, s, inputs[..n]);
      MadsSamePrefix(c, s, inputs, k);
      forall j | k < j < |inputs| ensures MadsHeld(c, s, inputs, j) {
        if j < n { MadsSamePrefix(c, s, inputs, j); }
      }
    }
  }

  // ---------------------------------------------------------------- the shared timer

  /** With openpilot enabled the MADS machine leaves the timer alone; it only ever appends alert types. */
  lemma MadsLeavesTimer(c: Config, s: System, i: Input)
    requires Inv(c, s)
    ensures Cycle(c, s, i).enabled ==> Cycle(c, s, i).machine.timer == AfterOp(c, s, i).machine.timer
    ensures Cycle(c, s, i).machine.state == AfterOp(c, s, i).machine.state
    ensures AfterOp(c, s, i).machine.alerts <= Cycle(c, s, i).machine.alerts
  {
    hide OpEvents, Table.OpSees, MadsNext, MadsAlerts, OpUpdate, Rewritten, ViewOf;
    assert MadsSeen(c, s, i).opEnabled == AfterOp(c, s, i).enabled by { ViewKeepsEnabled(c, s, i); }
    hide MadsSeen;
  }

  lemma ViewKeepsEnabled(c: Config, s: System, i: Input)
    ensures MadsSeen(c, s, i).opEnabled == AfterOp(c, s, i).enabled
  {
    hide Rewritten, OpEvents, AfterOp, ContextOf;
  }

  /** Soft-disable demanded, and nothing else that ends the engagement. */
  ghost predicate OpSoft(c: Config, s: System, i: Input) {
    SOFT_DISABLE in OpSeen(c, s, i) && !Forced(OpSeen(c, s, i))
  }

  ghost predicate OpSoftOnly(c: Config, s: System, inputs: seq<Input>) {
    forall j :: 0 <= j < |inputs| ==> OpSoft(c, Run(c, s, inputs[..j]), inputs[j])
  }

  lemma OpSoftPrefix(c: Config, s: System, inputs: seq<Input>)
    requires |inputs| > 0 && OpSoftOnly(c, s, inputs)
    ensures OpSoftOnly(c, s, inputs[..|inputs| - 1])
    ensures OpSoft(c, Run(c, s, inputs[..|inputs| - 1]), inputs[|inputs| - 1])
  {
    hide Run, OpSoft;
    var before := inputs[..|inputs| - 1];
    forall j | 0 <= j < |before| ensures before[..j] == inputs[..j] && before[j] == inputs[j] {}
  }

  lemma OpSoftStep(c: Config, s: System, i: Input)
    requires c.types.Known() && Inv(c, s) && s.machine.state == SoftDisabling
    requires OpSoft(c, s, i)
    ensures Cycle(c, s, i).machine.state == if s.machine.timer > 1 then SoftDisabling else Disabled
    ensures s.machine.timer > 1 ==> Cycle(c, s, i).machine.timer == s.machine.timer - 1
  {
    CycleOpState(c, s, i);
    MadsLeavesTimer(c, s, i);
    CycleKeepsInv(c, s, i);
    hide Cycle, OpSeen, OpAlerts;
  }

  lemma {:induction false} OpCountsDown(c: Config, s: System, inputs: seq<Input>)
    requires c.types.Known() && Inv(c, s) && s.machine.state == SoftDisabling
    requires |inputs| <= s.machine.timer && OpSoftOnly(c, s, inputs)
    ensures var t := Run(c, s, inputs);
            if |inputs| < s.machine.timer || |inputs| == 0
            then t.machine.state == SoftDisabling && t.machine.timer == s.machine.timer - |inputs|
            else t.machine.state == Disabled
  {
    hide *;
    if |inputs| == 0 {
      RunNothing(c, s, inputs);
    } else {
      RunLast(c, s, inputs);
      var n := |inputs| - 1;
      var before := inputs[..n];
      OpSoftPrefix(c, s, inputs);
      OpCountsDown(c, s, before);
      RunKeepsInv(c, s, before);
      OpSoftStep(c, Run(c, s, before), inputs[n]);
    }
  }

  /**
   Openpilot's soft disable is exact: from the cycle that starts it, with the condition unbroken and whatever MADS
   does, it stays in soft disabling for 299 further cycles and is disabled in the 300th.
   */
  lemma OpSoftDisableExact(c: Config, s: System, first: Input, inputs: seq<Input>)
    requires c.types.Known() && Inv(c, s) && Runs(c, s) && OpStartsSoftDisable(s.machine.state, OpSeen(c, s, first))
    requires |inputs| <= 300 && OpSoftOnly(c, Cycle(c, s, first), inputs)
    ensures Run(c, Cycle(c, s, first), inputs).machine.state == if |inputs| < 300 then SoftDisabling else Disabled
  {
    var t := Cycle(c, s, first);
    CycleKeepsInv(c, s, first);
    CycleOpState(c, s, first);
    MadsLeavesTimer(c, s, first);
    assert AfterOp(c, s, first).machine.timer == 300 by { hide OpSeen, OpNext, OpAlerts; }
    hide Cycle, OpSeen, AfterOp, OpSoftOnly;
    assert t.machine.state == SoftDisabling;
    assert t.machine.timer == 300;
    OpCountsDown(c, t, inputs);
  }

  /** The condition unbroken for MADS, and openpilot not starting a soft disable of its own. */
  ghost predicate MadsSoftOnly(c: Config, s: System, inputs: seq<Input>) {
    forall j :: 0 <= j < |inputs| ==> MadsSoft(c, Run(c, s, inputs[..j]), inputs[j])
  }

  ghost predicate MadsSoft(c: Config, s: System, i: Input) {
    var v := MadsSeen(c, s, i);
    SOFT_DISABLE in v.seen && !Forced(v.seen) && !OpStartsSoftDisable(s.machine.state, OpSeen(c, s, i))
  }

  lemma MadsSoftPrefix(c: Config, s: System, inputs: seq<Input>)
    requires |inputs| > 0 && MadsSoftOnly(c, s, inputs)
    ensures MadsSoftOnly(c, s, inputs[..|inputs| - 1])
    ensures MadsSoft(c, Run(c, s, inputs[..|inputs| - 1]), inputs[|inputs| - 1])
  {
    hide Run, MadsSoft;
    var before := inputs[..|inputs| - 1];
    forall j | 0 <= j < |before| ensures before[..j] == inputs[..j] && before[j] == inputs[j] {}
  }

  lemma MadsTimer(c: Config, s: System, i: Input)
    requires Inv(c, s) && s.mads == MadsSoftDisabling
    ensures Cycle(c, s, i).machine.timer
         == if OpStartsSoftDisable(s.machine.state, OpSeen(c, s, i)) then SOFT_DISABLE_STEPS else Ticked(s.machine.timer)
  {
    hide MadsSeen, MadsNext, MadsAlerts, OpNext, OpAlerts, OpSeen;
  }

  lemma TimerIsNatural(c: Config, s: System)
    requires Inv(c, s)
    ensures s.machine.timer >= 0
  {
  }

  lemma AfterOpTimer(c: Config, s: System, i: Input)
    requires Inv(c, s) && Runs(c, s)
    ensures AfterOp(c, s, i).machine.timer
         == if OpStartsSoftDisable(s.machine.state, OpSeen(c, s, i)) then SOFT_DISABLE_STEPS else Ticked(s.machine.timer)
  {
    hide OpNext, OpAlerts, OpSeen, OpStartsSoftDisable, Refuses;
  }

  lemma SoftNext(timer: int, v: MadsView)
    requires SOFT_DISABLE in v.seen && !Forced(v.seen)
    ensures MadsNext(MadsSoftDisabling, timer, v) == if timer > 0 then MadsSoftDisabling else MadsDisabled
  {
  }

  lemma MadsSoftStep(c: Config, s: System, i: Input)
    requires c.types.Known() && Inv(c, s) && s.mads == MadsSoftDisabling && MadsSoft(c, s, i)
    ensures Cycle(c, s, i).mads == if s.machine.timer > 1 then MadsSoftDisabling else MadsDisabled
    ensures s.machine.timer > 1 ==> Cycle(c, s, i).machine.timer == s.machine.timer - 1
  {
    hide Cycle, OpSeen, MadsSeen, AfterOp, MadsNext, Forced, OpStartsSoftDisable, Refuses;
    CycleMadsState(c, s, i);
    MadsTimer(c, s, i);
    AfterOpTimer(c, s, i);
    SoftNext(AfterOp(c, s, i).machine.timer, MadsSeen(c, s, i));
  }

  /** Whatever the timer is, it is the number of cycles an unbroken MADS soft disable has left (a last one when zero). */
  lemma {:induction false} MadsCountsDown(c: Config, s: System, inputs: seq<Input>)
    requires c.types.Known() && Inv(c, s) && s.mads == MadsSoftDisabling && MadsSoftOnly(c, s, inputs)
    requires |inputs| <= s.machine.timer || |inputs| == 1
    ensures var t := Run(c, s, inputs);
            if |inputs| == 0 || |inputs| < s.machine.timer
            then t.mads == MadsSoftDisabling && t.machine.timer == s.machine.timer - |inputs|
            else t.mads == MadsDisabled
  {
    hide *;
    TimerIsNatural(c, s);
    if |inputs| == 0 {
      RunNothing(c, s, inputs);
    } else {
      RunLast(c, s, inputs);
      var n := |inputs| - 1;
      var before := inputs[..n];
      MadsSoftPrefix(c, s, inputs);
      MadsCountsDown(c, s, before);
      RunKeepsInv(c, s, before);
      MadsSoftStep(c, Run(c, s, before), inputs[n]);
    }
  }

  /** Openpilot is off after its own step of the cycle, or starts a soft disable in it: the guard under which MADS gets a full deadline. */
  ghost predicate FullDeadline(c: Config, s: System, i: Input) {
    !AfterOp(c, s, i).enabled || OpStartsSoftDisable(s.machine.state, OpSeen(c, s, i))
  }

  /**
   The deadline MADS gets as it starts a soft disable. It is the full one exactly when openpilot is disengaged, or is
   starting its own soft disable in the same cycle; otherwise MADS inherits what is left of the timer.
   */
  lemma MadsDeadline(c: Config, s: System, i: Input)
    requires Inv(c, s) && MadsOn(c) && Runs(c, s) && MadsStartsSoftDisable(s.mads, MadsSeen(c, s, i))
    ensures var t := Cycle(c, s, i);
            && t.mads == MadsSoftDisabling && t.enabled == AfterOp(c, s, i).enabled
            && t.machine.timer == (if FullDeadline(c, s, i) then SOFT_DISABLE_STEPS else Ticked(s.machine.timer))
            && (t.machine.timer == SOFT_DISABLE_STEPS <==> FullDeadline(c, s, i))
  {
    ViewKeepsEnabled(c, s, i);
    hide MadsSeen, MadsAlerts, OpNext, OpAlerts, OpSeen;
  }

  /** With nothing left of the timer to inherit, MADS is disabled in the very next cycle of its soft disable. */
  lemma MadsEndsAtOnce(c: Config, s: System, i: Input, next: Input)
    requires c.types.Known() && Inv(c, s) && MadsOn(c) && Runs(c, s) && MadsStartsSoftDisable(s.mads, MadsSeen(c, s, i))
    requires !FullDeadline(c, s, i) && s.machine.timer <= 1 && MadsSoft(c, Cycle(c, s, i), next)
    ensures Cycle(c, s, i).mads == MadsSoftDisabling && Cycle(c, Cycle(c, s, i), next).mads == MadsDisabled
  {
    CycleKeepsInv(c, s, i);
    MadsDeadline(c, s, i);
    hide Cycle, MadsSeen, OpSeen, FullDeadline, MadsSoft;
    MadsSoftStep(c, Cycle(c, s, i), next);
  }

  /** With openpilot staying disengaged the bound is exact for MADS too: 299 more cycles, disabled in the 300th. */
  lemma MadsSoftDisableExact(c: Config, s: System, first: Input, inputs: seq<Input>)
    requires c.types.Known() && Inv(c, s) && MadsOn(c) && Runs(c, s)
    requires MadsStartsSoftDisable(s.mads, MadsSeen(c, s, first)) && !Cycle(c, s, first).enabled
    requires |inputs| <= 300 && MadsSoftOnly(c, Cycle(c, s, first), inputs)
    ensures Run(c, Cycle(c, s, first), inputs).mads == if |inputs| < 300 then MadsSoftDisabling else MadsDisabled
  {
    CycleKeepsInv(c, s, first);
    MadsDeadline(c, s, first);
    hide Cycle, MadsSeen, OpSeen, MadsSoftOnly;
    MadsCountsDown(c, Cycle(c, s, first), inputs);
  }

  // ---------------------------------------------------------------- what turns the two modes on and off

  /** The events that MADS leaves in a cycle, which its machine sees. */
  function Shown(c: Config, s: System, i: Input): Events {
    Rewritten(ContextOf(c, MadsSampled(AfterOp(c, s, i), i), i), Events(OpEvents(c, Sampled(s, i), i), i.eventsSP))
  }

  /** What the machine sees of them. */
  lemma MadsSeenFromEvents(c: Config, s: System, i: Input)
    ensures var (v, e) := (MadsSeen(c, s, i), Shown(c, s, i));
            && (forall t :: t in v.seen <==> (exists x :: x in e.op && Type(t) in c.types.op(x)) || (exists x :: x in e.sp && Type(t) in c.types.sp(x)))
            && (v.silentDisable <==> SilentLkasDisable in e.sp)
            && (v.allowsPause <==> || (exists x :: x in e.op && x in {WrongGear, ReverseGear, BrakeHold, DoorOpen, SeatbeltNotLatched, ParkBrake})
                                   || (exists x :: x in e.sp && x in {SilentWrongGear, SilentReverseGear, SilentBrakeHold, SilentDoorOpen,
                                                                      SilentSeatbeltNotLatched, SilentParkBrake}))
  {
    hide Rewritten, OpEvents, AfterOp, ContextOf;
  }

  /** What openpilot's machine sees of the given events. */
  lemma OpSeenFromEvents(c: Config, s: System, i: Input, t: EventType)
    ensures t in OpSeen(c, s, i) <==> exists x :: x in OpEvents(c, Sampled(s, i), i) && Type(t) in c.types.op(x)
  {
    hide OpEvents;
  }

  /** In cycle `j` openpilot is on and turned off. */
  ghost predicate OpTurnsOff(c: Config, s: System, inputs: seq<Input>, j: nat)
    requires j < |inputs|
  {
    var t := Run(c, s, inputs[..j]);
    var seen := OpSeen(c, t, inputs[j]);
    t.enabled && (|| USER_DISABLE in seen || IMMEDIATE_DISABLE in seen
                  || (t.machine.state == SoftDisabling && SOFT_DISABLE in seen && t.machine.timer <= 1))
  }

  /** In cycle `j` openpilot is off and turned on. */
  ghost predicate OpTurnsOn(c: Config, s: System, inputs: seq<Input>, j: nat)
    requires j < |inputs|
  {
    var t := Run(c, s, inputs[..j]);
    var seen := OpSeen(c, t, inputs[j]);
    !t.enabled && !c.passive && (t.initialized || inputs[j].ready) && ENABLE in seen && NO_ENTRY !in seen
  }

  lemma RunOneMore(c: Config, s: System, inputs: seq<Input>, j: nat)
    requires j < |inputs|
    ensures Run(c, s, inputs[..j + 1]) == Cycle(c, Run(c, s, inputs[..j]), inputs[j])
  {
    assert inputs[..j + 1][..j] == inputs[..j];
    hide Cycle;
  }

  lemma OpAfter(c: Config, s: System, inputs: seq<Input>, j: nat)
    requires c.types.Known() && Inv(c, s) && j < |inputs|
    ensures Run(c, s, inputs[..j + 1]).enabled
            <==> if Run(c, s, inputs[..j]).enabled then !OpTurnsOff(c, s, inputs, j) else OpTurnsOn(c, s, inputs, j)
    ensures OpTurnsOn(c, s, inputs, j) ==> !Run(c, s, inputs[..j]).enabled
  {
    var t := Run(c, s, inputs[..j]);
    RunOneMore(c, s, inputs, j);
    RunKeepsInv(c, s, inputs[..j]);
    CycleKeepsInv(c, t, inputs[j]);
    CycleOpState(c, t, inputs[j]);
    OpReaches(t.machine.state, Ticked(t.machine.timer), OpSeen(c, t, inputs[j]));
    hide Run, Cycle, OpSeen, OpNext;
  }

  /** What is turned on and off: on after the last step exactly when some step turned it on and none since turned it off. */
  lemma {:induction false} OnSince(state: seq<bool>, on: seq<bool>, off: seq<bool>)
    requires |state| == |on| + 1 == |off| + 1 && !state[0]
    requires forall j :: 0 <= j < |on| ==> (state[j + 1] <==> if state[j] then !off[j] else on[j]) && (on[j] ==> !state[j])
    ensures state[|on|] <==> exists k :: 0 <= k < |on| && on[k] && forall j :: k < j < |on| ==> !off[j]
    decreases |on|
  {
    if |on| > 0 {
      var n := |on| - 1;
      var (on1, off1) := (on[..n], off[..n]);
      OnSince(state[..n + 1], on1, off1);
      if state[n] && !off[n] {
        var k :| 0 <= k < n && on1[k] && forall j :: k < j < n ==> !off1[j];
        forall j | k < j < |on| ensures !off[j] {
          assert j < n ==> !off1[j];
        }
        assert on[k];
      }
      if k :| 0 <= k < |on| && on[k] && forall j :: k < j < |on| ==> !off[j] {
        if k < n {
          assert on1[k] && forall j :: k < j < n ==> !off1[j];
        }
      }
    }
  }

  /**
   Openpilot is enabled after a run from the start exactly when some cycle turned it on and none since turned it off: by a
   user or immediate disable, or by a soft disable whose time is up.
   */
  lemma OpEnabledIff(c: Config, s: System, inputs: seq<Input>)
    requires c.types.Known() && Start(s)
    ensures Run(c, s, inputs).enabled <==>
            exists k :: 0 <= k < |inputs| && OpTurnsOn(c, s, inputs, k) && forall j :: k < j < |inputs| ==> !OpTurnsOff(c, s, inputs, j)
  {
    hide *;
    StartIsInv(c, s);
    NotActiveAtStart(c, s);
    var n := |inputs|;
    var state := seq(n + 1, m requires 0 <= m <= n => Run(c, s, inputs[..m]).enabled);
    var on := seq(n, j requires 0 <= j < n => OpTurnsOn(c, s, inputs, j));
    var off := seq(n, j requires 0 <= j < n => OpTurnsOff(c, s, inputs, j));
    assert inputs[..0] == [] && inputs[..n] == inputs;
    forall j | 0 <= j < n ensures (state[j + 1] <==> if state[j] then !off[j] else on[j]) && (on[j] ==> !state[j]) {
      OpAfter(c, s, inputs, j);
    }
    OnSince(state, on, off);
    if state[n] {
      var k :| 0 <= k < n && on[k] && forall j :: k < j < n ==> !off[j];
      assert OpTurnsOn(c, s, inputs, k);
      forall j | k < j < n ensures !OpTurnsOff(c, s, inputs, j) {
        assert !off[j];
      }
    }
    if k :| 0 <= k < n && OpTurnsOn(c, s, inputs, k) && forall j :: k < j < n ==> !OpTurnsOff(c, s, inputs, j) {
      assert on[k] && forall j :: k < j < n ==> !off[j];
    }
  }

  /** In cycle `j` MADS, engaged or paused, is turned off. */
  ghost predicate MadsTurnsOff(c: Config, s: System, inputs: seq<Input>, j: nat)
    requires j < |inputs|
  {
    var t := Run(c, s, inputs[..j]);
    var v := MadsSeen(c, t, inputs[j]);
    t.madsEnabled && if USER_DISABLE in v.seen then !v.silentDisable
                     else IMMEDIATE_DISABLE in v.seen || (t.mads == MadsSoftDisabling && SOFT_DISABLE in v.seen
                                                          && AfterOp(c, t, inputs[j]).machine.timer <= 0)
  }

  /** In cycle `j` MADS is off and engaged, or paused for one of the reasons that allow it. */
  ghost predicate MadsTurnsOn(c: Config, s: System, inputs: seq<Input>, j: nat)
    requires j < |inputs|
  {
    var t := Run(c, s, inputs[..j]);
    var v := MadsSeen(c, t, inputs[j]);
    && !t.madsEnabled && !c.passive && (t.initialized || inputs[j].ready) && !c.notCar && c.madsToggle
    && ENABLE in v.seen && (NO_ENTRY in v.seen ==> v.allowsPause)
  }

  lemma MadsAfter(c: Config, s: System, inputs: seq<Input>, j: nat)
    requires c.types.Known() && Inv(c, s) && j < |inputs|
    ensures Run(c, s, inputs[..j + 1]).madsEnabled
            <==> if Run(c, s, inputs[..j]).madsEnabled then !MadsTurnsOff(c, s, inputs, j) else MadsTurnsOn(c, s, inputs, j)
    ensures MadsTurnsOn(c, s, inputs, j) ==> !Run(c, s, inputs[..j]).madsEnabled
  {
    var t := Run(c, s, inputs[..j]);
    RunOneMore(c, s, inputs, j);
    RunKeepsInv(c, s, inputs[..j]);
    CycleKeepsInv(c, t, inputs[j]);
    CycleMadsState(c, t, inputs[j]);
    MadsReaches(t.mads, AfterOp(c, t, inputs[j]).machine.timer, MadsSeen(c, t, inputs[j]));
    hide Run, Cycle, MadsSeen, MadsNext, AfterOp, Refuses;
  }

  /** And MADS is engaged or paused exactly when some cycle turned it on and none since turned it off. */
  lemma MadsEnabledIff(c: Config, s: System, inputs: seq<Input>)
    requires c.types.Known() && Start(s)
    ensures Run(c, s, inputs).madsEnabled <==>
            exists k :: 0 <= k < |inputs| && MadsTurnsOn(c, s, inputs, k) && forall j :: k < j < |inputs| ==> !MadsTurnsOff(c, s, inputs, j)
  {
    hide *;
    StartIsInv(c, s);
    MadsOffAtStart(c, s);
    var n := |inputs|;
    var state := seq(n + 1, m requires 0 <= m <= n => Run(c, s, inputs[..m]).madsEnabled);
    var on := seq(n, j requires 0 <= j < n => MadsTurnsOn(c, s, inputs, j));
    var off := seq(n, j requires 0 <= j < n => MadsTurnsOff(c, s, inputs, j));
    assert inputs[..0] == [] && inputs[..n] == inputs;
    forall j | 0 <= j < n ensures (state[j + 1] <==> if state[j] then !off[j] else on[j]) && (on[j] ==> !state[j]) {
      MadsAfter(c, s, inputs, j);
    }
    OnSince(state, on, off);
    if state[n] {
      var k :| 0 <= k < n && on[k] && forall j :: k < j < n ==> !off[j];
      assert MadsTurnsOn(c, s, inputs, k);
      forall j | k < j < n ensures !MadsTurnsOff(c, s, inputs, j) {
        assert !off[j];
      }
    }
    if k :| 0 <= k < n && MadsTurnsOn(c, s, inputs, k) && forall j :: k < j < n ==> !MadsTurnsOff(c, s, inputs, j) {
      assert on[k] && forall j :: k < j < n ==> !off[j];
    }
  }

  lemma MadsOffAtStart(c: Config, s: System)
    requires Start(s)
    ensures !Run(c, s, []).madsEnabled
  {
  }

  /** A user disable among the events shown, without the silent one, ends MADS in that cycle, from any of its states. */
  lemma UserDisableEndsMads(c: Config, s: System, i: Input)
    requires c.types.Known() && Inv(c, s) && s.madsEnabled
    requires var e := Shown(c, s, i);
             && SilentLkasDisable !in e.sp
             && ((exists x :: x in e.op && Type(USER_DISABLE) in c.types.op(x)) || (exists x :: x in e.sp && Type(USER_DISABLE) in c.types.sp(x)))
    ensures Cycle(c, s, i).mads == MadsDisabled && !Cycle(c, s, i).madsEnabled && !Cycle(c, s, i).madsActive
  {
    MadsSeenFromEvents(c, s, i);
    CycleKeepsInv(c, s, i);
    CycleMadsState(c, s, i);
    MadsReaches(s.mads, AfterOp(c, s, i).machine.timer, MadsSeen(c, s, i));
    hide Cycle, MadsSeen, MadsNext, AfterOp, Shown, Refuses;
  }

  /** What the step's events are rewritten from. */
  function Given(c: Config, s: System, i: Input): (Context, Events) {
    (ContextOf(c, MadsSampled(AfterOp(c, s, i), i), i), Events(OpEvents(c, Sampled(s, i), i), i.eventsSP))
  }

  /** In particular the lane-keeping button ends a lateral-only engagement, unless something pauses it in the same cycle. */
  lemma ButtonEndsMads(c: Config, s: System, i: Input)
    requires c.types.Known() && c.types.KeysAreTypes() && Inv(c, s) && s.madsEnabled && !AfterOp(c, s, i).enabled
    requires Button(Lkas, true) in i.car.buttons && (i.car.cruiseAvailable || c.allowAlways)
    requires SilentLkasDisable !in i.eventsSP && !MustPause(Given(c, s, i).0, Given(c, s, i).1)
    ensures Cycle(c, s, i).mads == MadsDisabled && !Cycle(c, s, i).madsEnabled
  {
    hide *;
    var (context, e) := Given(c, s, i);
    GivenOf(c, s, i);
    LkasDisableIff(context, e);
    SilentDisableIffPausing(context, e);
    KnownTypes(c.types);
    HasIsIn(e);
    HasIsIn(Shown(c, s, i));
    UserDisableEndsMads(c, s, i);
  }

  lemma GivenOf(c: Config, s: System, i: Input)
    ensures var (context, e) := Given(c, s, i);
            && context.car == i.car && context.enabled == s.madsEnabled && context.opEnabled == AfterOp(c, s, i).enabled
            && context.allowAlways == c.allowAlways && context.types == c.types && e.sp == i.eventsSP
            && Shown(c, s, i) == Rewritten(context, e)
  {
    hide OpEvents, Rewritten, OpSeen, OpUpdate;
  }

  lemma KnownTypes(t: Table)
    requires t.Known()
    ensures Type(USER_DISABLE) in t.sp(LkasDisable)
  {
  }

  lemma HasIsIn(e: Events)
    ensures forall x :: e.HasSP(x) <==> x in e.sp
  {
  }

  // ---------------------------------------------------------------- the states in between

  ghost predicate Overridden(seen: set<EventType>) {
    OVERRIDE_LATERAL in seen || OVERRIDE_LONGITUDINAL in seen
  }

  lemma OpStateAfter(c: Config, s: System, i: Input)
    requires c.types.Known() && Inv(c, s) && s.enabled
    ensures Inv(c, Cycle(c, s, i))
    ensures Cycle(c, s, i).machine.state == OpNext(s.machine.state, Ticked(s.machine.timer), OpSeen(c, s, i))
    ensures Cycle(c, s, i).enabled <==> Cycle(c, s, i).machine.state != Disabled
  {
    CycleKeepsInv(c, s, i);
    CycleOpState(c, s, i);
    hide Cycle, OpSeen, OpNext;
  }

  /** Engaged without a soft disable, openpilot is overriding after a cycle exactly if an override is seen in it. */
  lemma OpFollowsOverride(c: Config, s: System, i: Input)
    requires c.types.Known() && Inv(c, s) && (s.machine.state == Enabled || s.machine.state == Overriding)
    requires var seen := OpSeen(c, s, i); USER_DISABLE !in seen && IMMEDIATE_DISABLE !in seen && SOFT_DISABLE !in seen
    ensures Cycle(c, s, i).machine.state == if Overridden(OpSeen(c, s, i)) then Overriding else Enabled
  {
    hide Cycle, OpSeen, OpNext, Refuses;
    OpStateAfter(c, s, i);
    OpReaches(s.machine.state, Ticked(s.machine.timer), OpSeen(c, s, i));
  }

  ghost predicate NothingEnds(seen: set<EventType>) {
    USER_DISABLE !in seen && IMMEDIATE_DISABLE !in seen && SOFT_DISABLE !in seen
  }

  /** Over a run without a disable of any kind the state is that of the last cycle's override. */
  lemma {:induction false} OpRunFollowsOverride(c: Config, s: System, inputs: seq<Input>)
    requires c.types.Known() && Inv(c, s) && (s.machine.state == Enabled || s.machine.state == Overriding) && |inputs| > 0
    requires forall j :: 0 <= j < |inputs| ==> NothingEnds(OpSeen(c, Run(c, s, inputs[..j]), inputs[j]))
    ensures var n := |inputs| - 1;
            && Inv(c, Run(c, s, inputs))
            && Run(c, s, inputs).machine.state == if Overridden(OpSeen(c, Run(c, s, inputs[..n]), inputs[n])) then Overriding else Enabled
  {
    hide Inv, Cycle, OpSeen, Overridden;
    var n := |inputs| - 1;
    var before := inputs[..n];
    RunKeepsInv(c, s, before);
    RunKeepsInv(c, s, inputs);
    RunLast(c, s, inputs);
    if n > 0 {
      forall j | 0 <= j < n ensures before[..j] == inputs[..j] && before[j] == inputs[j] {}
      OpRunFollowsOverride(c, s, before);
    } else {
      RunNothing(c, s, before);
    }
    hide Run;
    OpFollowsOverride(c, Run(c, s, before), inputs[n]);
  }

  lemma OpPreEnableStep(c: Config, s: System, i: Input)
    requires c.types.Known() && Inv(c, s) && s.machine.state == PreEnabled
    requires var seen := OpSeen(c, s, i); USER_DISABLE !in seen && IMMEDIATE_DISABLE !in seen
    ensures Cycle(c, s, i).machine.state == if PRE_ENABLE in OpSeen(c, s, i) then PreEnabled else Enabled
  {
    hide Cycle, OpSeen, OpNext, Refuses;
    OpStateAfter(c, s, i);
    OpReaches(s.machine.state, Ticked(s.machine.timer), OpSeen(c, s, i));
  }

  /** Pre-enabled, openpilot waits as long as the condition is there and is enabled in the first cycle without it. */
  lemma {:induction false} OpWaitsPreEnabled(c: Config, s: System, inputs: seq<Input>)
    requires c.types.Known() && Inv(c, s) && s.machine.state == PreEnabled && |inputs| > 0
    requires forall j :: 0 <= j < |inputs| ==> !Forced(OpSeen(c, Run(c, s, inputs[..j]), inputs[j]))
    requires forall j :: 0 <= j < |inputs| - 1 ==> PRE_ENABLE in OpSeen(c, Run(c, s, inputs[..j]), inputs[j])
    ensures var n := |inputs| - 1;
            Run(c, s, inputs).machine.state == if PRE_ENABLE in OpSeen(c, Run(c, s, inputs[..n]), inputs[n]) then PreEnabled else Enabled
  {
    hide Inv, Cycle, OpSeen;
    var n := |inputs| - 1;
    var before := inputs[..n];
    RunKeepsInv(c, s, before);
    RunLast(c, s, inputs);
    if n > 0 {
      forall j | 0 <= j < n ensures before[..j] == inputs[..j] && before[j] == inputs[j] {}
      OpWaitsPreEnabled(c, s, before);
    } else {
      RunNothing(c, s, before);
    }
    hide Run;
    OpPreEnableStep(c, Run(c, s, before), inputs[n]);
  }

  lemma OpSoftClears(c: Config, s: System, i: Input)
    requires c.types.Known() && Inv(c, s) && s.machine.state == SoftDisabling
    requires var seen := OpSeen(c, s, i); USER_DISABLE !in seen && IMMEDIATE_DISABLE !in seen && SOFT_DISABLE !in seen
    ensures Cycle(c, s, i).machine.state == Enabled
  {
    hide Cycle, OpSeen, OpNext, Refuses;
    OpStateAfter(c, s, i);
    OpReaches(s.machine.state, Ticked(s.machine.timer), OpSeen(c, s, i));
  }

  /** A soft disable that clears in time, whenever that is, leads back to enabled. */
  lemma OpSoftRecovers(c: Config, s: System, inputs: seq<Input>, next: Input)
    requires c.types.Known() && Inv(c, s) && s.machine.state == SoftDisabling
    requires (|inputs| < s.machine.timer || |inputs| == 0) && OpSoftOnly(c, s, inputs)
    requires NothingEnds(OpSeen(c, Run(c, s, inputs), next))
    ensures Run(c, s, inputs + [next]).machine.state == Enabled
  {
    assert (inputs + [next])[..|inputs|] == inputs;
    RunLast(c, s, inputs + [next]);
    if |inputs| == 0 { RunNothing(c, s, inputs); } else { OpCountsDown(c, s, inputs); }
    RunKeepsInv(c, s, inputs);
    hide Run, Cycle, OpSeen, Inv;
    OpSoftClears(c, Run(c, s, inputs), next);
  }

  lemma MadsOnIsKnown(c: Config, s: System)
    requires Inv(c, s)
    ensures s.madsEnabled <==> s.mads != MadsDisabled
  {
  }

  lemma MadsStateAfter(c: Config, s: System, i: Input)
    requires c.types.Known() && Inv(c, s) && s.madsEnabled
    ensures Inv(c, Cycle(c, s, i))
    ensures Cycle(c, s, i).mads == MadsNext(s.mads, AfterOp(c, s, i).machine.timer, MadsSeen(c, s, i))
  {
    CycleKeepsInv(c, s, i);
    CycleMadsState(c, s, i);
    hide Cycle, MadsSeen, MadsNext, AfterOp;
  }

  /** The same for MADS, which looks at lateral overrides only. */
  lemma MadsFollowsOverride(c: Config, s: System, i: Input)
    requires c.types.Known() && Inv(c, s) && (s.mads == MadsEnabled || s.mads == MadsOverriding) && NothingEnds(MadsSeen(c, s, i).seen)
    ensures Cycle(c, s, i).mads == if OVERRIDE_LATERAL in MadsSeen(c, s, i).seen then MadsOverriding else MadsEnabled
  {
    hide Cycle, MadsSeen, AfterOp, MadsNext, Refuses;
    MadsOnIsKnown(c, s);
    MadsStateAfter(c, s, i);
    MadsReaches(s.mads, AfterOp(c, s, i).machine.timer, MadsSeen(c, s, i));
    hide Inv;
  }

  lemma {:induction false} MadsRunFollowsOverride(c: Config, s: System, inputs: seq<Input>)
    requires c.types.Known() && Inv(c, s) && (s.mads == MadsEnabled || s.mads == MadsOverriding) && |inputs| > 0
    requires forall j :: 0 <= j < |inputs| ==> NothingEnds(MadsSeen(c, Run(c, s, inputs[..j]), inputs[j]).seen)
    ensures var n := |inputs| - 1;
            Run(c, s, inputs).mads == if OVERRIDE_LATERAL in MadsSeen(c, Run(c, s, inputs[..n]), inputs[n]).seen then MadsOverriding else MadsEnabled
  {
    hide Inv, Cycle, MadsSeen;
    var n := |inputs| - 1;
    var before := inputs[..n];
    RunKeepsInv(c, s, before);
    RunLast(c, s, inputs);
    if n > 0 {
      forall j | 0 <= j < n ensures before[..j] == inputs[..j] && before[j] == inputs[j] {}
      MadsRunFollowsOverride(c, s, before);
    } else {
      RunNothing(c, s, before);
    }
    hide Run;
    MadsFollowsOverride(c, Run(c, s, before), inputs[n]);
  }

  lemma MadsSoftClears(c: Config, s: System, i: Input)
    requires c.types.Known() && Inv(c, s) && s.mads == MadsSoftDisabling && NothingEnds(MadsSeen(c, s, i).seen)
    ensures Cycle(c, s, i).mads == MadsEnabled
  {
    hide Cycle, MadsSeen, AfterOp, MadsNext, Refuses;
    MadsOnIsKnown(c, s);
    MadsStateAfter(c, s, i);
    MadsReaches(s.mads, AfterOp(c, s, i).machine.timer, MadsSeen(c, s, i));
    hide Inv;
  }

  lemma MadsSoftRecovers(c: Config, s: System, inputs: seq<Input>, next: Input)
    requires c.types.Known() && Inv(c, s) && s.mads == MadsSoftDisabling
    requires (|inputs| < s.machine.timer || |inputs| == 0) && MadsSoftOnly(c, s, inputs)
    requires NothingEnds(MadsSeen(c, Run(c, s, inputs), next).seen)
    ensures Run(c, s, inputs + [next]).mads == MadsEnabled
  {
    assert (inputs + [next])[..|inputs|] == inputs;
    RunLast(c, s, inputs + [next]);
    if |inputs| == 0 { RunNothing(c, s, inputs); } else { MadsCountsDown(c, s, inputs); }
    RunKeepsInv(c, s, inputs);
    hide Run, Cycle, MadsSeen, Inv;
    MadsSoftClears(c, Run(c, s, inputs), next);
  }

  /** What keeps MADS paused: no enabling event that may enter, and no disable but a silent one. */
  ghost predicate KeepsPaused(v: MadsView) {
    if USER_DISABLE in v.seen then v.silentDisable else IMMEDIATE_DISABLE !in v.seen && (ENABLE in v.seen ==> NO_ENTRY in v.seen)
  }

  lemma PausedStep(c: Config, s: System, i: Input)
    requires c.types.Known() && Inv(c, s) && s.mads == MadsPaused
    ensures Cycle(c, s, i).mads == MadsPaused <==> KeepsPaused(MadsSeen(c, s, i))
    ensures MadsIsActive(Cycle(c, s, i).mads)
            <==> var seen := MadsSeen(c, s, i).seen; ENABLE in seen && NO_ENTRY !in seen && USER_DISABLE !in seen && IMMEDIATE_DISABLE !in seen
  {
    hide Cycle, MadsSeen, AfterOp, MadsNext, Refuses;
    MadsOnIsKnown(c, s);
    MadsStateAfter(c, s, i);
    MadsReaches(s.mads, AfterOp(c, s, i).machine.timer, MadsSeen(c, s, i));
    hide Inv;
  }

  /** MADS stays paused over a run exactly while every cycle keeps it so, and resumes with the first that may enter. */
  lemma {:induction false} PausedUntil(c: Config, s: System, inputs: seq<Input>)
    requires c.types.Known() && Inv(c, s) && s.mads == MadsPaused
    requires forall j :: 0 <= j < |inputs| - 1 ==> KeepsPaused(MadsSeen(c, Run(c, s, inputs[..j]), inputs[j]))
    ensures var n := |inputs| - 1;
            Run(c, s, inputs).mads == MadsPaused <==> n < 0 || KeepsPaused(MadsSeen(c, Run(c, s, inputs[..n]), inputs[n]))
  {
    hide Inv, Cycle, MadsSeen, KeepsPaused;
    if |inputs| == 0 {
      RunNothing(c, s, inputs);
    } else {
      var n := |inputs| - 1;
      var before := inputs[..n];
      RunKeepsInv(c, s, before);
      RunLast(c, s, inputs);
      forall j | 0 <= j < n ensures before[..j] == inputs[..j] && before[j] == inputs[j] {}
      PausedUntil(c, s, before);
      hide Run;
      PausedStep(c, Run(c, s, before), inputs[n]);
    }
  }

  /** Refused entry pauses MADS exactly if one of the reasons that allow it is among the events shown. */
  lemma RefusedEntryPauses(c: Config, s: System, i: Input)
    requires c.types.Known() && Inv(c, s) && s.mads == MadsDisabled && MadsOn(c) && Runs(c, s)
    requires ENABLE in MadsSeen(c, s, i).seen && NO_ENTRY in MadsSeen(c, s, i).seen
    ensures Cycle(c, s, i).mads == if MadsSeen(c, s, i).allowsPause then MadsPaused else MadsDisabled
  {
    hide Cycle, MadsSeen, AfterOp, MadsNext, Refuses;
    CycleMadsState(c, s, i);
    MadsReaches(s.mads, AfterOp(c, s, i).machine.timer, MadsSeen(c, s, i));
  }

  // ---------------------------------------------------------------- mismatches are counted

  /** How many of the samples have a panda, not ignored, that does not allow controls. */
  function Refusals(inputs: seq<Input>): nat {
    if |inputs| == 0 then 0
    else Refusals(inputs[..|inputs| - 1])
         + if exists p :: p in inputs[|inputs| - 1].pandas && !p.ignored && !p.controlsAllowed then 1 else 0
  }

  function LateralRefusals(inputs: seq<Input>): nat {
    if |inputs| == 0 then 0
    else LateralRefusals(inputs[..|inputs| - 1])
         + if exists p :: p in inputs[|inputs| - 1].pandas && !p.ignored && !p.controlsAllowedLateral then 1 else 0
  }

  lemma MismatchStep(c: Config, s: System, i: Input)
    ensures Cycle(c, s, i).mismatch
         == if !s.enabled then 0 else s.mismatch + if exists p :: p in i.pandas && !p.ignored && !p.controlsAllowed then 1 else 0
  {
    hide OpSeen, MadsSeen, OpUpdate, MadsUpdate;
    assert Refuses(i.pandas) <==> exists p :: p in i.pandas && !p.ignored && !p.controlsAllowed;
  }

  /** While openpilot is enabled its mismatch counter is the number of refusing samples; without it the counter is zero. */
  lemma {:induction false} MismatchCounts(c: Config, s: System, inputs: seq<Input>)
    requires forall j :: 0 <= j < |inputs| ==> Run(c, s, inputs[..j]).enabled
    ensures Run(c, s, inputs).mismatch == s.mismatch + Refusals(inputs)
  {
    if |inputs| > 0 {
      var n := |inputs| - 1;
      var before := inputs[..n];
      forall j | 0 <= j < n ensures before[..j] == inputs[..j] {}
      MismatchCounts(c, s, before);
      MismatchStep(c, Run(c, s, before), inputs[n]);
      hide Cycle;
    }
  }

  /** A cycle in which MADS is engaged alone, openpilot's step of that cycle included. */
  ghost predicate LateralAlone(c: Config, s: System, i: Input) {
    s.madsActive && !AfterOp(c, s, i).enabled
  }

  lemma LateralMismatchStep(c: Config, s: System, i: Input)
    requires MadsOn(c)
    ensures Cycle(c, s, i).lateralMismatch
         == if !LateralAlone(c, s, i) then 0
            else s.lateralMismatch + if exists p :: p in i.pandas && !p.ignored && !p.controlsAllowedLateral then 1 else 0
  {
    hide OpSeen, MadsSeen, OpUpdate, MadsUpdate, Refuses;
    assert RefusesLateral(i.pandas) <==> exists p :: p in i.pandas && !p.ignored && !p.controlsAllowedLateral;
  }

  /** Over a lateral-only engagement the lateral counter is the number of its refusing samples. */
  lemma {:induction false} LateralMismatchCounts(c: Config, s: System, inputs: seq<Input>)
    requires MadsOn(c) && forall j :: 0 <= j < |inputs| ==> LateralAlone(c, Run(c, s, inputs[..j]), inputs[j])
    ensures Run(c, s, inputs).lateralMismatch == s.lateralMismatch + LateralRefusals(inputs)
  {
    hide LateralAlone, MadsOn, Cycle, Run;
    if |inputs| == 0 {
      RunNothing(c, s, inputs);
    } else {
      var n := |inputs| - 1;
      var before := inputs[..n];
      RunLast(c, s, inputs);
      forall j | 0 <= j < n ensures before[..j] == inputs[..j] && before[j] == inputs[j] {}
      LateralMismatchCounts(c, s, before);
      LateralMismatchStep(c, Run(c, s, before), inputs[n]);
    }
  }

  /** And its 200th refusing sample ends MADS in that same cycle, unless a silent disable pauses it. */
  lemma LateralMismatchDisengages(c: Config, s: System, i: Input)
    requires c.types.Known() && Inv(c, s) && LateralAlone(c, s, i) && s.lateralMismatch == 199
    requires exists p :: p in i.pandas && !p.ignored && !p.controlsAllowedLateral
    ensures !Cycle(c, s, i).madsActive
    ensures USER_DISABLE in MadsSeen(c, s, i).seen || Cycle(c, s, i).mads == MadsDisabled
  {
    var a := AfterOp(c, s, i);
    assert a.madsActive == s.madsActive && a.lateralMismatch == 199 by { hide OpSeen, OpUpdate, Refuses; }
    hide AfterOp, Cycle, MadsSeen, Rewritten, OpEvents;
    var p :| p in i.pandas && !p.ignored && !p.controlsAllowedLateral;
    assert RefusesLateral(i.pandas);
    assert MadsSampled(a, i).lateralMismatch == 200;
    LateralMismatchSeen(c, MadsSampled(a, i), Events(OpEvents(c, Sampled(s, i), i), i.eventsSP), i);
    SeenOf(c, s, i);
    CycleKeepsInv(c, s, i);
    CycleMadsState(c, s, i);
    MadsReaches(s.mads, a.machine.timer, MadsSeen(c, s, i));
    hide MadsNext, Refuses, ViewOf, ContextOf;
  }

  lemma SeenOf(c: Config, s: System, i: Input)
    ensures var s1 := MadsSampled(AfterOp(c, s, i), i);
            MadsSeen(c, s, i) == ViewOf(c.types, Rewritten(ContextOf(c, s1, i), Events(OpEvents(c, Sampled(s, i), i), i.eventsSP)), s1.enabled)
  {
    hide AfterOp, OpEvents, Rewritten, ViewOf;
  }

  // ---------------------------------------------------------------- what never engages, and what is remembered

  /** In a passive car, or before initialization, neither mode engages; MADS not with its toggle off or in a car that is none. */
  lemma {:induction false} NeverEngages(c: Config, s: System, inputs: seq<Input>)
    requires c.types.Known() && Start(s)
    ensures c.passive || (forall j :: 0 <= j < |inputs| ==> !inputs[j].ready) ==> !Run(c, s, inputs).enabled && !Run(c, s, inputs).madsEnabled
    ensures c.notCar || !c.madsToggle ==> !Run(c, s, inputs).madsEnabled
  {
    OpEnabledIff(c, s, inputs);
    MadsEnabledIff(c, s, inputs);
    forall j | 0 <= j < |inputs| ensures Run(c, s, inputs[..j]).initialized ==> exists k :: 0 <= k < j && inputs[k].ready {
      InitializedOnce(c, s, inputs, j);
    }
    hide Run, OpSeen, MadsSeen, Start;
  }

  lemma {:induction false} InitializedOnce(c: Config, s: System, inputs: seq<Input>, n: nat)
    requires Start(s) && n <= |inputs|
    ensures Run(c, s, inputs[..n]).initialized <==> exists k :: 0 <= k < n && inputs[k].ready
    decreases n
  {
    if n > 0 {
      InitializedOnce(c, s, inputs, n - 1);
      RunOneMore(c, s, inputs, n - 1);
      InitializedStep(c, Run(c, s, inputs[..n - 1]), inputs[n - 1]);
      hide Run, Cycle;
    }
  }

  lemma InitializedStep(c: Config, s: System, i: Input)
    ensures Cycle(c, s, i).initialized <==> s.initialized || i.ready
  {
    hide OpSeen, MadsSeen, OpUpdate, MadsUpdate;
  }

  /** After a cycle the previous car is that of the cycle and, with MADS on, the previous engagement the present one. */
  lemma PreviousIsLast(c: Config, s: System, i: Input)
    ensures Cycle(c, s, i).carPrev == i.car
    ensures MadsOn(c) ==> Cycle(c, s, i).enabledPrev == Cycle(c, s, i).enabled
  {
    hide OpSeen, MadsSeen, OpUpdate, MadsUpdate;
  }

  // ---------------------------------------------------------------- a run to the short deadline

  /** The three events of the run have the types the source gives them. */
  ghost predicate TypesOfRun(t: Table) {
    && t.Known()
    && t.op(ButtonEnable) == {Type(ENABLE)} && t.op(PreEnableStandstill) == {Type(PRE_ENABLE)}
    && t.op(WrongGear) == {Type(SOFT_DISABLE), Type(NO_ENTRY)}
  }

  const STANDING: Car := Car(true, 0.0, false, false, true, [])

  /** Both modes are engaged by the button, at standstill. */
  const ENGAGE: Input := Input(true, [], multiset{ButtonEnable, PreEnableStandstill}, multiset{}, STANDING, false, true)

  /** Still at standstill, out of gear. */
  const OUT_OF_GEAR: Input := Input(true, [], multiset{PreEnableStandstill, WrongGear}, multiset{}, STANDING, false, true)

  lemma SeenOfRun(t: Table)
    requires TypesOfRun(t)
    ensures t.OpSees(ENGAGE.events) == {ENABLE, PRE_ENABLE}
    ensures t.OpSees(OUT_OF_GEAR.events) == {PRE_ENABLE, SOFT_DISABLE, NO_ENTRY}
    ensures t.SPSees(multiset{}) == {}
  {
    assert ButtonEnable in ENGAGE.events && PreEnableStandstill in ENGAGE.events;
    assert PreEnableStandstill in OUT_OF_GEAR.events && WrongGear in OUT_OF_GEAR.events;
    assert forall e :: e in ENGAGE.events <==> e == ButtonEnable || e == PreEnableStandstill;
    assert forall e :: e in OUT_OF_GEAR.events <==> e == PreEnableStandstill || e == WrongGear;
  }

  lemma PlainSeen(c: Config, s: System, i: Input)
    requires s.mismatch < 199
    ensures OpEvents(c, Sampled(s, i), i) == i.events && OpSeen(c, s, i) == c.types.OpSees(i.events)
  {
    hide Table.OpSees, Refuses;
  }

  /** In a quiet cycle the MADS machine too sees the given events as they are. */
  lemma QuietCycle(c: Config, s: System, i: Input)
    requires s.mismatch < 199 && i.eventsSP == multiset{}
    requires Quiet(ContextOf(c, MadsSampled(AfterOp(c, s, i), i), i), Events(i.events, i.eventsSP))
    ensures MadsSeen(c, s, i).seen == c.types.OpSees(i.events) + c.types.SPSees(multiset{}) && !MadsSeen(c, s, i).silentDisable
  {
    PlainSeen(c, s, i);
    hide Quiet, Rewritten, Table.OpSees, Table.SPSees, Refuses, AfterOp, ContextOf, MadsSampled, OpEvents;
    QuietIsUnchanged(ContextOf(c, MadsSampled(AfterOp(c, s, i), i), i), Events(i.events, i.eventsSP));
  }

  ghost predicate ConfigOfRun(c: Config) {
    !c.passive && MadsOn(c) && TypesOfRun(c.types)
  }

  /** Openpilot pre-enabled with an idle timer, and MADS in `mads`. */
  ghost predicate PreEnabledWith(s: System, mads: MadsState) {
    && s.initialized && s.enabled && s.enabledPrev && s.mismatch == 0 && s.machine.state == PreEnabled && s.machine.timer == 0
    && s.mads == mads && s.madsEnabled && s.lateralMismatch == 0
  }

  /** Openpilot pre-enabled after its step, with the timer idle and MADS as it was. */
  ghost predicate PreEnabledAfterOp(a: System, s: System) {
    && a.initialized && a.enabled && a.mismatch == 0 && a.machine.state == PreEnabled && a.machine.timer == 0
    && a.mads == s.mads && a.madsEnabled == s.madsEnabled && a.lateralMismatch == s.lateralMismatch && a.enabledPrev == s.enabledPrev
  }

  lemma RunSampled(s: System, i: Input)
    requires Start(s) || PreEnabledWith(s, s.mads)
    requires i == ENGAGE || i == OUT_OF_GEAR
    ensures Sampled(s, i) == s.(initialized := true)
  {
  }

  lemma RunAfterOp(c: Config, s: System, i: Input)
    requires ConfigOfRun(c) && i.pandas == [] && Sampled(s, i) == s.(initialized := true) && s.mismatch == 0 && s.machine.timer == 0
    requires (s.machine.state == Disabled && i == ENGAGE) || (s.machine.state == PreEnabled && i == OUT_OF_GEAR)
    ensures PreEnabledAfterOp(AfterOp(c, s, i), s)
  {
    SeenOfRun(c.types);
    PlainSeen(c, s, i);
    hide Table.OpSees, Table.SPSees, OpEvents, OpAlerts, Sampled, OpSeen, TypesOfRun;
  }

  lemma RunIsQuiet(c: Config, s: System, a: System, i: Input)
    requires PreEnabledAfterOp(a, s) && s.mads != MadsPaused && (i == OUT_OF_GEAR || (i == ENGAGE && !s.madsEnabled && !s.enabledPrev))
    ensures Quiet(ContextOf(c, MadsSampled(a, i), i), Events(i.events, i.eventsSP))
  {
    hide RefusesLateral;
  }

  lemma CycleParts(c: Config, s: System, i: Input)
    requires MadsOn(c) && Runs(c, AfterOp(c, s, i)) && AfterOp(c, s, i).enabled
    ensures var (a, v, t) := (AfterOp(c, s, i), MadsSeen(c, s, i), Cycle(c, s, i));
            && v.opEnabled && t.initialized == a.initialized && t.enabled == a.enabled && t.enabledPrev && t.mismatch == a.mismatch
            && t.machine.state == a.machine.state && t.machine.timer == a.machine.timer && t.lateralMismatch == 0
            && t.mads == MadsNext(a.mads, a.machine.timer, v) && t.madsEnabled == MadsIsEnabled(t.mads)
  {
    ViewKeepsEnabled(c, s, i);
    hide AfterOp, MadsSeen, MadsAlerts, MadsNext, RefusesLateral;
  }

  /** One cycle of the run: what the MADS machine makes of the events as they are. */
  lemma RunCycle(c: Config, s: System, i: Input)
    requires ConfigOfRun(c) && (Start(s) || PreEnabledWith(s, s.mads)) && s.mads != MadsPaused
    requires (Start(s) && i == ENGAGE) || (PreEnabledWith(s, s.mads) && i == OUT_OF_GEAR)
    ensures var (t, v) := (Cycle(c, s, i), MadsSeen(c, s, i));
            && v.seen == c.types.OpSees(i.events) + {} && !v.silentDisable
            && t.mads == MadsNext(s.mads, 0, v) && (t.madsEnabled ==> PreEnabledWith(t, t.mads)) && t.machine.state == PreEnabled
            && t.madsEnabled == MadsIsEnabled(t.mads) && t.machine.timer == 0
  {
    RunSampled(s, i);
    RunAfterOp(c, s, i);
    RunIsQuiet(c, s, AfterOp(c, s, i), i);
    SeenOfRun(c.types);
    hide Cycle, AfterOp, MadsSeen, Table.OpSees, Table.SPSees, MadsNext, Quiet, ContextOf, MadsSampled, Sampled, TypesOfRun;
    QuietCycle(c, s, i);
    CycleParts(c, s, i);
  }

  lemma NextOfRun(v: MadsView)
    ensures v.seen == {ENABLE, PRE_ENABLE} ==> MadsNext(MadsDisabled, 0, v) == MadsEnabled
    ensures v.seen == {PRE_ENABLE, SOFT_DISABLE, NO_ENTRY} ==>
      MadsNext(MadsEnabled, 0, v) == MadsSoftDisabling && MadsNext(MadsSoftDisabling, 0, v) == MadsDisabled
  {
  }

  lemma StartsDisabled(c: Config, s: System)
    requires ConfigOfRun(c) && Start(s)
    ensures s.mads == MadsDisabled && TypesOfRun(c.types)
  {
    hide TypesOfRun;
  }

  lemma TypesOfConfig(c: Config)
    requires ConfigOfRun(c)
    ensures TypesOfRun(c.types)
  {
    hide TypesOfRun;
  }

  lemma Engaging(c: Config, s: System)
    requires ConfigOfRun(c) && Start(s)
    ensures PreEnabledWith(Cycle(c, s, ENGAGE), MadsEnabled)
  {
    hide *;
    StartsDisabled(c, s);
    SeenOfRun(c.types);
    RunCycle(c, s, ENGAGE);
    NextOfRun(MadsSeen(c, s, ENGAGE));
    EnabledStates();
  }

  lemma EnabledStates()
    ensures MadsIsEnabled(MadsEnabled) && MadsIsEnabled(MadsSoftDisabling)
  {
  }

  lemma OutOfGear(c: Config, s: System)
    requires ConfigOfRun(c) && PreEnabledWith(s, s.mads) && s.mads in {MadsEnabled, MadsSoftDisabling}
    ensures var t := Cycle(c, s, OUT_OF_GEAR);
            if s.mads == MadsEnabled then PreEnabledWith(t, MadsSoftDisabling) else t.mads == MadsDisabled && t.machine.state == PreEnabled
  {
    hide *;
    TypesOfConfig(c);
    SeenOfRun(c.types);
    RunCycle(c, s, OUT_OF_GEAR);
    NextOfRun(MadsSeen(c, s, OUT_OF_GEAR));
    EnabledStates();
  }

  /**
   A run from the start in which the three seconds shrink to one cycle: both modes are engaged at standstill, which leaves
   openpilot pre-enabled; the gear starts a soft disable of MADS alone, and one cycle later MADS is off.
   */
  lemma ShortDeadlineRun(c: Config, s: System)
    requires ConfigOfRun(c) && Start(s)
    ensures Run(c, s, [ENGAGE]).mads == MadsEnabled
    ensures Run(c, s, [ENGAGE, OUT_OF_GEAR]).mads == MadsSoftDisabling && Run(c, s, [ENGAGE, OUT_OF_GEAR]).machine.timer == 0
    ensures Run(c, s, [ENGAGE, OUT_OF_GEAR, OUT_OF_GEAR]).mads == MadsDisabled
    ensures Run(c, s, [ENGAGE, OUT_OF_GEAR, OUT_OF_GEAR]).machine.state == PreEnabled
  {
    var (one, two, three) := ([ENGAGE], [ENGAGE, OUT_OF_GEAR], [ENGAGE, OUT_OF_GEAR, OUT_OF_GEAR]);
    assert one[..0] == [] && two[..1] == one && three[..2] == two;
    hide Cycle, ConfigOfRun, Start;
    RunNothing(c, s, []);
    RunLast(c, s, one);
    RunLast(c, s, two);
    RunLast(c, s, three);
    hide Run;
    Engaging(c, s);
    OutOfGear(c, Run(c, s, one));
    OutOfGear(c, Run(c, s, two));
  }
}
