/**
 The driver-monitoring policy (selfdrive/monitoring/policy.py): an awareness counter under one of two policies with a
 saved counter for the other, alert levels and lockout. The distraction signal goes through a first-order filter
 (common/filter_simple.py). Times and counters are reals; how a frame is judged distracted is an input.
 */
module DriverMonitoring {
  import opened Numbers

  // ---------------------------------------------------------------- the filter

  function Filtered(x: real, alpha: real, input: real): real {
    (1.0 - alpha) * x + alpha * input
  }

  class FirstOrderFilter {
    var x: real
    const dt: real
    var alpha: real
    var initialized: bool

    constructor (x0: real, rc: real, dt: real, initialized: bool)
      requires rc + dt != 0.0
      ensures x == x0 && this.dt == dt && alpha == dt / (rc + dt) && this.initialized == initialized
    {
      x := x0;
      this.dt := dt;
      alpha := dt / (rc + dt);
      this.initialized := initialized;
    }

    method Update(input: real) returns (r: real)
      modifies this`x, this`initialized
      ensures x == (if old(initialized) then Filtered(old(x), alpha, input) else input) && initialized && r == x
    {
      if initialized {
        x := (1.0 - alpha) * x + alpha * input;
      } else {
        initialized := true;
        x := input;
      }
      return x;
    }
  }

  function Pow(b: real, n: nat): real {
    if n == 0 then 1.0 else b * Pow(b, n - 1)
  }

  function Settle(x: real, alpha: real, input: real, n: nat): real {
    if n == 0 then x else Filtered(Settle(x, alpha, input, n - 1), alpha, input)
  }

  /** Under a constant input the distance to it shrinks by the same factor each time. */
  lemma {:induction false} FilterClosedForm(x: real, alpha: real, input: real, n: nat)
    ensures input - Settle(x, alpha, input, n) == Pow(1.0 - alpha, n) * (input - x)
  {
    if n > 0 {
      var y := Settle(x, alpha, input, n - 1);
      FilterClosedForm(x, alpha, input, n - 1);
      assert input - Filtered(y, alpha, input) == (1.0 - alpha) * (input - y);
    }
  }

  /** `n` steps of size alpha. */
  function Span(n: nat, alpha: real): real {
    n as real * alpha
  }

  // ---------------------------------------------------------------- settings and state

  datatype Policy = Vision | WheelTouch

  datatype Level = NoAlert | One | Two | Three

  /** Three timeouts of a policy. */
  datatype Timeouts = Timeouts(t1: real, t2: real, t3: real)
  {
    predicate Ordered() {
      0.0 < t1 < t2 < t3
    }

    function Threshold1(): real
      requires t3 != 0.0
    {
      1.0 - Over(t1, t3)
    }

    function Threshold2(): real
      requires t3 != 0.0
    {
      1.0 - Over(t2, t3)
    }
  }

  datatype Settings = Settings(vision: Timeouts, wheelTouch: Timeouts, dt: real, filterTs: real,
                               maxTerminalAlerts: int, maxTerminalDuration: int, hiStdFallback: int)
  {
    predicate Valid() {
      vision.Ordered() && wheelTouch.Ordered() && dt > 0.0 && filterTs > 0.0 && hiStdFallback > 0
    }

    function Of(p: Policy): Timeouts {
      if p == Vision then vision else wheelTouch
    }

    function StepOf(p: Policy): (r: real)
      requires Valid()
      ensures r > 0.0
    {
      OverIsPositive(dt, Of(p).t3);
      Over(dt, Of(p).t3)
    }

    function Alpha(): real
      requires Valid()
    {
      Over(dt, filterTs + dt)
    }
  }

  const RECOVERY_MAX: real := 5.0
  const RECOVERY_MIN: real := 1.25

  /** What a frame tells, the always-on setting in force included; a frame whose model output is incomplete leaves the driver state as it was. */
  datatype Frame = Frame(complete: bool, face: bool, lowStd: bool, distractedType: bool,
                         driverEngaged: bool, opEngaged: bool, standstill: bool, wrongGear: bool, alwaysOn: bool)

  /** The active counter with its step and thresholds, and the counters saved for each policy. */
  datatype Counter = Counter(awareness: real, lastVision: real, lastWheelTouch: real, policy: Policy, step: real,
                             threshold1: real, threshold2: real)

  /** What is known of the driver: the filtered distraction signal, the last frame and the model's uncertainty. */
  datatype Driver = Driver(filter: real, distracted: bool, face: bool, lowStd: bool, hiStds: int, uncertain: bool)

  datatype Verdict = Verdict(level: Level, terminalAlerts: int, terminalTime: int, tooDistracted: bool)

  datatype Monitor = Monitor(counter: Counter, driver: Driver, verdict: Verdict)

  // ---------------------------------------------------------------- the policy as functions

  function Reset(k: Counter): Counter {
    k.(awareness := 1.0, lastVision := 1.0, lastWheelTouch := 1.0)
  }

  /** The counters once `target` is active: it takes over its own saved one and the other policy's is put aside. */
  function Swapped(k: Counter, target: Policy): Counter {
    if k.policy == target then k
    else if target == Vision then k.(lastWheelTouch := k.awareness, awareness := k.lastVision, policy := Vision)
    else k.(lastVision := k.awareness, awareness := k.lastWheelTouch, policy := WheelTouch)
  }

  function WithPolicy(c: Settings, k: Counter, target: Policy): Counter
    requires c.Valid()
  {
    if k.policy == Vision && k.awareness <= k.threshold2 then
      k.(step := if target == Vision then c.StepOf(Vision) else 0.0)
    else if k.awareness <= 0.0 then k
    else
      Swapped(k, target).(threshold1 := c.Of(target).Threshold1(), threshold2 := c.Of(target).Threshold2(),
                          step := c.StepOf(target))
  }

  function Target(d: Driver): Policy {
    if d.face && !d.uncertain then Vision else WheelTouch
  }

  function Seen(c: Settings, d: Driver, f: Frame): Driver
    requires c.Valid()
  {
    var distracted := f.distractedType && f.face && f.lowStd;
    Driver(Filtered(d.filter, c.Alpha(), if distracted then 1.0 else 0.0), distracted, f.face, f.lowStd,
           if f.face && !f.lowStd && !distracted then d.hiStds + 1 else if f.face && f.lowStd then 0 else d.hiStds,
           d.hiStds >= c.hiStdFallback)
  }

  function Observed(c: Settings, m: Monitor, f: Frame): Monitor
    requires c.Valid()
  {
    if !f.complete then m
    else
      var d := Seen(c, m.driver, f);
      m.(driver := d, counter := WithPolicy(c, m.counter, Target(d)))
  }

  predicate AlwaysOnValid(f: Frame) {
    f.alwaysOn && !f.wrongGear
  }

  predicate Resets(k: Counter, f: Frame) {
    || (f.driverEngaged && k.awareness > 0.0 && k.policy == WheelTouch)
    || (!AlwaysOnValid(f) && !f.opEngaged)
    || (AlwaysOnValid(f) && !f.opEngaged && k.awareness <= 0.0)
  }

  predicate StandstillExempt(k: Counter, f: Frame) {
    f.standstill && k.awareness - k.step <= k.threshold1
  }

  predicate AlwaysOnExempt(k: Counter, f: Frame) {
    AlwaysOnValid(f) && !f.opEngaged && k.awareness - k.step <= 0.0
  }

  predicate Attentive(k: Counter, d: Driver, f: Frame) {
    k.awareness > 0.0 && ((d.filter < 0.37 && d.face && d.lowStd) || StandstillExempt(k, f))
  }

  function Recovered(a: real, step: real): real {
    var r := a + ((RECOVERY_MAX - RECOVERY_MIN) * (1.0 - a) + RECOVERY_MIN) * step;
    if r < 1.0 then r else 1.0
  }

  function Capped(a: real): real {
    if a < 1.0 then a else 1.0
  }

  function Restored(k: Counter): Counter {
    var a := Recovered(k.awareness, k.step);
    k.(awareness := a, lastWheelTouch := if a == 1.0 then Capped(k.lastWheelTouch + k.step) else k.lastWheelTouch)
  }

  predicate Distracted(d: Driver) {
    (d.filter > 0.63 && d.distracted && d.face) || d.uncertain || !d.face
  }

  function Drained(k: Counter): Counter {
    k.(awareness := if k.awareness - k.step > -0.1 then k.awareness - k.step else -0.1)
  }

  /** The counter after the update, without the verdict. */
  function Counted(k: Counter, d: Driver, f: Frame): Counter {
    if Resets(k, f) || (Attentive(k, d, f) && f.driverEngaged) then Reset(k)
    else
      var restored := if Attentive(k, d, f) then Restored(k) else k;
      if Attentive(k, d, f) && restored.awareness > k.threshold2 then restored
      else if Distracted(d) && !StandstillExempt(k, f) && !AlwaysOnExempt(k, f) then Drained(restored)
      else restored
  }

  /** The alert level is shown unless the counters were reset or awareness has recovered beyond the second threshold. */
  predicate Shown(k: Counter, d: Driver, f: Frame) {
    !Resets(k, f) && (Attentive(k, d, f) ==> !f.driverEngaged && Restored(k).awareness <= k.threshold2)
  }

  function LevelAt(k: Counter): Level {
    if k.awareness <= 0.0 then Three
    else if k.awareness <= k.threshold2 then Two
    else if k.awareness <= k.threshold1 then One
    else NoAlert
  }

  function Judged(c: Settings, m: Monitor, f: Frame): Monitor {
    var k := Counted(m.counter, m.driver, f);
    var level := if Shown(m.counter, m.driver, f) then LevelAt(k) else NoAlert;
    Monitor(k, m.driver,
            Verdict(level,
                    m.verdict.terminalAlerts + (if level == Three && m.counter.awareness > 0.0 then 1 else 0),
                    m.verdict.terminalTime + (if level == Three then 1 else 0),
                    m.verdict.tooDistracted || LimitReached(c, m.verdict)))
  }

  predicate LimitReached(c: Settings, v: Verdict) {
    v.terminalAlerts >= c.maxTerminalAlerts || v.terminalTime >= c.maxTerminalDuration
  }

  lemma JudgedCases(c: Settings, m: Monitor, f: Frame)
    ensures var (k, d, v) := (m.counter, m.driver, m.verdict);
            var late := v.tooDistracted || LimitReached(c, v);
            if Resets(k, f) || (Attentive(k, d, f) && f.driverEngaged)
            then Judged(c, m, f) == Monitor(Reset(k), d, Verdict(NoAlert, v.terminalAlerts, v.terminalTime, late))
            else
              var r := if Attentive(k, d, f) then Restored(k) else k;
              if Attentive(k, d, f) && r.awareness > k.threshold2
              then Judged(c, m, f) == Monitor(r, d, Verdict(NoAlert, v.terminalAlerts, v.terminalTime, late))
              else
                var n := if Distracted(d) && !StandstillExempt(k, f) && !AlwaysOnExempt(k, f) then Drained(r) else r;
                var level := LevelAt(n);
                Judged(c, m, f) == Monitor(n, d, Verdict(level,
                    v.terminalAlerts + (if level == Three && k.awareness > 0.0 then 1 else 0),
                    v.terminalTime + (if level == Three then 1 else 0), late))
  {
    hide Recovered, Resets, Attentive, Distracted, StandstillExempt, AlwaysOnExempt, LevelAt, LimitReached;
  }

  function Next(c: Settings, m: Monitor, f: Frame): Monitor
    requires c.Valid()
  {
    Judged(c, Observed(c, m, f), f)
  }

  function Run(c: Settings, m: Monitor, frames: seq<Frame>): Monitor
    requires c.Valid()
    decreases |frames|
  {
    if |frames| == 0 then m else Run(c, Next(c, m, frames[0]), frames[1..])
  }

  function Fresh(c: Settings, tooDistracted: bool): Monitor
    requires c.Valid()
  {
    Monitor(Counter(1.0, 1.0, 1.0, Vision, c.StepOf(Vision), c.vision.Threshold1(), c.vision.Threshold2()),
            Driver(0.0, false, false, true, 0, false), Verdict(NoAlert, 0, 0, tooDistracted))
  }

  // ---------------------------------------------------------------- the policy in place

  class DriverMonitor {
    const settings: Settings
    const filter: FirstOrderFilter
    var alertLevel: Level
    var driverDistracted: bool
    var faceDetected: bool
    var lowStd: bool
    var terminalAlertCnt: int
    var terminalTime: int
    var stepChange: real
    var activePolicy: Policy
    var isModelUncertain: bool
    var hiStds: int
    var threshold1: real
    var threshold2: real
    var tooDistracted: bool
    var awareness: real
    var lastVisionAwareness: real
    var lastWheelTouchAwareness: real

    ghost predicate Valid()
      reads this, filter
    {
      settings.Valid() && filter.initialized && filter.alpha == settings.Alpha()
    }

    function Counters(): Counter
      reads this
    {
      Counter(awareness, lastVisionAwareness, lastWheelTouchAwareness, activePolicy, stepChange, threshold1, threshold2)
    }

    function State(): Driver
      reads this, filter
    {
      Driver(filter.x, driverDistracted, faceDetected, lowStd, hiStds, isModelUncertain)
    }

    function Outcome(): Verdict
      reads this
    {
      Verdict(alertLevel, terminalAlertCnt, terminalTime, tooDistracted)
    }

    function Value(): Monitor
      reads this, filter
    {
      Monitor(Counters(), State(), Outcome())
    }

    constructor (settings: Settings, tooDistracted: bool)
      requires settings.Valid()
      ensures Valid() && fresh(filter) && this.settings == settings && Value() == Fresh(settings, tooDistracted)
    {
      this.settings := settings;
      filter := new FirstOrderFilter(0.0, settings.filterTs, settings.dt, true);
      alertLevel := NoAlert;
      driverDistracted, faceDetected, lowStd := false, false, true;
      terminalAlertCnt, terminalTime, stepChange := 0, 0, 0.0;
      activePolicy := Vision;
      isModelUncertain, hiStds := false, 0;
      threshold1, threshold2 := 0.0, 0.0;
      this.tooDistracted := tooDistracted;
      new;
      ResetAwareness();
      SetPolicy(Vision);
    }

    method ResetAwareness()
      modifies this`awareness, this`lastVisionAwareness, this`lastWheelTouchAwareness
      ensures Counters() == Reset(old(Counters())) && State() == old(State()) && Outcome() == old(Outcome())
    {
      awareness := 1.0;
      lastVisionAwareness := 1.0;
      lastWheelTouchAwareness := 1.0;
    }

    method SetPolicy(target: Policy)
      requires Valid()
      modifies this`awareness, this`lastVisionAwareness, this`lastWheelTouchAwareness, this`stepChange,
               this`threshold1, this`threshold2, this`activePolicy
      ensures Counters() == WithPolicy(settings, old(Counters()), target) && State() == old(State()) && Outcome() == old(Outcome())
    {
      hide Settings.Alpha;
      if activePolicy == Vision && awareness <= threshold2 {
        if target == Vision {
          stepChange := settings.dt / settings.vision.t3;
        } else {
          stepChange := 0.0;
        }
        return;
      } else if awareness <= 0.0 {
        return;
      }
      if target == Vision {
        if activePolicy != Vision {
          lastWheelTouchAwareness := awareness;
          awareness := lastVisionAwareness;
        }
        threshold1 := 1.0 - settings.vision.t1 / settings.vision.t3;
        threshold2 := 1.0 - settings.vision.t2 / settings.vision.t3;
        stepChange := settings.dt / settings.vision.t3;
        activePolicy := Vision;
      } else {
        if activePolicy == Vision {
          lastVisionAwareness := awareness;
          awareness := lastWheelTouchAwareness;
        }
        threshold1 := 1.0 - settings.wheelTouch.t1 / settings.wheelTouch.t3;
        threshold2 := 1.0 - settings.wheelTouch.t2 / settings.wheelTouch.t3;
        stepChange := settings.dt / settings.wheelTouch.t3;
        activePolicy := WheelTouch;
      }
    }

    method See(f: Frame)
      requires Valid()
      modifies this`faceDetected, this`lowStd, this`driverDistracted, this`isModelUncertain, filter`x, filter`initialized
      ensures filter.initialized && Counters() == old(Counters()) && Outcome() == old(Outcome())
      ensures State() == Seen(settings, old(State()), f).(hiStds := old(State()).hiStds)
      ensures faceDetected == State().face && isModelUncertain == State().uncertain
    {
      hide Filtered, Settings.Alpha, Settings.Valid;
      faceDetected := f.face;
      lowStd := f.lowStd;
      driverDistracted := f.distractedType && f.face && lowStd;
      var x := filter.Update(if driverDistracted then 1.0 else 0.0);
      isModelUncertain := hiStds >= settings.hiStdFallback;
    }

    method CountHiStds()
      modifies this`hiStds
      ensures var d := old(State());
              State() == d.(hiStds := if d.face && !d.lowStd && !d.distracted then d.hiStds + 1
                                      else if d.face && d.lowStd then 0 else d.hiStds)
      ensures Counters() == old(Counters()) && Outcome() == old(Outcome())
    {
      if faceDetected && !lowStd && !driverDistracted {
        hiStds := hiStds + 1;
      } else if faceDetected && lowStd {
        hiStds := 0;
      }
    }

    method UpdateStates(f: Frame)
      requires Valid()
      modifies this, filter
      ensures Valid() && Value() == Observed(settings, old(Value()), f)
    {
      hide WithPolicy, Filtered, Settings.Alpha, Settings.Valid, Counters, State, Outcome;
      if !f.complete {
        return;
      }
      See(f);
      SetPolicy(if faceDetected && !isModelUncertain then Vision else WheelTouch);
      CountHiStds();
    }

    method Restore()
      modifies this`awareness, this`lastWheelTouchAwareness
      ensures Counters() == Restored(old(Counters())) && State() == old(State()) && Outcome() == old(Outcome())
      ensures awareness == Counters().awareness && threshold2 == Counters().threshold2
    {
      awareness := Recovered(awareness, stepChange);
      if awareness == 1.0 {
        lastWheelTouchAwareness := Capped(lastWheelTouchAwareness + stepChange);
      }
    }

    method CheckLockout()
      modifies this`alertLevel, this`tooDistracted
      ensures var v := old(Outcome());
              Outcome() == Verdict(NoAlert, v.terminalAlerts, v.terminalTime, v.tooDistracted || LimitReached(settings, v))
      ensures Counters() == old(Counters()) && State() == old(State())
    {
      alertLevel := NoAlert;
      if terminalAlertCnt >= settings.maxTerminalAlerts || terminalTime >= settings.maxTerminalDuration {
        tooDistracted := true;
      }
    }

    method UpdateEvents(f: Frame)
      requires Valid()
      modifies this
      ensures Valid() && Value() == Judged(settings, old(Value()), f)
    {
      JudgedCases(settings, Value(), f);
      hide Judged, Counted, Shown, Reset, Recovered, LevelAt, Drained, Restored, Settings.Valid, Settings.Alpha, LimitReached;
      CheckLockout();
      var alwaysOnValid := f.alwaysOn && !f.wrongGear;
      var resets := (f.driverEngaged && awareness > 0.0 && activePolicy == WheelTouch)
                    || (!alwaysOnValid && !f.opEngaged)
                    || (alwaysOnValid && !f.opEngaged && awareness <= 0.0);
      var awarenessPrev := awareness;
      var reachingAlert1 := awareness - stepChange <= threshold1;
      var reachingAlert3 := awareness - stepChange <= 0.0;
      var standstillExemption := f.standstill && reachingAlert1;
      var alwaysOnExemption := alwaysOnValid && !f.opEngaged && reachingAlert3;
      var certainlyDistracted := filter.x > 0.63 && driverDistracted && faceDetected;
      var maybeDistracted := isModelUncertain || !faceDetected;
      var attentive := awareness > 0.0 && ((filter.x < 0.37 && faceDetected && lowStd) || standstillExemption);
      hide Counters, State, Outcome;
      if resets {
        ResetAwareness();
        return;
      }
      if attentive {
        if f.driverEngaged {
          ResetAwareness();
          return;
        }
        Restore();
        if awareness > threshold2 {
          return;
        }
      }
      CountDown(certainlyDistracted || maybeDistracted, standstillExemption || alwaysOnExemption, awarenessPrev);
    }

    method CountDown(distracted: bool, exempt: bool, awarenessPrev: real)
      requires Outcome().level == NoAlert
      modifies this`awareness, this`alertLevel, this`terminalTime, this`terminalAlertCnt
      ensures Counters() == if distracted && !exempt then Drained(old(Counters())) else old(Counters())
      ensures State() == old(State())
      ensures var (level, v) := (LevelAt(Counters()), old(Outcome()));
              Outcome() == Verdict(level, v.terminalAlerts + (if level == Three && awarenessPrev > 0.0 then 1 else 0),
                                   v.terminalTime + (if level == Three then 1 else 0), v.tooDistracted)
    {
      if distracted {
        if !exempt {
          awareness := if awareness - stepChange > -0.1 then awareness - stepChange else -0.1;
        }
      }
      if awareness <= 0.0 {
        alertLevel := Three;
        terminalTime := terminalTime + 1;
        if awarenessPrev > 0.0 {
          terminalAlertCnt := terminalAlertCnt + 1;
        }
      } else if awareness <= threshold2 {
        alertLevel := Two;
      } else if awareness <= threshold1 {
        alertLevel := One;
      }
    }

    method RunStep(f: Frame)
      requires Valid()
      modifies this, filter
      ensures Valid() && Value() == Next(settings, old(Value()), f)
    {
      hide Observed, Judged;
      UpdateStates(f);
      UpdateEvents(f);
    }
  }

  // ---------------------------------------------------------------- the invariant

  ghost predicate Inv(c: Settings, k: Counter) {
    && c.Valid()
    && -0.1 <= k.awareness <= 1.0
    && 0.0 < k.lastVision <= 1.0 && 0.0 < k.lastWheelTouch <= 1.0
    && k.threshold1 == c.Of(k.policy).Threshold1() && k.threshold2 == c.Of(k.policy).Threshold2()
    && (k.step == c.StepOf(k.policy) || k.step == 0.0)
  }

  lemma ThresholdsAreOrdered(t: Timeouts)
    requires t.Ordered()
    ensures 0.0 < t.Threshold2() < t.Threshold1() < 1.0
  {
    hide Over;
    OverTimes(t.t1, t.t3);
    OverTimes(t.t2, t.t3);
    QuotientsAreOrdered(t.t1, t.t2, t.t3, Over(t.t1, t.t3), Over(t.t2, t.t3));
  }

  lemma QuotientsAreOrdered(a: real, b: real, c: real, p: real, q: real)
    requires 0.0 < a < b < c && a == p * c && b == q * c
    ensures 0.0 < p < q < 1.0
  {
    CancelLess(0.0, p, c);
    CancelLess(p, q, c);
    CancelLess(q, 1.0, c);
  }

  lemma FreshIsInv(c: Settings, tooDistracted: bool)
    requires c.Valid()
    ensures Inv(c, Fresh(c, tooDistracted).counter)
  {
  }

  lemma PolicyKeepsInv(c: Settings, k: Counter, target: Policy)
    requires Inv(c, k)
    ensures Inv(c, WithPolicy(c, k, target))
  {
    ThresholdsAreOrdered(c.Of(k.policy));
    hide Timeouts.Threshold1, Timeouts.Threshold2, Settings.StepOf;
  }

  lemma RecoveryRises(a: real, step: real)
    requires a <= 1.0 && step >= 0.0
    ensures a <= Recovered(a, step) <= 1.0
    ensures Recovered(a, step) == 1.0 || Recovered(a, step) >= a + RECOVERY_MIN * step
  {
    assert (RECOVERY_MAX - RECOVERY_MIN) * (1.0 - a) * step >= 0.0;
  }

  lemma StepIsNatural(c: Settings, k: Counter)
    requires Inv(c, k)
    ensures k.step >= 0.0
  {
    hide Timeouts.Threshold1, Timeouts.Threshold2;
  }

  lemma CountedKeepsInv(c: Settings, k: Counter, d: Driver, f: Frame)
    requires Inv(c, k)
    ensures Inv(c, Counted(k, d, f))
  {
    StepIsNatural(c, k);
    RecoveryRises(k.awareness, k.step);
    hide Recovered, Timeouts.Threshold1, Timeouts.Threshold2, Settings.StepOf, Resets, StandstillExempt, AlwaysOnExempt,
         Distracted, Attentive;
  }

  lemma NextKeepsInv(c: Settings, m: Monitor, f: Frame)
    requires Inv(c, m.counter)
    ensures Inv(c, Next(c, m, f).counter)
  {
    assert c.Valid();
    hide Inv, WithPolicy, Counted, Shown, Seen;
    PolicyKeepsInv(c, m.counter, Target(Seen(c, m.driver, f)));
    CountedKeepsInv(c, Observed(c, m, f).counter, Observed(c, m, f).driver, f);
  }

  /** Over every run awareness stays in [-0.1, 1] and both saved counters in (0, 1]. */
  lemma {:induction false} RunKeepsInv(c: Settings, m: Monitor, frames: seq<Frame>)
    requires Inv(c, m.counter)
    ensures Inv(c, Run(c, m, frames).counter)
    decreases |frames|
  {
    if |frames| > 0 {
      NextKeepsInv(c, m, frames[0]);
      RunKeepsInv(c, Next(c, m, frames[0]), frames[1..]);
    }
  }

  // ---------------------------------------------------------------- policy switches and levels

  /** A change of policy alone never ends in a terminal alert, and never happens at or below orange under vision. */
  lemma SwitchIsSafe(c: Settings, k: Counter, target: Policy)
    requires Inv(c, k)
    ensures WithPolicy(c, k, target).awareness > 0.0 <==> k.awareness > 0.0
    ensures k.policy == Vision && k.awareness <= k.threshold2 ==>
      WithPolicy(c, k, target).policy == Vision && WithPolicy(c, k, target).awareness == k.awareness
    ensures k.awareness <= 0.0 ==> WithPolicy(c, k, target).policy == k.policy
  {
    ThresholdsAreOrdered(c.Of(k.policy));
    hide Timeouts.Threshold1, Timeouts.Threshold2, Settings.StepOf;
  }

  /** Whatever the frames, while vision awareness stays at or below orange the policy stays vision. */
  lemma {:induction false} NoExploitAfterOrange(c: Settings, m: Monitor, frames: seq<Frame>)
    requires Inv(c, m.counter) && m.counter.policy == Vision
    requires forall j :: 0 <= j < |frames| ==> Run(c, m, frames[..j]).counter.awareness <= c.vision.Threshold2()
    ensures Run(c, m, frames).counter.policy == Vision
    decreases |frames|
  {
    if |frames| > 0 {
      assert frames[..0] == [];
      var next := Next(c, m, frames[0]);
      SwitchIsSafe(c, m.counter, Target(Seen(c, m.driver, frames[0])));
      NextKeepsInv(c, m, frames[0]);
      assert next.counter.policy == Vision by { CountedKeepsPolicy(c, Observed(c, m, frames[0]), frames[0]); }
      forall j | 0 <= j < |frames| - 1 ensures Run(c, next, frames[1..][..j]).counter.awareness <= c.vision.Threshold2() {
        assert frames[..j + 1][1..] == frames[1..][..j];
        assert Run(c, m, frames[..j + 1]) == Run(c, next, frames[1..][..j]);
      }
      NoExploitAfterOrange(c, next, frames[1..]);
    }
  }

  lemma CountedKeepsPolicy(c: Settings, m: Monitor, f: Frame)
    ensures Judged(c, m, f).counter.policy == m.counter.policy
  {
    hide Recovered, Resets, StandstillExempt, AlwaysOnExempt, Distracted, Attentive, Shown;
  }

  /** Level three only while engaged. */
  lemma TerminalMeansEngaged(c: Settings, m: Monitor, f: Frame)
    requires Inv(c, m.counter) && Next(c, m, f).verdict.level == Three
    ensures f.opEngaged
  {
    var k := Observed(c, m, f).counter;
    PolicyKeepsInv(c, m.counter, Target(Seen(c, m.driver, f)));
    StepIsNatural(c, k);
    RecoveryRises(k.awareness, k.step);
    hide Recovered, Observed, Timeouts.Threshold1, Timeouts.Threshold2, Settings.StepOf;
  }

  // ---------------------------------------------------------------- terminal counts and lockout as history

  /** Frames in which awareness falls from above zero to zero or below. */
  function Crossings(c: Settings, m: Monitor, frames: seq<Frame>): int
    requires c.Valid()
    decreases |frames|
  {
    if |frames| == 0 then 0
    else
      var next := Next(c, m, frames[0]);
      (if m.counter.awareness > 0.0 >= next.counter.awareness then 1 else 0) + Crossings(c, next, frames[1..])
  }

  function TerminalFrames(c: Settings, m: Monitor, frames: seq<Frame>): int
    requires c.Valid()
    decreases |frames|
  {
    if |frames| == 0 then 0
    else
      var next := Next(c, m, frames[0]);
      (if next.verdict.level == Three then 1 else 0) + TerminalFrames(c, next, frames[1..])
  }

  lemma JudgedCounts(c: Settings, m: Monitor, f: Frame)
    requires Inv(c, m.counter)
    ensures var r := Judged(c, m, f);
            && r.verdict.terminalAlerts == m.verdict.terminalAlerts + (if m.counter.awareness > 0.0 >= r.counter.awareness then 1 else 0)
            && r.verdict.terminalTime == m.verdict.terminalTime + (if r.verdict.level == Three then 1 else 0)
  {
    ThresholdsAreOrdered(c.Of(m.counter.policy));
    hide Recovered, Resets, StandstillExempt, AlwaysOnExempt, Distracted, Attentive, Timeouts.Threshold1, Timeouts.Threshold2;
  }

  /** The terminal count is the number of downward zero crossings, the terminal time the number of level-three frames. */
  lemma {:induction false} CountsAreHistory(c: Settings, m: Monitor, frames: seq<Frame>)
    requires Inv(c, m.counter)
    ensures var r := Run(c, m, frames);
            && r.verdict.terminalAlerts == m.verdict.terminalAlerts + Crossings(c, m, frames)
            && r.verdict.terminalTime == m.verdict.terminalTime + TerminalFrames(c, m, frames)
    decreases |frames|
  {
    if |frames| > 0 {
      var f := frames[0];
      NextKeepsInv(c, m, f);
      SwitchIsSafe(c, m.counter, Target(Seen(c, m.driver, f)));
      PolicyKeepsInv(c, m.counter, Target(Seen(c, m.driver, f)));
      JudgedCounts(c, Observed(c, m, f), f);
      hide Judged, Inv, WithPolicy, Seen;
      CountsAreHistory(c, Next(c, m, f), frames[1..]);
    }
  }

  lemma LockoutStep(c: Settings, m: Monitor, f: Frame)
    requires c.Valid()
    ensures Next(c, m, f).verdict.tooDistracted <==> m.verdict.tooDistracted || LimitReached(c, m.verdict)
  {
    hide Counted, Shown, LevelAt, LimitReached, WithPolicy;
  }

  /** Lockout is set exactly when it was set before or some earlier frame left one of the limits reached; it never clears. */
  lemma {:induction false} LockoutIsHistory(c: Settings, m: Monitor, frames: seq<Frame>)
    requires c.Valid()
    ensures Run(c, m, frames).verdict.tooDistracted
      <==> m.verdict.tooDistracted || exists j :: 0 <= j < |frames| && LimitReached(c, Run(c, m, frames[..j]).verdict)
    decreases |frames|
  {
    if |frames| > 0 {
      var next := Next(c, m, frames[0]);
      var rest := frames[1..];
      LockoutStep(c, m, frames[0]);
      LockoutIsHistory(c, next, rest);
      assert frames[..0] == [];
      assert Run(c, m, frames[..0]) == m;
      hide Next, LimitReached;
      forall j | 0 <= j < |rest| ensures Run(c, next, rest[..j]) == Run(c, m, frames[..j + 1]) {
        assert frames[..j + 1][1..] == rest[..j];
      }
      if j :| 0 <= j < |frames| && LimitReached(c, Run(c, m, frames[..j]).verdict) {
        assert j > 0 ==> Run(c, next, rest[..j - 1]) == Run(c, m, frames[..j - 1 + 1]);
      }
      if j :| 0 <= j < |rest| && LimitReached(c, Run(c, next, rest[..j]).verdict) {
        assert LimitReached(c, Run(c, m, frames[..j + 1]).verdict);
      }
    }
  }

  // ---------------------------------------------------------------- deadlines

  /** Awareness after `n` counted frames from full. */
  function AwarenessAfter(c: Settings, p: Policy, n: nat): real
    requires c.Valid()
  {
    var a := 1.0 - n as real * c.StepOf(p);
    if a > -0.1 then a else -0.1
  }

  /** The level due after `n` frames: each level from the first frame at or after its own timeout. */
  function LevelDue(c: Settings, p: Policy, n: nat): Level {
    var t := n as real * c.dt;
    if t >= c.Of(p).t3 then Three else if t >= c.Of(p).t2 then Two else if t >= c.Of(p).t1 then One else NoAlert
  }

  lemma ScaleCompare(n: real, s: real, u: real, dt: real, t: real, t3: real)
    requires t3 > 0.0 && s * t3 == dt && u * t3 == t
    ensures n * s >= u <==> n * dt >= t
  {
    assert (n * s - u) * t3 == n * dt - t;
    if n * s >= u {
      assert (n * s - u) * t3 >= 0.0;
    } else {
      assert (u - n * s) * t3 > 0.0;
    }
  }

  lemma AwarenessDef(c: Settings, p: Policy, n: nat)
    requires c.Valid()
    ensures c.Of(p).Ordered()
    ensures var a := 1.0 - Span(n, Over(c.dt, c.Of(p).t3)); AwarenessAfter(c, p, n) == if a > -0.1 then a else -0.1
  {
    hide Over;
  }

  lemma InvThresholds(c: Settings, k: Counter)
    requires Inv(c, k)
    ensures var t := c.Of(k.policy);
            && c.Valid() && t.Ordered() && 0.0 < t.t3
            && k.threshold1 == 1.0 - Over(t.t1, t.t3) && k.threshold2 == 1.0 - Over(t.t2, t.t3)
            && 0.0 < k.threshold2 < k.threshold1
  {
    ThresholdsAreOrdered(c.Of(k.policy));
    hide Over;
  }

  lemma LevelDueDef(c: Settings, p: Policy, n: nat)
    ensures var (t, x) := (c.Of(p), Span(n, c.dt));
            LevelDue(c, p, n) == if x >= t.t3 then Three else if x >= t.t2 then Two else if x >= t.t1 then One else NoAlert
  {
  }

  lemma LevelsMatch(c: Settings, k: Counter, n: nat)
    requires Inv(c, k) && k.awareness == AwarenessAfter(c, k.policy, n)
    ensures LevelAt(k) == LevelDue(c, k.policy, n)
  {
    hide Over, LevelAt, Inv, AwarenessAfter, Settings.Of, Settings.Valid, Timeouts.Ordered, LevelDue, Span;
    LevelDueDef(c, k.policy, n);
    var t := c.Of(k.policy);
    InvThresholds(c, k);
    AwarenessDef(c, k.policy, n);
    OverTimes(c.dt, t.t3);
    OverTimes(t.t1, t.t3);
    OverTimes(t.t2, t.t3);
    LevelsScalar(k, n, Over(c.dt, t.t3), c.dt, t, Over(t.t1, t.t3), Over(t.t2, t.t3));
  }

  lemma LevelsScalar(k: Counter, n: nat, s: real, dt: real, t: Timeouts, u1: real, u2: real)
    requires t.Ordered() && s * t.t3 == dt && u2 * t.t3 == t.t2 && u1 * t.t3 == t.t1
    requires k.threshold1 == 1.0 - u1 && k.threshold2 == 1.0 - u2
    requires var a := 1.0 - Span(n, s); k.awareness == if a > -0.1 then a else -0.1
    requires 0.0 < k.threshold2 < k.threshold1
    ensures LevelAt(k) == if Span(n, dt) >= t.t3 then Three else if Span(n, dt) >= t.t2 then Two else if Span(n, dt) >= t.t1 then One else NoAlert
  {
    ScaleCompare(n as real, s, 1.0, dt, t.t3, t.t3);
    ScaleCompare(n as real, s, u2, dt, t.t2, t.t3);
    ScaleCompare(n as real, s, u1, dt, t.t1, t.t3);
  }

  /** A frame that counts against the driver under the policy `p`. */
  predicate CountsUnder(p: Policy, f: Frame) {
    && f.complete && f.opEngaged && !f.standstill && !f.driverEngaged
    && if p == Vision then f.face && f.lowStd && f.distractedType else !f.face
  }

  /** The policy `p` is held and, under vision, the filter has seen the distraction. */
  ghost predicate Held(c: Settings, p: Policy, m: Monitor) {
    && Inv(c, m.counter) && m.counter.policy == p
    && (p == Vision ==> 0.63 <= m.driver.filter <= 1.0 && m.driver.hiStds < c.hiStdFallback)
  }

  lemma AlphaIsFraction(c: Settings)
    requires c.Valid()
    ensures 0.0 < c.Alpha() < 1.0
  {
    hide Over;
    var a := c.Alpha();
    OverTimes(c.dt, c.filterTs + c.dt);
    CancelLess(0.0, a, c.filterTs + c.dt);
    CancelLess(a, 1.0, c.filterTs + c.dt);
  }

  lemma FilterRises(x: real, alpha: real)
    requires 0.63 <= x <= 1.0 && 0.0 < alpha < 1.0
    ensures 0.63 < Filtered(x, alpha, 1.0) <= 1.0
  {
    assert Filtered(x, alpha, 1.0) == x + alpha * (1.0 - x);
    assert (1.0 - alpha) * (1.0 - x) == (1.0 - x) - alpha * (1.0 - x);
    hide Filtered;
    ProductNotNegative(alpha, 1.0 - x);
    ProductNotNegative(1.0 - alpha, 1.0 - x);
  }

  lemma SeenDistracted(c: Settings, p: Policy, m: Monitor, f: Frame)
    requires Held(c, p, m) && CountsUnder(p, f)
    ensures var d := Seen(c, m.driver, f);
            && Target(d) == p && Distracted(d) && !(d.filter < 0.37 && d.face)
            && (p == Vision ==> 0.63 < d.filter <= 1.0 && d.hiStds < c.hiStdFallback)
  {
    if p == Vision {
      AlphaIsFraction(c);
      FilterRises(m.driver.filter, c.Alpha());
    }
    hide Filtered, Settings.Alpha;
  }

  lemma PolicyHeld(c: Settings, k: Counter)
    requires Inv(c, k)
    ensures WithPolicy(c, k, k.policy) == k.(step := if k.policy == WheelTouch && k.awareness <= 0.0 then k.step else c.StepOf(k.policy))
  {
    ThresholdsAreOrdered(c.Of(k.policy));
    hide Settings.StepOf, Timeouts.Threshold1, Timeouts.Threshold2;
  }

  lemma DrainedAfter(c: Settings, p: Policy, a: real, n: nat)
    requires c.Valid() && a == AwarenessAfter(c, p, n)
    ensures AwarenessAfter(c, p, n + 1) == if a - c.StepOf(p) > -0.1 then a - c.StepOf(p) else -0.1
  {
    assert (n + 1) as real * c.StepOf(p) == n as real * c.StepOf(p) + c.StepOf(p);
    hide Settings.StepOf;
  }

  lemma CountedDrains(c: Settings, m: Monitor, f: Frame)
    requires f.opEngaged && !f.standstill && !f.driverEngaged
    requires Distracted(m.driver) && !(m.driver.filter < 0.37 && m.driver.face)
    ensures Judged(c, m, f).counter == Drained(m.counter) && Judged(c, m, f).verdict.level == LevelAt(Drained(m.counter))
    ensures Judged(c, m, f).driver == m.driver
  {
    hide Distracted, Restored, LevelAt, LimitReached, Drained;
  }

  lemma CountsOne(c: Settings, p: Policy, m: Monitor, f: Frame, n: nat)
    requires Held(c, p, m) && CountsUnder(p, f) && m.counter.awareness == AwarenessAfter(c, p, n)
    requires n > 0 ==> m.counter.step == c.StepOf(p)
    ensures var r := Next(c, m, f);
            && Held(c, p, r) && r.counter.step == c.StepOf(p) && r.counter.awareness == AwarenessAfter(c, p, n + 1)
            && r.verdict.level == LevelDue(c, p, n + 1)
  {
    NextKeepsInv(c, m, f);
    SeenDistracted(c, p, m, f);
    PolicyHeld(c, m.counter);
    DrainedAfter(c, p, m.counter.awareness, n);
    CountedDrains(c, Observed(c, m, f), f);
    var r := Next(c, m, f).counter;
    assert n == 0 ==> m.counter.awareness == 1.0;
    hide Settings.StepOf, Judged, LevelDue, Timeouts.Threshold1, Timeouts.Threshold2, WithPolicy, Seen, Target, Distracted,
         LevelAt, AwarenessAfter;
    LevelsMatch(c, r, n + 1);
  }

  /**
   Alert deadlines are exact. With a policy held, engaged, moving and continuously distracted under it, from full
   awareness, the level shown after the n-th frame is the one due at time n dt: each level first appears in the first
   frame at or after its timeout.
   */
  lemma {:induction false} DeadlinesAreExact(c: Settings, p: Policy, m: Monitor, frames: seq<Frame>, n: nat)
    requires Held(c, p, m) && m.counter.awareness == AwarenessAfter(c, p, n)
    requires n > 0 ==> m.counter.step == c.StepOf(p) && m.verdict.level == LevelDue(c, p, n)
    requires forall j :: 0 <= j < |frames| ==> CountsUnder(p, frames[j])
    ensures var r := Run(c, m, frames);
            && r.counter.awareness == AwarenessAfter(c, p, n + |frames|)
            && (n + |frames| > 0 ==> r.verdict.level == LevelDue(c, p, n + |frames|))
    decreases |frames|
  {
    if |frames| > 0 {
      CountsOne(c, p, m, frames[0], n);
      hide Next, Held, AwarenessAfter, LevelDue, CountsUnder;
      DeadlinesAreExact(c, p, Next(c, m, frames[0]), frames[1..], n + 1);
    }
  }

  /** Bernoulli's inequality in the form needed here. */
  lemma {:induction false} PowShrinks(alpha: real, n: nat)
    requires 0.0 <= alpha <= 1.0
    ensures 0.0 <= Pow(1.0 - alpha, n) && Pow(1.0 - alpha, n) * (1.0 + n as real * alpha) <= 1.0
  {
    if n > 0 {
      PowShrinks(alpha, n - 1);
      var (b, p, m) := (1.0 - alpha, Pow(1.0 - alpha, n - 1), (n - 1) as real * alpha);
      assert n as real * alpha == m + alpha;
      assert m >= 0.0;
      Shrink(b, p, m, alpha);
    }
  }

  lemma Shrink(b: real, p: real, m: real, alpha: real)
    requires b == 1.0 - alpha && 0.0 <= alpha <= 1.0 && p >= 0.0 && m >= 0.0 && p * (1.0 + m) <= 1.0
    ensures b * p >= 0.0 && (b * p) * (1.0 + (m + alpha)) <= 1.0
  {
    assert b * (1.0 + (m + alpha)) == 1.0 + m - alpha * (m + alpha);
    assert alpha * (m + alpha) >= 0.0;
    assert p * (alpha * (m + alpha)) >= 0.0;
    assert (b * p) * (1.0 + (m + alpha)) == p * (1.0 + m) - p * (alpha * (m + alpha));
  }

  /** A lasting distraction is noticed in bounded time: the filter passes 0.63 within 2 / alpha frames. */
  lemma DistractionIsNoticed(x: real, alpha: real, n: nat)
    requires 0.0 <= x <= 1.0 && 0.0 < alpha < 1.0 && Span(n, alpha) >= 2.0
    ensures Settle(x, alpha, 1.0, n) > 0.63
  {
    assert n as real * alpha >= 2.0;
    hide *;
    FilterClosedForm(x, alpha, 1.0, n);
    PowShrinks(alpha, n);
    Noticed(Pow(1.0 - alpha, n), x, n as real, alpha, Settle(x, alpha, 1.0, n));
  }

  lemma Noticed(p: real, x: real, n: real, alpha: real, y: real)
    requires 0.0 <= p && p * (1.0 + n * alpha) <= 1.0 && n * alpha >= 2.0 && 0.0 <= x <= 1.0
    requires 1.0 - y == p * (1.0 - x)
    ensures y > 0.63
  {
    ProductNotNegative(p, n * alpha - 2.0);
    assert p * (1.0 + n * alpha) == 3.0 * p + p * (n * alpha - 2.0);
    ProductNotNegative(p, x);
  }

  // ---------------------------------------------------------------- deadlines from rest

  /** Nothing is counted against the driver: all counters are full. */
  ghost predicate Rested(c: Settings, m: Monitor) {
    && Inv(c, m.counter) && m.counter.awareness == m.counter.lastVision == m.counter.lastWheelTouch == 1.0
    && 0.0 <= m.driver.filter <= 1.0
  }

  lemma FreshIsRested(c: Settings, tooDistracted: bool)
    requires c.Valid()
    ensures Rested(c, Fresh(c, tooDistracted)) && Fresh(c, tooDistracted).driver.hiStds < c.hiStdFallback
  {
    FreshIsInv(c, tooDistracted);
  }

  /** A change of policy at rest takes over full counters. */
  lemma RestedSwitch(c: Settings, k: Counter, target: Policy)
    requires Inv(c, k) && k.awareness == k.lastVision == k.lastWheelTouch == 1.0
    ensures var r := WithPolicy(c, k, target);
            && r.policy == target && r.step == c.StepOf(target) && r.awareness == r.lastVision == r.lastWheelTouch == 1.0
  {
    ThresholdsAreOrdered(c.Of(k.policy));
    hide Settings.StepOf, Timeouts.Threshold1, Timeouts.Threshold2;
  }

  /** One counted frame from a full counter, whichever policy was active before. */
  lemma FirstCounted(c: Settings, p: Policy, m: Monitor, f: Frame)
    requires Rested(c, m) && f.complete && f.opEngaged && !f.standstill && !f.driverEngaged
    requires var d := Seen(c, m.driver, f); Target(d) == p && Distracted(d) && !(d.filter < 0.37 && d.face)
    ensures var r := Next(c, m, f);
            && Inv(c, r.counter) && r.counter.policy == p && r.counter.step == c.StepOf(p)
            && r.counter.awareness == AwarenessAfter(c, p, 1) && r.verdict.level == LevelDue(c, p, 1)
            && r.driver == Seen(c, m.driver, f)
  {
    NextKeepsInv(c, m, f);
    RestedSwitch(c, m.counter, p);
    assert AwarenessAfter(c, p, 0) == 1.0 by { hide Settings.StepOf; }
    DrainedAfter(c, p, 1.0, 0);
    CountedDrains(c, Observed(c, m, f), f);
    hide Settings.StepOf, Judged, LevelDue, Timeouts.Threshold1, Timeouts.Threshold2, WithPolicy, Seen, Target, Distracted,
         LevelAt, AwarenessAfter;
    LevelsMatch(c, Next(c, m, f).counter, 1);
  }

  /** From rest under either policy, frames without a face show after n of them the wheel-touch level due at n dt. */
  lemma FacelessDeadlines(c: Settings, m: Monitor, frames: seq<Frame>)
    requires Rested(c, m) && forall j :: 0 <= j < |frames| ==> CountsUnder(WheelTouch, frames[j])
    ensures var r := Run(c, m, frames);
            && r.counter.awareness == AwarenessAfter(c, WheelTouch, |frames|)
            && (|frames| > 0 ==> r.verdict.level == LevelDue(c, WheelTouch, |frames|))
  {
    if |frames| > 0 {
      FirstCounted(c, WheelTouch, m, frames[0]);
      hide Next, Rested, AwarenessAfter, LevelDue, CountsUnder, Seen;
      DeadlinesAreExact(c, WheelTouch, Next(c, m, frames[0]), frames[1..], 1);
    } else {
      hide Settings.StepOf;
    }
  }

  /** Under a lasting distraction the filter is at most 0.63 after each of the next `k` frames and above it after one more. */
  predicate NoticedAfter(x: real, alpha: real, k: nat)
    decreases k
  {
    var y := Filtered(x, alpha, 1.0);
    if k == 0 then y > 0.63 else y <= 0.63 && NoticedAfter(y, alpha, k - 1)
  }

  lemma {:induction false} SettleShifts(x: real, alpha: real, n: nat)
    ensures Settle(x, alpha, 1.0, n + 1) == Settle(Filtered(x, alpha, 1.0), alpha, 1.0, n)
  {
    hide Filtered;
    if n > 0 {
      SettleShifts(x, alpha, n - 1);
    }
  }

  lemma {:induction false} NoticedBefore(x: real, alpha: real, n: nat) returns (k: nat)
    requires n > 0 && Settle(x, alpha, 1.0, n) > 0.63
    ensures k < n && NoticedAfter(x, alpha, k)
    decreases n
  {
    var y := Filtered(x, alpha, 1.0);
    SettleShifts(x, alpha, n - 1);
    if y > 0.63 {
      k := 0;
    } else {
      hide Filtered;
      k := NoticedBefore(y, alpha, n - 1);
      k := k + 1;
    }
  }

  /** There is such a k, with k alpha below two. */
  lemma NoticeTime(x: real, alpha: real) returns (k: nat)
    requires 0.0 <= x <= 1.0 && 0.0 < alpha < 1.0
    ensures NoticedAfter(x, alpha, k) && Span(k, alpha) < 2.0
  {
    hide *;
    var n := FirstMultiple(alpha);
    DistractionIsNoticed(x, alpha, n);
    k := NoticedBefore(x, alpha, n);
    SpanGrows(k, n - 1, alpha);
  }

  lemma SpanGrows(a: nat, b: nat, alpha: real)
    requires a <= b && alpha > 0.0
    ensures Span(a, alpha) <= Span(b, alpha)
  {
    Scaled(a as real, b as real, alpha);
  }

  lemma SpanAgainst(n: nat, q: real, alpha: real)
    requires alpha > 0.0 && q * alpha == 2.0
    ensures Span(n, alpha) >= 2.0 <==> n as real >= q
  {
    if n as real >= q {
      Scaled(q, n as real, alpha);
    } else {
      Scaled(n as real, q, alpha);
    }
  }

  lemma Scaled(a: real, b: real, alpha: real)
    requires a <= b && alpha > 0.0
    ensures a * alpha <= b * alpha && (a < b ==> a * alpha < b * alpha)
  {
    ProductNotNegative(b - a, alpha);
  }

  lemma FirstMultiple(alpha: real) returns (n: nat)
    requires 0.0 < alpha
    ensures n > 0 && Span(n, alpha) >= 2.0 && Span(n - 1, alpha) < 2.0
  {
    hide Over, Span;
    var q := Over(2.0, alpha);
    OverTimes(2.0, alpha);
    OverIsPositive(2.0, alpha);
    n := if q.Floor as real == q then q.Floor else q.Floor + 1;
    SpanAgainst(n, q, alpha);
    SpanAgainst(n - 1, q, alpha);
  }

  lemma FilterStays(x: real, alpha: real)
    requires 0.0 <= x <= 1.0 && 0.0 < alpha < 1.0
    ensures 0.0 <= Filtered(x, alpha, 1.0) <= 1.0
  {
    ProductNotNegative(1.0 - alpha, x);
    ProductNotNegative(1.0 - alpha, 1.0 - x);
    assert (1.0 - alpha) * (1.0 - x) == (1.0 - alpha) - (1.0 - alpha) * x;
  }

  /** While the filter has not noticed, a distracted frame leaves a rested driver rested and shows nothing. */
  lemma UnnoticedFrame(c: Settings, m: Monitor, f: Frame)
    requires Rested(c, m) && m.driver.hiStds < c.hiStdFallback && CountsUnder(Vision, f)
    requires Filtered(m.driver.filter, c.Alpha(), 1.0) <= 0.63
    ensures var r := Next(c, m, f);
            && Rested(c, r) && r.driver.hiStds < c.hiStdFallback && r.counter.policy == Vision && r.verdict.level == NoAlert
            && r.driver.filter == Filtered(m.driver.filter, c.Alpha(), 1.0)
  {
    NextKeepsInv(c, m, f);
    AlphaIsFraction(c);
    FilterStays(m.driver.filter, c.Alpha());
    RestedSwitch(c, m.counter, Vision);
    PolicyKeepsInv(c, m.counter, Vision);
    hide Filtered, Settings.Alpha, Settings.StepOf, WithPolicy;
    var o := Observed(c, m, f);
    assert o.driver == Seen(c, m.driver, f) && Target(o.driver) == Vision && !Distracted(o.driver);
    ThresholdsAreOrdered(c.vision);
    RestedFrame(c, o, f);
  }

  lemma RestedFrame(c: Settings, m: Monitor, f: Frame)
    requires Inv(c, m.counter) && m.counter.policy == Vision && m.counter.awareness == m.counter.lastVision == m.counter.lastWheelTouch == 1.0
    requires f.opEngaged && !f.standstill && !f.driverEngaged && !Distracted(m.driver)
    ensures var r := Judged(c, m, f);
            && r.counter.awareness == r.counter.lastVision == r.counter.lastWheelTouch == 1.0
            && r.counter.policy == Vision && r.driver == m.driver && r.verdict.level == NoAlert
  {
    ThresholdsAreOrdered(c.vision);
    StepIsNatural(c, m.counter);
    FullStaysFull(m.counter.step);
    hide Recovered, Timeouts.Threshold1, Timeouts.Threshold2, Settings.StepOf, Distracted;
  }

  /**
   From rest, distracted frames first leave awareness full: k of them, with k alpha below two, until the filter notices;
   from then on the level shown is the vision level due.
   */
  lemma {:induction false} DistractedDeadlines(c: Settings, m: Monitor, frames: seq<Frame>, k: nat)
    requires Rested(c, m) && m.driver.hiStds < c.hiStdFallback && NoticedAfter(m.driver.filter, c.Alpha(), k)
    requires forall j :: 0 <= j < |frames| ==> CountsUnder(Vision, frames[j])
    ensures var (r, n) := (Run(c, m, frames), |frames|);
            && r.counter.awareness == AwarenessAfter(c, Vision, if n <= k then 0 else n - k)
            && (n > 0 ==> r.verdict.level == if n <= k then NoAlert else LevelDue(c, Vision, n - k))
    decreases |frames|
  {
    assert AwarenessAfter(c, Vision, 0) == 1.0 by { hide Settings.StepOf; }
    if |frames| > 0 {
      var next := Next(c, m, frames[0]);
      if k == 0 {
        NoticedFrame(c, m, frames[0]);
        hide Next, Rested, AwarenessAfter, LevelDue, CountsUnder, Seen, Filtered;
        DeadlinesAreExact(c, Vision, next, frames[1..], 1);
      } else {
        UnnoticedFrame(c, m, frames[0]);
        hide Next, Rested, AwarenessAfter, LevelDue, CountsUnder, Seen, Filtered;
        DistractedDeadlines(c, next, frames[1..], k - 1);
      }
    }
  }

  lemma NoticedFrame(c: Settings, m: Monitor, f: Frame)
    requires Rested(c, m) && m.driver.hiStds < c.hiStdFallback && CountsUnder(Vision, f)
    requires Filtered(m.driver.filter, c.Alpha(), 1.0) > 0.63
    ensures var r := Next(c, m, f);
            && Held(c, Vision, r) && r.counter.step == c.StepOf(Vision)
            && r.counter.awareness == AwarenessAfter(c, Vision, 1) && r.verdict.level == LevelDue(c, Vision, 1)
  {
    AlphaIsFraction(c);
    FilterStays(m.driver.filter, c.Alpha());
    hide Filtered, Settings.Alpha, AwarenessAfter, LevelDue, Next;
    FirstCounted(c, Vision, m, f);
  }

  lemma RestedFilter(c: Settings, m: Monitor)
    requires Rested(c, m)
    ensures 0.0 <= m.driver.filter <= 1.0
  {
  }

  /** The end-to-end statement for a distracted driver from a fresh start. */
  lemma FreshDistractedDeadlines(c: Settings, tooDistracted: bool, frames: seq<Frame>) returns (k: nat)
    requires c.Valid() && forall j :: 0 <= j < |frames| ==> CountsUnder(Vision, frames[j])
    ensures Span(k, c.Alpha()) < 2.0
    ensures var (r, n) := (Run(c, Fresh(c, tooDistracted), frames), |frames|);
            && r.counter.awareness == AwarenessAfter(c, Vision, if n <= k then 0 else n - k)
            && (n > 0 ==> r.verdict.level == if n <= k then NoAlert else LevelDue(c, Vision, n - k))
  {
    hide *;
    FreshIsRested(c, tooDistracted);
    RestedFilter(c, Fresh(c, tooDistracted));
    AlphaIsFraction(c);
    k := NoticeTime(Fresh(c, tooDistracted).driver.filter, c.Alpha());
    DistractedDeadlines(c, Fresh(c, tooDistracted), frames, k);
  }

  // ---------------------------------------------------------------- at orange under vision

  ghost predicate AtOrange(c: Settings, m: Monitor) {
    Inv(c, m.counter) && m.counter.policy == Vision && m.counter.awareness <= c.vision.Threshold2()
  }

  predicate Moving(f: Frame) {
    f.complete && f.opEngaged && !f.standstill && !f.driverEngaged
  }

  /** The frame counts: a visible face of low deviation, judged distracted, noticed by the filter, the model certain. */
  predicate CountsAtOrange(c: Settings, m: Monitor, f: Frame)
    requires c.Valid()
  {
    f.face && f.lowStd && f.distractedType && Seen(c, m.driver, f).filter > 0.63 && m.driver.hiStds < c.hiStdFallback
  }

  /** The frame restores: a visible face of low deviation, the filter low, the model certain, no terminal alert. */
  predicate RestoresAtOrange(c: Settings, m: Monitor, f: Frame)
    requires c.Valid()
  {
    m.counter.awareness > 0.0 && f.face && f.lowStd && Seen(c, m.driver, f).filter < 0.37 && m.driver.hiStds < c.hiStdFallback
  }

  lemma OrangePolicy(c: Settings, k: Counter, d: Driver)
    requires Inv(c, k) && k.policy == Vision && k.awareness <= c.vision.Threshold2()
    ensures WithPolicy(c, k, Target(d)) == k.(step := if d.face && !d.uncertain then c.StepOf(Vision) else 0.0)
  {
    hide Settings.StepOf, Timeouts.Threshold2, Timeouts.Threshold1;
  }

  /** What one frame does at orange under vision: count, restore, or nothing. */
  lemma OrangeStep(c: Settings, m: Monitor, f: Frame)
    requires AtOrange(c, m) && Moving(f)
    ensures var (a, r) := (m.counter.awareness, Next(c, m, f));
            && r.counter.policy == Vision
            && r.counter.awareness == (if CountsAtOrange(c, m, f) then (if a - c.StepOf(Vision) > -0.1 then a - c.StepOf(Vision) else -0.1)
                                       else if RestoresAtOrange(c, m, f) then Recovered(a, c.StepOf(Vision)) else a)
            && (!RestoresAtOrange(c, m, f) ==> r.verdict.level == if r.counter.awareness <= 0.0 then Three else Two)
  {
    var d := Seen(c, m.driver, f);
    OrangePolicy(c, m.counter, d);
    NothingRecovered(m.counter.awareness);
    hide Settings.StepOf, Timeouts.Threshold1, Timeouts.Threshold2, WithPolicy, Filtered, Settings.Alpha, Recovered;
    var o := Observed(c, m, f);
    assert o.driver == d && o.counter == m.counter.(step := if d.face && !d.uncertain then c.StepOf(Vision) else 0.0);
    JudgedCases(c, o, f);
  }

  lemma NothingRecovered(a: real)
    ensures a <= 1.0 ==> Recovered(a, 0.0) == a
  {
  }

  /** At orange, awareness falls exactly in the frames that count, rises exactly in those that restore, else stays. */
  lemma OrangeFallsIff(c: Settings, m: Monitor, f: Frame)
    requires AtOrange(c, m) && Moving(f) && m.counter.awareness > 0.0
    ensures Next(c, m, f).counter.awareness < m.counter.awareness <==> CountsAtOrange(c, m, f)
    ensures Next(c, m, f).counter.awareness > m.counter.awareness <==> RestoresAtOrange(c, m, f)
  {
    OrangeStep(c, m, f);
    ThresholdsAreOrdered(c.vision);
    RecoveryRises(m.counter.awareness, c.StepOf(Vision));
    hide Next, Settings.StepOf, Recovered, Timeouts.Threshold1, Timeouts.Threshold2, Seen;
  }

  function CountedAtOrange(c: Settings, m: Monitor, frames: seq<Frame>): nat
    requires c.Valid()
    decreases |frames|
  {
    if |frames| == 0 then 0
    else (if CountsAtOrange(c, m, frames[0]) then 1 else 0) + CountedAtOrange(c, Next(c, m, frames[0]), frames[1..])
  }

  predicate NoneRestores(c: Settings, m: Monitor, frames: seq<Frame>)
    requires c.Valid()
    decreases |frames|
  {
    |frames| == 0 || (!RestoresAtOrange(c, m, frames[0]) && NoneRestores(c, Next(c, m, frames[0]), frames[1..]))
  }

  function FallenBy(a: real, step: real, n: nat): real {
    var r := a - n as real * step;
    if r > -0.1 then r else -0.1
  }

  lemma FallenOnce(a: real, step: real, n: nat)
    requires step >= 0.0
    ensures FallenBy(if a - step > -0.1 then a - step else -0.1, step, n) == FallenBy(a, step, n + 1)
  {
    ProductNotNegative(n as real, step);
    assert (n + 1) as real * step == n as real * step + step;
  }

  /**
   Over a run at orange in which no frame restores, awareness falls by the step times the number of frames that count,
   down to its floor, and level three is shown exactly once that has used it up.
   */
  lemma {:induction false} OrangeRun(c: Settings, m: Monitor, frames: seq<Frame>)
    requires AtOrange(c, m) && NoneRestores(c, m, frames) && forall j :: 0 <= j < |frames| ==> Moving(frames[j])
    ensures var r := Run(c, m, frames);
            && AtOrange(c, r)
            && r.counter.awareness == FallenBy(m.counter.awareness, c.StepOf(Vision), CountedAtOrange(c, m, frames))
            && (|frames| > 0 ==> r.verdict.level == if r.counter.awareness <= 0.0 then Three else Two)
    decreases |frames|
  {
    var (a, step) := (m.counter.awareness, c.StepOf(Vision));
    if |frames| > 0 {
      var next := Next(c, m, frames[0]);
      OrangeStep(c, m, frames[0]);
      NextKeepsInv(c, m, frames[0]);
      FallenOnce(a, step, CountedAtOrange(c, next, frames[1..]));
      ThresholdsAreOrdered(c.vision);
      hide Next, Settings.StepOf, FallenBy, CountsAtOrange, RestoresAtOrange, Moving, Timeouts.Threshold1, Timeouts.Threshold2;
      OrangeRun(c, next, frames[1..]);
    }
  }

  /** A frame without a face; at standstill without driver input, which would reset the counters. */
  predicate Faceless(f: Frame) {
    f.complete && f.opEngaged && !f.face && (f.standstill ==> !f.driverEngaged)
  }

  /**
   In particular frames without a face never count at orange, moving or standing: the second level stays and the third
   never comes, however long they last.
   */
  lemma {:induction false} FacelessAtOrangeFreezes(c: Settings, m: Monitor, frames: seq<Frame>)
    requires Inv(c, m.counter) && m.counter.policy == Vision && 0.0 < m.counter.awareness <= c.vision.Threshold2()
    requires forall j :: 0 <= j < |frames| ==> Faceless(frames[j])
    ensures Run(c, m, frames).counter.awareness == m.counter.awareness
    ensures |frames| > 0 ==> Run(c, m, frames).verdict.level == Two
    decreases |frames|
  {
    if |frames| > 0 {
      var f := frames[0];
      var next := Next(c, m, f);
      assert next.counter.awareness == m.counter.awareness && next.counter.policy == Vision && next.verdict.level == Two by {
        ThresholdsAreOrdered(c.vision);
        hide Timeouts.Threshold2, Timeouts.Threshold1, Filtered;
      }
      NextKeepsInv(c, m, f);
      hide Next, Inv, Timeouts.Threshold2;
      FacelessAtOrangeFreezes(c, next, frames[1..]);
    }
  }

  /** And only those do at standstill: with driver input a faceless frame resets the counters. */
  lemma FacelessStandingResets(c: Settings, m: Monitor, f: Frame)
    requires Inv(c, m.counter) && m.counter.policy == Vision && 0.0 < m.counter.awareness <= c.vision.Threshold2()
    requires f.complete && f.opEngaged && !f.face && f.standstill && f.driverEngaged
    ensures Next(c, m, f).counter.awareness == 1.0 && Next(c, m, f).verdict.level == NoAlert
  {
    ThresholdsAreOrdered(c.vision);
    hide Timeouts.Threshold2, Timeouts.Threshold1, Filtered;
  }

  // ---------------------------------------------------------------- recovery

  predicate Watching(f: Frame) {
    f.complete && f.opEngaged && !f.driverEngaged && f.face && f.lowStd && !f.distractedType
  }

  /** Vision is active short of a terminal alert, and the model is certain. */
  ghost predicate Returning(c: Settings, m: Monitor) {
    && Inv(c, m.counter) && m.counter.policy == Vision && m.counter.awareness > 0.0
    && 0.0 <= m.driver.filter <= 1.0 && m.driver.hiStds < c.hiStdFallback
  }

  /** For an attentive driver the filter is at least 0.37 after each of the next `k` frames and below it after one more. */
  predicate LowAfter(x: real, alpha: real, k: nat)
    decreases k
  {
    var y := Filtered(x, alpha, 0.0);
    if k == 0 then y < 0.37 else y >= 0.37 && LowAfter(y, alpha, k - 1)
  }

  /** The filter forgets a distraction as it notices one, with both bounds mirrored. */
  lemma {:induction false} LowMirrorsNoticed(x: real, alpha: real, k: nat)
    ensures LowAfter(x, alpha, k) <==> NoticedAfter(1.0 - x, alpha, k)
    decreases k
  {
    assert Filtered(1.0 - x, alpha, 1.0) == 1.0 - Filtered(x, alpha, 0.0);
    hide Filtered;
    if k > 0 {
      LowMirrorsNoticed(Filtered(x, alpha, 0.0), alpha, k - 1);
    }
  }

  /** There is such a k, with k alpha below two. */
  lemma LowTime(x: real, alpha: real) returns (k: nat)
    requires 0.0 <= x <= 1.0 && 0.0 < alpha < 1.0
    ensures LowAfter(x, alpha, k) && Span(k, alpha) < 2.0
  {
    hide *;
    k := NoticeTime(1.0 - x, alpha);
    LowMirrorsNoticed(x, alpha, k);
  }

  lemma FilterFalls(x: real, alpha: real)
    requires 0.0 <= x <= 1.0 && 0.0 < alpha < 1.0
    ensures 0.0 <= Filtered(x, alpha, 0.0) <= x
  {
    ProductNotNegative(alpha, x);
    ProductNotNegative(1.0 - alpha, x);
    assert Filtered(x, alpha, 0.0) == x - alpha * x;
  }

  lemma LowStaysLow(x: real, alpha: real)
    requires 0.0 <= x <= 1.0 && 0.0 < alpha < 1.0 && LowAfter(x, alpha, 0)
    ensures LowAfter(Filtered(x, alpha, 0.0), alpha, 0)
  {
    FilterFalls(x, alpha);
    FilterFalls(Filtered(x, alpha, 0.0), alpha);
    hide Filtered;
  }

  /** In this frame an attentive driver gains: the filter has come down, or the car stands and the first level is near. */
  predicate Gains(c: Settings, m: Monitor, f: Frame)
    requires c.Valid()
  {
    || Filtered(m.driver.filter, c.Alpha(), 0.0) < 0.37
    || (f.standstill && m.counter.awareness - c.StepOf(Vision) <= c.vision.Threshold1())
  }

  lemma SeenWatching(c: Settings, d: Driver, f: Frame)
    requires c.Valid() && Watching(f) && d.hiStds < c.hiStdFallback
    ensures var r := Seen(c, d, f);
            && r.filter == Filtered(d.filter, c.Alpha(), 0.0) && Target(r) == Vision && r.face && r.lowStd && r.hiStds == 0
            && !r.distracted && !r.uncertain
  {
    hide Settings.Alpha, Filtered;
  }

  /** What one frame with an attentive driver does under vision, at any level but the third. */
  lemma WatchingStep(c: Settings, m: Monitor, f: Frame)
    requires Returning(c, m) && Watching(f)
    ensures var (a, r) := (m.counter.awareness, Next(c, m, f));
            && Returning(c, r) && r.driver.filter == Filtered(m.driver.filter, c.Alpha(), 0.0)
            && r.counter.awareness == if Gains(c, m, f) then Recovered(a, c.StepOf(Vision)) else a
  {
    NextKeepsInv(c, m, f);
    AlphaIsFraction(c);
    FilterFalls(m.driver.filter, c.Alpha());
    SeenWatching(c, m.driver, f);
    PolicyHeld(c, m.counter);
    RecoveryRises(m.counter.awareness, c.StepOf(Vision));
    hide Settings.StepOf, Recovered, Timeouts.Threshold1, Timeouts.Threshold2, WithPolicy, Seen, Target, Filtered, Settings.Alpha;
  }

  /** Awareness below one rises exactly in the frames in which the driver gains, and never falls. */
  lemma RisesIffGains(c: Settings, m: Monitor, f: Frame)
    requires Returning(c, m) && Watching(f)
    ensures Next(c, m, f).counter.awareness > m.counter.awareness <==> Gains(c, m, f) && m.counter.awareness < 1.0
    ensures Next(c, m, f).counter.awareness >= m.counter.awareness
  {
    WatchingStep(c, m, f);
    RecoveryRises(m.counter.awareness, c.StepOf(Vision));
    FullStaysFull(c.StepOf(Vision));
    hide Next, Gains, Recovered, Settings.StepOf, Timeouts.Threshold1, Timeouts.Threshold2;
  }

  /** Awareness that has risen by at least `n` minimal recovery steps from `a`, or is full. */
  predicate RisenBy(c: Settings, a: real, n: nat, now: real)
    requires c.Valid()
  {
    now == 1.0 || now >= a + n as real * (1.25 * c.StepOf(Vision))
  }

  function Beyond(n: nat, k: nat): nat {
    if n > k then n - k else 0
  }

  /**
   However distracted the driver was, an attentive one's awareness never falls. Moving, it stays for the k frames that the
   filter takes to come down; after them it strictly rises until full, by at least 1.25 steps a frame.
   */
  lemma {:induction false} AttentionRecovers(c: Settings, m: Monitor, frames: seq<Frame>, k: nat, a: real, n: nat)
    requires Returning(c, m) && LowAfter(m.driver.filter, c.Alpha(), k) && RisenBy(c, a, n, m.counter.awareness)
    requires forall j :: 0 <= j < |frames| ==> Watching(frames[j])
    ensures var (r, now) := (Run(c, m, frames), m.counter.awareness);
            && Returning(c, r) && r.counter.awareness >= now
            && RisenBy(c, a, n + Beyond(|frames|, k), r.counter.awareness)
            && (|frames| > k && now < 1.0 ==> r.counter.awareness > now)
            && (|frames| <= k && (forall j :: 0 <= j < |frames| ==> !frames[j].standstill) ==> r.counter.awareness == now)
    decreases |frames|
  {
    RunOne(c, m, frames);
    hide Run, Next, Returning, Watching, RisenBy, Filtered, Settings.Alpha, Settings.StepOf, Recovered;
    if |frames| > 0 {
      var next := Next(c, m, frames[0]);
      WatchingStep(c, m, frames[0]);
      LowOneLater(c, m, frames[0], k);
      InRange(c, m);
      InRange(c, next);
      var more := if k == 0 then n + 1 else n;
      RisesOnce(c, a, n, m.counter.awareness);
      hide LowAfter, Gains;
      AttentionRecovers(c, next, frames[1..], if k == 0 then 0 else k - 1, a, more);
    }
  }

  /** One frame on, the filter has one frame less to come down; while it is high a moving car gains nothing. */
  lemma LowOneLater(c: Settings, m: Monitor, f: Frame, k: nat)
    requires Returning(c, m) && LowAfter(m.driver.filter, c.Alpha(), k)
    ensures LowAfter(Filtered(m.driver.filter, c.Alpha(), 0.0), c.Alpha(), if k == 0 then 0 else k - 1)
    ensures if k == 0 then Gains(c, m, f) else f.standstill || !Gains(c, m, f)
  {
    AlphaIsFraction(c);
    if k == 0 {
      LowStaysLow(m.driver.filter, c.Alpha());
    }
    hide Filtered, Settings.Alpha, Settings.StepOf, Timeouts.Threshold1;
  }

  lemma RunOne(c: Settings, m: Monitor, frames: seq<Frame>)
    requires c.Valid()
    ensures Run(c, m, frames) == if |frames| == 0 then m else Run(c, Next(c, m, frames[0]), frames[1..])
  {
    hide Next;
  }

  lemma InRange(c: Settings, m: Monitor)
    requires Returning(c, m)
    ensures c.Valid() && 0.0 < m.counter.awareness <= 1.0
  {
  }

  lemma RisesOnce(c: Settings, a: real, n: nat, now: real)
    requires c.Valid() && now <= 1.0 && RisenBy(c, a, n, now)
    ensures RisenBy(c, a, n + 1, Recovered(now, c.StepOf(Vision))) && RisenBy(c, a, n, Recovered(now, c.StepOf(Vision)))
    ensures Recovered(now, c.StepOf(Vision)) >= now && (now < 1.0 ==> Recovered(now, c.StepOf(Vision)) > now)
  {
    var step := c.StepOf(Vision);
    RecoveryRises(now, step);
    FullStaysFull(step);
    assert (n + 1) as real * (RECOVERY_MIN * step) == n as real * (RECOVERY_MIN * step) + RECOVERY_MIN * step;
    hide Recovered, Settings.StepOf;
  }

  lemma FullStaysFull(step: real)
    requires step >= 0.0
    ensures Recovered(1.0, step) == 1.0
  {
  }

  /** The awareness that counts once vision is the policy. */
  function VisionAwareness(k: Counter): real {
    if k.policy == Vision then k.awareness else k.lastVision
  }

  /** Under either policy, short of a terminal alert: as if vision had been the policy before the first frame. */
  lemma VisionFirst(c: Settings, m: Monitor, f: Frame)
    requires Inv(c, m.counter) && m.counter.awareness > 0.0 && m.driver.hiStds < c.hiStdFallback && Watching(f)
    ensures var k := WithPolicy(c, m.counter, Vision);
            && Next(c, m, f) == Next(c, m.(counter := k), f)
            && Inv(c, k) && k.policy == Vision && k.awareness == VisionAwareness(m.counter)
  {
    var k := WithPolicy(c, m.counter, Vision);
    PolicyKeepsInv(c, m.counter, Vision);
    SeenWatching(c, m.driver, f);
    ThresholdsAreOrdered(c.Of(m.counter.policy));
    assert WithPolicy(c, k, Vision) == k by {
      hide Timeouts.Threshold1, Timeouts.Threshold2, Settings.StepOf;
    }
    hide Judged, Seen, Target, Timeouts.Threshold1, Timeouts.Threshold2, Settings.StepOf;
  }

  /** A terminal alert stays while the driver only watches. */
  lemma {:induction false} TerminalStays(c: Settings, m: Monitor, frames: seq<Frame>)
    requires Inv(c, m.counter) && m.counter.awareness <= 0.0
    requires forall j :: 0 <= j < |frames| ==> Watching(frames[j])
    ensures Run(c, m, frames).counter.awareness <= 0.0
    ensures |frames| > 0 ==> Run(c, m, frames).verdict.level == Three
    decreases |frames|
  {
    if |frames| > 0 {
      var next := Next(c, m, frames[0]);
      NextKeepsInv(c, m, frames[0]);
      TerminalFrame(c, m, frames[0]);
      hide Next, Inv, Watching;
      TerminalStays(c, next, frames[1..]);
    }
  }

  lemma TerminalFrame(c: Settings, m: Monitor, f: Frame)
    requires Inv(c, m.counter) && m.counter.awareness <= 0.0 && Watching(f)
    ensures Next(c, m, f).counter.awareness <= 0.0 && Next(c, m, f).verdict.level == Three
  {
    ThresholdsAreOrdered(c.Of(m.counter.policy));
    PolicyKeepsInv(c, m.counter, Target(Seen(c, m.driver, f)));
    StepIsNatural(c, WithPolicy(c, m.counter, Target(Seen(c, m.driver, f))));
    hide Timeouts.Threshold1, Timeouts.Threshold2, Settings.StepOf, Seen, Target, Distracted;
  }

  /**
   Looking back from any alert, under either policy: once the filter has come down in k frames, enough further frames bring
   full awareness, unless the alert was terminal.
   */
  lemma AttentionRestoresFully(c: Settings, m: Monitor, frames: seq<Frame>, k: nat)
    requires Inv(c, m.counter) && 0.0 <= m.driver.filter <= 1.0 && m.driver.hiStds < c.hiStdFallback
    requires LowAfter(m.driver.filter, c.Alpha(), k)
    requires |frames| > k && forall j :: 0 <= j < |frames| ==> Watching(frames[j])
    requires (|frames| - k) as real * (1.25 * c.StepOf(Vision)) >= 1.0 - VisionAwareness(m.counter)
    ensures Run(c, m, frames).counter.awareness == 1.0 <==> m.counter.awareness > 0.0
  {
    hide Settings.StepOf, Settings.Alpha, Run, Next, LowAfter;
    if m.counter.awareness > 0.0 {
      VisionFirst(c, m, frames[0]);
      var start := m.(counter := WithPolicy(c, m.counter, Vision));
      RunOne(c, m, frames);
      RunOne(c, start, frames);
      hide WithPolicy, Watching;
      assert Returning(c, start);
      AttentionRecovers(c, start, frames, k, start.counter.awareness, 0);
      InRange(c, Run(c, m, frames));
    } else {
      TerminalStays(c, m, frames);
    }
  }

  /** The same with the time bounded beforehand. */
  lemma AttentionRestoresInTime(c: Settings, m: Monitor, frames: seq<Frame>) returns (k: nat)
    requires Inv(c, m.counter) && 0.0 <= m.driver.filter <= 1.0 && m.driver.hiStds < c.hiStdFallback
    requires forall j :: 0 <= j < |frames| ==> Watching(frames[j])
    ensures Span(k, c.Alpha()) < 2.0
    ensures |frames| > k && (|frames| - k) as real * (1.25 * c.StepOf(Vision)) >= 1.0 - VisionAwareness(m.counter) ==>
            (Run(c, m, frames).counter.awareness == 1.0 <==> m.counter.awareness > 0.0)
  {
    AlphaIsFraction(c);
    hide Settings.StepOf, Settings.Alpha, Run, LowAfter, Inv, Watching, Span;
    k := LowTime(m.driver.filter, c.Alpha());
    if |frames| > k && (|frames| - k) as real * (1.25 * c.StepOf(Vision)) >= 1.0 - VisionAwareness(m.counter) {
      AttentionRestoresFully(c, m, frames, k);
    }
  }

  lemma FilterInRange(x: real, alpha: real, distracted: bool)
    requires 0.0 <= x <= 1.0 && 0.0 < alpha < 1.0
    ensures 0.0 <= Filtered(x, alpha, if distracted then 1.0 else 0.0) <= 1.0
  {
    if distracted {
      FilterStays(x, alpha);
    } else {
      FilterFalls(x, alpha);
    }
  }

  /** What the recovery needs of the driver holds at all times: over every run the filter stays in [0, 1]. */
  lemma {:induction false} RunKeepsFilter(c: Settings, m: Monitor, frames: seq<Frame>)
    requires c.Valid() && 0.0 <= m.driver.filter <= 1.0
    ensures 0.0 <= Run(c, m, frames).driver.filter <= 1.0
    decreases |frames|
  {
    if |frames| > 0 {
      var f := frames[0];
      AlphaIsFraction(c);
      FilterInRange(m.driver.filter, c.Alpha(), f.distractedType && f.face && f.lowStd);
      var next := Next(c, m, f);
      assert 0.0 <= next.driver.filter <= 1.0 by {
        hide Filtered, Settings.Alpha, Counted, Shown, LimitReached, LevelAt, WithPolicy;
      }
      hide Next, Settings.Alpha, Filtered;
      RunKeepsFilter(c, next, frames[1..]);
    }
  }

  /** And one frame with an attentive driver makes the model certain. */
  lemma WatchingMakesCertain(c: Settings, m: Monitor, f: Frame)
    requires Inv(c, m.counter) && Watching(f)
    ensures Inv(c, Next(c, m, f).counter) && Next(c, m, f).driver.hiStds == 0
  {
    NextKeepsInv(c, m, f);
    hide Inv, Filtered, Settings.Alpha, Counted, Shown, LimitReached, LevelAt, WithPolicy;
  }

  /** A recovering counter rises by 5 - 3.75 a steps, five near zero and 1.25 near full, up to one. */
  lemma RecoveryRate(a: real, step: real)
    ensures Recovered(a, step) == if a + (5.0 - 3.75 * a) * step < 1.0 then a + (5.0 - 3.75 * a) * step else 1.0
  {
  }

  /** Lockout in numbers: it was set before, or some frame before the last left one of the two limits reached. */
  lemma LockoutIff(c: Settings, m: Monitor, frames: seq<Frame>)
    requires c.Valid()
    ensures Run(c, m, frames).verdict.tooDistracted
      <==> || m.verdict.tooDistracted
           || exists j :: 0 <= j < |frames| && (|| Run(c, m, frames[..j]).verdict.terminalAlerts >= c.maxTerminalAlerts
                                                || Run(c, m, frames[..j]).verdict.terminalTime >= c.maxTerminalDuration)
  {
    LockoutIsHistory(c, m, frames);
    hide Run;
  }

  // ---------------------------------------------------------------- what resets the counters

  ghost predicate Full(k: Counter) {
    k.awareness == 1.0 && k.lastVision == 1.0 && k.lastWheelTouch == 1.0
  }

  /** In a frame that leaves the policy at wheel-touch: none that speaks of the driver, no face, or the model uncertain. */
  ghost predicate NoVision(c: Settings, m: Monitor, f: Frame) {
    !f.complete || !f.face || m.driver.hiStds >= c.hiStdFallback
  }

  lemma WheelTouchStays(c: Settings, m: Monitor, f: Frame)
    requires Inv(c, m.counter) && m.counter.policy == WheelTouch && NoVision(c, m, f)
    ensures var k := Observed(c, m, f).counter;
            && Inv(c, k) && k.policy == WheelTouch && k.awareness == m.counter.awareness
  {
    PolicyKeepsInv(c, m.counter, Target(Seen(c, m.driver, f)));
    hide Filtered, Settings.Alpha, Settings.StepOf, Timeouts.Threshold1, Timeouts.Threshold2;
  }

  /** Touching the wheel under the wheel-touch policy, short of a terminal alert, makes all counters full and shows nothing. */
  lemma TouchResets(c: Settings, m: Monitor, f: Frame)
    requires Inv(c, m.counter) && m.counter.policy == WheelTouch && m.counter.awareness > 0.0
    requires NoVision(c, m, f) && f.driverEngaged
    ensures Full(Next(c, m, f).counter) && Next(c, m, f).verdict.level == NoAlert && Next(c, m, f).counter.policy == WheelTouch
  {
    WheelTouchStays(c, m, f);
    hide Observed, Inv;
  }

  /** Disengaging with the always-on mode off, or in a gear it does not cover, makes them full from any state. */
  lemma DisengagingResets(c: Settings, m: Monitor, f: Frame)
    requires c.Valid() && !f.opEngaged && (!f.alwaysOn || f.wrongGear)
    ensures Full(Next(c, m, f).counter) && Next(c, m, f).verdict.level == NoAlert
  {
    hide Observed;
  }

  /** With the always-on mode in force, disengaging does so after a terminal alert. */
  lemma DisengagingEndsTerminal(c: Settings, m: Monitor, f: Frame)
    requires Inv(c, m.counter) && m.counter.awareness <= 0.0 && !f.opEngaged
    ensures Full(Next(c, m, f).counter) && Next(c, m, f).verdict.level == NoAlert
  {
    SwitchIsSafe(c, m.counter, Target(Seen(c, m.driver, f)));
    hide WithPolicy, Seen, Target, Inv;
  }

  /** Driver input under vision makes them full in the frames in which an attentive driver would gain. */
  lemma InputRestores(c: Settings, m: Monitor, f: Frame)
    requires Returning(c, m) && Watching(f.(driverEngaged := false)) && f.driverEngaged && Gains(c, m, f)
    ensures Full(Next(c, m, f).counter) && Next(c, m, f).verdict.level == NoAlert
  {
    SeenWatching(c, m.driver, f.(driverEngaged := false));
    PolicyHeld(c, m.counter);
    hide Settings.StepOf, Timeouts.Threshold1, Timeouts.Threshold2, WithPolicy, Filtered, Settings.Alpha, Target;
  }

  /** What is shown to an attentive driver short of a terminal alert: nothing once recovering beyond orange. */
  lemma ShownWhileWatching(c: Settings, m: Monitor, f: Frame)
    requires Returning(c, m) && Watching(f)
    ensures var (r, t1, t2) := (Next(c, m, f), c.vision.Threshold1(), c.vision.Threshold2());
            r.verdict.level == if r.counter.awareness <= t2 then Two
                               else if Gains(c, m, f) || r.counter.awareness > t1 then NoAlert else One
  {
    SeenWatching(c, m.driver, f);
    PolicyHeld(c, m.counter);
    RecoveryRises(m.counter.awareness, c.StepOf(Vision));
    hide Settings.StepOf, Recovered, Timeouts.Threshold1, Timeouts.Threshold2, WithPolicy, Seen, Target, Filtered, Settings.Alpha;
  }

  /** With awareness full a gaining frame also gives the saved wheel-touch counter one step, and only then. */
  lemma SavedCounterStep(c: Settings, m: Monitor, f: Frame)
    requires Returning(c, m) && Watching(f)
    ensures var (w, r) := (m.counter.lastWheelTouch, Next(c, m, f).counter);
            r.lastWheelTouch == if Gains(c, m, f) && r.awareness == 1.0 then (if w + c.StepOf(Vision) < 1.0 then w + c.StepOf(Vision) else 1.0) else w
  {
    SeenWatching(c, m.driver, f);
    PolicyHeld(c, m.counter);
    hide Settings.StepOf, Recovered, Timeouts.Threshold1, Timeouts.Threshold2, WithPolicy, Seen, Target, Filtered, Settings.Alpha;
  }

  lemma CappedSum(w: real, step: real, n: nat)
    requires step > 0.0
    ensures (if (if w + step < 1.0 then w + step else 1.0) + Span(n, step) < 1.0 then (if w + step < 1.0 then w + step else 1.0) + Span(n, step) else 1.0)
         == if w + Span(n + 1, step) < 1.0 then w + Span(n + 1, step) else 1.0
  {
    ProductNotNegative(n as real, step);
    assert Span(n + 1, step) == Span(n, step) + step;
  }

  /** So an attentive driver with full awareness regains the wheel-touch counter at one vision step a frame. */
  lemma {:induction false} SavedCounterRecovers(c: Settings, m: Monitor, frames: seq<Frame>)
    requires Returning(c, m) && m.counter.awareness == 1.0 && LowAfter(m.driver.filter, c.Alpha(), 0)
    requires forall j :: 0 <= j < |frames| ==> Watching(frames[j])
    ensures var w := m.counter.lastWheelTouch + Span(|frames|, c.StepOf(Vision));
            Run(c, m, frames).counter.lastWheelTouch == if w < 1.0 then w else 1.0
    decreases |frames|
  {
    SavedInRange(c, m);
    RunOne(c, m, frames);
    hide Run, Next, Returning, Watching, Filtered, Settings.Alpha, Settings.StepOf, Recovered, LowAfter, Gains, Span;
    SpanOfNone(c.StepOf(Vision));
    if |frames| > 0 {
      var next := Next(c, m, frames[0]);
      WatchingStep(c, m, frames[0]);
      SavedCounterStep(c, m, frames[0]);
      LowOneLater(c, m, frames[0], 0);
      FullStaysFull(c.StepOf(Vision));
      CappedSum(m.counter.lastWheelTouch, c.StepOf(Vision), |frames| - 1);
      SavedCounterRecovers(c, next, frames[1..]);
    }
  }

  lemma SpanOfNone(step: real)
    ensures Span(0, step) == 0.0
  {
  }

  lemma SavedInRange(c: Settings, m: Monitor)
    requires Returning(c, m)
    ensures c.Valid() && m.counter.lastWheelTouch <= 1.0
  {
  }

  // ---------------------------------------------------------------- changing the policy

  /** Exactly when a complete frame leaves vision as the policy. */
  lemma VisionIff(c: Settings, m: Monitor, f: Frame)
    requires Inv(c, m.counter) && f.complete
    ensures Next(c, m, f).counter.policy == Vision
            <==> if m.counter.policy == Vision && m.counter.awareness <= c.vision.Threshold2() then true
                 else if m.counter.awareness <= 0.0 then m.counter.policy == Vision
                 else f.face && m.driver.hiStds < c.hiStdFallback
  {
    CountedKeepsPolicy(c, Observed(c, m, f), f);
    hide Judged, Settings.StepOf, Timeouts.Threshold1, Timeouts.Threshold2, Filtered, Settings.Alpha;
  }

  /** A change of policy takes over the counter saved for the new one and saves the old one; going back restores it. */
  lemma EachPolicyItsCounter(c: Settings, k: Counter)
    requires Inv(c, k) && k.awareness > 0.0 && (k.policy == Vision ==> k.awareness > c.vision.Threshold2())
    ensures var other := if k.policy == Vision then WheelTouch else Vision;
            var r := WithPolicy(c, k, other);
            && r.policy == other && r.step == c.StepOf(other)
            && r.awareness == (if other == Vision then k.lastVision else k.lastWheelTouch)
            && (if other == Vision then r.lastWheelTouch else r.lastVision) == k.awareness
            && (r.policy == WheelTouch || r.awareness > c.vision.Threshold2() ==>
                  WithPolicy(c, r, k.policy).policy == k.policy && WithPolicy(c, r, k.policy).awareness == k.awareness)
  {
    ThresholdsAreOrdered(c.vision);
    ThresholdsAreOrdered(c.wheelTouch);
    hide Settings.StepOf, Timeouts.Threshold1, Timeouts.Threshold2;
  }

  /** The model becomes uncertain by frames with a face of high deviation since the last one of low deviation. */
  lemma HiStdsCount(c: Settings, m: Monitor, f: Frame)
    requires c.Valid()
    ensures Next(c, m, f).driver.hiStds
         == if !f.complete || !f.face then m.driver.hiStds else if f.lowStd then 0 else m.driver.hiStds + 1
  {
    hide Counted, Shown, LimitReached, LevelAt, WithPolicy, Filtered, Settings.Alpha;
  }

  function HighFaces(frames: seq<Frame>): nat
    decreases |frames|
  {
    if |frames| == 0 then 0 else (if frames[0].complete && frames[0].face then 1 else 0) + HighFaces(frames[1..])
  }

  lemma {:induction false} UncertainAfter(c: Settings, m: Monitor, frames: seq<Frame>)
    requires c.Valid() && forall j :: 0 <= j < |frames| ==> !(frames[j].complete && frames[j].face && frames[j].lowStd)
    ensures Run(c, m, frames).driver.hiStds == m.driver.hiStds + HighFaces(frames)
    decreases |frames|
  {
    if |frames| > 0 {
      HiStdsCount(c, m, frames[0]);
      hide Next;
      UncertainAfter(c, Next(c, m, frames[0]), frames[1..]);
    }
  }

  // ---------------------------------------------------------------- touching the wheel in time

  /** The frames since the last touch, among the first `n`. */
  function SinceTouch(frames: seq<Frame>, n: nat): (g: nat)
    requires n <= |frames|
    ensures g <= n && forall j :: n - g <= j < n ==> !frames[j].driverEngaged
  {
    if n == 0 || frames[n - 1].driverEngaged then 0 else 1 + SinceTouch(frames, n - 1)
  }

  /** In every stretch of frames that lasts as long as the third timeout the wheel is touched. */
  ghost predicate TouchedInTime(c: Settings, frames: seq<Frame>) {
    forall i, j :: 0 <= i <= j <= |frames| && (j - i) as real * c.dt >= c.wheelTouch.t3 ==> Touched(frames[i..j])
  }

  ghost predicate Touched(frames: seq<Frame>) {
    exists f :: f in frames && f.driverEngaged
  }

  lemma GapIsShort(c: Settings, frames: seq<Frame>, n: nat)
    requires n <= |frames| && TouchedInTime(c, frames)
    ensures SinceTouch(frames, n) as real * c.dt < c.wheelTouch.t3
  {
    var g := SinceTouch(frames, n);
    var last := frames[n - g..n];
    assert forall k :: 0 <= k < g ==> last[k] == frames[n - g + k];
    assert !Touched(last);
  }

  lemma StepsInTime(c: Settings, g: nat)
    requires c.Valid() && g as real * c.dt < c.wheelTouch.t3
    ensures 1.0 - Span(g, c.StepOf(WheelTouch)) > 0.0
  {
    StepTimes(c);
    hide Settings.StepOf;
    ScaleLess(g, c.StepOf(WheelTouch), c.dt, c.wheelTouch.t3);
  }

  lemma ScaleLess(n: nat, s: real, dt: real, t3: real)
    requires t3 > 0.0 && s * t3 == dt && n as real * dt < t3
    ensures 1.0 - Span(n, s) > 0.0
  {
    ScaleCompare(n as real, s, 1.0, dt, t3, t3);
  }

  lemma StepTimes(c: Settings)
    requires c.Valid()
    ensures c.StepOf(WheelTouch) * c.wheelTouch.t3 == c.dt && c.wheelTouch.t3 > 0.0
  {
    hide Over;
    OverTimes(c.dt, c.wheelTouch.t3);
  }

  lemma RunSnoc(c: Settings, m: Monitor, frames: seq<Frame>, n: nat)
    requires c.Valid() && n < |frames|
    ensures Run(c, m, frames[..n + 1]) == Next(c, Run(c, m, frames[..n]), frames[n])
    decreases n
  {
    hide Next;
    if n == 0 {
      assert frames[..1][1..] == [];
    } else {
      RunSnoc(c, Next(c, m, frames[0]), frames[1..], n - 1);
      assert frames[..n + 1][1..] == frames[1..][..n] && frames[..n][1..] == frames[1..][..n - 1];
    }
  }

  /** A frame without vision, from full counters or under wheel-touch: at most one step is lost, and none after a touch. */
  lemma TouchStep(c: Settings, m: Monitor, f: Frame)
    requires Inv(c, m.counter) && f.complete && !f.face && m.counter.awareness > 0.0
    requires m.counter.policy == WheelTouch || Full(m.counter)
    ensures var r := Next(c, m, f);
            && Inv(c, r.counter) && r.counter.policy == WheelTouch
            && (if f.driverEngaged then r.counter.awareness == 1.0 else r.counter.awareness >= m.counter.awareness - c.StepOf(WheelTouch))
            && (r.verdict.level == Three ==> r.counter.awareness <= 0.0)
  {
    NextKeepsInv(c, m, f);
    var d := Seen(c, m.driver, f);
    PolicyKeepsInv(c, m.counter, WheelTouch);
    if m.counter.policy == WheelTouch { PolicyHeld(c, m.counter); } else { RestedSwitch(c, m.counter, WheelTouch); }
    var o := Observed(c, m, f);
    assert o.driver == d && o.counter == WithPolicy(c, m.counter, WheelTouch) && !d.face by { hide Filtered, Settings.Alpha, WithPolicy; }
    RecoveryRises(o.counter.awareness, o.counter.step);
    JudgedCases(c, o, f);
    hide Settings.StepOf, Timeouts.Threshold1, Timeouts.Threshold2, WithPolicy, Seen, Observed, Judged, Recovered, LimitReached;
  }

  lemma OneStepLess(c: Settings, g: nat)
    requires c.Valid()
    ensures Span(g + 1, c.StepOf(WheelTouch)) == Span(g, c.StepOf(WheelTouch)) + c.StepOf(WheelTouch)
    ensures Span(0, c.StepOf(WheelTouch)) == 0.0
  {
    hide Settings.StepOf;
  }

  /**
   A driver whose face is not seen but who touches the wheel at least once in every stretch as long as the third timeout is
   never shown level three, whatever else the frames are.
   */
  lemma {:induction false} TouchingAvoidsTerminal(c: Settings, m: Monitor, frames: seq<Frame>, n: nat)
    requires Rested(c, m) && n <= |frames| && TouchedInTime(c, frames)
    requires forall j :: 0 <= j < |frames| ==> frames[j].complete && !frames[j].face
    ensures var r := Run(c, m, frames[..n]);
            && Inv(c, r.counter) && r.counter.awareness >= 1.0 - Span(SinceTouch(frames, n), c.StepOf(WheelTouch)) > 0.0
            && (n > 0 ==> r.counter.policy == WheelTouch && r.verdict.level != Three)
            && (n == 0 ==> r == m)
    decreases n
  {
    hide *;
    RestedIsFull(c, m);
    GapIsShort(c, frames, n);
    StepsInTime(c, SinceTouch(frames, n));
    SinceTouchStep(c, frames, n);
    if n > 0 {
      TouchingAvoidsTerminal(c, m, frames, n - 1);
      RunSnoc(c, m, frames, n - 1);
      TouchStep(c, Run(c, m, frames[..n - 1]), frames[n - 1]);
    } else {
      RunEmpty(c, m, frames);
    }
  }

  lemma RunEmpty(c: Settings, m: Monitor, frames: seq<Frame>)
    requires c.Valid()
    ensures Run(c, m, frames[..0]) == m
  {
  }

  /** What full counters have left by the time of the last touch. */
  lemma SinceTouchStep(c: Settings, frames: seq<Frame>, n: nat)
    requires c.Valid() && n <= |frames|
    ensures n == 0 || frames[n - 1].driverEngaged ==> 1.0 - Span(SinceTouch(frames, n), c.StepOf(WheelTouch)) == 1.0
    ensures n > 0 && !frames[n - 1].driverEngaged ==>
      1.0 - Span(SinceTouch(frames, n), c.StepOf(WheelTouch))
        == 1.0 - Span(SinceTouch(frames, n - 1), c.StepOf(WheelTouch)) - c.StepOf(WheelTouch)
  {
    if n > 0 {
      OneStepLess(c, SinceTouch(frames, n - 1));
    } else {
      OneStepLess(c, 0);
    }
    hide Settings.StepOf, Span;
  }

  lemma RestedIsFull(c: Settings, m: Monitor)
    requires Rested(c, m)
    ensures c.Valid() && Inv(c, m.counter) && Full(m.counter) && m.counter.awareness == 1.0
  {
  }

  // ---------------------------------------------------------------- standing still

  /** The active counter is above its first level, and so is the one saved for the other policy. */
  ghost predicate Calm(c: Settings, k: Counter) {
    && Inv(c, k) && k.awareness > k.threshold1
    && (if k.policy == Vision then k.lastWheelTouch > c.wheelTouch.Threshold1() else k.lastVision > c.vision.Threshold1())
  }

  lemma CalmSwitch(c: Settings, k: Counter, target: Policy)
    requires Calm(c, k)
    ensures Calm(c, WithPolicy(c, k, target))
  {
    PolicyKeepsInv(c, k, target);
    ThresholdsAreOrdered(c.vision);
    ThresholdsAreOrdered(c.wheelTouch);
    hide Settings.StepOf, Timeouts.Threshold1, Timeouts.Threshold2;
  }

  lemma CalmFrame(c: Settings, m: Monitor, f: Frame)
    requires Calm(c, m.counter) && f.standstill
    ensures Calm(c, Judged(c, m, f).counter) && Judged(c, m, f).verdict.level == NoAlert
  {
    ThresholdsAreOrdered(c.vision);
    ThresholdsAreOrdered(c.wheelTouch);
    StepIsNatural(c, m.counter);
    CountedKeepsInv(c, m.counter, m.driver, f);
    RecoveryRises(m.counter.awareness, m.counter.step);
    JudgedCases(c, m, f);
    assert Judged(c, m, f).counter == Counted(m.counter, m.driver, f) by { hide Counted, Shown, LevelAt, LimitReached; }
    hide Judged, Counted, Settings.StepOf, Timeouts.Threshold1, Timeouts.Threshold2, Recovered, Distracted, Resets, AlwaysOnExempt, LimitReached;
  }

  /** Standing still, a driver with calm counters is shown nothing, whatever the frames say otherwise. */
  lemma {:induction false} StandingIsCalm(c: Settings, m: Monitor, frames: seq<Frame>)
    requires Calm(c, m.counter) && forall j :: 0 <= j < |frames| ==> frames[j].standstill
    ensures Calm(c, Run(c, m, frames).counter) && (|frames| > 0 ==> Run(c, m, frames).verdict.level == NoAlert)
    decreases |frames|
  {
    if |frames| > 0 {
      var f := frames[0];
      var next := Next(c, m, f);
      CalmSwitch(c, m.counter, Target(Seen(c, m.driver, f)));
      assert c.Valid();
      assert Calm(c, Observed(c, m, f).counter) by { hide Seen, WithPolicy, Target, Calm; }
      CalmFrame(c, Observed(c, m, f), f);
      hide Calm, Judged, Observed;
      StandingIsCalm(c, next, frames[1..]);
    }
  }

  lemma RestedIsCalm(c: Settings, m: Monitor)
    requires Rested(c, m)
    ensures Calm(c, m.counter)
  {
    ThresholdsAreOrdered(c.vision);
    ThresholdsAreOrdered(c.wheelTouch);
    hide Settings.StepOf, Timeouts.Threshold1, Timeouts.Threshold2;
  }
}
