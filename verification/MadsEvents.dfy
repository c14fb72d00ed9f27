/**
 How MADS rewrites the events of a step before its machine sees them (sunnypilot/mads/mads.py, with the event lists of
 sunnypilot/selfdrive/selfdrived/events_base.py).

 An event list may hold the same event several times and is kept sorted, so it is a multiset here; `remove` drops one
 occurrence. Which types an event has is a parameter.
 */
module MadsEvents {
  import opened Machines

  datatype Event = WrongGear | ReverseGear | BrakeHold | DoorOpen | SeatbeltNotLatched | ParkBrake | PedalPressed
                 | WrongCarMode | PreEnableStandstill | BelowEngageSpeed | SpeedTooLow | CruiseDisabled | ManualRestart
                 | EspActive | PcmEnable | ButtonEnable | PcmDisable | ButtonCancel | WrongCruiseMode | ControlsMismatch
                 | OtherEvent(name: int)

  datatype EventSP = SilentWrongGear | SilentReverseGear | SilentBrakeHold | SilentDoorOpen | SilentSeatbeltNotLatched
                   | SilentParkBrake | SilentLkasDisable | SilentLkasEnable | LkasEnable | LkasDisable
                   | ManualSteeringRequired | ManualLongitudinalRequired | WrongCarModeAlertOnly | PedalPressedAlertOnly
                   | ControlsMismatchLateral | OtherEventSP(name: int)

  datatype Events = Events(op: multiset<Event>, sp: multiset<EventSP>)
  {
    predicate Has(x: Event) {
      x in op
    }

    predicate HasSP(x: EventSP) {
      x in sp
    }

    function Remove(e: Event): Events {
      Events(op - multiset{e}, sp)
    }

    function Add(e: EventSP): Events {
      Events(op, sp + multiset{e})
    }

    function RemoveSP(e: EventSP): Events {
      Events(op, sp - multiset{e})
    }
  }

  /** What `contains` may be asked for: it looks its argument up among the keys of each event's entry, whatever it is. */
  datatype Key = Type(eventType: EventType) | Name(event: EventSP)

  /** The keys of each event's entry. */
  datatype Table = Table(op: Event -> set<Key>, sp: EventSP -> set<Key>)
  {
    predicate OpContains(events: multiset<Event>, k: Key) {
      exists e :: e in events && k in op(e)
    }

    predicate SPContains(events: multiset<EventSP>, k: Key) {
      exists e :: e in events && k in sp(e)
    }

    predicate OpHas(events: multiset<Event>, t: EventType) {
      OpContains(events, Type(t))
    }

    predicate SPHas(events: multiset<EventSP>, t: EventType) {
      SPContains(events, Type(t))
    }

    /** The tables of the source have event types as keys. */
    ghost predicate KeysAreTypes() {
      forall e, k :: k in sp(e) ==> k.Type?
    }

    function OpSees(events: multiset<Event>): set<EventType> {
      set t: EventType | OpHas(events, t)
    }

    function SPSees(events: multiset<EventSP>): set<EventType> {
      set t: EventType | SPHas(events, t)
    }

    /** The types the properties below rely on. */
    predicate Known() {
      && Type(IMMEDIATE_DISABLE) in op(ControlsMismatch)
      && Type(IMMEDIATE_DISABLE) in sp(ControlsMismatchLateral)
      && Type(USER_DISABLE) in sp(SilentLkasDisable) && Type(USER_DISABLE) in sp(LkasDisable)
    }
  }

  datatype BrakeMode = RemainActive | Pause | Disengage

  datatype ButtonType = Cancel | Lkas | AccelCruise | ResumeCruise | DecelCruise | SetCruise | OtherButton

  datatype Button = Button(kind: ButtonType, pressed: bool)

  datatype Car = Car(standstill: bool, vEgo: real, reverse: bool, gasPressed: bool, cruiseAvailable: bool,
                     buttons: seq<Button>)

  /** Settings, the state and the car as MADS finds them in one step. */
  datatype Context = Context(
    types: Table, brakeMode: BrakeMode, disengageOnAccelerator: bool, allowAlways: bool, noMainCruise: bool,
    mainEnabledToggle: bool, unifiedEngagementMode: bool,
    state: MadsState, enabled: bool, lateralMismatch: int,
    opEnabled: bool, opEnabledPrev: bool, car: Car, carPrev: Car)
  {
    predicate GasExplainsPedal() {
      car.gasPressed && !carPrev.gasPressed && disengageOnAccelerator
    }

    predicate BrakePressed(e: Events) {
      e.Has(PedalPressed) && !GasExplainsPedal()
    }

    predicate BlocksUnifiedEngagement() {
      !unifiedEngagementMode || enabled || (opEnabled && opEnabledPrev)
    }

    predicate SetsSpeed() {
      exists i :: 0 <= i < |car.buttons| && car.buttons[i].kind in {AccelCruise, ResumeCruise, DecelCruise, SetCruise}
    }
  }

  const PAUSING: set<Event> := {WrongGear, ReverseGear, BrakeHold, DoorOpen, SeatbeltNotLatched, ParkBrake}

  const PAUSING_SILENT: set<EventSP> :=
    {SilentWrongGear, SilentReverseGear, SilentBrakeHold, SilentDoorOpen, SilentSeatbeltNotLatched, SilentParkBrake}

  predicate AnyIn(list: set<Event>, events: multiset<Event>) {
    exists e :: e in list && e in events
  }

  predicate AnyInSP(list: set<EventSP>, events: multiset<EventSP>) {
    exists e :: e in list && e in events
  }

  // ---------------------------------------------------------------- what the rewriting comes to

  function PauseTransition(c: Context, e: Events): Events {
    if c.state != MadsPaused then e.Add(SilentLkasDisable) else e
  }

  /** An event that would end a lateral-only engagement is swapped for its silent form and the mode is paused. */
  function Silenced(c: Context, e: Events, applies: bool, event: Event, silent: EventSP): Events {
    if applies && e.Has(event) then PauseTransition(c, e.Remove(event).Add(silent)) else e
  }

  function LateralOnly(c: Context, e: Events): Events {
    if c.opEnabled || !c.enabled then e
    else
      var e1 := Silenced(c, e, c.car.standstill, DoorOpen, SilentDoorOpen);
      var e2 := Silenced(c, e1, c.car.standstill, SeatbeltNotLatched, SilentSeatbeltNotLatched);
      var e3 := Silenced(c, e2, c.car.vEgo < 2.5 || c.car.reverse, WrongGear, SilentWrongGear);
      var e4 := Silenced(c, e3, true, ReverseGear, SilentReverseGear);
      var e5 := Silenced(c, e4, true, BrakeHold, SilentBrakeHold);
      var e6 := Silenced(c, e5, true, ParkBrake, SilentParkBrake);
      var e7 := if c.brakeMode == Pause && c.BrakePressed(e6) then PauseTransition(c, e6) else e6;
      e7.Remove(PreEnableStandstill).Remove(BelowEngageSpeed).Remove(SpeedTooLow).Remove(CruiseDisabled)
        .Remove(ManualRestart).Remove(EspActive)
  }

  function Enabling(c: Context, e: Events): Events {
    var enables := e.Has(PcmEnable) || e.Has(ButtonEnable);
    var e1 :=
      if !enables && !c.SetsSpeed() then e.Remove(WrongCarMode)
      else if e.Has(WrongCarMode) then e.Remove(WrongCarMode).Add(WrongCarModeAlertOnly)
      else e;
    if enables then
      var e2 := if c.BrakePressed(e1) then e1.Add(PedalPressedAlertOnly) else e1;
      if c.BlocksUnifiedEngagement() then e2.Remove(PcmEnable).Remove(ButtonEnable) else e2
    else if c.mainEnabledToggle && c.car.cruiseAvailable && !c.carPrev.cruiseAvailable then e1.Add(LkasEnable)
    else e1
  }

  function Pressed(c: Context, b: Button, e: Events): Events {
    var e1 := if b.kind == Cancel && !c.opEnabled && c.opEnabledPrev then e.Add(ManualLongitudinalRequired) else e;
    if b.kind == Lkas && b.pressed && (c.car.cruiseAvailable || c.allowAlways) then
      e1.Add(if !c.enabled then LkasEnable else if c.opEnabled then ManualSteeringRequired else LkasDisable)
    else e1
  }

  function AllPressed(c: Context, buttons: seq<Button>, e: Events): Events {
    if |buttons| == 0 then e else Pressed(c, buttons[|buttons| - 1], AllPressed(c, buttons[..|buttons| - 1], e))
  }

  predicate SilentEnable(c: Context, e: Events) {
    && c.state == MadsPaused
    && !(c.brakeMode == Pause && c.BrakePressed(e))
    && !AnyInSP(PAUSING_SILENT, e.sp)
  }

  function BeforeBrake(c: Context, e: Events): Events {
    var e1 := if !c.car.cruiseAvailable && !c.noMainCruise then e.Remove(ButtonEnable) else e;
    if !c.car.cruiseAvailable && !c.noMainCruise && c.carPrev.cruiseAvailable then e1.Add(LkasDisable) else e1
  }

  /** The brake in disengage mode; `found` is the answer to whether the enabling event is being sent. */
  function Braked(c: Context, e: Events, found: bool): Events {
    if c.brakeMode != Disengage || !c.BrakePressed(e) then e
    else if c.enabled then e.Add(LkasDisable)
    else if found then e.RemoveSP(LkasEnable).Add(PedalPressedAlertOnly)
    else e
  }

  function AfterBrake(c: Context, e: Events): Events {
    var e1 := if SilentEnable(c, e) then e.Add(SilentLkasEnable) else e;
    var e2 := if c.lateralMismatch >= 200 then e1.Add(ControlsMismatchLateral) else e1;
    e2.Remove(PcmDisable).Remove(ButtonCancel).Remove(PedalPressed).Remove(WrongCruiseMode)
  }

  /** The source asks `contains` for the event's name, where the key of an entry is expected. */
  function Closing(c: Context, e: Events): Events {
    var e1 := BeforeBrake(c, e);
    AfterBrake(c, Braked(c, e1, c.types.SPContains(e1.sp, Name(LkasEnable))))
  }

  function Rewritten(c: Context, e: Events): Events {
    Closing(c, AllPressed(c, c.car.buttons, Enabling(c, LateralOnly(c, e))))
  }

  // ---------------------------------------------------------------- the rewriting in place

  class Lists {
    var events: multiset<Event>
    var eventsSP: multiset<EventSP>
    const types: Table

    constructor (types: Table)
      ensures this.types == types && Value() == Events(multiset{}, multiset{})
    {
      this.types := types;
      events := multiset{};
      eventsSP := multiset{};
    }

    function Value(): Events
      reads this
    {
      Events(events, eventsSP)
    }

    method Remove(e: Event)
      modifies this`events
      ensures Value() == old(Value()).Remove(e)
    {
      if e in events {
        events := events - multiset{e};
      }
    }

    method Add(e: EventSP)
      modifies this`eventsSP
      ensures Value() == old(Value()).Add(e)
    {
      eventsSP := eventsSP + multiset{e};
    }

    method RemoveSP(e: EventSP)
      modifies this`eventsSP
      ensures Value() == old(Value()).RemoveSP(e)
    {
      if e in eventsSP {
        eventsSP := eventsSP - multiset{e};
      }
    }

    method ReplaceEvent(oldEvent: Event, newEvent: EventSP)
      modifies this
      ensures Value() == old(Value()).Remove(oldEvent).Add(newEvent)
    {
      Remove(oldEvent);
      Add(newEvent);
    }

    method TransitionPausedState(c: Context)
      modifies this
      ensures Value() == PauseTransition(c, old(Value()))
    {
      if c.state != MadsPaused {
        Add(SilentLkasDisable);
      }
    }

    method Silence(c: Context, applies: bool, event: Event, silent: EventSP)
      modifies this
      ensures Value() == Silenced(c, old(Value()), applies, event, silent)
    {
      if applies && event in events {
        ReplaceEvent(event, silent);
        TransitionPausedState(c);
      }
    }

    method UpdateLateralOnly(c: Context)
      modifies this
      ensures Value() == LateralOnly(c, old(Value()))
    {
      hide Silenced, Context.BrakePressed, PauseTransition;
      if !c.opEnabled && c.enabled {
        if c.car.standstill {
          Silence(c, true, DoorOpen, SilentDoorOpen);
          Silence(c, true, SeatbeltNotLatched, SilentSeatbeltNotLatched);
        } else {
          NotSilenced(c, Value(), DoorOpen, SilentDoorOpen);
          NotSilenced(c, Value(), SeatbeltNotLatched, SilentSeatbeltNotLatched);
        }
        Silence(c, c.car.vEgo < 2.5 || c.car.reverse, WrongGear, SilentWrongGear);
        Silence(c, true, ReverseGear, SilentReverseGear);
        Silence(c, true, BrakeHold, SilentBrakeHold);
        Silence(c, true, ParkBrake, SilentParkBrake);
        if c.brakeMode == Pause {
          if c.BrakePressed(Value()) {
            TransitionPausedState(c);
          }
        }
        Remove(PreEnableStandstill);
        Remove(BelowEngageSpeed);
        Remove(SpeedTooLow);
        Remove(CruiseDisabled);
        Remove(ManualRestart);
        Remove(EspActive);
      }
    }

    method UpdateEnabling(c: Context)
      modifies this
      ensures Value() == Enabling(c, old(Value()))
    {
      hide Events.Has, Events.Add, Events.Remove, Events.RemoveSP, Context.BrakePressed, Context.BlocksUnifiedEngagement, Context.SetsSpeed;
      var enables := Value().Has(PcmEnable) || Value().Has(ButtonEnable);
      if enables || c.SetsSpeed() {
        if Value().Has(WrongCarMode) {
          ReplaceEvent(WrongCarMode, WrongCarModeAlertOnly);
        }
      } else {
        Remove(WrongCarMode);
      }
      if enables {
        if c.BrakePressed(Value()) {
          Add(PedalPressedAlertOnly);
        }
        if c.BlocksUnifiedEngagement() {
          Remove(PcmEnable);
          Remove(ButtonEnable);
        }
      } else if c.mainEnabledToggle {
        if c.car.cruiseAvailable && !c.carPrev.cruiseAvailable {
          Add(LkasEnable);
        }
      }
    }

    method UpdateButtons(c: Context)
      modifies this
      ensures Value() == AllPressed(c, c.car.buttons, old(Value()))
    {
      hide Events.Add;
      var n := |c.car.buttons|;
      for i := 0 to n
        invariant Value() == AllPressed(c, c.car.buttons[..i], old(Value()))
      {
        var b := c.car.buttons[i];
        if b.kind == Cancel {
          if !c.opEnabled && c.opEnabledPrev {
            Add(ManualLongitudinalRequired);
          }
        }
        if b.kind == Lkas && b.pressed && (c.car.cruiseAvailable || c.allowAlways) {
          if c.enabled {
            if c.opEnabled {
              Add(ManualSteeringRequired);
            } else {
              Add(LkasDisable);
            }
          } else {
            Add(LkasEnable);
          }
        }
        assert c.car.buttons[..i + 1][..i] == c.car.buttons[..i];
      }
      assert c.car.buttons[..n] == c.car.buttons;
    }

    method UpdateClosing(c: Context)
      modifies this
      ensures Value() == Closing(c, old(Value()))
    {
      hide Events.Add, Events.Remove, Events.RemoveSP, Table.SPContains;
      if !c.car.cruiseAvailable && !c.noMainCruise {
        Remove(ButtonEnable);
        if c.carPrev.cruiseAvailable {
          Add(LkasDisable);
        }
      }
      if c.brakeMode == Disengage {
        if c.BrakePressed(Value()) {
          if c.enabled {
            Add(LkasDisable);
          } else {
            if c.types.SPContains(eventsSP, Name(LkasEnable)) {
              RemoveSP(LkasEnable);
              Add(PedalPressedAlertOnly);
            }
          }
        }
      }
      if !(c.brakeMode == Pause && c.BrakePressed(Value())) && !AnyInSP(PAUSING_SILENT, eventsSP) {
        if c.state == MadsPaused {
          Add(SilentLkasEnable);
        }
      }
      if c.lateralMismatch >= 200 {
        Add(ControlsMismatchLateral);
      }
      Remove(PcmDisable);
      Remove(ButtonCancel);
      Remove(PedalPressed);
      Remove(WrongCruiseMode);
    }

    method UpdateEvents(c: Context)
      modifies this
      ensures Value() == Rewritten(c, old(Value()))
    {
      hide LateralOnly, Enabling, AllPressed, Closing;
      UpdateLateralOnly(c);
      UpdateEnabling(c);
      UpdateButtons(c);
      UpdateClosing(c);
    }

    /** What the MADS machine is shown. */
    method View(opEnabled: bool) returns (v: MadsView)
      ensures v == ViewOf(types, Value(), opEnabled)
    {
      v := MadsView(types.OpSees(events) + types.SPSees(eventsSP), SilentLkasDisable in eventsSP,
                    AnyIn(PAUSING, events) || AnyInSP(PAUSING_SILENT, eventsSP), opEnabled);
    }
  }

  lemma NotSilenced(c: Context, e: Events, event: Event, silent: EventSP)
    ensures Silenced(c, e, false, event, silent) == e
  {
  }

  function ViewOf(t: Table, e: Events, opEnabled: bool): MadsView {
    MadsView(t.OpSees(e.op) + t.SPSees(e.sp), SilentLkasDisable in e.sp,
             AnyIn(PAUSING, e.op) || AnyInSP(PAUSING_SILENT, e.sp), opEnabled)
  }

  // ---------------------------------------------------------------- what the rewriting promises

  /** `r` has no openpilot event that `e` lacks and all MADS events of `e`. */
  ghost predicate Shrinks(e: Events, r: Events) {
    r.op <= e.op && e.sp <= r.sp
  }

  lemma Steps()
    ensures forall e: Events, x: Event :: Shrinks(e, e.Remove(x))
    ensures forall e: Events, x: EventSP :: Shrinks(e, e.Add(x))
    ensures forall e: Events, f: Events, g: Events {:trigger Shrinks(e, f), Shrinks(f, g)} :: Shrinks(e, f) && Shrinks(f, g) ==> Shrinks(e, g)
    ensures forall e: Events :: Shrinks(e, e)
  {
  }

  lemma SilencedShrinks(c: Context, e: Events, applies: bool, event: Event, silent: EventSP)
    ensures Shrinks(e, Silenced(c, e, applies, event, silent))
  {
    Steps();
    hide Shrinks, Events.Add, Events.Remove, Events.RemoveSP;
  }

  lemma LateralOnlyShrinks(c: Context, e: Events)
    ensures Shrinks(e, LateralOnly(c, e))
  {
    Steps();
    hide Shrinks, Events.Add, Events.Remove, Events.RemoveSP, Silenced, Context.BrakePressed;
    forall e, applies, event, silent ensures Shrinks(e, Silenced(c, e, applies, event, silent)) {
      SilencedShrinks(c, e, applies, event, silent);
    }
  }

  lemma {:induction false} AllPressedShrinks(c: Context, buttons: seq<Button>, e: Events)
    ensures Shrinks(e, AllPressed(c, buttons, e))
  {
    Steps();
    hide Shrinks, Events.Add, Events.Remove, Events.RemoveSP;
    if |buttons| > 0 {
      AllPressedShrinks(c, buttons[..|buttons| - 1], e);
    }
  }

  lemma EnablingShrinks(c: Context, e: Events)
    ensures Shrinks(e, Enabling(c, e))
  {
    Steps();
    hide Shrinks, Events.Add, Events.Remove, Events.RemoveSP, Context.BrakePressed, Context.BlocksUnifiedEngagement, Context.SetsSpeed;
  }

  /** Asked for an event's name, `contains` says no whatever the list holds. */
  lemma NameIsNoKey(t: Table, events: multiset<EventSP>)
    requires t.KeysAreTypes()
    ensures !t.SPContains(events, Name(LkasEnable))
  {
    forall e | e in events ensures Name(LkasEnable) !in t.sp(e) {
      assert Name(LkasEnable) in t.sp(e) ==> Name(LkasEnable).Type?;
    }
  }

  lemma BrakePartsShrink(c: Context, e: Events)
    ensures Shrinks(e, BeforeBrake(c, e)) && Shrinks(e, Braked(c, e, false)) && Shrinks(e, AfterBrake(c, e))
  {
    Steps();
    hide Shrinks, Events.Add, Events.Remove, Events.RemoveSP, Context.BrakePressed, SilentEnable;
  }

  lemma ClosingShrinks(c: Context, e: Events)
    requires c.types.KeysAreTypes()
    ensures Shrinks(e, Closing(c, e))
  {
    Steps();
    hide Shrinks, BeforeBrake, Braked, AfterBrake, Table.SPContains;
    var e1 := BeforeBrake(c, e);
    NameIsNoKey(c.types, e1.sp);
    BrakePartsShrink(c, e);
    BrakePartsShrink(c, e1);
    BrakePartsShrink(c, Braked(c, e1, false));
  }

  /** MADS only takes away openpilot events and only adds events of its own. */
  lemma RewritingShrinks(c: Context, e: Events)
    requires c.types.KeysAreTypes()
    ensures Rewritten(c, e).op <= e.op && e.sp <= Rewritten(c, e).sp
  {
    assert Shrinks(e, Rewritten(c, e)) by {
      Steps();
      hide Shrinks, LateralOnly, Enabling, AllPressed, Closing;
      LateralOnlyShrinks(c, e);
      EnablingShrinks(c, LateralOnly(c, e));
      AllPressedShrinks(c, c.car.buttons, Enabling(c, LateralOnly(c, e)));
      ClosingShrinks(c, AllPressed(c, c.car.buttons, Enabling(c, LateralOnly(c, e))));
    }
  }

  lemma Members()
    ensures forall e: Events, x: EventSP, y: Event :: e.Add(x).Has(y) <==> e.Has(y)
    ensures forall e: Events, x: EventSP, y: EventSP :: e.Add(x).HasSP(y) <==> e.HasSP(y) || y == x
    ensures forall e: Events, x: Event, y: EventSP :: e.Remove(x).HasSP(y) <==> e.HasSP(y)
    ensures forall e: Events, x: Event, y: Event :: y != x ==> (e.Remove(x).Has(y) <==> e.Has(y))
    ensures forall e: Events, x: EventSP, y: EventSP :: y != x ==> (e.RemoveSP(x).HasSP(y) <==> e.HasSP(y))
    ensures forall e: Events, x: EventSP, y: Event :: e.RemoveSP(x).Has(y) <==> e.Has(y)
  {
  }

  // How often each openpilot event is left in the list.

  function Fewer(n: nat): nat {
    if n > 0 then n - 1 else 0
  }

  function Copies(e: Events, x: Event): nat {
    e.op[x]
  }

  lemma Counts(x: Event)
    ensures forall e: Events, y: EventSP :: Copies(e.Add(y), x) == Copies(e, x) == Copies(e.RemoveSP(y), x)
    ensures forall e: Events, y: Event :: Copies(e.Remove(y), x) == if x == y then Fewer(Copies(e, x)) else Copies(e, x)
  {
  }

  const ALWAYS_REMOVED: set<Event> := {PcmDisable, ButtonCancel, PedalPressed, WrongCruiseMode}

  const REMOVED_LATERAL_ONLY: set<Event> :=
    {PreEnableStandstill, BelowEngageSpeed, SpeedTooLow, CruiseDisabled, ManualRestart, EspActive}

  lemma LateralOnlyCount(c: Context, e: Events, x: Event)
    requires x !in PAUSING
    ensures Copies(LateralOnly(c, e), x)
         == if x in REMOVED_LATERAL_ONLY && !c.opEnabled && c.enabled then Fewer(Copies(e, x)) else Copies(e, x)
  {
    Counts(x);
    hide Copies, Events.Add, Events.Remove, Events.RemoveSP, Fewer, Context.BrakePressed, Events.Has;
    forall f, applies, event, silent ensures event in PAUSING ==> Copies(Silenced(c, f, applies, event, silent), x) == Copies(f, x) {}
    hide Silenced;
  }

  lemma EnablingCount(c: Context, e: Events, x: Event)
    requires x !in {WrongCarMode, PcmEnable, ButtonEnable}
    ensures Copies(Enabling(c, e), x) == Copies(e, x)
  {
    Counts(x);
    hide Copies, Events.Add, Events.Remove, Events.RemoveSP, Context.BrakePressed, Context.BlocksUnifiedEngagement, Context.SetsSpeed, Events.Has;
  }

  lemma {:induction false} ButtonsCount(c: Context, buttons: seq<Button>, e: Events, x: Event)
    ensures Copies(AllPressed(c, buttons, e), x) == Copies(e, x)
  {
    Counts(x);
    hide Copies, Events.Add, Events.Remove, Events.RemoveSP;
    if |buttons| > 0 {
      ButtonsCount(c, buttons[..|buttons| - 1], e, x);
    }
  }

  lemma ClosingCount(c: Context, e: Events, x: Event)
    requires x != ButtonEnable
    ensures Copies(Closing(c, e), x) == if x in ALWAYS_REMOVED then Fewer(Copies(e, x)) else Copies(e, x)
  {
    Counts(x);
    hide Copies, Events.Add, Events.Remove, Events.RemoveSP, Fewer, Context.BrakePressed, SilentEnable, Events.Has;
  }

  /**
   What is left of each openpilot event that is neither a pausing nor an enabling one: four events lose one occurrence
   always, six in a lateral-only engagement, and all others stay.
   */
  lemma OtherEventsStay(c: Context, e: Events, x: Event)
    requires x !in PAUSING && x !in {WrongCarMode, PcmEnable, ButtonEnable}
    ensures Copies(Rewritten(c, e), x)
         == if x in ALWAYS_REMOVED || (x in REMOVED_LATERAL_ONLY && !c.opEnabled && c.enabled)
            then Fewer(Copies(e, x)) else Copies(e, x)
  {
    hide Copies, LateralOnly, Enabling, AllPressed, Closing, Fewer;
    var e1 := LateralOnly(c, e);
    var e2 := Enabling(c, e1);
    LateralOnlyCount(c, e, x);
    EnablingCount(c, e1, x);
    ButtonsCount(c, c.car.buttons, e2, x);
    ClosingCount(c, AllPressed(c, c.car.buttons, e2), x);
  }

  /** A lateral-only engagement that meets one of the conditions under which MADS pauses. */
  ghost predicate MustPause(c: Context, e: Events) {
    && !c.opEnabled && c.enabled && c.state != MadsPaused
    && (|| (c.car.standstill && (e.Has(DoorOpen) || e.Has(SeatbeltNotLatched)))
        || ((c.car.vEgo < 2.5 || c.car.reverse) && e.Has(WrongGear))
        || e.Has(ReverseGear) || e.Has(BrakeHold) || e.Has(ParkBrake)
        || (c.brakeMode == Pause && c.BrakePressed(e)))
  }

  lemma {:induction false} ButtonsKeep(c: Context, buttons: seq<Button>, e: Events, x: EventSP)
    requires x == SilentLkasDisable || x == ControlsMismatchLateral
    ensures AllPressed(c, buttons, e).HasSP(x) <==> e.HasSP(x)
  {
    Members();
    hide Events.Has, Events.HasSP, Events.Add, Events.Remove, Events.RemoveSP;
    if |buttons| > 0 {
      ButtonsKeep(c, buttons[..|buttons| - 1], e, x);
    }
  }

  lemma EnablingKeeps(c: Context, e: Events, x: EventSP)
    requires x == SilentLkasDisable || x == ControlsMismatchLateral
    ensures Enabling(c, e).HasSP(x) <==> e.HasSP(x)
  {
    Members();
    hide Events.Has, Events.HasSP, Events.Add, Events.Remove, Events.RemoveSP, Context.BrakePressed, Context.BlocksUnifiedEngagement, Context.SetsSpeed;
  }

  lemma BrakePartsKeep(c: Context, e: Events, x: EventSP)
    requires x == SilentLkasDisable || x == LkasEnable
    ensures BeforeBrake(c, e).HasSP(x) <==> e.HasSP(x)
    ensures AfterBrake(c, e).HasSP(x) <==> e.HasSP(x)
    ensures forall found :: !found || x == SilentLkasDisable ==> (Braked(c, e, found).HasSP(x) <==> e.HasSP(x))
  {
    Members();
    hide Events.Has, Events.HasSP, Events.Add, Events.Remove, Events.RemoveSP, Context.BrakePressed, SilentEnable;
  }

  lemma ClosingKeeps(c: Context, e: Events, x: EventSP)
    requires x == SilentLkasDisable || (x == LkasEnable && c.types.KeysAreTypes())
    ensures Closing(c, e).HasSP(x) <==> e.HasSP(x)
  {
    var e1 := BeforeBrake(c, e);
    var found := c.types.SPContains(e1.sp, Name(LkasEnable));
    if x == LkasEnable { NameIsNoKey(c.types, e1.sp); }
    hide BeforeBrake, Braked, AfterBrake, Table.SPContains, Events.HasSP;
    BrakePartsKeep(c, e, x);
    BrakePartsKeep(c, e1, x);
    BrakePartsKeep(c, Braked(c, e1, found), x);
  }

  lemma SilencedFacts(c: Context)
    ensures forall e, applies, event, silent :: silent in PAUSING_SILENT ==>
      var r := Silenced(c, e, applies, event, silent);
      && (r.HasSP(SilentLkasDisable) <==> e.HasSP(SilentLkasDisable) || (applies && e.Has(event) && c.state != MadsPaused))
      && (r.HasSP(LkasEnable) <==> e.HasSP(LkasEnable)) && (r.HasSP(ControlsMismatchLateral) <==> e.HasSP(ControlsMismatchLateral))
      && forall y :: y != event ==> (r.Has(y) <==> e.Has(y))
  {
    Members();
    hide Events.Has, Events.HasSP, Events.Add, Events.Remove, Events.RemoveSP;
  }

  lemma LateralOnlyKeeps(c: Context, e: Events, x: EventSP)
    requires x == LkasEnable || x == ControlsMismatchLateral
    ensures LateralOnly(c, e).HasSP(x) <==> e.HasSP(x)
  {
    Members();
    SilencedFacts(c);
    hide Events.Has, Events.HasSP, Events.Add, Events.Remove, Events.RemoveSP, Silenced, Context.BrakePressed;
  }

  lemma LateralOnlyKeepsEnable(c: Context, e: Events, x: Event)
    requires x == PcmEnable || x == ButtonEnable || x == WrongCarMode
    ensures LateralOnly(c, e).Has(x) <==> e.Has(x)
  {
    Members();
    SilencedFacts(c);
    hide Events.Has, Events.HasSP, Events.Add, Events.Remove, Events.RemoveSP, Silenced, Context.BrakePressed;
  }

  lemma LateralOnlySilences(c: Context, e: Events)
    ensures LateralOnly(c, e).HasSP(SilentLkasDisable) <==> e.HasSP(SilentLkasDisable) || MustPause(c, e)
  {
    Members();
    SilencedFacts(c);
    hide Events.Has, Events.HasSP, Events.Add, Events.Remove, Events.RemoveSP, Silenced, Context.GasExplainsPedal;
  }

  /** The silent disable event is shown exactly when it was there already or one of the pausing conditions is met. */
  lemma SilentDisableIffPausing(c: Context, e: Events)
    ensures Rewritten(c, e).HasSP(SilentLkasDisable) <==> e.HasSP(SilentLkasDisable) || MustPause(c, e)
  {
    hide LateralOnly, Enabling, AllPressed, Closing, MustPause;
    LateralOnlySilences(c, e);
    var e1 := LateralOnly(c, e);
    var e2 := Enabling(c, e1);
    EnablingKeeps(c, e1, SilentLkasDisable);
    ButtonsKeep(c, c.car.buttons, e2, SilentLkasDisable);
    ClosingKeeps(c, AllPressed(c, c.car.buttons, e2), SilentLkasDisable);
  }

  /** A gear, door, belt or brake condition pauses a lateral-only engagement in the same step, whatever else is present. */
  lemma LateralOnlyPauses(c: Context, e: Events, timer: int)
    requires c.types.Known() && MustPause(c, e) && c.enabled == MadsIsEnabled(c.state)
    ensures MadsNext(c.state, timer, ViewOf(c.types, Rewritten(c, e), c.opEnabled)) == MadsPaused
  {
    hide Rewritten;
    SilentDisableIffPausing(c, e);
    var r := Rewritten(c, e);
    assert c.types.SPHas(r.sp, USER_DISABLE);
  }

  lemma ClosingReports(c: Context, e: Events)
    ensures Closing(c, e).HasSP(ControlsMismatchLateral) <==> e.HasSP(ControlsMismatchLateral) || c.lateralMismatch >= 200
  {
    Members();
    hide Events.Has, Events.HasSP, Events.Add, Events.Remove, Events.RemoveSP, Context.BrakePressed, SilentEnable;
  }

  /** The lateral mismatch is reported exactly from the 200th mismatching sample on. */
  lemma MismatchIsReported(c: Context, e: Events)
    ensures Rewritten(c, e).HasSP(ControlsMismatchLateral) <==> e.HasSP(ControlsMismatchLateral) || c.lateralMismatch >= 200
  {
    hide LateralOnly, Enabling, AllPressed, Closing;
    var e1 := LateralOnly(c, e);
    var e2 := Enabling(c, e1);
    LateralOnlyKeeps(c, e, ControlsMismatchLateral);
    EnablingKeeps(c, e1, ControlsMismatchLateral);
    ButtonsKeep(c, c.car.buttons, e2, ControlsMismatchLateral);
    ClosingReports(c, AllPressed(c, c.car.buttons, e2));
  }

  /** An enabling press of the lane-keeping button. */
  ghost predicate EnablePressed(c: Context, buttons: seq<Button>) {
    !c.enabled && (c.car.cruiseAvailable || c.allowAlways)
    && exists i :: 0 <= i < |buttons| && buttons[i] == Button(Lkas, true)
  }

  lemma {:induction false} ButtonsEnable(c: Context, buttons: seq<Button>, e: Events)
    ensures AllPressed(c, buttons, e).HasSP(LkasEnable) <==> e.HasSP(LkasEnable) || EnablePressed(c, buttons)
  {
    if |buttons| > 0 {
      var n := |buttons| - 1;
      ButtonsEnable(c, buttons[..n], e);
      assert EnablePressed(c, buttons) <==> EnablePressed(c, buttons[..n]) || EnablePressed(c, [buttons[n]]) by {
        if EnablePressed(c, buttons[..n]) {
          var i :| 0 <= i < n && buttons[..n][i] == Button(Lkas, true);
          assert buttons[i] == Button(Lkas, true);
        }
        if EnablePressed(c, [buttons[n]]) {
          assert buttons[n] == [buttons[n]][0];
        }
        if EnablePressed(c, buttons) {
          var i :| 0 <= i < |buttons| && buttons[i] == Button(Lkas, true);
          assert i == n ==> [buttons[n]][0] == Button(Lkas, true);
          assert i < n ==> buttons[..n][i] == Button(Lkas, true);
        }
      }
      assert EnablePressed(c, [buttons[n]]) <==> !c.enabled && (c.car.cruiseAvailable || c.allowAlways) && buttons[n] == Button(Lkas, true) by {
        assert [buttons[n]][0] == buttons[n];
      }
      hide EnablePressed;
    }
  }

  /** The main cruise switch has just been turned on and nothing else engages. */
  ghost predicate MainSwitchEnables(c: Context, e: Events) {
    && !e.Has(PcmEnable) && !e.Has(ButtonEnable)
    && c.mainEnabledToggle && c.car.cruiseAvailable && !c.carPrev.cruiseAvailable
  }

  lemma SwitchEnables(c: Context, e: Events)
    ensures Enabling(c, e).HasSP(LkasEnable) <==> e.HasSP(LkasEnable) || MainSwitchEnables(c, e)
  {
    Members();
    hide Events.Has, Events.HasSP, Events.Add, Events.Remove, Events.RemoveSP, Context.BrakePressed, Context.BlocksUnifiedEngagement, Context.SetsSpeed;
  }

  /**
   With the disengage mode and the brake pressed the source means to take `lkasEnable` back. It never does: the event
   is shown to the machine exactly when something asked for it, brake or not.
   */
  lemma EnableIsNeverTakenBack(c: Context, e: Events)
    requires c.types.KeysAreTypes()
    ensures Rewritten(c, e).HasSP(LkasEnable) <==> EnableAsked(c, e)
  {
    hide LateralOnly, Enabling, AllPressed, Closing, EnablePressed;
    EnableAtClosing(c, e);
    ClosingKeeps(c, AllPressed(c, c.car.buttons, Enabling(c, LateralOnly(c, e))), LkasEnable);
  }

  /** Something asked to engage: the event was there, the main switch was turned on, or the button was pressed. */
  ghost predicate EnableAsked(c: Context, e: Events) {
    e.HasSP(LkasEnable) || MainSwitchEnables(c, e) || EnablePressed(c, c.car.buttons)
  }

  /** What the last part of the rewriting is given. */
  function AtClosing(c: Context, e: Events): Events {
    AllPressed(c, c.car.buttons, Enabling(c, LateralOnly(c, e)))
  }

  lemma EnableAtClosing(c: Context, e: Events)
    ensures AtClosing(c, e).HasSP(LkasEnable) <==> EnableAsked(c, e)
  {
    hide LateralOnly, Enabling, AllPressed, EnablePressed;
    var e1 := LateralOnly(c, e);
    LateralOnlyKeeps(c, e, LkasEnable);
    LateralOnlyKeepsEnable(c, e, PcmEnable);
    LateralOnlyKeepsEnable(c, e, ButtonEnable);
    SwitchEnables(c, e1);
    ButtonsEnable(c, c.car.buttons, Enabling(c, e1));
  }

  // ---------------------------------------------------------------- why each MADS event is shown

  /** Why a lateral-only engagement shows an event. */
  ghost predicate LateralReason(c: Context, e: Events, x: EventSP) {
    && !c.opEnabled && c.enabled
    && match x
       case SilentDoorOpen => c.car.standstill && e.Has(DoorOpen)
       case SilentSeatbeltNotLatched => c.car.standstill && e.Has(SeatbeltNotLatched)
       case SilentWrongGear => (c.car.vEgo < 2.5 || c.car.reverse) && e.Has(WrongGear)
       case SilentReverseGear => e.Has(ReverseGear)
       case SilentBrakeHold => e.Has(BrakeHold)
       case SilentParkBrake => e.Has(ParkBrake)
       case SilentLkasDisable => MustPause(c, e)
       case _ => false
  }

  /** Why the treatment of enabling events shows one. */
  ghost predicate EnablingReason(c: Context, e: Events, x: EventSP) {
    var engages := e.Has(PcmEnable) || e.Has(ButtonEnable);
    match x
    case WrongCarModeAlertOnly => e.Has(WrongCarMode) && (engages || c.SetsSpeed())
    case PedalPressedAlertOnly => engages && c.BrakePressed(e)
    case LkasEnable => !engages && c.mainEnabledToggle && c.car.cruiseAvailable && !c.carPrev.cruiseAvailable
    case _ => false
  }

  /** A button that shows the event. */
  ghost predicate ButtonReason(c: Context, b: Button, x: EventSP) {
    match x
    case ManualLongitudinalRequired => b.kind == Cancel && !c.opEnabled && c.opEnabledPrev
    case LkasEnable => b == Button(Lkas, true) && (c.car.cruiseAvailable || c.allowAlways) && !c.enabled
    case ManualSteeringRequired => b == Button(Lkas, true) && (c.car.cruiseAvailable || c.allowAlways) && c.enabled && c.opEnabled
    case LkasDisable => b == Button(Lkas, true) && (c.car.cruiseAvailable || c.allowAlways) && c.enabled && !c.opEnabled
    case _ => false
  }

  ghost predicate SomeButton(c: Context, buttons: seq<Button>, x: EventSP) {
    exists b :: b in buttons && ButtonReason(c, b, x)
  }

  /** Why the last part shows one, besides the silent enabling event. */
  ghost predicate ClosingReason(c: Context, e: Events, x: EventSP) {
    match x
    case LkasDisable =>
      || (!c.car.cruiseAvailable && !c.noMainCruise && c.carPrev.cruiseAvailable)
      || (c.brakeMode == Disengage && c.BrakePressed(e) && c.enabled)
    case ControlsMismatchLateral => c.lateralMismatch >= 200
    case _ => false
  }

  /** Why an event other than the silent enabling one is shown, from what the step was given. */
  ghost predicate Reason(c: Context, e: Events, x: EventSP) {
    LateralReason(c, e, x) || EnablingReason(c, e, x) || SomeButton(c, c.car.buttons, x) || ClosingReason(c, e, x)
  }

  lemma SilencedShows(c: Context)
    ensures forall e, applies, event, silent, x :: Silenced(c, e, applies, event, silent).HasSP(x)
              <==> e.HasSP(x) || (applies && e.Has(event) && (x == silent || (x == SilentLkasDisable && c.state != MadsPaused)))
    ensures forall e, applies, event, silent, y :: y != event ==> (Silenced(c, e, applies, event, silent).Has(y) <==> e.Has(y))
  {
    Members();
    hide Events.Has, Events.HasSP, Events.Add, Events.Remove, Events.RemoveSP;
  }

  lemma LateralOnlyShows(c: Context, e: Events, x: EventSP)
    ensures LateralOnly(c, e).HasSP(x) <==> e.HasSP(x) || LateralReason(c, e, x)
  {
    Members();
    SilencedShows(c);
    hide Events.Has, Events.HasSP, Events.Add, Events.Remove, Events.RemoveSP, Silenced, Context.GasExplainsPedal;
  }

  lemma EnablingShows(c: Context, e: Events, x: EventSP)
    ensures Enabling(c, e).HasSP(x) <==> e.HasSP(x) || EnablingReason(c, e, x)
  {
    hide Events.Has, Events.HasSP, Events.Add, Events.Remove, Events.RemoveSP, Context.BrakePressed, Context.BlocksUnifiedEngagement, Context.SetsSpeed;
    Members();
    SameBrake(c);
  }

  lemma SameBrake(c: Context)
    ensures forall e: Events, f: Events ::
      (e.Has(PedalPressed) <==> f.Has(PedalPressed)) ==> (c.BrakePressed(e) <==> c.BrakePressed(f))
  {
  }

  lemma {:induction false} ButtonsShow(c: Context, buttons: seq<Button>, e: Events, x: EventSP)
    ensures AllPressed(c, buttons, e).HasSP(x) <==> e.HasSP(x) || SomeButton(c, buttons, x)
  {
    if |buttons| > 0 {
      var (before, b) := (buttons[..|buttons| - 1], buttons[|buttons| - 1]);
      ButtonsShow(c, before, e, x);
      PressedShows(c, b, AllPressed(c, before, e), x);
      assert buttons == before + [b];
      hide Pressed, ButtonReason;
    }
  }

  lemma PressedShows(c: Context, b: Button, e: Events, x: EventSP)
    ensures Pressed(c, b, e).HasSP(x) <==> e.HasSP(x) || ButtonReason(c, b, x)
  {
    Members();
    hide Events.Has, Events.HasSP, Events.Add, Events.Remove, Events.RemoveSP;
  }

  lemma ClosingShows(c: Context, e: Events, x: EventSP)
    requires c.types.KeysAreTypes() && x != SilentLkasEnable
    ensures Closing(c, e).HasSP(x) <==> e.HasSP(x) || ClosingReason(c, e, x)
  {
    hide Events.Has, Events.HasSP, Context.BrakePressed, Table.SPContains, BeforeBrake, Braked, AfterBrake;
    var e1 := BeforeBrake(c, e);
    NameIsNoKey(c.types, e1.sp);
    BeforeBrakeKeeps(c, e);
    BeforeBrakeShows(c, e, x);
    BrakedShows(c, e1, x);
    AfterBrakeShows(c, Braked(c, e1, false), x);
  }

  lemma BeforeBrakeShows(c: Context, e: Events, x: EventSP)
    ensures BeforeBrake(c, e).HasSP(x)
            <==> e.HasSP(x) || (x == LkasDisable && !c.car.cruiseAvailable && !c.noMainCruise && c.carPrev.cruiseAvailable)
  {
    hide Events.Has, Events.HasSP, Events.Add, Events.Remove;
    Members();
  }

  lemma BrakedShows(c: Context, e: Events, x: EventSP)
    ensures Braked(c, e, false).HasSP(x)
            <==> e.HasSP(x) || (x == LkasDisable && c.brakeMode == Disengage && c.BrakePressed(e) && c.enabled)
  {
    hide Events.Has, Events.HasSP, Events.Add, Context.BrakePressed;
    Members();
  }

  lemma AfterBrakeShows(c: Context, e: Events, x: EventSP)
    requires x != SilentLkasEnable
    ensures AfterBrake(c, e).HasSP(x) <==> e.HasSP(x) || (x == ControlsMismatchLateral && c.lateralMismatch >= 200)
  {
    hide Events.Has, Events.HasSP, Events.Add, Events.Remove, SilentEnable;
    Members();
  }

  lemma EnablingSameBefore(c: Context, e: Events, x: EventSP)
    ensures EnablingReason(c, LateralOnly(c, e), x) <==> EnablingReason(c, e, x)
  {
    hide LateralOnly, Context.BrakePressed, Context.SetsSpeed, Events.Has;
    LateralOnlyKeepsEnable(c, e, PcmEnable);
    LateralOnlyKeepsEnable(c, e, ButtonEnable);
    LateralOnlyKeepsEnable(c, e, WrongCarMode);
    LateralOnlyKeepsBrake(c, e);
  }

  lemma LateralOnlyKeepsBrake(c: Context, e: Events)
    ensures c.BrakePressed(LateralOnly(c, e)) <==> c.BrakePressed(e)
  {
    hide LateralOnly;
    LateralOnlyCount(c, e, PedalPressed);
  }

  /** Every MADS event but the silent enabling one is shown exactly when it was there or one of its reasons holds. */
  lemma ShownIffReason(c: Context, e: Events, x: EventSP)
    requires c.types.KeysAreTypes() && x != SilentLkasEnable
    ensures Rewritten(c, e).HasSP(x) <==> e.HasSP(x) || Reason(c, e, x)
  {
    BrakeAtClosing(c, e);
    hide LateralOnly, Enabling, AllPressed, Closing, LateralReason, EnablingReason, SomeButton, Events.HasSP, Context.BrakePressed;
    var e1 := LateralOnly(c, e);
    var e2 := Enabling(c, e1);
    var e3 := AllPressed(c, c.car.buttons, e2);
    LateralOnlyShows(c, e, x);
    EnablingShows(c, e1, x);
    EnablingSameBefore(c, e, x);
    ButtonsShow(c, c.car.buttons, e2, x);
    ClosingShows(c, e3, x);
  }

  /** A pedal event counts as the brake unless the gas has just been pressed and is set to disengage. */
  lemma BrakeTells(c: Context, e: Events)
    ensures c.BrakePressed(e)
            <==> PedalPressed in e.op && (!c.disengageOnAccelerator || !c.car.gasPressed || c.carPrev.gasPressed)
  {
  }

  /** The alert-only wrong car mode in particular: with an enabling event or one of the four set-speed buttons. */
  lemma WrongCarModeIff(c: Context, e: Events)
    requires c.types.KeysAreTypes()
    ensures Rewritten(c, e).HasSP(WrongCarModeAlertOnly)
            <==> || e.HasSP(WrongCarModeAlertOnly)
                 || (&& WrongCarMode in e.op
                     && (|| PcmEnable in e.op || ButtonEnable in e.op
                         || exists b :: b in c.car.buttons && (|| b.kind == AccelCruise || b.kind == ResumeCruise
                                                               || b.kind == DecelCruise || b.kind == SetCruise)))
  {
    SetSpeedTells(c);
    hide Rewritten, Events.HasSP, Context.SetsSpeed;
    ShownIffReason(c, e, WrongCarModeAlertOnly);
  }

  lemma SetSpeedTells(c: Context)
    ensures c.SetsSpeed() <==> exists b :: b in c.car.buttons && (|| b.kind == AccelCruise || b.kind == ResumeCruise
                                                                  || b.kind == DecelCruise || b.kind == SetCruise)
  {
    if c.SetsSpeed() {
      var i :| 0 <= i < |c.car.buttons| && c.car.buttons[i].kind in {AccelCruise, ResumeCruise, DecelCruise, SetCruise};
      assert c.car.buttons[i] in c.car.buttons;
    }
  }

  /** The lane-keeping disable in particular: the button with MADS alone engaged, the cruise switched off, or the brake. */
  lemma LkasDisableIff(c: Context, e: Events)
    requires c.types.KeysAreTypes()
    ensures Rewritten(c, e).HasSP(LkasDisable)
            <==> || e.HasSP(LkasDisable)
                 || (c.enabled && !c.opEnabled && (c.car.cruiseAvailable || c.allowAlways) && Button(Lkas, true) in c.car.buttons)
                 || (!c.car.cruiseAvailable && !c.noMainCruise && c.carPrev.cruiseAvailable)
                 || (&& c.brakeMode == Disengage && c.enabled && PedalPressed in e.op
                     && (!c.disengageOnAccelerator || !c.car.gasPressed || c.carPrev.gasPressed))
  {
    BrakeTells(c, e);
    hide Rewritten, Events.HasSP, Context.BrakePressed;
    ShownIffReason(c, e, LkasDisable);
  }

  /**
   The silent enabling event: only from the paused state, and when nothing pauses any longer, neither the brake nor a silent
   event given or made in this step.
   */
  lemma SilentEnableIff(c: Context, e: Events)
    requires c.types.KeysAreTypes()
    ensures Rewritten(c, e).HasSP(SilentLkasEnable)
            <==> || e.HasSP(SilentLkasEnable)
                 || (&& c.state == MadsPaused && !(c.brakeMode == Pause && c.BrakePressed(e))
                     && forall y :: y in PAUSING_SILENT ==> !e.HasSP(y) && !LateralReason(c, e, y))
  {
    BrakeAtClosing(c, e);
    var e1 := LateralOnly(c, e);
    var e2 := Enabling(c, e1);
    var e3 := AllPressed(c, c.car.buttons, e2);
    hide LateralOnly, Enabling, AllPressed, Closing, LateralReason, Events.HasSP, Context.BrakePressed;
    forall x | x == SilentLkasEnable || x in PAUSING_SILENT ensures e3.HasSP(x) <==> e.HasSP(x) || LateralReason(c, e, x) {
      LateralOnlyShows(c, e, x);
      EnablingShows(c, e1, x);
      ButtonsShow(c, c.car.buttons, e2, x);
    }
    assert !LateralReason(c, e, SilentLkasEnable) by { LateralReasonOf(c, e); }
    SilentAtClosing(c, e3);
  }

  lemma LateralReasonOf(c: Context, e: Events)
    ensures !LateralReason(c, e, SilentLkasEnable)
  {
  }

  lemma SilentAtClosing(c: Context, e: Events)
    requires c.types.KeysAreTypes()
    ensures Closing(c, e).HasSP(SilentLkasEnable)
            <==> || e.HasSP(SilentLkasEnable)
                 || (&& c.state == MadsPaused && !(c.brakeMode == Pause && c.BrakePressed(e))
                     && forall y :: y in PAUSING_SILENT ==> !e.HasSP(y))
  {
    hide Events.Has, Events.HasSP, Context.BrakePressed, Table.SPContains, Braked, BeforeBrake, AnyInSP, AfterBrake;
    var e1 := BeforeBrake(c, e);
    var e2 := Braked(c, e1, false);
    NameIsNoKey(c.types, e1.sp);
    BeforeBrakeKeeps(c, e);
    SilentBeforeEnd(c, e);
    SilentAfterBrake(c, e2);
  }

  lemma SilentBeforeEnd(c: Context, e: Events)
    ensures var e2 := Braked(c, BeforeBrake(c, e), false);
            && (c.BrakePressed(e2) <==> c.BrakePressed(e))
            && forall y :: y in PAUSING_SILENT || y == SilentLkasEnable ==> (e2.HasSP(y) <==> e.HasSP(y))
  {
    hide Events.Has, Events.HasSP, Events.Add, Events.Remove, Events.RemoveSP, Context.BrakePressed;
    Members();
    BeforeBrakeKeeps(c, e);
    SameBrake(c);
  }

  lemma SilentAfterBrake(c: Context, e: Events)
    ensures AfterBrake(c, e).HasSP(SilentLkasEnable)
            <==> || e.HasSP(SilentLkasEnable)
                 || (&& c.state == MadsPaused && !(c.brakeMode == Pause && c.BrakePressed(e))
                     && forall y :: y in PAUSING_SILENT ==> !e.HasSP(y))
  {
    assert AnyInSP(PAUSING_SILENT, e.sp) <==> exists y :: y in PAUSING_SILENT && e.HasSP(y);
    hide Events.Has, Events.HasSP, Events.Add, Events.Remove, Events.RemoveSP, Context.BrakePressed, AnyInSP;
    Members();
  }

  /** The pausing events that a lateral-only engagement swaps for their silent forms. */
  ghost predicate LateralDrops(c: Context, x: Event) {
    && !c.opEnabled && c.enabled
    && (|| x in {ReverseGear, BrakeHold, ParkBrake}
        || (x in {DoorOpen, SeatbeltNotLatched} && c.car.standstill)
        || (x == WrongGear && (c.car.vEgo < 2.5 || c.car.reverse)))
  }

  lemma LateralOnlyCounts(c: Context, e: Events, x: Event)
    requires x in PAUSING
    ensures Copies(LateralOnly(c, e), x) == if LateralDrops(c, x) then Fewer(Copies(e, x)) else Copies(e, x)
  {
    hide Copies, Fewer, Context.BrakePressed, Silenced, Events.Remove, PauseTransition;
    if !c.opEnabled && c.enabled {
      var e1 := Silenced(c, e, c.car.standstill, DoorOpen, SilentDoorOpen);
      var e2 := Silenced(c, e1, c.car.standstill, SeatbeltNotLatched, SilentSeatbeltNotLatched);
      var e3 := Silenced(c, e2, c.car.vEgo < 2.5 || c.car.reverse, WrongGear, SilentWrongGear);
      var e4 := Silenced(c, e3, true, ReverseGear, SilentReverseGear);
      var e5 := Silenced(c, e4, true, BrakeHold, SilentBrakeHold);
      var e6 := Silenced(c, e5, true, ParkBrake, SilentParkBrake);
      var e7 := if c.brakeMode == Pause && c.BrakePressed(e6) then PauseTransition(c, e6) else e6;
      SilencedCounts(c, e, c.car.standstill, DoorOpen, SilentDoorOpen, x);
      SilencedCounts(c, e1, c.car.standstill, SeatbeltNotLatched, SilentSeatbeltNotLatched, x);
      SilencedCounts(c, e2, c.car.vEgo < 2.5 || c.car.reverse, WrongGear, SilentWrongGear, x);
      SilencedCounts(c, e3, true, ReverseGear, SilentReverseGear, x);
      SilencedCounts(c, e4, true, BrakeHold, SilentBrakeHold, x);
      SilencedCounts(c, e5, true, ParkBrake, SilentParkBrake, x);
      PauseCounts(c, e6, x);
      OthersRemoved(e7, x);
    }
  }

  lemma OthersRemoved(e: Events, x: Event)
    requires x in PAUSING
    ensures Copies(e.Remove(PreEnableStandstill).Remove(BelowEngageSpeed).Remove(SpeedTooLow).Remove(CruiseDisabled)
                    .Remove(ManualRestart).Remove(EspActive), x) == Copies(e, x)
  {
    Counts(x);
    hide Copies, Events.Remove;
  }

  lemma PauseCounts(c: Context, e: Events, x: Event)
    ensures Copies(PauseTransition(c, e), x) == Copies(e, x)
  {
  }

  lemma SilencedCounts(c: Context, e: Events, applies: bool, event: Event, silent: EventSP, x: Event)
    ensures Copies(Silenced(c, e, applies, event, silent), x) == if applies && x == event then Fewer(Copies(e, x)) else Copies(e, x)
  {
    Counts(x);
    assert !e.Has(event) ==> Copies(e, event) == 0;
    hide Copies, Events.Add, Events.Remove, Events.Has;
  }

  /** The pausing events: one occurrence goes exactly when its silent form replaces it. */
  lemma PausingEventsLeft(c: Context, e: Events, x: Event)
    requires x in PAUSING
    ensures Copies(Rewritten(c, e), x) == if LateralDrops(c, x) then Fewer(Copies(e, x)) else Copies(e, x)
  {
    hide Copies, LateralOnly, Enabling, AllPressed, Closing, Fewer, LateralDrops;
    var e1 := LateralOnly(c, e);
    var e2 := Enabling(c, e1);
    LateralOnlyCounts(c, e, x);
    EnablingCount(c, e1, x);
    ButtonsCount(c, c.car.buttons, e2, x);
    ClosingCount(c, AllPressed(c, c.car.buttons, e2), x);
  }

  lemma EnablingCounts(c: Context, e: Events, x: Event)
    requires x in {WrongCarMode, PcmEnable, ButtonEnable}
    ensures Copies(Enabling(c, e), x)
         == if x == WrongCarMode || ((e.Has(PcmEnable) || e.Has(ButtonEnable)) && c.BlocksUnifiedEngagement())
            then Fewer(Copies(e, x)) else Copies(e, x)
  {
    Counts(x);
    assert !e.Has(x) ==> Copies(e, x) == 0;
    hide Copies, Events.Add, Events.Remove, Events.RemoveSP, Context.BrakePressed, Context.BlocksUnifiedEngagement, Context.SetsSpeed, Events.Has;
  }

  lemma ClosingCounts(c: Context, e: Events, x: Event)
    requires x in {WrongCarMode, PcmEnable, ButtonEnable}
    ensures Copies(Closing(c, e), x)
         == if x == ButtonEnable && !c.car.cruiseAvailable && !c.noMainCruise then Fewer(Copies(e, x)) else Copies(e, x)
  {
    Counts(x);
    hide Copies, Events.Add, Events.Remove, Events.RemoveSP, Fewer, Context.BrakePressed, SilentEnable, Events.Has;
  }

  /**
   The wrong car mode loses one occurrence always. An enabling event stays exactly when MADS is off, unified engagement is
   on and openpilot has not been enabled for longer; `buttonEnable` loses one more with the main switch off.
   */
  lemma EnablingEventsLeft(c: Context, e: Events, x: Event)
    requires x in {WrongCarMode, PcmEnable, ButtonEnable}
    ensures var n := if x == WrongCarMode || ((e.Has(PcmEnable) || e.Has(ButtonEnable))
                                               && (!c.unifiedEngagementMode || c.enabled || (c.opEnabled && c.opEnabledPrev)))
                     then Fewer(Copies(e, x)) else Copies(e, x);
            Copies(Rewritten(c, e), x) == if x == ButtonEnable && !c.car.cruiseAvailable && !c.noMainCruise then Fewer(n) else n
  {
    hide Copies, LateralOnly, Enabling, AllPressed, Closing, Fewer, Events.Has;
    var e1 := LateralOnly(c, e);
    var e2 := Enabling(c, e1);
    LateralOnlyCount(c, e, x);
    LateralOnlyKeepsEnable(c, e, PcmEnable);
    LateralOnlyKeepsEnable(c, e, ButtonEnable);
    EnablingCounts(c, e1, x);
    ButtonsCount(c, c.car.buttons, e2, x);
    ClosingCounts(c, AllPressed(c, c.car.buttons, e2), x);
  }

  // ---------------------------------------------------------------- what was meant instead

  /** The last part with the test that the comment in the source describes: is the enabling event in the list? */
  function IntendedClosing(c: Context, e: Events): Events {
    var e1 := BeforeBrake(c, e);
    AfterBrake(c, Braked(c, e1, e1.HasSP(LkasEnable)))
  }

  function IntendedRewritten(c: Context, e: Events): Events {
    IntendedClosing(c, AtClosing(c, e))
  }

  function CopiesSP(e: Events, x: EventSP): nat {
    e.sp[x]
  }

  lemma CountsSP(x: EventSP)
    ensures forall e: Events, y: Event :: CopiesSP(e.Remove(y), x) == CopiesSP(e, x)
    ensures forall e: Events, y: EventSP :: CopiesSP(e.Add(y), x) == CopiesSP(e, x) + if x == y then 1 else 0
    ensures forall e: Events, y: EventSP :: CopiesSP(e.RemoveSP(y), x) == if x == y then Fewer(CopiesSP(e, x)) else CopiesSP(e, x)
  {
  }

  lemma AfterBrakeCount(c: Context, e: Events)
    ensures CopiesSP(AfterBrake(c, e), LkasEnable) == CopiesSP(e, LkasEnable)
  {
    CountsSP(LkasEnable);
    hide CopiesSP, Fewer, Events.Add, Events.Remove, Events.RemoveSP, SilentEnable;
  }

  lemma BeforeBrakeKeeps(c: Context, e: Events)
    ensures BeforeBrake(c, e).HasSP(LkasEnable) <==> e.HasSP(LkasEnable)
    ensures c.BrakePressed(BeforeBrake(c, e)) <==> c.BrakePressed(e)
  {
    Members();
    hide Events.Has, Events.HasSP, Events.Add, Events.Remove, Events.RemoveSP;
  }

  /** The last part differs from what was meant exactly when the event should have been taken back and is there. */
  lemma ClosingDiffersIff(c: Context, e: Events)
    requires c.types.KeysAreTypes()
    ensures Closing(c, e) != IntendedClosing(c, e)
            <==> c.brakeMode == Disengage && c.BrakePressed(e) && !c.enabled && e.HasSP(LkasEnable)
  {
    hide AfterBrake, BeforeBrake, Events.Has, Events.Add, Events.Remove, Events.RemoveSP, Table.SPContains, Fewer;
    var e1 := BeforeBrake(c, e);
    NameIsNoKey(c.types, e1.sp);
    BeforeBrakeKeeps(c, e);
    CountsSP(LkasEnable);
    AfterBrakeCount(c, Braked(c, e1, false));
    AfterBrakeCount(c, Braked(c, e1, true));
    if e1.HasSP(LkasEnable) {
      TakenBackIsFewer(e1);
    }
  }

  lemma TakenBackIsFewer(e: Events)
    requires e.HasSP(LkasEnable)
    ensures CopiesSP(e.RemoveSP(LkasEnable).Add(PedalPressedAlertOnly), LkasEnable) < CopiesSP(e, LkasEnable)
  {
  }

  lemma BrakeAtClosing(c: Context, e: Events)
    ensures c.BrakePressed(AtClosing(c, e)) <==> c.BrakePressed(e)
  {
    hide LateralOnly, Enabling, AllPressed;
    var e1 := LateralOnly(c, e);
    LateralOnlyCount(c, e, PedalPressed);
    EnablingCount(c, e1, PedalPressed);
    ButtonsCount(c, c.car.buttons, Enabling(c, e1), PedalPressed);
  }

  /**
   So the rewriting differs from the one meant exactly in disengage mode with the brake pressed, MADS off, and something
   asking to engage.
   */
  lemma RewritingDiffersIff(c: Context, e: Events)
    requires c.types.KeysAreTypes()
    ensures Rewritten(c, e) != IntendedRewritten(c, e)
            <==> c.brakeMode == Disengage && c.BrakePressed(e) && !c.enabled && EnableAsked(c, e)
  {
    hide LateralOnly, Enabling, AllPressed, Closing, IntendedClosing, EnableAsked, Events.Has, Events.HasSP;
    ClosingDiffersIff(c, AtClosing(c, e));
    EnableAtClosing(c, e);
    BrakeAtClosing(c, e);
  }

  /** A press of the lane-keeping button with the brake held in disengage mode still shows the enabling event. */
  lemma BrakeDoesNotBlock(types: Table, car: Car)
    requires types.KeysAreTypes() && car == Car(false, 20.0, false, false, true, [Button(Lkas, true)])
    ensures var c := Context(types, Disengage, true, false, false, false, false, MadsDisabled, false, 0, false, false, car, car);
            var e := Events(multiset{PedalPressed}, multiset{});
            c.BrakePressed(e) && Rewritten(c, e).HasSP(LkasEnable)
  {
    var c := Context(types, Disengage, true, false, false, false, false, MadsDisabled, false, 0, false, false, car, car);
    var e := Events(multiset{PedalPressed}, multiset{});
    assert c.car.buttons[0] == Button(Lkas, true);
    assert EnableAsked(c, e);
    assert c.BrakePressed(e);
    hide *;
    EnableIsNeverTakenBack(c, e);
  }

  /** And the machine then engages, unless some other event forbids entry. */
  lemma EngagesWithBrakeHeld(c: Context, e: Events, timer: int)
    requires c.brakeMode == Disengage && c.BrakePressed(e) && !c.enabled && c.state == MadsDisabled
    requires EnableAsked(c, e) && c.types.KeysAreTypes() && Type(ENABLE) in c.types.sp(LkasEnable)
    requires NO_ENTRY !in ViewOf(c.types, Rewritten(c, e), c.opEnabled).seen
    ensures MadsIsActive(MadsNext(c.state, timer, ViewOf(c.types, Rewritten(c, e), c.opEnabled)))
  {
    hide Rewritten, EnableAsked;
    EnableIsNeverTakenBack(c, e);
    assert c.types.SPHas(Rewritten(c, e).sp, ENABLE);
  }

  // ---------------------------------------------------------------- steps without anything to rewrite

  lemma AbsentStays(e: Events, x: Event)
    requires !e.Has(x)
    ensures e.Remove(x) == e
  {
    assert e.op - multiset{x} == e.op;
  }

  /** Neither pedal, buttons, switches nor cancelling events, and any engagement not lateral-only. */
  ghost predicate Quiet(c: Context, e: Events) {
    && (c.opEnabled || !c.enabled) && c.state != MadsPaused && c.lateralMismatch < 200
    && !c.mainEnabledToggle && c.car.cruiseAvailable && c.car.buttons == []
    && (forall x :: x in ALWAYS_REMOVED || x == WrongCarMode ==> !e.Has(x))
    && (e.Has(PcmEnable) || e.Has(ButtonEnable) ==> !c.BlocksUnifiedEngagement())
  }

  lemma QuietIsUnchanged(c: Context, e: Events)
    requires Quiet(c, e)
    ensures Rewritten(c, e) == e
  {
    AbsentStays(e, WrongCarMode);
    AbsentStays(e, PcmDisable);
    AbsentStays(e, ButtonCancel);
    AbsentStays(e, PedalPressed);
    AbsentStays(e, WrongCruiseMode);
    assert !c.BrakePressed(e);
    hide Events.Remove, Events.Add, Events.RemoveSP, Events.HasSP, Context.BrakePressed, Context.BlocksUnifiedEngagement,
         Table.SPContains, Context.SetsSpeed;
    assert LateralOnly(c, e) == e;
    assert Enabling(c, e) == e;
    assert AllPressed(c, c.car.buttons, e) == e;
  }
}
