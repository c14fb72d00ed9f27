/**
 OBD multiplexing requests and the switch to the car's safety mode (selfdrive/pandad/panda_safety.cc and
 selfdrive/car/card.py) over one onroad session.

 The two processes share nothing but a parameter store. Every read, write, removal or panda command is one step, and
 a run is any interleaving of the steps of the card process, of its background parameter writer and of pandad.
 */
module ObdHandshake {
  import opened Wrappers

  datatype CarParams = CarParams(alternativeExperience: int, safetyModel: int, safetyParam: int)

  datatype CarParamsSP = CarParamsSP(safetyParam: int)

  /** The parameters in use; an absent boolean reads as false. */
  datatype Store = Store(
    multiplexingEnabled: bool, multiplexingChanged: bool, firmwareQueryDone: bool, controlsReady: bool,
    carParams: Option<CarParams>, carParamsSP: Option<CarParamsSP>)

  datatype Command =
    | Elm327(param: int)
    | AlternativeExperience(experience: int, paramSP: int)
    | CarMode(model: int, param: int)

  // ---------------------------------------------------------------- pandad

  datatype PandadPc =
    | Begin
    | ReadRequest
    | Switch(requested: bool)
    | Acknowledge
    | ReadQueryDone
    | ReadReady
    | ReadCarParams
    | ReadCarParamsSP(params: Option<CarParams>)
    | SetAlternative(params: Option<CarParams>, paramsSP: Option<CarParamsSP>)
    | SetMode(carParams: CarParams)
    | Configured
    | Crashed

  datatype Safety = Safety(pc: PandadPc, initialized: bool, previous: bool, sent: seq<Command>)

  /** One step of `configureSafetyMode`, which the pandad loop calls again and again while onroad. */
  function SafetyStep(p: Safety, store: Store): (Safety, Store) {
    match p.pc
    case Begin =>
      if p.initialized then (p.(pc := ReadRequest), store)
      else (Safety(ReadRequest, true, false, p.sent + [Elm327(1)]), store)
    case ReadRequest =>
      var requested := store.multiplexingEnabled;
      (p.(pc := if requested != p.previous then Switch(requested) else ReadQueryDone), store)
    case Switch(requested) =>
      (p.(pc := Acknowledge, previous := requested, sent := p.sent + [Elm327(if requested then 0 else 1)]), store)
    case Acknowledge =>
      (p.(pc := ReadQueryDone), store.(multiplexingChanged := true))
    case ReadQueryDone =>
      (p.(pc := if store.firmwareQueryDone then ReadReady else Begin), store)
    case ReadReady =>
      (p.(pc := if store.controlsReady then ReadCarParams else Begin), store)
    case ReadCarParams =>
      (p.(pc := ReadCarParamsSP(store.carParams)), store)
    case ReadCarParamsSP(params) =>
      (p.(pc := SetAlternative(params, store.carParamsSP)), store)
    case SetAlternative(params, paramsSP) =>
      if params.None? || paramsSP.None? then (p.(pc := Crashed), store)
      else
        var command := AlternativeExperience(params.value.alternativeExperience, paramsSP.value.safetyParam);
        (p.(pc := SetMode(params.value), sent := p.sent + [command]), store)
    case SetMode(carParams) =>
      (p.(pc := Configured, sent := p.sent + [CarMode(carParams.safetyModel, carParams.safetyParam)]), store)
    case Configured => (p, store)
    case Crashed => (p, store)
  }

  // ---------------------------------------------------------------- card and the whole system

  /** `Querying` is the card process inside `get_car`, between requests. */
  datatype CardPc =
    | Querying
    | Remove(requested: bool)
    | Write(requested: bool)
    | Wait(requested: bool)
    | PutCarParams
    | PutCarParamsSP
    | Running

  /** `queued` tells whether ControlsReady waits in the background writer; `answered` lists the requests that waited. */
  datatype State = State(store: Store, safety: Safety, card: CardPc, queued: bool, answered: seq<bool>,
                         own: CarParams, ownSP: CarParamsSP)

  datatype Action = Request(multiplexing: bool) | FinishQuery | CardStep | WriterStep | PandadStep

  /** A step that cannot be taken changes nothing, so every sequence of actions is an interleaving. */
  function Step(s: State, a: Action): State {
    match a
    case PandadStep =>
      var (p, store) := SafetyStep(s.safety, s.store);
      s.(safety := p, store := store)
    case WriterStep =>
      if s.queued then s.(queued := false, store := s.store.(controlsReady := true)) else s
    case Request(b) =>
      if s.card == Querying && s.store.multiplexingEnabled != b then s.(card := Remove(b)) else s
    case FinishQuery =>
      if s.card == Querying then s.(card := PutCarParams, store := s.store.(firmwareQueryDone := true)) else s
    case CardStep =>
      match s.card
      case Querying => s
      case Remove(b) => s.(card := Write(b), store := s.store.(multiplexingChanged := false))
      case Write(b) => s.(card := Wait(b), store := s.store.(multiplexingEnabled := b))
      case Wait(b) => if s.store.multiplexingChanged then s.(card := Querying, answered := s.answered + [b]) else s
      case PutCarParams => s.(card := PutCarParamsSP, store := s.store.(carParams := Some(s.own)))
      case PutCarParamsSP => s.(card := Running, store := s.store.(carParamsSP := Some(s.ownSP)))
      case Running => s.(queued := true)
  }

  function Run(s: State, actions: seq<Action>): State
    decreases |actions|
  {
    if |actions| == 0 then s else Run(Step(s, actions[0]), actions[1..])
  }

  /** Onroad begins: the session flags are cleared and pandad has seen the offroad state; `previous` is left over. */
  ghost predicate Start(s: State) {
    && s.store == Store(false, false, false, false, None, None)
    && s.safety.pc == Begin && !s.safety.initialized && s.safety.sent == []
    && s.card == Querying && !s.queued && s.answered == []
  }

  // ---------------------------------------------------------------- the invariant

  ghost predicate InRequest(card: CardPc) {
    card.Remove? || card.Write? || card.Wait?
  }

  function Elms(multiplexing: seq<bool>): seq<Command> {
    seq(|multiplexing|, i requires 0 <= i < |multiplexing| => Elm327(if multiplexing[i] then 0 else 1))
  }

  /** The commands that the answered requests account for. */
  function Accounted(s: State): seq<Command> {
    [Elm327(1)] + Elms(s.answered)
  }

  function CarCommands(s: State): seq<Command> {
    match s.safety.pc
    case SetMode(_) => [AlternativeExperience(s.own.alternativeExperience, s.ownSP.safetyParam)]
    case Configured =>
      [AlternativeExperience(s.own.alternativeExperience, s.ownSP.safetyParam), CarMode(s.own.safetyModel, s.own.safetyParam)]
    case _ => []
  }

  /** What the card process has stored by the time it reaches its program point. */
  ghost predicate StoredByCard(s: State) {
    && (s.store.firmwareQueryDone <==> s.card in {PutCarParams, PutCarParamsSP, Running})
    && s.store.carParams == (if s.card in {PutCarParamsSP, Running} then Some(s.own) else None)
    && s.store.carParamsSP == (if s.card == Running then Some(s.ownSP) else None)
    && (s.queued || s.store.controlsReady ==> s.card == Running)
  }

  /** What pandad knows at its program point. */
  ghost predicate KnownToPandad(s: State) {
    match s.safety.pc
    case ReadReady => s.store.firmwareQueryDone
    case ReadCarParams => s.store.controlsReady
    case ReadCarParamsSP(params) => s.store.controlsReady && params == Some(s.own)
    case SetAlternative(params, paramsSP) => s.store.controlsReady && params == Some(s.own) && paramsSP == Some(s.ownSP)
    case SetMode(carParams) => s.store.controlsReady && carParams == s.own
    case Configured => s.store.controlsReady
    case Crashed => false
    case _ => true
  }

  /** Requests alternate, starting with multiplexing on. */
  ghost predicate Alternating(s: seq<bool>) {
    forall i :: 0 <= i < |s| ==> (s[i] <==> i % 2 == 0)
  }

  /** Before pandad's first step of the session. */
  ghost predicate Untouched(s: State) {
    && s.safety.pc == Begin && s.safety.sent == [] && s.answered == [] && !s.store.multiplexingChanged
    && (s.store.multiplexingEnabled <==> s.card.Wait?)
  }

  /** No switch is outstanding. */
  ghost predicate Settled(s: State) {
    && s.safety.sent == Accounted(s) + CarCommands(s)
    && s.safety.previous == s.store.multiplexingEnabled
    && !s.safety.pc.Switch? && !s.safety.pc.Acknowledge?
    && (s.store.multiplexingEnabled <==> |s.answered| % 2 == 1)
  }

  /** A request for `b` waits: not yet noticed, switched, or acknowledged. */
  ghost predicate Serving(s: State, b: bool) {
    && s.store.multiplexingEnabled == b
    && (b <==> |s.answered| % 2 == 0)
    && match s.safety.pc
       case Switch(requested) => requested == b && s.safety.previous == !b && !s.store.multiplexingChanged && s.safety.sent == Accounted(s)
       case Acknowledge => s.safety.previous == b && !s.store.multiplexingChanged && s.safety.sent == Accounted(s) + [Elm327(if b then 0 else 1)]
       case _ =>
         && (s.safety.pc == Begin || s.safety.pc == ReadRequest || s.safety.pc == ReadQueryDone)
         && if s.store.multiplexingChanged
            then s.safety.previous == b && s.safety.sent == Accounted(s) + [Elm327(if b then 0 else 1)]
            else s.safety.previous == !b && s.safety.sent == Accounted(s)
  }

  ghost predicate RequestDiffers(s: State) {
    && (s.card.Remove? || s.card.Write? ==> s.card.requested != s.store.multiplexingEnabled)
    && (s.card.Write? ==> !s.store.multiplexingChanged)
    && (s.card.Wait? ==> s.card.requested == s.store.multiplexingEnabled)
  }

  ghost predicate Inv(s: State) {
    && StoredByCard(s)
    && KnownToPandad(s)
    && Alternating(s.answered)
    && RequestDiffers(s)
    && (!s.safety.initialized ==> Untouched(s))
    && (s.safety.initialized ==> if s.card.Wait? then Serving(s, s.card.requested) else Settled(s))
  }

  lemma StartIsSafe(s: State)
    requires Start(s)
    ensures Inv(s)
  {
  }

  lemma PandadKeepsWaiting(s: State)
    requires Inv(s) && s.card.Wait?
    ensures Inv(Step(s, PandadStep))
  {
    assert Elms([]) == [];
    hide Elms;
  }

  lemma PandadKeepsSettled(s: State)
    requires Inv(s) && !s.card.Wait?
    ensures Inv(Step(s, PandadStep))
  {
    assert Elms([]) == [];
    hide Elms;
    var next := Step(s, PandadStep);
    assert next.answered == s.answered;
    if s.safety.initialized {
      assert Settled(s);
      assert next.safety.sent == Accounted(next) + CarCommands(next);
    }
  }

  lemma CardKeepsInv(s: State)
    requires Inv(s)
    ensures Inv(Step(s, CardStep))
  {
    if s.card.Wait? && s.store.multiplexingChanged {
      assert Elms(s.answered + [s.card.requested]) == Elms(s.answered) + [Elm327(if s.card.requested then 0 else 1)];
    }
  }

  lemma OthersKeepInv(s: State, a: Action)
    requires Inv(s) && (a.Request? || a == FinishQuery || a == WriterStep)
    ensures Inv(Step(s, a))
  {
  }

  lemma StepKeepsInv(s: State, a: Action)
    requires Inv(s)
    ensures Inv(Step(s, a))
  {
    hide Inv, Step;
    match a
    case PandadStep => if s.card.Wait? { PandadKeepsWaiting(s); } else { PandadKeepsSettled(s); }
    case CardStep => CardKeepsInv(s);
    case _ => OthersKeepInv(s, a);
  }

  lemma {:induction false} RunKeepsInv(s: State, actions: seq<Action>)
    requires Inv(s)
    ensures Inv(Run(s, actions))
    decreases |actions|
  {
    if |actions| > 0 {
      StepKeepsInv(s, actions[0]);
      RunKeepsInv(Step(s, actions[0]), actions[1..]);
    }
  }

  // ---------------------------------------------------------------- what every interleaving promises

  ghost predicate Reachable(s: State) {
    exists start: State, actions: seq<Action> :: Start(start) && s == Run(start, actions)
  }

  lemma ReachableInv(s: State)
    requires Reachable(s)
    ensures Inv(s)
  {
    hide Inv, Run;
    var start: State, actions: seq<Action> :| Start(start) && s == Run(start, actions);
    StartIsSafe(start);
    RunKeepsInv(start, actions);
  }

  /** A request that waits returns only when the last command sent is ELM327 with the multiplexing it asked for. */
  lemma WaitReturnsSwitched(s: State, b: bool)
    requires Reachable(s) && s.card == Wait(b) && s.store.multiplexingChanged
    ensures |s.safety.sent| > 0 && s.safety.sent[|s.safety.sent| - 1] == Elm327(if b then 0 else 1)
    ensures Step(s, CardStep).card == Querying
  {
    hide Run, Reachable;
    ReachableInv(s);
  }

  /** A request that returns at once finds the right mode set already, or no command sent and no multiplexing asked. */
  lemma ImmediateReturnIsRight(s: State, b: bool)
    requires Reachable(s) && s.card == Querying && Step(s, Request(b)) == s
    ensures if s.safety.sent == [] then !b else s.safety.sent[|s.safety.sent| - 1] == Elm327(if b then 0 else 1)
  {
    hide Run, Reachable;
    ReachableInv(s);
    var n := |s.answered|;
    assert n > 0 && s.safety.initialized ==> s.safety.sent[n] == Elm327(if s.answered[n - 1] then 0 else 1);
  }

  /**
   The whole history of commands: one initial ELM327 without multiplexing, one switch for each request that waited,
   in order and alternating, then the alternative experience and the car's mode of this session.
   */
  lemma CommandHistory(s: State)
    requires Reachable(s)
    ensures var switches := s.answered + if s.card.Wait? then [s.card.requested] else [];
            && Alternating(switches)
            && s.safety.sent <= [Elm327(1)] + Elms(switches)
                                + [AlternativeExperience(s.own.alternativeExperience, s.ownSP.safetyParam),
                                   CarMode(s.own.safetyModel, s.own.safetyParam)]
    ensures s.card == Querying && s.safety.sent != [] ==> s.safety.sent == [Elm327(1)] + Elms(s.answered)
  {
    hide Run, Reachable;
    ReachableInv(s);
    if s.card.Wait? {
      assert Elms(s.answered + [s.card.requested]) == Elms(s.answered) + [Elm327(if s.card.requested then 0 else 1)];
    }
  }

  /**
   In numbers: the parameters of the ELM327 commands alternate, starting with 1, so each differs from the one before; no
   other command comes between them.
   */
  lemma ElmsAlternate(s: State, i: nat)
    requires Reachable(s) && i < |s.safety.sent| && s.safety.sent[i].Elm327?
    ensures s.safety.sent[i] == Elm327(if i % 2 == 0 then 1 else 0)
    ensures i > 0 ==> s.safety.sent[i - 1].Elm327? && s.safety.sent[i - 1].param != s.safety.sent[i].param
  {
    CommandHistory(s);
    var switches := s.answered + if s.card.Wait? then [s.card.requested] else [];
    hide Run, Reachable;
  }

  /** With multiplexing asked for and the wait over, the number of ELM327 commands is even and the last parameter is 0. */
  lemma MultiplexingIsOn(s: State)
    requires Reachable(s) && s.card == Wait(true) && s.store.multiplexingChanged
    ensures |s.safety.sent| % 2 == 0 && |s.safety.sent| > 0 && s.safety.sent[|s.safety.sent| - 1] == Elm327(0)
  {
    hide Run, Reachable;
    ReachableInv(s);
  }

  /**
   The car's mode is set at most once, after which nothing more is sent; by then the card process has left `get_car`
   and both CarParams of this session are stored, and the mode and the experience before it are those of the session.
   */
  lemma CarModeOnceAndLast(s: State, i: nat)
    requires Reachable(s) && i < |s.safety.sent| && s.safety.sent[i].CarMode?
    ensures i == |s.safety.sent| - 1 && s.safety.pc == Configured && s.card == Running
    ensures s.store.carParams == Some(s.own) && s.store.carParamsSP == Some(s.ownSP)
    ensures i > 0 && s.safety.sent[i] == CarMode(s.own.safetyModel, s.own.safetyParam)
    ensures s.safety.sent[i - 1] == AlternativeExperience(s.own.alternativeExperience, s.ownSP.safetyParam)
  {
    hide Run, Reachable;
    ReachableInv(s);
  }

  /** While a request is under way only ELM327 commands have been sent. */
  lemma OnlyElmDuringRequest(s: State, i: nat)
    requires Reachable(s) && InRequest(s.card) && i < |s.safety.sent|
    ensures s.safety.sent[i].Elm327?
  {
    hide Run, Reachable;
    ReachableInv(s);
  }

  lemma {:induction false} ConfiguredForGood(s: State, actions: seq<Action>)
    requires Inv(s) && s.safety.pc == Configured
    ensures Run(s, actions).safety == s.safety
    decreases |actions|
  {
    if |actions| > 0 {
      StepKeepsInv(s, actions[0]);
      ConfiguredForGood(Step(s, actions[0]), actions[1..]);
    }
  }

  // ---------------------------------------------------------------- bounded response

  function PandadSteps(actions: seq<Action>): nat
    decreases |actions|
  {
    if |actions| == 0 then 0 else (if actions[0] == PandadStep then 1 else 0) + PandadSteps(actions[1..])
  }

  /** Pandad steps until a waiting request is acknowledged. */
  function UntilAcknowledged(s: State): nat {
    if s.store.multiplexingChanged then 0
    else match s.safety.pc
      case Acknowledge => 1
      case Switch(_) => 2
      case ReadRequest => 3
      case Begin => 4
      case _ => 5
  }

  lemma OneStepCloser(s: State, a: Action)
    requires Inv(s) && s.card.Wait? && !s.store.multiplexingChanged
    ensures Step(s, a).card == s.card
    ensures UntilAcknowledged(Step(s, a)) <= UntilAcknowledged(s) - if a == PandadStep then 1 else 0
  {
    hide Elms, Alternating;
  }

  /** Whatever else happens, a waiting request may return after at most five pandad steps. */
  lemma {:induction false} RequestIsAnswered(s: State, actions: seq<Action>) returns (k: nat)
    requires Inv(s) && s.card.Wait? && PandadSteps(actions) >= UntilAcknowledged(s)
    ensures UntilAcknowledged(s) <= 5
    ensures k <= |actions| && Run(s, actions[..k]).card == s.card && Run(s, actions[..k]).store.multiplexingChanged
    ensures Step(Run(s, actions[..k]), CardStep).card == Querying
    decreases |actions|
  {
    hide Inv, SafetyStep;
    if s.store.multiplexingChanged {
      k := 0;
    } else {
      var next := Step(s, actions[0]);
      StepKeepsInv(s, actions[0]);
      OneStepCloser(s, actions[0]);
      k := RequestIsAnswered(next, actions[1..]);
      k := k + 1;
      assert actions[..k][1..] == actions[1..][..k - 1];
    }
  }

  /** Pandad steps until the car's mode is set, once ControlsReady is stored. */
  function UntilConfigured(s: State): nat {
    match s.safety.pc
    case Configured => 0
    case SetMode(_) => 1
    case SetAlternative(_, _) => 2
    case ReadCarParamsSP(_) => 3
    case ReadCarParams => 4
    case ReadReady => 5
    case ReadQueryDone => 6
    case ReadRequest => 7
    case _ => 8
  }

  lemma OneStepCloserToMode(s: State, a: Action)
    requires Inv(s) && s.store.controlsReady
    ensures Step(s, a).store.controlsReady
    ensures UntilConfigured(Step(s, a)) <= UntilConfigured(s) - if a == PandadStep && UntilConfigured(s) > 0 then 1 else 0
  {
    hide Elms, Alternating;
  }

  /** Once ControlsReady is stored the car's mode is set within eight pandad steps. */
  lemma {:induction false} CarModeIsSet(s: State, actions: seq<Action>)
    requires Inv(s) && s.store.controlsReady && PandadSteps(actions) >= UntilConfigured(s)
    ensures UntilConfigured(s) <= 8
    ensures Run(s, actions).safety.pc == Configured
    decreases |actions|
  {
    hide Inv, SafetyStep, Step;
    if |actions| > 0 {
      StepKeepsInv(s, actions[0]);
      OneStepCloserToMode(s, actions[0]);
      CarModeIsSet(Step(s, actions[0]), actions[1..]);
    }
  }

  // ---------------------------------------------------------------- pandad's object, undisturbed

  function StepsLeft(pc: PandadPc): nat {
    match pc
    case Begin => 11
    case ReadRequest => 10
    case Switch(_) => 9
    case Acknowledge => 8
    case ReadQueryDone => 7
    case ReadReady => 6
    case ReadCarParams => 5
    case ReadCarParamsSP(_) => 4
    case SetAlternative(_, _) => 3
    case SetMode(_) => 2
    case _ => 1
  }

  /** Pandad alone, up to the end of the current call of `configureSafetyMode`. */
  function Finish(p: Safety, store: Store): (Safety, Store)
    decreases StepsLeft(p.pc)
  {
    var (next, written) := SafetyStep(p, store);
    if next.pc in {Begin, Configured, Crashed} then (next, written) else Finish(next, written)
  }

  /** An undisturbed call is one of the interleavings. */
  lemma {:induction false} FinishIsRun(s: State) returns (actions: seq<Action>)
    ensures forall i :: 0 <= i < |actions| ==> actions[i] == PandadStep
    ensures Run(s, actions) == s.(safety := Finish(s.safety, s.store).0, store := Finish(s.safety, s.store).1)
    decreases StepsLeft(s.safety.pc)
  {
    var next := Step(s, PandadStep);
    if next.safety.pc in {Begin, Configured, Crashed} {
      actions := [PandadStep];
      assert Run(s, actions) == Run(next, []);
    } else {
      var rest := FinishIsRun(next);
      actions := [PandadStep] + rest;
      assert Finish(s.safety, s.store) == Finish(next.safety, next.store);
      assert actions[0] == PandadStep && actions[1..] == rest;
    }
  }

  /** The object with its flags; `commands` is what the panda has received and `params` the store it reads. */
  class PandaSafety {
    var initialized: bool
    var safetyConfigured: bool
    var prevObdMultiplexing: bool
    var commands: seq<Command>
    var params: Store

    function Machine(): Safety
      reads this
    {
      Safety(if safetyConfigured then Configured else Begin, initialized, prevObdMultiplexing, commands)
    }

    method UpdateMultiplexingMode()
      modifies this`initialized, this`prevObdMultiplexing, this`commands, this`params
      ensures initialized && prevObdMultiplexing == old(params).multiplexingEnabled
      ensures var start := old(commands) + if old(initialized) then [] else [Elm327(1)];
              if prevObdMultiplexing != old(initialized && prevObdMultiplexing)
              then commands == start + [Elm327(if prevObdMultiplexing then 0 else 1)]
                   && params == old(params).(multiplexingChanged := true)
              else commands == start && params == old(params)
    {
      if !initialized {
        prevObdMultiplexing := false;
        commands := commands + [Elm327(1)];
        initialized := true;
      }
      var requested := params.multiplexingEnabled;
      if requested != prevObdMultiplexing {
        commands := commands + [Elm327(if requested then 0 else 1)];
        prevObdMultiplexing := requested;
        params := params.(multiplexingChanged := true);
      }
    }

    method FetchCarParams() returns (r: Option<(Option<CarParams>, Option<CarParamsSP>)>)
      ensures r == if params.firmwareQueryDone && params.controlsReady
                   then Some((params.carParams, params.carParamsSP)) else None
    {
      if !params.firmwareQueryDone {
        return None;
      }
      if !params.controlsReady {
        return None;
      }
      return Some((params.carParams, params.carParamsSP));
    }

    method SetSafetyMode(carParams: CarParams, carParamsSP: CarParamsSP)
      modifies this`commands
      ensures commands == old(commands) + [AlternativeExperience(carParams.alternativeExperience, carParamsSP.safetyParam)]
                          + [CarMode(carParams.safetyModel, carParams.safetyParam)]
    {
      commands := commands + [AlternativeExperience(carParams.alternativeExperience, carParamsSP.safetyParam)];
      commands := commands + [CarMode(carParams.safetyModel, carParams.safetyParam)];
    }

    /** `parsed` is false when an absent blob made the call fail. */
    method ConfigureSafetyMode(isOnroad: bool) returns (parsed: bool)
      modifies this
      ensures parsed && isOnroad ==> (Machine(), params) == Finish(old(Machine()), old(params))
      ensures !parsed <==> isOnroad && Finish(old(Machine()), old(params)).0.pc == Crashed
      ensures !isOnroad ==> !initialized && !safetyConfigured && prevObdMultiplexing == old(prevObdMultiplexing)
      ensures !isOnroad ==> commands == old(commands) && params == old(params)
    {
      parsed := true;
      hide Finish;
      if safetyConfigured { AlreadyConfigured(Machine(), params); }
      if isOnroad && !safetyConfigured {
        ghost var was := Machine();
        ghost var store := params;
        UpdateMultiplexingMode();
        Multiplexed(was, store, Machine().(pc := ReadQueryDone), params);
        var carParams := FetchCarParams();
        Fetched(Machine().(pc := ReadQueryDone), params);
        if carParams.Some? {
          var (cp, cpSP) := carParams.value;
          ModeSet(Machine().(pc := SetAlternative(cp, cpSP)), params);
          if cp.None? || cpSP.None? {
            return false;
          }
          SetSafetyMode(cp.value, cpSP.value);
          safetyConfigured := true;
        }
      } else if !isOnroad {
        initialized := false;
        safetyConfigured := false;
      }
    }
  }

  lemma AlreadyConfigured(p: Safety, store: Store)
    requires p.pc == Configured
    ensures Finish(p, store) == (p, store)
  {
  }

  lemma Multiplexed(p: Safety, store: Store, q: Safety, written: Store)
    requires p.pc == Begin && q.initialized && q.pc == ReadQueryDone && q.previous == store.multiplexingEnabled
    requires var start := p.sent + if p.initialized then [] else [Elm327(1)];
             if q.previous != (p.initialized && p.previous)
             then q.sent == start + [Elm327(if q.previous then 0 else 1)] && written == store.(multiplexingChanged := true)
             else q.sent == start && written == store
    ensures Finish(p, store) == Finish(q, written)
  {
    var p1 := SafetyStep(p, store).0;
    assert p.sent + [] == p.sent;
    assert Finish(p, store) == Finish(p1, store);
    var p2 := SafetyStep(p1, store).0;
    assert Finish(p1, store) == Finish(p2, store);
    if p2.pc.Switch? {
      var p3 := SafetyStep(p2, store).0;
      assert Finish(p2, store) == Finish(p3, store);
      assert SafetyStep(p3, store) == (q, written);
    } else {
      assert p2 == q;
    }
  }

  lemma Fetched(p: Safety, store: Store)
    requires p.pc == ReadQueryDone
    ensures Finish(p, store) ==
            if store.firmwareQueryDone && store.controlsReady then Finish(p.(pc := SetAlternative(store.carParams, store.carParamsSP)), store)
            else (p.(pc := Begin), store)
  {
    if store.firmwareQueryDone && store.controlsReady {
      var p1 := p.(pc := ReadReady);
      var p2 := p.(pc := ReadCarParams);
      var p3 := p.(pc := ReadCarParamsSP(store.carParams));
      assert Finish(p, store) == Finish(p1, store) == Finish(p2, store) == Finish(p3, store);
    }
  }

  lemma ModeSet(p: Safety, store: Store)
    requires p.pc.SetAlternative?
    ensures Finish(p, store) ==
            if p.pc.params.None? || p.pc.paramsSP.None? then (p.(pc := Crashed), store)
            else (p.(pc := Configured,
                     sent := p.sent + [AlternativeExperience(p.pc.params.value.alternativeExperience, p.pc.paramsSP.value.safetyParam)]
                             + [CarMode(p.pc.params.value.safetyModel, p.pc.params.value.safetyParam)]), store)
  {
    if p.pc.params.Some? && p.pc.paramsSP.Some? {
      var next := SafetyStep(p, store).0;
      assert Finish(p, store) == Finish(next, store);
    }
  }
}
