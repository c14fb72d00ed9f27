# Verified models of openpilot / sunnypilot components

A Dafny project that models the stateful cores of the repository and proves what they are for. Each file is one
component. Where the source changes state step by step, the model is a class or a method with loops, proved against a
specification function; the properties are then lemmas about that function over all inputs and all runs. Where
processes or threads share state, the model is a machine of atomic steps and a run is any sequence of them.

| file | component |
|---|---|
| CanCodec.dfy | packing CAN messages into checksummed frames and reassembling them from fragments |
| Rotation.dfy | Euler angles, quaternions and rotation matrices |
| FftSize.dfy | the search for the least 11-smooth transform size |
| ObdHandshake.dfy | OBD multiplexing requests and the safety mode, two processes over a parameter store |
| Machines.dfy, MadsEvents.dfy, Engagement.dfy | the two engagement machines, the event rewriting between them, and the control cycle |
| DriverMonitoring.dfy | awareness, policies, alert levels and lockout |
| Calibrator.dfy | the ring of calibration blocks and its restarts |
| ModelQueues.dfy | the model's shifting input queues and its frame layout |
| ParamsWriter.dfy | non-blocking parameter writes |
| ZmqBridge.dfy | the MSGQ to ZMQ bridge |
| RunningStats.dfy | moving average, frequency tracker, Welford statistics |
| Glossary.dfy | glossary links in a documentation tree |
| Shared.dfy | options, sums and extremes, products and quotients of reals |

Numbers that the source keeps in floating point are exact reals here. Sines, cosines, inverse tangents and sines, and
square roots are symbols with the identities or the order they need. Clocks, random numbers, sockets, files and messages
appear as parameters and steps.

## Assumptions

- CanCodec: the table of data length codes is that of the Bosch CAN FD Specification 1.0, section 3.2.1. Bit fields of
  the packed header are laid out from the least significant bit, as GCC and Clang do on little-endian machines.
- Rotation: `arctan2` gives an angle along its two arguments, zero where both are zero, and `arcsin` the angle with that
  sine and no negative cosine.
- ObdHandshake: one onroad session with the ignition on; the flags cleared on the onroad transition are clear at its
  start, and requests are made only inside `get_car`.
- MadsEvents: the keys of an event's entry are event types (`sunnypilot/selfdrive/selfdrived/events_base.py:28-38`).
- Engagement: which types an event has is a parameter. The properties use that the two mismatch events disable
  immediately and that the silent and the plain lane-keeping disable are user disables, as
  `selfdrive/selfdrived/events.py:752-755` and `sunnypilot/selfdrive/selfdrived/events.py:96-181` have it.
- Calibrator: the limits, which differ between devices, are a parameter whose box holds zero.
- ZmqBridge: each handler runs under the one lock, so handlers do not overlap; no send is interrupted for ever.
- ParamsWriter: one caller; no other process writes the same keys.
- Glossary: a match is not empty and lies in the part searched.

## Where the source does not do what it says

- `sunnypilot/mads/mads.py:194` asks whether the list contains an event type but passes an event name, so the enabling
  event is never taken back. The result differs from the one meant exactly in disengage mode with the brake pressed, MADS
  off, and something asking to engage (RewritingDiffersIff, BrakeDoesNotBlock).
- The MADS soft disable has its three seconds exactly when openpilot is disengaged or starts its own soft disable in the
  same cycle. Otherwise it inherits the timer: with openpilot pre-enabled at a standstill it ends after one cycle
  (MadsDeadline, MadsEndsAtOnce, ShortDeadlineRun).
- At orange under the vision policy awareness falls exactly in frames with a visible face of low deviation that is
  distracted, with the filter past 0.63 and the model certain; a driver who leaves the camera's view is not counted any
  further (OrangeFallsIff, OrangeRun, FacelessAtOrangeFreezes).
- A put that checks the worker between its failed pop and its end leaves its entry in the queue until
  another put; otherwise the queue can still drain (CheckStrandsIffExiting, DrainsIffLive, SecondPutIsStranded).
- An address of 2^29 or more is truncated by the header (AddressesSurvive).
- `fft_next_good_size` of zero or a negative number returns it unchanged (FftNextGoodSize).
- A desire that starts in a frame that is only prepared never reaches the policy queue (HoldInQueue).
- At gimbal lock with a roll or yaw part the Euler angles do not give the quaternion back (EulerRoundTrip).

## Model

| member | source | states |
|---|---|---|
| CanCodec.LenToDlcIsLeast | selfdrive/pandad/panda.cc:157-166 | the length code of every length up to 64 is the least code whose table length reaches it, and a length is representable exactly when it is in the table |
| CanCodec.SizeTMinus | selfdrive/pandad/panda.cc:245 | unsigned subtraction wraps to the width of `size_t`, as in the loop guard when fewer than six bytes are there |
| CanCodec.HeaderRoundTrip | selfdrive/pandad/panda.h:28-37 | writing a header whose fields fit and reading it back gives the same header |
| CanCodec.HeaderBytesRoundTrip | selfdrive/pandad/panda.h:28-37 | reading any six bytes as a header and writing it back gives the same bytes, so the layout wastes no bit |
| CanCodec.XorAllAppend | selfdrive/pandad/panda.cc:284-290 | the checksum of a concatenation is the XOR of the checksums |
| CanCodec.ChecksumCancels | selfdrive/pandad/panda.cc:189-196 | storing the checksum of a frame with a zero checksum byte in that byte makes the XOR of the frame zero, at any position |
| CanCodec.CalculateChecksum | selfdrive/pandad/panda.cc:284-290 | the loop returns the XOR of exactly the bytes asked for |
| CanCodec.LengthAsserts | selfdrive/pandad/panda.cc:180-182 | the two assertions pass for exactly the representable lengths |
| CanCodec.PutFrame | selfdrive/pandad/panda.cc:184-196 | in the send buffer exactly the frame of the message is written, after what was there |
| CanCodec.PackCanBuffer | selfdrive/pandad/panda.cc:168-208 | succeeds iff every message of this panda has a representable length; the chunks together are the frames of these messages in order, each chunk holds whole frames, no chunk reaches 326 bytes, so the 512-byte buffer never overflows, and only the last may be below 256 |
| CanCodec.ParseLeavesTail | selfdrive/pandad/panda.cc:242-282 | what is left after reading any bytes is no complete frame, shorter than 70 bytes, and nothing after a bad checksum |
| CanCodec.ParseAppend | selfdrive/pandad/panda.cc:242-282 | reading bytes in two parts, the second after the tail of the first, gives what reading them at once gives, for good and corrupt streams |
| CanCodec.ParseEncodedMsg | selfdrive/pandad/panda.cc:184-198 | the frame of a message followed by anything is read as that message |
| CanCodec.ParseEncodeAll | selfdrive/pandad/panda.cc:168-282 | reading the packed messages gives exactly the expected frames in order with nothing left over |
| CanCodec.FeedIsParse | selfdrive/pandad/panda.cc:216-282 | for every way of cutting a byte stream into pieces, corrupt or not, receiving the pieces one by one gives what parsing the whole stream gives |
| CanCodec.RoundTrip | selfdrive/pandad/panda.cc:168-290 | packing messages and receiving the bytes in any pieces gives exactly those messages in order with no leftover |
| CanCodec.AddressesSurvive | selfdrive/pandad/panda.cc:173-198 | the frames received are the messages sent, unchanged, if and only if every address is below 2^29, the width of the header field |
| CanCodec.WireFormatIsTight | selfdrive/pandad/panda.cc:242-275 | a complete frame is accepted iff its last header byte is the XOR of the rest, and it is determined by its header and data |
| CanCodec.EncodedBytes | selfdrive/pandad/panda.cc:184-196 | the bytes of a packed message: bus and length code first, the extended flag set exactly from address 0x800 on and no other flag, the address cut to 29 bits, the data, and an XOR of zero |
| CanCodec.ReceivedFromBytes | selfdrive/pandad/panda.cc:242-275 | address, source and data of a received frame from its bytes: the bus, 192 more when rejected, 128 more when returned |
| CanCodec.SourceTellsFlags | selfdrive/pandad/panda.cc:263-271 | so the source determines bus, rejected and returned, and is below eight exactly for neither |
| CanCodec.Panda.UnpackCanBuffer | selfdrive/pandad/panda.cc:242-282 | frames, leftover at the front of the buffer and verdict are those of parsing the bytes that were there; a bad checksum empties the buffer and resets communications once |
| CanCodec.Panda.CanReceive | selfdrive/pandad/panda.cc:216-236 | after every call at least 16384 bytes are free, so the space assertion never fails; the result is that of parsing the leftover followed by the bytes received |
| CanCodec.Panda.ReceiveAll | selfdrive/pandad/panda.cc:216-282 | receiving a stream piece by piece, each piece at most the receive size, gives what parsing the whole stream gives |
| Rotation.RootIsPositive | common/transformations/transformations.py:109-134 | for every matrix the square-root argument of the branch taken is at least one, so no divisor is zero |
| Rotation.UnitIsHom | common/transformations/transformations.py:88-102 | for unit quaternions the matrix is the homogeneous quadratic form |
| Rotation.HomMul | common/transformations/transformations.py:88-102 | the matrix of a product of quaternions is the product of their matrices |
| Rotation.UnitMul | common/transformations/transformations.py:65-68 | a product of unit quaternions is a unit quaternion |
| Rotation.NegChangesNothing | common/transformations/transformations.py:70-72 | changing the sign of a quaternion changes neither its norm nor its matrix |
| Rotation.EulerFactors | common/transformations/transformations.py:54-72 | the Euler quaternion is yaw times pitch times roll up to sign |
| Rotation.EulerQuatIsUnit | common/transformations/transformations.py:54-72 | `euler2quat` gives a unit quaternion with w >= 0 |
| Rotation.TwoRoutesAgree | common/transformations/transformations.py:54-156 | for all angles the matrix of the Euler quaternion is Rz Ry Rx as `euler2rot` computes it |
| Rotation.AxesTurn | common/transformations/transformations.py:152-154 | the three axis matrices turn y to z, z to x and x to y |
| Rotation.MatrixTurnsAsQuat | common/transformations/transformations.py:88-102 | the matrix of a unit quaternion q takes every point p to q p q* |
| Rotation.UnitQuatGivesRotation | common/transformations/transformations.py:88-102 | the matrix of every unit quaternion is orthogonal on both sides with determinant one |
| Rotation.FromRootHasGram | common/transformations/transformations.py:105-134 | in each of the four branches the components computed have the pairwise products the matrix prescribes |
| Rotation.Rot2QuatInvertsQuat2Rot | common/transformations/transformations.py:88-138 | `rot2quat` of the matrix of a unit quaternion q is q or -q, with w >= 0, and which of the two by the sign of w |
| Rotation.RotationIsRankOne | common/transformations/transformations.py:105-134 | every rotation matrix prescribes a rank-one matrix of pairwise products |
| Rotation.Quat2RotInvertsRot2Quat | common/transformations/transformations.py:88-138 | for every rotation matrix `rot2quat` gives a unit quaternion with w >= 0 whose matrix is that rotation |
| Rotation.LocalFrameIsRotation | common/transformations/transformations.py:203-208 | for every latitude and longitude, given by points of the unit circle, the local frame's matrix is a rotation |
| Rotation.LocalFrameAxes | common/transformations/transformations.py:203-207 | in the frame at a latitude and longitude down is opposite to the outward normal, east is along the pole crossed with it, and north is the normal crossed with east |
| Rotation.LocalFrameByTurns | common/transformations/transformations.py:203-207 | the frame is the turn by the longitude about the pole after that by the tilted latitude |
| Rotation.AboveOrigin | common/transformations/transformations.py:224-234 | for every origin, latitude, longitude and height the point straight above has local coordinates straight up, and back |
| Rotation.LocalCoordRoundTrip | common/transformations/transformations.py:224-234 | with a rotation as matrix the conversions to and from local coordinates undo each other for every point |
| Rotation.FiveEntriesDetermine | common/transformations/transformations.py:75-85 | away from gimbal lock the five entries that the Euler angles are read from determine a rotation |
| Rotation.EulerKeepsMatrix | common/transformations/transformations.py:75-85 | away from gimbal lock the angles of a unit quaternion give its rotation matrix |
| Rotation.EulerRoundTrip | common/transformations/transformations.py:54-85 | for every unit quaternion q, `euler2quat(quat2euler(q))` is q or -q, with w >= 0, iff there is no gimbal lock or x and z are zero |
| Rotation.RotEulerRoundTrip | common/transformations/transformations.py:54-163 | for every rotation matrix, `rot2euler` and then the matrix of its angles give the matrix back iff there is no gimbal lock or the middle entry is one |
| Rotation.EulerComesBack | common/transformations/transformations.py:54-85 | for all angles, `quat2euler(euler2quat(e))` has the cosines and sines of e iff the pitch is below a right angle, or a right angle without roll and yaw |
| FftSize.Euclid | selfdrive/locationd/helpers.py:10-14 | a prime that divides a product divides a factor, the fact behind the prime-factor reading of the size |
| FftSize.SmoothTimesPrime | selfdrive/locationd/helpers.py:28-32 | multiplying by one of the five primes keeps a number free of other prime factors |
| FftSize.SmoothBelowDouble | selfdrive/locationd/helpers.py:18 | between n and 2n there is always a number the search accepts, so the initial 2n is replaced |
| FftSize.Exhausted | selfdrive/locationd/helpers.py:19-27 | the pruning by the best answer skips nothing smaller: a loop that has reached it has no better answer left |
| FftSize.Advance | selfdrive/locationd/helpers.py:19-32 | going from f to f times the loop's prime leaves out only what the inner loops have covered |
| FftSize.Conclude | selfdrive/locationd/helpers.py:18-33 | with nothing left below it the best answer is the least one |
| FftSize.FftNextGoodSize | selfdrive/locationd/helpers.py:10-33 | terminates and returns the least number >= n whose only prime factors are 2, 3, 5, 7, 11, if and only if n >= 1; zero and below come back unchanged |
| ObdHandshake.RunKeepsInv | selfdrive/pandad/panda_safety.cc:5-56 | the invariant of the two processes holds in every interleaving |
| ObdHandshake.WaitReturnsSwitched | selfdrive/car/card.py:36-42 | when a waiting request can return, the last command sent is ELM327 with the multiplexing it asked for |
| ObdHandshake.ImmediateReturnIsRight | selfdrive/car/card.py:36-37 | a request that returns at once finds the last command matching, or none sent and no multiplexing asked |
| ObdHandshake.CommandHistory | selfdrive/pandad/panda_safety.cc:23-40 | all commands ever sent: one initial ELM327 without multiplexing, one alternating switch per waiting request in order, then experience and mode of this session |
| ObdHandshake.ElmsAlternate | selfdrive/pandad/panda_safety.cc:24-38 | in every reachable history the ELM327 parameters are 1, 0, 1, ... without another command between them, so each differs from the one before |
| ObdHandshake.MultiplexingIsOn | selfdrive/pandad/panda_safety.cc:31-38 | when a wait for multiplexing can return, the last command is ELM327 with 0 |
| ObdHandshake.CarModeOnceAndLast | selfdrive/pandad/panda_safety.cc:5-14 | the car mode is sent at most once, last, with this session's parameters and after the experience, when both blobs of the session are stored and card has left get_car |
| ObdHandshake.OnlyElmDuringRequest | selfdrive/pandad/panda_safety.cc:23-40 | while a request is under way only ELM327 commands have been sent |
| ObdHandshake.ConfiguredForGood | selfdrive/pandad/panda_safety.cc:5-14 | once the mode is set nothing more is sent in the session |
| ObdHandshake.RequestIsAnswered | selfdrive/car/card.py:38-42 | whatever else happens a waiting request may return after at most five pandad steps |
| ObdHandshake.CarModeIsSet | selfdrive/pandad/panda_safety.cc:42-56 | once ControlsReady is stored the car mode is set within eight pandad steps |
| ObdHandshake.FinishIsRun | selfdrive/pandad/panda_safety.cc:5-14 | an undisturbed call of the object is one of the interleavings of the step machine |
| ObdHandshake.PandaSafety.UpdateMultiplexingMode | selfdrive/pandad/panda_safety.cc:24-39 | ELM327 with 1 on the first call, then ELM327 with 0 or 1 as requested exactly when the request differs from the last, acknowledged in the store |
| ObdHandshake.PandaSafety.FetchCarParams | selfdrive/pandad/panda_safety.cc:42-56 | the two blobs, once both flags are set |
| ObdHandshake.PandaSafety.SetSafetyMode | selfdrive/pandad/panda_safety.cc:59-79 | experience first, then mode, from the parsed blobs |
| ObdHandshake.PandaSafety.ConfigureSafetyMode | selfdrive/pandad/panda_safety.cc:5-21 | one call runs the step machine to its next start; it fails only on an absent blob; offroad resets the flags |
| Machines.StateMachine.Update | selfdrive/selfdrived/state.py:17-98 | state, timer, alert types and the two results are those of the transition function, for all states and event sets |
| Machines.MadsStateMachine.StartSoftDisable | sunnypilot/mads/state.py:67-71 | the shared timer is written only with openpilot disengaged |
| Machines.MadsStateMachine.Update | sunnypilot/mads/state.py:45-135 | state, shared timer, shared alert types and the two results are those of the MADS transition function |
| Machines.EntryIgnoresDisables | selfdrive/selfdrived/state.py:77-90 | both machines enter exactly on ENABLE without NO_ENTRY, a disable in the same step notwithstanding |
| Machines.OpReaches | selfdrive/selfdrived/state.py:20-89 | for each state of openpilot, exactly the steps that end in it |
| Machines.MadsReaches | sunnypilot/mads/state.py:51-127 | for each state of MADS, exactly the steps that end in it: a user disable ends it unless silent, which pauses it |
| Machines.OpAlertsTell | selfdrive/selfdrived/state.py:25-97 | what each current alert type says of the step: entered, refused, ended and why, soft disabling, pre-enabled, overriding, active; and the timer |
| Machines.MadsAlertsTell | sunnypilot/mads/state.py:37-133 | the same for what MADS appends with openpilot off |
| Machines.MadsTimerTells | sunnypilot/mads/state.py:67-112 | with openpilot off the timer is set to 300 exactly as MADS starts a soft disable |
| Machines.MadsIsSilentBesideOp | sunnypilot/mads/state.py:37-133 | with openpilot on MADS appends only a user disable or a lasting override and leaves the timer alone |
| MadsEvents.Lists.Remove | sunnypilot/selfdrive/selfdrived/events_base.py:161-167 | one occurrence is removed, if any |
| MadsEvents.Lists.UpdateLateralOnly | sunnypilot/mads/mads.py:120-150 | in place, what the specification says of a lateral-only engagement |
| MadsEvents.Lists.UpdateEnabling | sunnypilot/mads/mads.py:152-168 | in place, the treatment of enabling events, the wrong car mode and the main switch |
| MadsEvents.Lists.UpdateButtons | sunnypilot/mads/mads.py:170-181 | the loop over the buttons adds the events of each in order |
| MadsEvents.Lists.UpdateClosing | sunnypilot/mads/mads.py:183-208 | in place, the cruise switch, the brake with its `contains` branch, the silent enable, the mismatch and the final removals |
| MadsEvents.Lists.UpdateEvents | sunnypilot/mads/mads.py:119-208 | the four parts in order are the rewriting |
| MadsEvents.RewritingShrinks | sunnypilot/mads/mads.py:119-208 | MADS only takes away openpilot events and only adds events of its own |
| MadsEvents.SilentDisableIffPausing | sunnypilot/mads/mads.py:120-143 | the silent disable event is shown iff it was there or a pausing condition holds |
| MadsEvents.LateralOnlyPauses | sunnypilot/mads/mads.py:100-143 | a gear, door, belt or brake condition pauses a lateral-only engagement in the same step whatever else is present |
| MadsEvents.OtherEventsStay | sunnypilot/mads/mads.py:145-208 | of the openpilot events that neither pause nor enable, four lose one occurrence always, six in a lateral-only engagement, and all others stay |
| MadsEvents.MismatchIsReported | sunnypilot/mads/mads.py:202-203 | the lateral mismatch event is shown iff it was there or the counter has reached 200 |
| MadsEvents.ButtonsEnable | sunnypilot/mads/mads.py:170-181 | the buttons add the enabling event exactly for a pressed lane-keeping button with MADS off and allowed |
| MadsEvents.ShownIffReason | sunnypilot/mads/mads.py:119-203 | every MADS event but the silent enabling one is shown iff it was there or one of its stated reasons holds in the given events, car and settings |
| MadsEvents.LkasDisableIff | sunnypilot/mads/mads.py:170-191 | the lane-keeping disable is shown iff it was there, the button is pressed with MADS alone engaged, the cruise was switched off, or the brake is pressed in disengage mode while engaged |
| MadsEvents.WrongCarModeIff | sunnypilot/mads/mads.py:84-89 | the alert-only wrong car mode is shown iff it was there, or the wrong car mode is present with an enabling event or one of the four set-speed buttons |
| MadsEvents.BrakeTells | sunnypilot/mads/mads.py:64-69 | a pedal event counts as the brake unless the gas has just been pressed and is set to disengage |
| MadsEvents.SilentEnableIff | sunnypilot/mads/mads.py:71-79 | the silent enabling event is shown iff it was there, or MADS is paused and neither the brake nor any silent event, given or made in this step, pauses it |
| MadsEvents.PausingEventsLeft | sunnypilot/mads/mads.py:120-138 | a pausing event loses one occurrence exactly when its silent form replaces it |
| MadsEvents.EnablingEventsLeft | sunnypilot/mads/mads.py:152-186 | how many enabling and wrong-car-mode events are left, from the settings and both engagements |
| MadsEvents.NameIsNoKey | sunnypilot/selfdrive/selfdrived/events_base.py:119-120 | asked for an event name, `contains` is false for every list, since the table's keys are types |
| MadsEvents.EnableIsNeverTakenBack | sunnypilot/mads/mads.py:188-196 | so the enabling event is shown iff something asked for it, brake or not |
| MadsEvents.ClosingDiffersIff | sunnypilot/mads/mads.py:183-208 | the closing part differs from the one meant, which tests for presence, exactly in disengage mode with the brake pressed, MADS off and the enabling event there |
| MadsEvents.RewritingDiffersIff | sunnypilot/mads/mads.py:119-208 | the whole rewriting differs from the one meant exactly in disengage mode with the brake pressed, MADS off and something asking to engage |
| MadsEvents.BrakeDoesNotBlock | sunnypilot/mads/mads.py:188-196 | a concrete press with the brake held in disengage mode that still shows the enabling event |
| MadsEvents.EngagesWithBrakeHeld | sunnypilot/mads/mads.py:188-196 | and the machine then engages unless another event forbids entry |
| Engagement.Selfdrived.DataSample | selfdrive/selfdrived/selfdrived.py:486-531 | initialization and the mismatch counter of the cycle |
| Engagement.Selfdrived.UpdateEvents | selfdrive/selfdrived/selfdrived.py:343-354 | one mismatch event per panda from the 200th mismatch on, beside the events given |
| Engagement.Selfdrived.MadsDataSample | sunnypilot/mads/mads.py:108-117 | the lateral mismatch counter of the cycle |
| Engagement.Selfdrived.UpdateMads | sunnypilot/mads/mads.py:210-222 | sample, rewrite, run the machine, remember whether openpilot was enabled; nothing when switched off |
| Engagement.Selfdrived.Step | selfdrive/selfdrived/selfdrived.py:605-616 | one cycle in place is the cycle function on the whole state |
| Engagement.MismatchDisengages | selfdrive/selfdrived/selfdrived.py:523-529 | the 200th mismatching sample of an engagement disengages openpilot in that same cycle |
| Engagement.MismatchCounts | selfdrive/selfdrived/selfdrived.py:522-531 | while openpilot is enabled its counter is the number of samples in which a panda that is not ignored refuses controls |
| Engagement.LateralMismatchStep | sunnypilot/mads/mads.py:108-117 | the lateral counter of one cycle: zero unless MADS is engaged alone |
| Engagement.LateralMismatchCounts | sunnypilot/mads/mads.py:108-117 | over a lateral-only engagement the lateral counter is the number of its refusing samples |
| Engagement.LateralMismatchDisengages | sunnypilot/mads/mads.py:202-203 | the 200th of them ends MADS in the same cycle, or pauses it if a user disable is there as well |
| Engagement.RunKeepsInv | selfdrive/selfdrived/selfdrived.py:605-616 | over every run both mismatch counters stay at most 200 and below it while engaged, and the timer stays in 0..300 |
| Engagement.NeverEngages | selfdrive/selfdrived/selfdrived.py:605-616 | in a passive car or before initialization neither mode ever engages, and MADS not with its toggle off |
| Engagement.PreviousIsLast | sunnypilot/mads/mads.py:221-222 | after a cycle the previous car and engagement are those of the cycle |
| Engagement.OpEngagement | selfdrive/selfdrived/state.py:17-98 | whenever openpilot is enabled there was a cycle with ENABLE and no NO_ENTRY in which it was off, and no user or immediate disable in any cycle since |
| Engagement.MadsEngagement | sunnypilot/mads/state.py:45-135 | the same for MADS being active, with the rewritten events it sees |
| Engagement.OpEnabledIff | selfdrive/selfdrived/state.py:17-98 | openpilot is enabled after a run from the start iff some cycle turned it on and none since turned it off, by a user or immediate disable or a soft disable whose time is up |
| Engagement.OpSeenFromEvents | selfdrive/selfdrived/state.py:31-89 | what openpilot's machine sees, from the events of the cycle |
| Engagement.MadsEnabledIff | sunnypilot/mads/state.py:45-135 | the same for MADS engaged or paused |
| Engagement.MadsSeenFromEvents | sunnypilot/mads/state.py:39-43 | what the MADS machine sees, from the events shown to it |
| Engagement.UserDisableEndsMads | sunnypilot/mads/state.py:53-58 | a user disable among the events shown, without the silent one, ends MADS in that cycle from any state |
| Engagement.ButtonEndsMads | sunnypilot/mads/mads.py:170-181 | the lane-keeping button ends a lateral-only engagement unless something pauses it in the same cycle |
| Engagement.OpRunFollowsOverride | selfdrive/selfdrived/state.py:37-87 | over a run without any disable openpilot is overriding exactly if the last cycle overrides |
| Engagement.OpWaitsPreEnabled | selfdrive/selfdrived/state.py:66-70 | pre-enabled, it waits while the condition lasts and is enabled in the first cycle without it |
| Engagement.OpSoftRecovers | selfdrive/selfdrived/state.py:54-57 | a soft disable that clears in time leads back to enabled |
| Engagement.MadsRunFollowsOverride | sunnypilot/mads/state.py:65-112 | over a run without any disable MADS is overriding exactly if the last cycle overrides laterally |
| Engagement.MadsSoftRecovers | sunnypilot/mads/state.py:78-82 | a MADS soft disable that clears in time leads back to enabled |
| Engagement.PausedUntil | sunnypilot/mads/state.py:89-101 | MADS stays paused over a run iff every cycle keeps it so: no other disable and no enabling event that may enter |
| Engagement.PausedStep | sunnypilot/mads/state.py:89-101 | it resumes exactly in a cycle that may enter and sees no disable |
| Engagement.RefusedEntryPauses | sunnypilot/mads/state.py:115-119 | a refused entry pauses MADS iff one of the twelve events that allow it is shown |
| Engagement.MadsLeavesTimer | sunnypilot/mads/state.py:65-112 | with openpilot enabled MADS leaves the timer alone, never changes openpilot's state and only appends alert types |
| Engagement.OpCountsDown | selfdrive/selfdrived/state.py:20-57 | the timer is the number of cycles an unbroken soft disable has left |
| Engagement.OpSoftDisableExact | selfdrive/selfdrived/state.py:17-75 | from the cycle that starts an unbroken soft disable, whatever MADS does, openpilot is disabled in exactly the 300th cycle after |
| Engagement.MadsCountsDown | sunnypilot/mads/state.py:78-87 | whatever the timer is, it is what an unbroken MADS soft disable has left while openpilot starts none of its own |
| Engagement.MadsDeadline | sunnypilot/mads/state.py:67-71 | MADS gets the full 300 cycles iff openpilot is disengaged or starts its own soft disable in that cycle; otherwise it inherits what is left of the timer |
| Engagement.MadsEndsAtOnce | sunnypilot/mads/state.py:67-87 | with at most one cycle left to inherit, MADS is disabled in the next cycle of its soft disable |
| Engagement.ShortDeadlineRun | sunnypilot/mads/state.py:67-87 | a run from the start in which a MADS soft disable begins with the timer at zero and ends one cycle later |
| Engagement.MadsSoftDisableExact | sunnypilot/mads/state.py:65-112 | with openpilot disengaged at the start, an unbroken MADS soft disable ends in exactly the 300th cycle after |
| DriverMonitoring.FirstOrderFilter.Update | common/filter_simple.py:11-17 | the filter step, or the input itself on the first use |
| DriverMonitoring.FilterClosedForm | common/filter_simple.py:11-17 | under a constant input the distance to it shrinks by the factor 1 - alpha each time |
| DriverMonitoring.DistractionIsNoticed | common/filter_simple.py:8-17 | a lasting distraction takes the filter past 0.63 within 2 / alpha frames |
| DriverMonitoring.NoticeTime | selfdrive/monitoring/policy.py:270-271 | there is a number k of frames with k alpha below two before which the filter has not passed 0.63 and after which it has |
| DriverMonitoring.DriverMonitor.SetPolicy | selfdrive/monitoring/policy.py:166-194 | counters, thresholds, step and policy are those of the specification |
| DriverMonitoring.DriverMonitor.UpdateStates | selfdrive/monitoring/policy.py:232-296 | filter, flags, policy and uncertainty count of a frame; an incomplete frame changes nothing |
| DriverMonitoring.DriverMonitor.UpdateEvents | selfdrive/monitoring/policy.py:298-352 | awareness, saved awareness, level, counts and lockout of a frame are those of the specification |
| DriverMonitoring.DriverMonitor.RunStep | selfdrive/monitoring/policy.py:393-435 | a frame is observation followed by judgement |
| DriverMonitoring.RunKeepsInv | selfdrive/monitoring/policy.py:161-352 | over every run, with the always-on setting reloaded at will, awareness stays in [-0.1, 1] and both saved counters in (0, 1] |
| DriverMonitoring.SwitchIsSafe | selfdrive/monitoring/policy.py:166-194 | a policy change alone never makes awareness drop to zero, and never happens under vision at or below orange or after a terminal alert |
| DriverMonitoring.VisionIff | selfdrive/monitoring/policy.py:166-194 | exactly when a frame leaves vision as the policy |
| DriverMonitoring.EachPolicyItsCounter | selfdrive/monitoring/policy.py:175-194 | a change of policy takes over the counter saved for the new one and saves the old; going back restores it |
| DriverMonitoring.UncertainAfter | selfdrive/monitoring/policy.py:290-296 | the uncertainty count grows by the frames with a face of high deviation since the last of low deviation |
| DriverMonitoring.NoExploitAfterOrange | selfdrive/monitoring/policy.py:166-173 | under vision the policy stays vision as long as awareness stays at or below orange, whatever the frames |
| DriverMonitoring.TerminalMeansEngaged | selfdrive/monitoring/policy.py:298-346 | level three is shown only while engaged |
| DriverMonitoring.CountsAreHistory | selfdrive/monitoring/policy.py:341-346 | the terminal count is the number of downward zero crossings, the terminal time that of level-three frames |
| DriverMonitoring.LockoutIsHistory | selfdrive/monitoring/policy.py:302-304 | lockout holds iff it was set before or an earlier frame left a limit reached; it never clears |
| DriverMonitoring.LockoutIff | selfdrive/monitoring/policy.py:302-304 | the same with the two limits written out |
| DriverMonitoring.LevelsMatch | selfdrive/monitoring/policy.py:343-352 | a level threshold is passed exactly when the counted time reaches its timeout |
| DriverMonitoring.DeadlinesAreExact | selfdrive/monitoring/policy.py:166-194 | with a policy held, engaged, moving and continuously distracted, each level is first shown in the first frame at or after its timeout |
| DriverMonitoring.FacelessDeadlines | selfdrive/monitoring/policy.py:166-352 | from rest under either policy, frames without a face show after n of them the wheel-touch level due at n dt |
| DriverMonitoring.DistractedDeadlines | selfdrive/monitoring/policy.py:232-352 | from rest, distracted frames leave awareness full until the filter notices; from then on the vision level due is shown |
| DriverMonitoring.FreshDistractedDeadlines | selfdrive/monitoring/policy.py:124-352 | from a fresh start the same, the filter noticing after k frames with k alpha below two |
| DriverMonitoring.OrangeStep | selfdrive/monitoring/policy.py:167-172 | at orange under vision, moving, a frame takes the step away if it counts, recovers if it restores, and otherwise leaves awareness alone; the policy stays vision |
| DriverMonitoring.OrangeFallsIff | selfdrive/monitoring/policy.py:167-340 | there awareness falls iff the face is visible with low deviation and distracted, the filter past 0.63 and the model certain, and rises iff the driver is attentive |
| DriverMonitoring.OrangeRun | selfdrive/monitoring/policy.py:167-352 | over a run at orange in which no frame restores, awareness falls by the step times the number of counting frames, down to its floor, and level three comes once that uses it up |
| DriverMonitoring.FacelessAtOrangeFreezes | selfdrive/monitoring/policy.py:167-172 | in particular frames without a face, moving, or standing without driver input, freeze awareness at orange, so level three never comes |
| DriverMonitoring.FacelessStandingResets | selfdrive/monitoring/policy.py:320-326 | standing with driver input such a frame resets the counters instead |
| DriverMonitoring.TouchResets | selfdrive/monitoring/policy.py:307-312 | driver input under wheel-touch, short of a terminal alert, makes all counters full and shows nothing |
| DriverMonitoring.TouchingAvoidsTerminal | selfdrive/monitoring/policy.py:307-346 | a driver whose face is not seen but who touches the wheel in every stretch as long as the third timeout is never shown level three |
| DriverMonitoring.DisengagingResets | selfdrive/monitoring/policy.py:306-312 | disengaging with the always-on mode not in force makes them full from any state |
| DriverMonitoring.DisengagingEndsTerminal | selfdrive/monitoring/policy.py:306-312 | with it in force, disengaging does so after a terminal alert |
| DriverMonitoring.StandingIsCalm | selfdrive/monitoring/policy.py:316-340 | standing still, from counters above the first level, nothing is ever shown, whatever the frames say otherwise |
| DriverMonitoring.RestedIsCalm | selfdrive/monitoring/policy.py:161-164 | full counters are such |
| DriverMonitoring.LowTime | common/filter_simple.py:11-17 | for an attentive driver there is a number k of frames with k alpha below two before which the filter has not come below 0.37 and after which it has |
| DriverMonitoring.WatchingStep | selfdrive/monitoring/policy.py:320-332 | under vision, at any level but the third, a frame with an attentive driver recovers if it gains, and otherwise leaves awareness alone |
| DriverMonitoring.RisesIffGains | selfdrive/monitoring/policy.py:313-332 | awareness below one rises in it iff the filter is below 0.37 after the frame, or the car stands with the first level one step away; it never falls |
| DriverMonitoring.AttentionRecovers | selfdrive/monitoring/policy.py:320-332 | however distracted the driver was: moving, awareness stays for the k frames that the filter takes to come down, then rises strictly until full, at least 1.25 steps a frame |
| DriverMonitoring.TerminalStays | selfdrive/monitoring/policy.py:305-344 | a terminal alert stays, at level three, while the driver only watches |
| DriverMonitoring.AttentionRestoresFully | selfdrive/monitoring/policy.py:166-332 | under either policy, with the model certain, k + n attentive frames with n > 0 and n 1.25 steps making up what vision awareness lacks end at full awareness iff the alert was not terminal |
| DriverMonitoring.AttentionRestoresInTime | selfdrive/monitoring/policy.py:166-332 | the same with k alpha below two |
| DriverMonitoring.RunKeepsFilter | selfdrive/monitoring/policy.py:270-271 | over every run the filter stays in [0, 1] |
| DriverMonitoring.WatchingMakesCertain | selfdrive/monitoring/policy.py:290-296 | one frame with an attentive driver makes the model certain |
| DriverMonitoring.RecoveryRate | selfdrive/monitoring/policy.py:326-328 | recovery is by 5 - 3.75 a steps, up to one |
| DriverMonitoring.InputRestores | selfdrive/monitoring/policy.py:322-325 | driver input in a frame in which an attentive driver would gain makes all counters full |
| DriverMonitoring.ShownWhileWatching | selfdrive/monitoring/policy.py:331-352 | what is shown to an attentive driver: nothing once recovering beyond orange |
| DriverMonitoring.SavedCounterRecovers | selfdrive/monitoring/policy.py:329-330 | with full awareness an attentive driver regains the saved wheel-touch counter by one step a frame |
| Calibrator.ValidIdxsExact | selfdrive/locationd/calibrationd.py:131-135 | the valid blocks are those below the count except the current one, each once, in order |
| Calibrator.DecayedInRange | selfdrive/locationd/calibrationd.py:60-61 | the decayed average stays between the old value and the new one |
| Calibrator.Run | selfdrive/locationd/calibrationd.py:181-231 | over every run the ring indices stay in range and every block and the mean stay in the clip box |
| Calibrator.InitialIsInv | selfdrive/locationd/calibrationd.py:64-89 | a cached start with at most 50 valid blocks inside the box satisfies the invariant |
| Calibrator.SmoothInBox | selfdrive/locationd/calibrationd.py:175-179 | the blended orientation stays in the clip box |
| Calibrator.PublishedAreMeans | selfdrive/locationd/calibrationd.py:138-143 | times the number of valid blocks each published component is the sum over these blocks |
| Calibrator.PublishedSpread | selfdrive/locationd/calibrationd.py:144-148 | the published spread is the largest difference between two valid blocks, zero without any |
| Calibrator.StatusTells | selfdrive/locationd/calibrationd.py:150-158 | the status after a sample, from the number of blocks and the published orientation |
| Calibrator.RestartsIff | selfdrive/locationd/calibrationd.py:160-166 | an accepted sample starts over iff there are five blocks, the mean is valid and a spread is too large |
| Calibrator.RestartIsSmooth | selfdrive/locationd/calibrationd.py:163-179 | at a restart the blended orientation is the mean just before it |
| Calibrator.BlendFades | selfdrive/locationd/calibrationd.py:175-187 | every sample then takes a tenth of the old mean away, and after ten the new one stands alone |
| Calibrator.BlendIsLinear | selfdrive/locationd/calibrationd.py:175-179 | in between the blend is on the line between the two |
| Calibrator.CachedStartPublishes | selfdrive/locationd/calibrationd.py:64-129 | a start from cached values publishes exactly these, with the status their number of blocks gives |
| Calibrator.SampleIsNext | selfdrive/locationd/calibrationd.py:197-227 | a sample not accepted only fades the blend, an accepted one is the next place in the ring of 5000 |
| Calibrator.DecayedHundredths | selfdrive/locationd/calibrationd.py:60-61 | the running average gives the old value idx hundredths |
| Calibrator.ClipIsNearest | selfdrive/locationd/calibrationd.py:52-58 | clipping gives the nearest value of the box |
| Calibrator.RestartsFromValidBlock | selfdrive/locationd/calibrationd.py:163-166 | the block a spread reset restarts from, index -1 included, is one of the blocks just compared |
| Calibrator.RestartBeginsCount | selfdrive/locationd/calibrationd.py:164-166 | a reset leaves one valid block, an empty ring and the recalibrating status |
| Calibrator.RestartsAreFarApart | selfdrive/locationd/calibrationd.py:150-166 | after a reset the next one comes no earlier than with the 500th accepted sample |
| Calibrator.BlockForgets | selfdrive/locationd/calibrationd.py:60-61 | a block depends only on its own samples, the first replacing what was there, and lies in their hull |
| Calibrator.BlockHoldsItsSamples | selfdrive/locationd/calibrationd.py:218-221 | until it is full the current block holds the decayed averages of the clipped orientations, wide angles and heights stored since, and no other block changes |
| Calibrator.Calibrator.constructor | selfdrive/locationd/calibrationd.py:64-89 | the state is the initial state of the specification |
| Calibrator.Calibrator.Reset | selfdrive/locationd/calibrationd.py:91-129 | all blocks tiled, ring restarted, blend set |
| Calibrator.Calibrator.UpdateStatus | selfdrive/locationd/calibrationd.py:137-166 | means, spread, status and a possible restart are those of the specification |
| Calibrator.Calibrator.StoreSample | selfdrive/locationd/calibrationd.py:218-227 | the sample is folded into the current block of each array and the ring moved on |
| Calibrator.Calibrator.HandleCamOdom | selfdrive/locationd/calibrationd.py:181-231 | the whole handler is the specification, rejected samples only fading the blend |
| ModelQueues.WindowShifts | selfdrive/modeld/compile_modeld.py:144-145 | shifting a window of the history by one push is the window of the longer history |
| ModelQueues.InputQueue.Shift | selfdrive/modeld/compile_modeld.py:144-146 | the buffer stays the window of what was pushed |
| ModelQueues.SkipIsHistory | selfdrive/modeld/compile_modeld.py:149-150 | with the size the source makes for n slots, slot j is the push frame_skip (n-1-j) steps ago, zero before the start, the last slot the newest |
| ModelQueues.DesireVectorsAreHistory | selfdrive/modeld/compile_modeld.py:153-154 | in every lane of the desire vector, slot j is reached by one push of its own ages and exceeded by none |
| ModelQueues.SeenForItsTime | selfdrive/modeld/compile_modeld.py:153-154 | a push is in exactly one slot's window for exactly frame_skip n pushes and in none after |
| ModelQueues.SlotShowsPulse | selfdrive/modeld/compile_modeld.py:153-154 | a slot shows a pulse iff one of the pushes in its window was one |
| ModelQueues.ModelState.Run | selfdrive/modeld/modeld.py:122-125 | rising edges become the desire entry, the first lane is cleared, and the entry is pushed unless the frame is only prepared |
| ModelQueues.HoldPushesOnePulse | selfdrive/modeld/modeld.py:122-134 | in one lane a desire held from rest pushes one pulse in its first frame and zeros after, and none at all iff that frame was only prepared |
| ModelQueues.PulsesAreRisingEdges | selfdrive/modeld/modeld.py:122-125 | in a lane of evaluated frames there is a pulse exactly where the input rises from zero to one |
| ModelQueues.ModelState.RunFrames | selfdrive/modeld/modeld.py:122-134 | over a list of frames the queue's history grows by the entries of the frames that are evaluated |
| ModelQueues.LanesOfQueue | selfdrive/modeld/modeld.py:122-134 | each lane of that history is the history of its own inputs, the first lane's being cleared |
| ModelQueues.HoldInQueue | selfdrive/modeld/modeld.py:122-134 | in the queue's history a desire held from rest is one pulse in its lane, none at all iff its first frame was only prepared, and the first lane stays zero |
| ModelQueues.HoldIsSeen | selfdrive/modeld/modeld.py:122-134 | after any run of frames with a desire held from rest, the sampled queue shows it in the slot of the pulse's age alone, and in none if the first frame was only prepared |
| ModelQueues.HoldIsSeenForItsTime | selfdrive/modeld/modeld.py:122-134 | so a hold evaluated in its first frame is seen in exactly one slot for exactly frame_skip n evaluated frames and in none after |
| ModelQueues.TensorHoldsEveryPixelOnce | selfdrive/modeld/compile_modeld.py:78-87 | the six channels hold every pixel of the frame exactly once |
| ModelQueues.ChannelsTell | selfdrive/modeld/compile_modeld.py:78-87 | the first four channels are the luma pixels of the four parities, the last two the chroma quarters in reading order |
| ParamsWriter.SafeQueue.TryPop | common/queue.h:28-36 | succeeds iff the queue is not empty, and takes its first entry |
| ParamsWriter.RunKeepsInv | common/params.cc:229-244 | in every interleaving at most one thread is alive and attempts, the entry in flight and the queue are the puts in order |
| ParamsWriter.QuietMeansStored | common/params.cc:229-244 | with nothing queued or in flight and every rename made, also by writes that then fail, every key holds its last put value |
| ParamsWriter.ReadersSeeWholeValues | common/params.cc:132-169 | at every moment a key holds its old value or a whole value that was put |
| ParamsWriter.EnoughStepsDrain | common/params.cc:237-244 | in every interleaving without another put in which a live thread makes at least three steps per queued entry, and those its current write needs, nothing is left queued or being written |
| ParamsWriter.IdleKeepsQueue | common/params.cc:229-244 | with no thread popping or writing and no check pending, no steps without a put change the queue |
| ParamsWriter.DrainsIffLive | common/params.cc:229-244 | some steps without another put empty the queue iff it is empty, a thread is popping or writing, or the caller has pushed and not yet checked |
| ParamsWriter.CheckStrandsIffExiting | common/params.cc:229-244 | a check leaves a queued entry that can still be written iff the last thread is not between its failed pop and its end |
| ParamsWriter.SecondPutIsStranded | common/params.cc:99-104 | a run from the start in which a second put stays queued with no thread left whatever follows but a put, so the assertion in the destructor fails |
| ParamsWriter.Params.PushEntry | common/params.cc:229-230 | through the queue, the machine's push |
| ParamsWriter.Params.StartOnDemand | common/params.cc:231-234 | the machine's check: a thread is started iff there was none or the last has ended |
| ParamsWriter.Params.WorkerStep | common/params.cc:132-169 | through the queue, the machine's step of a thread; a write may fail before or after its rename |
| ParamsWriter.Params.PutNonBlocking | common/params.cc:229-235 | the whole call undisturbed is push and check |
| ParamsWriter.Params.AsyncWriteThread | common/params.cc:237-244 | undisturbed the loop writes all queued entries in order and ends with the queue empty |
| ZmqBridge.CountIsReflectedBalance | cereal/messaging/msgq_to_zmq.cc:109-119 | the client count is the balance of connects and disconnects above its lowest point |
| ZmqBridge.FirstClient | cereal/messaging/msgq_to_zmq.cc:107-116 | the first client keeps sockets, map, poller and counts consistent |
| ZmqBridge.AnotherClient | cereal/messaging/msgq_to_zmq.cc:107-116 | a further client keeps them consistent |
| ZmqBridge.ClientLeaves | cereal/messaging/msgq_to_zmq.cc:117-119 | a client leaving others keeps them consistent |
| ZmqBridge.LastClientLeaves | cereal/messaging/msgq_to_zmq.cc:117-124 | the last client leaving, or a disconnect at zero, keeps them consistent |
| ZmqBridge.MsgqToZmq.RegisterSockets | cereal/messaging/msgq_to_zmq.cc:139-146 | the poller gets exactly the existing subscriber sockets in pair order |
| ZmqBridge.MsgqToZmq.HandleAccepted | cereal/messaging/msgq_to_zmq.cc:105-126 | at the lock's release a pair has a socket iff it has clients, the map has exactly these sockets with their own publishers, the poller exactly these |
| ZmqBridge.MsgqToZmq.HandleDisconnected | cereal/messaging/msgq_to_zmq.cc:105-126 | the same after a disconnect, with the count saturating at zero |
| ZmqBridge.MsgqToZmq.OwnerOf | cereal/messaging/msgq_to_zmq.cc:50-52 | a polled socket is alive and in the map, so the lookup never fails, and belongs to exactly one pair |
| ZmqBridge.ThroughLosesRefused | cereal/messaging/msgq_to_zmq.cc:57-59 | of the messages taken exactly the refused ones are lost, so all get through iff none is refused |
| ZmqBridge.PubSocket.Settle | cereal/messaging/msgq_to_zmq.cc:57-59 | an interrupted send is repeated, a refused one is given up |
| ZmqBridge.MsgqToZmq.Forward | cereal/messaging/msgq_to_zmq.cc:53-60 | of up to 50 waiting messages those not refused go to the publisher in order |
| ZmqBridge.TakesUpToFifty | cereal/messaging/msgq_to_zmq.cc:53-55 | up to 50 messages are taken from the front, the others wait |
| ZmqBridge.MsgqToZmq.PollOnce | cereal/messaging/msgq_to_zmq.cc:44-64 | in a round each publisher gets exactly the messages taken from its own pair's socket but those refused, and each socket loses exactly these |
| RunningStats.MovingAverage.AddValue | common/utils.py:64-74 | ring, index, count and sum stay those of the window on the history |
| RunningStats.MovingAverage.GetAverage | common/utils.py:76-79 | the mean of the last min(n, window) values |
| RunningStats.FrequencyTracker.RecordRecvTime | cereal/messaging/__init__.py:127-135 | both averages get the interval, from the second counted arrival on |
| RunningStats.FrequencyTracker.IsValid | cereal/messaging/__init__.py:137-147 | the verdict is that of the specification, a division by zero included |
| RunningStats.MeanIsSpan | cereal/messaging/__init__.py:127-147 | for strictly increasing arrivals the average is (last - k-th previous) / k |
| RunningStats.ValidIffRateInBand | cereal/messaging/__init__.py:137-147 | `valid` never divides by zero and holds iff the long or the recent rate is in the band |
| RunningStats.BandTells | cereal/messaging/__init__.py:108-125 | the bounds of the band and the two windows in numbers, for each case of the two frequencies |
| RunningStats.ExpectedRateIsInBand | cereal/messaging/__init__.py:108-125 | arrivals at the lower of the two frequencies are in the band when it is at least one |
| RunningStats.RunningStat.PushData | common/stat_live.py:25-37 | mean, sum of squares and count are those of the recurrence, also with a cap of zero |
| RunningStats.WelfordIsBatch | common/stat_live.py:25-37 | from any prior n M and S + n M^2 are the prior's plus the sum and the sum of squares of all data |
| RunningStats.FromScratchIsBatch | common/stat_live.py:25-46 | without a prior M is the mean and S the sum of squared deviations from it |
| RunningStats.CappedStaysInHull | common/stat_live.py:25-37 | with a cap the count never exceeds it, the mean stays in the hull of prior and data, and S never decreases |
| RunningStats.CappedStep | common/stat_live.py:25-37 | at the cap the mean moves a cap-th of the way to the new value |
| RunningStats.VarianceIsSample | common/stat_live.py:42-46 | without a prior the variance is the sample variance |
| RunningStats.RunningStatFilter.PushAndUpdate | common/stat_live.py:63-70 | the filtered statistic takes exactly the data that do not raise the raw variance |
| Glossary.BestIsLeftmostLongest | docs/ext/glossary.py:141-161 | no unseen term matches earlier than the chosen one, nor longer at the same place |
| Glossary.PiecesKeepText | docs/ext/glossary.py:132-195 | the pieces spell the text, and their links are new terms, each once |
| Glossary.ReplacedFacts | docs/ext/glossary.py:102-130 | text and inserted links spell the old text, and add each newly seen term once |
| Glossary.LinksShowMatches | docs/ext/glossary.py:140-187 | every link shows exactly a match of its term, at the place where the text before it ends |
| Glossary.WordsHoldNoMatch | docs/ext/glossary.py:140-195 | no term left unseen has a match that starts in words left as they are |
| Glossary.WalkLeavesUnmatched | docs/ext/glossary.py:90-195 | a term the walk leaves unseen is, in every text and tail outside skipped elements, without a match or preceded by another term's |
| Glossary.WalkedUnlinks | docs/ext/glossary.py:90-100 | folding the links of the result back gives what folding back those of the page gives: the walk changes nothing else and leaves skipped elements as they were |
| Glossary.WalkRoundTrip | docs/ext/glossary.py:90-100 | on a page without links, folding back the links of the result gives the page again |
| Glossary.WalkedKeepsText | docs/ext/glossary.py:90-195 | the document-order text, tooltips left out, is unchanged and exactly the newly seen terms are linked, each once |
| Glossary.LinkedAtMostOnce | docs/ext/glossary.py:78-100 | from a fresh start each term is linked at most once |
| Glossary.GlossaryTreeprocessor.FindBest | docs/ext/glossary.py:140-161 | the loop over the glossary picks the best match |
| Glossary.GlossaryTreeprocessor.MakePieces | docs/ext/glossary.py:132-195 | the pieces and the seen terms are those of the specification |
| Glossary.WordsFollowLinks | docs/ext/glossary.py:132-195 | no two pieces of words follow each other, so there is always a link whose tail takes them |
| Glossary.GlossaryTreeprocessor.Replace | docs/ext/glossary.py:102-130 | text or tail of the given child is replaced and the links inserted one by one behind it, as the specification has them; the index returned is that of the last |
| Glossary.GlossaryTreeprocessor.Walk | docs/ext/glossary.py:90-100 | terminates, and tree and seen terms are those of the specification though children are inserted during the loop |
| Glossary.GlossaryTreeprocessor.Run | docs/ext/glossary.py:78-88 | the seen terms start empty, and the glossary page itself is left alone |

## Left out

- SPI and USB transfers, sockets, files, logging, operating-system threads: only the bytes or steps they deliver are modelled.
- Geodetic conversions and `axis_angle_to_rot`: an iteration of inverse trigonometric functions, and a single expression.
- `NPQueue` and `PointBuckets`: a shift and a few counts, easy beside the size search.
- Floating-point rounding, NaN and infinities, in particular the NaN branch of `sanity_clip` and the finiteness checks of `Calibrator.reset`.
- `send_panda_states` forcing NO_OUTPUT with the ignition off, and the REPLAY and SIMULATION shortcuts of selfdrived.
- How driver monitoring judges a face, a pose or a blink, and its wheel-side and pose learning: one input per frame.
- The camera geometry behind a calibration sample, and writing the calibration to the parameter store.
- Alert texts, message fillers and percentages.
- Concurrency of the parameter watcher thread of selfdrived: the two MADS settings it reloads are inputs of every cycle.
- Contents of the queues for prepared frames: the image queues shift in such frames, the policy queues do not; the lemmas speak of pushes.
- GlossaryTreeprocessor.Walk: returns a new tree, because an element tree with shared mutable nodes adds aliasing that the source does not use; the update in place and the `href` of a link are not captured.
- CanReceive with PANDAD_MAXOUT: the junk read of that debugging build is not part of this model.
- FrequencyTracker.RecordRecvTime: arrival times that go backwards are recorded as the source records them, but ValidIffRateInBand speaks of increasing ones.
