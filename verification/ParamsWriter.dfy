/**
 Non-blocking parameter writes (common/params.cc, common/queue.h): a caller pushes entries on a queue and starts a
 worker when it finds none running; workers pop entries and write each through a temporary file and a rename. Every
 queue operation, future check, temporary write and rename is one step, and a run is any interleaving.
 */
module ParamsWriter {

  // ---------------------------------------------------------------- the queue

  /** Each method runs under the queue's mutex. */
  class SafeQueue<T(0)> {
    var q: seq<T>

    constructor ()
      ensures q == []
    {
      q := [];
    }

    method Push(v: T)
      modifies this
      ensures q == old(q) + [v]
    {
      q := q + [v];
    }

    /** The timeout of the source's one caller is zero. */
    method TryPop() returns (popped: bool, v: T)
      modifies this
      ensures popped <==> old(q) != []
      ensures old(q) == if popped then [v] + q else q
    {
      if |q| == 0 {
        v := *;
        return false, v;
      }
      v := q[0];
      q := q[1..];
      return true, v;
    }
  }

  // ---------------------------------------------------------------- threads and steps

  datatype Entry = Entry(key: string, value: string)

  /** `inTemp`: the temporary file holds the whole value. `Exiting`: the last pop failed, the future is not ready yet. */
  datatype Worker = Popping | Writing(entry: Entry, inTemp: bool) | Exiting | Done

  /** `stored`: the rename took effect, whether or not the call then reported success. */
  datatype Attempt = Attempt(entry: Entry, stored: bool)

  /** `workers` are all threads ever started; the future is that of the last. `puts` and `attempts` are history. */
  datatype State = State(queue: seq<Entry>, callerPushed: bool, workers: seq<Worker>, store: map<string, string>,
                         puts: seq<Entry>, attempts: seq<Attempt>)

  datatype Action =
    | Push(entry: Entry)
    | CheckFuture
    | WorkerStep(w: nat)
    | WriteFails(w: nat, renamed: bool)

  predicate FutureIdle(s: State) {
    |s.workers| == 0 || s.workers[|s.workers| - 1] == Done
  }

  function WorkerNext(s: State, w: nat): State
    requires w < |s.workers|
  {
    match s.workers[w]
    case Popping =>
      if |s.queue| == 0 then s.(workers := s.workers[w := Exiting])
      else s.(workers := s.workers[w := Writing(s.queue[0], false)], queue := s.queue[1..])
    case Writing(e, false) => s.(workers := s.workers[w := Writing(e, true)])
    case Writing(e, true) =>
      s.(workers := s.workers[w := Popping], store := s.store[e.key := e.value], attempts := s.attempts + [Attempt(e, true)])
    case Exiting => s.(workers := s.workers[w := Done])
    case Done => s
  }

  /** A step that cannot be taken changes nothing. A write can fail after its rename too, in the directory's `fsync`. */
  function Step(s: State, a: Action): State {
    match a
    case Push(e) =>
      if s.callerPushed then s else s.(queue := s.queue + [e], callerPushed := true, puts := s.puts + [e])
    case CheckFuture =>
      if !s.callerPushed then s
      else s.(callerPushed := false, workers := if FutureIdle(s) then s.workers + [Popping] else s.workers)
    case WorkerStep(w) => if w < |s.workers| then WorkerNext(s, w) else s
    case WriteFails(w, renamed) =>
      if w < |s.workers| && s.workers[w].Writing? then
        var (e, stored) := (s.workers[w].entry, renamed && s.workers[w].inTemp);
        s.(workers := s.workers[w := Popping], store := if stored then s.store[e.key := e.value] else s.store,
           attempts := s.attempts + [Attempt(e, stored)])
      else s
  }

  function Run(s: State, actions: seq<Action>): State
    decreases |actions|
  {
    if |actions| == 0 then s else Run(Step(s, actions[0]), actions[1..])
  }

  predicate Start(s: State) {
    s.queue == [] && !s.callerPushed && s.workers == [] && s.puts == [] && s.attempts == []
  }

  // ---------------------------------------------------------------- conservation and order

  function InFlight(w: Worker): seq<Entry> {
    match w
    case Writing(e, _) => [e]
    case _ => []
  }

  function AllInFlight(ws: seq<Worker>): seq<Entry> {
    if |ws| == 0 then [] else AllInFlight(ws[..|ws| - 1]) + InFlight(ws[|ws| - 1])
  }

  function Entries(attempts: seq<Attempt>): (r: seq<Entry>)
    ensures |r| == |attempts| && forall i :: 0 <= i < |r| ==> r[i] == attempts[i].entry
  {
    seq(|attempts|, i requires 0 <= i < |attempts| => attempts[i].entry)
  }

  /** The store after the successful attempts, in order. */
  function Applied(store: map<string, string>, attempts: seq<Attempt>): map<string, string> {
    if |attempts| == 0 then store
    else
      var before := Applied(store, attempts[..|attempts| - 1]);
      var a := attempts[|attempts| - 1];
      if a.stored then before[a.entry.key := a.entry.value] else before
  }

  predicate Active(w: Worker) {
    w == Popping || w.Writing?
  }

  /** Every thread but the one the future belongs to has ended. */
  ghost predicate OneWriter(ws: seq<Worker>) {
    forall i :: 0 <= i < |ws| - 1 ==> ws[i] == Done
  }

  ghost predicate Inv(s: State, initial: map<string, string>) {
    && OneWriter(s.workers)
    && Entries(s.attempts) + AllInFlight(s.workers) + s.queue == s.puts
    && s.store == Applied(initial, s.attempts)
  }

  lemma {:induction false} DoneCarryNothing(ws: seq<Worker>)
    requires forall i :: 0 <= i < |ws| ==> ws[i] == Done
    ensures AllInFlight(ws) == []
  {
    if |ws| > 0 {
      DoneCarryNothing(ws[..|ws| - 1]);
    }
  }

  /** With one writer, what is in flight is what the last thread carries. */
  lemma LastCarriesAll(ws: seq<Worker>)
    requires OneWriter(ws)
    ensures AllInFlight(ws) == if |ws| == 0 then [] else InFlight(ws[|ws| - 1])
  {
    if |ws| > 0 {
      DoneCarryNothing(ws[..|ws| - 1]);
    }
  }

  lemma AttemptExtends(s: State, initial: map<string, string>, a: Attempt)
    ensures Entries(s.attempts + [a]) == Entries(s.attempts) + [a.entry]
    ensures Applied(initial, s.attempts + [a])
         == if a.stored then Applied(initial, s.attempts)[a.entry.key := a.entry.value] else Applied(initial, s.attempts)
  {
    var t := s.attempts + [a];
    assert t[..|t| - 1] == s.attempts;
    assert Entries(t) == Entries(s.attempts) + [a.entry];
  }

  lemma ThreadStarted(ws: seq<Worker>)
    requires OneWriter(ws) && (|ws| == 0 || ws[|ws| - 1] == Done)
    ensures OneWriter(ws + [Popping]) && AllInFlight(ws + [Popping]) == AllInFlight(ws)
  {
    LastCarriesAll(ws);
    LastCarriesAll(ws + [Popping]);
  }

  lemma CallerKeepsInv(s: State, a: Action, initial: map<string, string>)
    requires Inv(s, initial) && (a.Push? || a == CheckFuture)
    ensures Inv(Step(s, a), initial)
  {
    hide Applied, Entries, AllInFlight, OneWriter;
    if a.Push? {
      assert Entries(s.attempts) + AllInFlight(s.workers) + (s.queue + [a.entry])
          == Entries(s.attempts) + AllInFlight(s.workers) + s.queue + [a.entry];
    } else if FutureIdle(s) {
      ThreadStarted(s.workers);
    }
  }

  /** What a step does to the parts of the state the invariant speaks of. */
  lemma LastReplaced(ws: seq<Worker>, w: Worker)
    requires |ws| > 0 && OneWriter(ws)
    ensures var n := |ws| - 1;
            OneWriter(ws[n := w]) && AllInFlight(ws) == InFlight(ws[n]) && AllInFlight(ws[n := w]) == InFlight(w)
  {
    LastCarriesAll(ws);
    LastCarriesAll(ws[|ws| - 1 := w]);
  }

  lemma QuietKeepsInv(s: State, w: Worker, initial: map<string, string>)
    requires Inv(s, initial) && |s.workers| > 0 && InFlight(w) == InFlight(s.workers[|s.workers| - 1])
    ensures Inv(s.(workers := s.workers[|s.workers| - 1 := w]), initial)
  {
    LastReplaced(s.workers, w);
    hide AllInFlight, OneWriter, Entries, Applied;
  }

  lemma EntryLeavesQueue(s: State, initial: map<string, string>)
    requires Inv(s, initial) && |s.workers| > 0 && s.workers[|s.workers| - 1] == Popping && |s.queue| > 0
    ensures var n := |s.workers| - 1;
            Inv(s.(workers := s.workers[n := Writing(s.queue[0], false)], queue := s.queue[1..]), initial)
  {
    LastReplaced(s.workers, Writing(s.queue[0], false));
    hide AllInFlight, OneWriter, Entries, Applied;
    FirstMoves(Entries(s.attempts), s.queue);
  }

  lemma FirstMoves<T>(done: seq<T>, q: seq<T>)
    requires |q| > 0
    ensures done + [] + q == done + [q[0]] + q[1..]
  {
    assert q == [q[0]] + q[1..];
  }

  lemma PopKeepsInv(s: State, initial: map<string, string>)
    requires Inv(s, initial) && |s.workers| > 0 && s.workers[|s.workers| - 1] == Popping
    ensures Inv(WorkerNext(s, |s.workers| - 1), initial)
  {
    hide Inv;
    if |s.queue| > 0 {
      EntryLeavesQueue(s, initial);
    } else {
      QuietKeepsInv(s, Exiting, initial);
    }
  }

  lemma AttemptKeepsInv(s: State, stored: bool, store: map<string, string>, initial: map<string, string>)
    requires Inv(s, initial) && |s.workers| > 0 && s.workers[|s.workers| - 1].Writing?
    requires var e := s.workers[|s.workers| - 1].entry; store == if stored then s.store[e.key := e.value] else s.store
    ensures var n := |s.workers| - 1;
            Inv(s.(workers := s.workers[n := Popping], store := store, attempts := s.attempts + [Attempt(s.workers[n].entry, stored)]), initial)
  {
    var n := |s.workers| - 1;
    var e := s.workers[n].entry;
    LastReplaced(s.workers, Popping);
    AttemptExtends(s, initial, Attempt(e, stored));
    hide AllInFlight, OneWriter, Entries, Applied;
    assert Entries(s.attempts) + [e] + [] + s.queue == Entries(s.attempts) + [e] + s.queue;
  }

  lemma LastStepKeepsInv(s: State, a: Action, initial: map<string, string>)
    requires Inv(s, initial) && (a.WorkerStep? || a.WriteFails?) && |s.workers| > 0 && a.w == |s.workers| - 1
    ensures Inv(Step(s, a), initial)
  {
    hide Inv;
    var w := s.workers[a.w];
    if w == Popping && a.WorkerStep? {
      PopKeepsInv(s, initial);
    } else if w.Writing? && (a.WriteFails? || w.inTemp) {
      AttemptKeepsInv(s, a.WorkerStep? || (a.renamed && w.inTemp), Step(s, a).store, initial);
    } else if w.Writing? {
      QuietKeepsInv(s, Writing(w.entry, true), initial);
    } else if w == Exiting && a.WorkerStep? {
      QuietKeepsInv(s, Done, initial);
    }
  }

  lemma WorkerKeepsInv(s: State, a: Action, initial: map<string, string>)
    requires Inv(s, initial) && (a.WorkerStep? || a.WriteFails?) && a.w < |s.workers|
    ensures Inv(Step(s, a), initial)
  {
    if a.w == |s.workers| - 1 {
      hide *;
      LastStepKeepsInv(s, a, initial);
    } else {
      assert s.workers[a.w] == Done;
      hide Inv;
    }
  }

  lemma StepKeepsInv(s: State, a: Action, initial: map<string, string>)
    requires Inv(s, initial)
    ensures Inv(Step(s, a), initial)
  {
    hide Inv;
    if a.Push? || a == CheckFuture {
      CallerKeepsInv(s, a, initial);
    } else if a.w < |s.workers| {
      WorkerKeepsInv(s, a, initial);
    }
  }

  /**
   Every interleaving: at most one thread is alive, and attempts, the entry in flight and the queue, in this order, are
   exactly the puts: none lost, repeated or reordered.
   */
  lemma {:induction false} RunKeepsInv(s: State, actions: seq<Action>, initial: map<string, string>)
    requires Inv(s, initial)
    ensures Inv(Run(s, actions), initial)
    decreases |actions|
  {
    if |actions| > 0 {
      hide Inv, Step;
      StepKeepsInv(s, actions[0], initial);
      RunKeepsInv(Step(s, actions[0]), actions[1..], initial);
    }
  }

  lemma StartIsInv(s: State)
    requires Start(s)
    ensures Inv(s, s.store)
  {
  }

  /** The value of the last put of a key, or what was stored before the first. */
  function LastPut(puts: seq<Entry>, key: string, initial: map<string, string>): map<string, string> {
    if |puts| == 0 then (if key in initial then map[key := initial[key]] else map[])
    else if puts[|puts| - 1].key == key then map[key := puts[|puts| - 1].value]
    else LastPut(puts[..|puts| - 1], key, initial)
  }

  lemma {:induction false} AppliedIsLast(initial: map<string, string>, attempts: seq<Attempt>, key: string)
    requires forall i :: 0 <= i < |attempts| ==> attempts[i].stored
    ensures LastPut(Entries(attempts), key, initial)
         == if key in Applied(initial, attempts) then map[key := Applied(initial, attempts)[key]] else map[]
  {
    if |attempts| > 0 {
      var n := |attempts| - 1;
      assert Entries(attempts)[..n] == Entries(attempts[..n]);
      AppliedIsLast(initial, attempts[..n], key);
    }
  }

  /** With nothing queued or in flight and every rename made, every key holds its last put value. */
  lemma QuietMeansStored(start: State, actions: seq<Action>, key: string)
    requires Start(start)
    requires var s := Run(start, actions); s.queue == [] && AllInFlight(s.workers) == []
                                           && forall i :: 0 <= i < |s.attempts| ==> s.attempts[i].stored
    ensures var s := Run(start, actions);
            LastPut(s.puts, key, start.store) == if key in s.store then map[key := s.store[key]] else map[]
  {
    StartIsInv(start);
    RunKeepsInv(start, actions, start.store);
    var s := Run(start, actions);
    assert Entries(s.attempts) + [] + [] == Entries(s.attempts);
    hide Run, Applied, Entries, LastPut;
    AppliedIsLast(start.store, s.attempts, key);
  }

  lemma {:induction false} AppliedIsWhole(initial: map<string, string>, attempts: seq<Attempt>, key: string)
    requires key in Applied(initial, attempts)
    ensures (key in initial && Applied(initial, attempts)[key] == initial[key])
         || Entry(key, Applied(initial, attempts)[key]) in Entries(attempts)
  {
    if |attempts| > 0 {
      var n := |attempts| - 1;
      assert Entries(attempts)[..n] == Entries(attempts[..n]);
      assert Entries(attempts)[n] == attempts[n].entry;
      if !(attempts[n].stored && attempts[n].entry.key == key) {
        AppliedIsWhole(initial, attempts[..n], key);
      }
    }
  }

  /** At every moment, also between the temporary write and the rename, a key holds its old value or one that was put. */
  lemma ReadersSeeWholeValues(start: State, actions: seq<Action>, key: string)
    requires Start(start) && key in Run(start, actions).store
    ensures var s := Run(start, actions);
            (key in start.store && s.store[key] == start.store[key]) || Entry(key, s.store[key]) in s.puts
  {
    StartIsInv(start);
    RunKeepsInv(start, actions, start.store);
    var s := Run(start, actions);
    AppliedIsWhole(start.store, s.attempts, key);
    assert forall e :: e in Entries(s.attempts) ==> e in s.puts;
  }

  // ---------------------------------------------------------------- draining

  /** What may happen without another put. */
  ghost predicate NoPush(actions: seq<Action>) {
    forall i :: 0 <= i < |actions| ==> !actions[i].Push?
  }

  /** Steps of the live thread until the queue is empty and nothing is in flight. */
  function Work(s: State): nat {
    3 * |s.queue| + if |s.workers| > 0 && s.workers[|s.workers| - 1].Writing?
                    then (if s.workers[|s.workers| - 1].inTemp then 1 else 2) else 0
  }

  predicate HasLiveThread(s: State) {
    |s.workers| > 0 && Active(s.workers[|s.workers| - 1])
  }

  lemma RunFirst(s: State, a: Action, rest: seq<Action>)
    ensures Run(s, [a] + rest) == Run(Step(s, a), rest)
  {
    assert ([a] + rest)[1..] == rest;
    hide Step;
  }

  lemma {:induction false} RunAppend(s: State, first: seq<Action>, rest: seq<Action>)
    ensures Run(s, first + rest) == Run(Run(s, first), rest)
    decreases |first|
  {
    hide Step;
    if |first| == 0 {
      assert first + rest == rest;
    } else {
      assert (first + rest)[1..] == first[1..] + rest;
      RunAppend(Step(s, first[0]), first[1..], rest);
    }
  }

  /** A live thread alone empties the queue, in a bounded number of its steps, and then stands before its failing pop. */
  lemma {:induction false} LiveThreadDrains(s: State) returns (actions: seq<Action>)
    requires HasLiveThread(s)
    ensures NoPush(actions) && |actions| == Work(s) && forall i :: 0 <= i < |actions| ==> actions[i] == WorkerStep(|s.workers| - 1)
    ensures var r := Run(s, actions);
            && |r.workers| == |s.workers| && r.queue == [] && r.workers[|r.workers| - 1] == Popping
            && r.callerPushed == s.callerPushed
    decreases Work(s)
  {
    if Work(s) == 0 {
      actions := [];
    } else {
      var a := WorkerStep(|s.workers| - 1);
      assert Work(Step(s, a)) == Work(s) - 1 && HasLiveThread(Step(s, a));
      var rest := LiveThreadDrains(Step(s, a));
      RunFirst(s, a, rest);
      actions := [a] + rest;
    }
  }

  /** Nothing queued, nothing being written. */
  ghost predicate Drained(s: State) {
    s.queue == [] && forall i :: 0 <= i < |s.workers| ==> !s.workers[i].Writing?
  }

  lemma {:induction false} DrainedStays(s: State, actions: seq<Action>)
    requires Drained(s) && NoPush(actions)
    ensures Drained(Run(s, actions))
    decreases |actions|
  {
    if |actions| > 0 {
      assert Drained(Step(s, actions[0]));
      DrainedStays(Step(s, actions[0]), actions[1..]);
    }
  }

  function Occurrences(actions: seq<Action>, a: Action): nat
    decreases |actions|
  {
    if |actions| == 0 then 0 else (if actions[0] == a then 1 else 0) + Occurrences(actions[1..], a)
  }

  /** With work left, no step but a put adds work or ends the live thread, and each of its own steps takes work away. */
  lemma WorkShrinks(s: State, a: Action)
    requires OneWriter(s.workers) && HasLiveThread(s) && Work(s) > 0 && !a.Push?
    ensures var r := Step(s, a);
            && OneWriter(r.workers) && HasLiveThread(r) && |r.workers| == |s.workers|
            && Work(r) <= Work(s) - if a == WorkerStep(|s.workers| - 1) then 1 else 0
  {
  }

  /** Every interleaving without another put in which a live thread makes enough steps leaves nothing queued or being written. */
  lemma {:induction false} EnoughStepsDrain(s: State, actions: seq<Action>)
    requires OneWriter(s.workers) && HasLiveThread(s) && NoPush(actions)
    requires Occurrences(actions, WorkerStep(|s.workers| - 1)) >= Work(s)
    ensures Drained(Run(s, actions))
    decreases |actions|
  {
    if Work(s) == 0 {
      DrainedStays(s, actions);
    } else if |actions| > 0 {
      WorkShrinks(s, actions[0]);
      hide Step, Work, OneWriter, HasLiveThread;
      EnoughStepsDrain(Step(s, actions[0]), actions[1..]);
    }
  }

  /** With no check pending and no live thread, nothing but another put can change the queue. */
  lemma {:induction false} IdleKeepsQueue(s: State, actions: seq<Action>)
    requires !s.callerPushed && OneWriter(s.workers) && !HasLiveThread(s) && NoPush(actions)
    ensures Run(s, actions).queue == s.queue
    decreases |actions|
  {
    if |actions| > 0 {
      var next := Step(s, actions[0]);
      assert !next.callerPushed && OneWriter(next.workers) && !HasLiveThread(next) && next.queue == s.queue;
      IdleKeepsQueue(next, actions[1..]);
    }
  }

  /** A pending check can still start a thread, after the exiting one has ended. */
  lemma PendingCheckDrains(s: State) returns (actions: seq<Action>)
    requires s.callerPushed && !HasLiveThread(s)
    ensures NoPush(actions) && Run(s, actions).queue == []
  {
    var first := if FutureIdle(s) then [CheckFuture] else [WorkerStep(|s.workers| - 1), CheckFuture];
    var t := Run(s, first);
    if FutureIdle(s) {
      RunFirst(s, CheckFuture, []);
    } else {
      RunFirst(s, WorkerStep(|s.workers| - 1), [CheckFuture]);
      RunFirst(Step(s, WorkerStep(|s.workers| - 1)), CheckFuture, []);
      assert first == [WorkerStep(|s.workers| - 1)] + [CheckFuture] && [CheckFuture] == [CheckFuture] + [];
    }
    assert HasLiveThread(t);
    var rest := LiveThreadDrains(t);
    RunAppend(s, first, rest);
    actions := first + rest;
  }

  /**
   Without another put the queue can drain exactly when it is empty already, a thread is live, or the caller has still to
   look at the future.
   */
  lemma DrainsIffLive(s: State)
    requires OneWriter(s.workers)
    ensures (exists actions :: NoPush(actions) && Run(s, actions).queue == [])
            <==> s.queue == [] || HasLiveThread(s) || s.callerPushed
  {
    if s.queue == [] {
      assert NoPush([]) && Run(s, []).queue == [];
    } else if HasLiveThread(s) {
      var actions := LiveThreadDrains(s);
    } else if s.callerPushed {
      var actions := PendingCheckDrains(s);
    } else {
      forall actions | NoPush(actions) ensures Run(s, actions).queue == s.queue {
        IdleKeepsQueue(s, actions);
      }
    }
  }

  /** The check of a put strands its entry exactly when the last thread is between its failed pop and its end. */
  lemma CheckStrandsIffExiting(s: State)
    requires OneWriter(s.workers) && s.callerPushed && s.queue != []
    ensures (exists actions :: NoPush(actions) && Run(Step(s, CheckFuture), actions).queue == [])
            <==> !(|s.workers| > 0 && s.workers[|s.workers| - 1] == Exiting)
  {
    DrainsIffLive(Step(s, CheckFuture));
  }

  // ---------------------------------------------------------------- a stranded put

  lemma RunThree(s: State, a: Action, b: Action, c: Action)
    ensures Run(s, [a, b, c]) == Step(Step(Step(s, a), b), c)
  {
    assert [a] + [b, c] == [a, b, c] && [b] + [c] == [b, c] && [c] + [] == [c];
    RunFirst(s, a, [b, c]);
    RunFirst(Step(s, a), b, [c]);
    RunFirst(Step(Step(s, a), b), c, []);
    hide Step;
  }

  lemma FirstPutIsWritten(store: map<string, string>, a: Entry)
    ensures Run(State([], false, [], store, [], []), [Push(a), CheckFuture, WorkerStep(0), WorkerStep(0), WorkerStep(0), WorkerStep(0)])
         == State([], false, [Exiting], store[a.key := a.value], [a], [Attempt(a, true)])
  {
    var s0 := State([], false, [], store, [], []);
    var s3 := State([], false, [Writing(a, false)], store, [a], []);
    RunThree(s0, Push(a), CheckFuture, WorkerStep(0));
    RunThree(s3, WorkerStep(0), WorkerStep(0), WorkerStep(0));
    RunAppend(s0, [Push(a), CheckFuture, WorkerStep(0)], [WorkerStep(0), WorkerStep(0), WorkerStep(0)]);
    assert [Push(a), CheckFuture, WorkerStep(0)] + [WorkerStep(0), WorkerStep(0), WorkerStep(0)]
        == [Push(a), CheckFuture, WorkerStep(0), WorkerStep(0), WorkerStep(0), WorkerStep(0)];
    hide Run;
    assert Step(s0, Push(a)) == State([a], true, [], store, [a], []);
    assert Step(Step(Step(s0, Push(a)), CheckFuture), WorkerStep(0)) == s3;
  }

  /**
   A run from the start: the first put is written, the second comes between the thread's failed pop and its end. Its
   entry then stays queued whatever happens short of another put, with the future idle, so the destructor's assertion
   that the queue is empty fails.
   */
  lemma SecondPutIsStranded(store: map<string, string>, a: Entry, b: Entry, actions: seq<Action>)
    requires NoPush(actions)
    ensures var s0 := State([], false, [], store, [], []);
            var run := [Push(a), CheckFuture, WorkerStep(0), WorkerStep(0), WorkerStep(0), WorkerStep(0)]
                       + [Push(b), CheckFuture, WorkerStep(0)];
            && Start(s0) && Run(s0, run).queue == [b] && FutureIdle(Run(s0, run))
            && Run(s0, run + actions).queue == [b]
  {
    var s0 := State([], false, [], store, [], []);
    var first := [Push(a), CheckFuture, WorkerStep(0), WorkerStep(0), WorkerStep(0), WorkerStep(0)];
    var last := [Push(b), CheckFuture, WorkerStep(0)];
    FirstPutIsWritten(store, a);
    var s6 := Run(s0, first);
    RunAppend(s0, first, last);
    RunAppend(s0, first + last, actions);
    var s9 := State([b], false, [Done], store[a.key := a.value], [a, b], [Attempt(a, true)]);
    RunThree(s6, Push(b), CheckFuture, WorkerStep(0));
    assert Run(s6, last) == s9;
    IdleKeepsQueue(s9, actions);
  }

  // ---------------------------------------------------------------- the object

  function Written(entries: seq<Entry>): (r: seq<Attempt>)
    ensures |r| == |entries| && forall i :: 0 <= i < |r| ==> r[i] == Attempt(entries[i], true)
  {
    seq(|entries|, i requires 0 <= i < |entries| => Attempt(entries[i], true))
  }

  /** The shared object; each of the first three methods is one step of a thread, through the queue. */
  class Params {
    const queue: SafeQueue<Entry>
    var callerPushed: bool
    var workers: seq<Worker>
    var store: map<string, string>
    ghost var puts: seq<Entry>
    ghost var attempts: seq<Attempt>

    ghost function Value(): State
      reads this, queue
    {
      State(queue.q, callerPushed, workers, store, puts, attempts)
    }

    constructor (store: map<string, string>)
      ensures Start(Value()) && Value().store == store && fresh(queue)
    {
      queue := new SafeQueue<Entry>();
      callerPushed, workers, this.store, puts, attempts := false, [], store, [], [];
    }

    /** The first half of `putNonBlocking`. */
    method PushEntry(e: Entry)
      requires !callerPushed
      modifies this, queue
      ensures Value() == Step(old(Value()), Push(e))
    {
      queue.Push(e);
      callerPushed := true;
      puts := puts + [e];
    }

    /** Its second half: a thread is started on demand. */
    method StartOnDemand()
      requires callerPushed
      modifies this
      ensures Value() == Step(old(Value()), CheckFuture)
    {
      if |workers| == 0 || workers[|workers| - 1] == Done {
        workers := workers + [Popping];
      }
      callerPushed := false;
    }

    /** One step of thread `w`: a pop, the temporary write, the rename, or its end; a write may fail, also after its rename. */
    method WorkerStep(w: nat, writeFails: bool, renamed: bool)
      requires w < |workers|
      modifies this, queue
      ensures Value() == Step(old(Value()), if writeFails && old(workers[w]).Writing? then WriteFails(w, renamed) else Action.WorkerStep(w))
    {
      match workers[w]
      case Popping =>
        var popped, e := queue.TryPop();
        workers := workers[w := if popped then Writing(e, false) else Exiting];
      case Writing(e, inTemp) =>
        if writeFails {
          if renamed && inTemp {
            Put(e);
          } else {
            attempts := attempts + [Attempt(e, false)];
          }
          workers := workers[w := Popping];
        } else if !inTemp {
          workers := workers[w := Writing(e, true)];
        } else {
          Put(e);
          workers := workers[w := Popping];
        }
      case Exiting =>
        workers := workers[w := Done];
      case Done =>
    }

    /** The two halves undisturbed. */
    method PutNonBlocking(e: Entry)
      requires !callerPushed
      modifies this, queue
      ensures Value() == Run(old(Value()), [Push(e), CheckFuture])
    {
      RunFirst(Value(), Push(e), [CheckFuture]);
      RunFirst(Step(Value(), Push(e)), CheckFuture, []);
      assert [Push(e)] + [CheckFuture] == [Push(e), CheckFuture] && [CheckFuture] + [] == [CheckFuture];
      PushEntry(e);
      StartOnDemand();
    }

    /** What `put` does once its rename is made. */
    method Put(e: Entry)
      modifies this`store, this`attempts
      ensures store == old(store)[e.key := e.value] && attempts == old(attempts) + [Attempt(e, true)]
    {
      store := store[e.key := e.value];
      attempts := attempts + [Attempt(e, true)];
    }

    /** A thread undisturbed writes all that is queued, in order, and ends its loop. */
    method AsyncWriteThread()
      modifies this`store, this`attempts, queue
      ensures queue.q == [] && attempts == old(attempts) + Written(old(queue.q)) && store == Applied(old(store), Written(old(queue.q)))
    {
      ghost var (all, finished) := (queue.q, []);
      NothingWritten(old(store));
      hide Written, Applied;
      var popped := true;
      while popped
        invariant all == finished + queue.q && (!popped ==> queue.q == [])
        invariant attempts == old(attempts) + Written(finished) && store == Applied(old(store), Written(finished))
        decreases |queue.q|, popped
      {
        var e;
        popped, e := queue.TryPop();
        if popped {
          OneMoreWritten(finished, e, old(store));
          Regroup(finished, e, queue.q);
          Put(e);
          finished := finished + [e];
        }
      }
      assert all == finished;
    }
  }

  lemma Regroup<T>(a: seq<T>, e: T, b: seq<T>)
    ensures a + ([e] + b) == (a + [e]) + b
  {
  }

  lemma NothingWritten(store: map<string, string>)
    ensures Written([]) == [] && Applied(store, Written([])) == store
  {
  }

  lemma OneMoreWritten(finished: seq<Entry>, e: Entry, store: map<string, string>)
    ensures Written(finished + [e]) == Written(finished) + [Attempt(e, true)]
    ensures Applied(store, Written(finished + [e])) == Applied(store, Written(finished))[e.key := e.value]
  {
    var w := Written(finished + [e]);
    assert w == Written(finished) + [Attempt(e, true)];
    assert w[..|finished|] == Written(finished);
  }
}
