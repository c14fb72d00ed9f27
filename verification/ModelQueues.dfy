/**
 The driving model's input queues (selfdrive/modeld/compile_modeld.py, selfdrive/modeld/modeld.py): buffers that shift by
 one entry per push and are sampled, against the plain history of what was pushed; the pulse logic of the desire input;
 and the pixel order of a prepared frame.
 */
module ModelQueues {
  import opened Numbers

  // ---------------------------------------------------------------- a queue is a window on its history

  /** What was pushed `age` pushes ago, or `zero` from before the start. */
  function Ago<T>(history: seq<T>, age: nat, zero: T): T {
    if age < |history| then history[|history| - 1 - age] else zero
  }

  function Window<T>(history: seq<T>, size: nat, zero: T): (r: seq<T>)
    ensures |r| == size && forall j :: 0 <= j < size ==> r[j] == Ago(history, size - 1 - j, zero)
  {
    seq(size, j requires 0 <= j < size => Ago(history, size - 1 - j, zero))
  }

  lemma WindowShifts<T>(history: seq<T>, size: nat, zero: T, value: T)
    requires size > 0
    ensures Window(history + [value], size, zero) == Window(history, size, zero)[1..] + [value]
  {
    var (w, w1) := (Window(history, size, zero), Window(history + [value], size, zero));
    forall j | 0 <= j < size ensures w1[j] == (w[1..] + [value])[j] {
      if j + 1 < size {
        assert w[1..][j] == w[j + 1];
      }
    }
  }

  class InputQueue<T> {
    var buf: seq<T>
    const zero: T
    ghost var history: seq<T>

    ghost predicate Valid()
      reads this
    {
      |buf| > 0 && buf == Window(history, |buf|, zero)
    }

    constructor (size: nat, zero: T)
      requires size > 0
      ensures Valid() && |buf| == size && this.zero == zero && history == []
    {
      buf := seq(size, _ => zero);
      this.zero := zero;
      history := [];
    }

    /** The shift of `shift_and_sample`: the oldest entry leaves, the new one is last. */
    method Shift(value: T)
      requires Valid()
      modifies this
      ensures Valid() && history == old(history) + [value]
      ensures buf == old(buf)[1..] + [value]
    {
      WindowShifts(history, |buf|, zero, value);
      buf := buf[1..] + [value];
      history := history + [value];
    }
  }

  // ---------------------------------------------------------------- sampling

  // Division by a variable goes through these two names, so that each proof states the facts it needs about it.

  function Quot(a: nat, k: nat): nat
    requires k > 0
  {
    a / k
  }

  function Rem(a: nat, k: nat): nat
    requires k > 0
  {
    a % k
  }

  lemma Split(a: nat, k: nat)
    requires k > 0
    ensures a == Quot(a, k) * k + Rem(a, k) && Rem(a, k) < k
  {
  }

  lemma Unique(q: nat, r: nat, j: nat, s: nat, k: nat)
    requires r < k && s < k && q * k + r == j * k + s
    ensures q == j && r == s
  {
    assert (j + 1) * k == j * k + k;
    assert (q + 1) * k == q * k + k;
    if q > j {
      MulMono(j + 1, q, k);
    } else if q < j {
      MulMono(q + 1, j, k);
    }
  }

  lemma MulDiv(a: nat, j: nat, k: nat, r: nat)
    requires r < k && a == j * k + r
    ensures Quot(a, k) == j && Rem(a, k) == r
  {
    hide Quot, Rem;
    Split(a, k);
    Unique(Quot(a, k), Rem(a, k), j, r, k);
  }

  lemma MulMono(a: nat, b: nat, k: nat)
    requires a <= b
    ensures a * k <= b * k
  {
  }

  /** Every `skip`-th entry: as many slots as fit. */
  function SampleSkip<T>(buf: seq<T>, skip: nat): (r: seq<T>)
    requires skip > 0
    ensures |r| == Quot(|buf| + skip - 1, skip)
    ensures forall j :: 0 <= j < |r| ==> j * skip < |buf| && r[j] == buf[j * skip]
  {
    SkipFits(|buf|, skip);
    seq(Quot(|buf| + skip - 1, skip), j requires 0 <= j < Quot(|buf| + skip - 1, skip) => buf[j * skip])
  }

  lemma SkipFits(size: nat, skip: nat)
    requires skip > 0
    ensures forall j :: 0 <= j < Quot(size + skip - 1, skip) ==> j * skip < size
  {
    hide Quot;
    var q := Quot(size + skip - 1, skip);
    Split(size + skip - 1, skip);
    forall j | 0 <= j < q ensures j * skip < size {
      MulMono(j + 1, q, skip);
      assert (j + 1) * skip == j * skip + skip;
    }
  }

  function Product(a: nat, b: nat): nat {
    a * b
  }

  /** The length the source gives a buffer sampled into `n` slots. */
  function SkipSize(n: nat, skip: nat): nat
    requires n > 0
  {
    Product(skip, n - 1) + 1
  }

  lemma SlotCount(n: nat, skip: nat)
    requires n > 0 && skip > 0
    ensures Quot(SkipSize(n, skip) + skip - 1, skip) == n
  {
    assert SkipSize(n, skip) + skip - 1 == n * skip + 0;
    hide SkipSize, Quot;
    MulDiv(SkipSize(n, skip) + skip - 1, n, skip, 0);
  }

  /**
   With the buffer size the source makes for n slots, slot j is what was pushed skip (n - 1 - j) pushes ago, zero from
   before the start; the last slot is the newest push.
   */
  lemma SkipIsHistory<T>(history: seq<T>, zero: T, n: nat, skip: nat)
    requires n > 0 && skip > 0
    ensures var slots := SampleSkip(Window(history, SkipSize(n, skip), zero), skip);
            |slots| == n && (forall j :: 0 <= j < n ==> slots[j] == Ago(history, Product(skip, n - 1 - j), zero))
            && (|history| > 0 ==> slots[n - 1] == history[|history| - 1])
  {
    SlotCount(n, skip);
    assert Product(skip, 0) == 0;
    hide Quot, SampleSkip, Window, Product, SkipSize;
    forall j | 0 <= j < n
      ensures SampleSkip(Window(history, SkipSize(n, skip), zero), skip)[j] == Ago(history, Product(skip, n - 1 - j), zero)
    {
      SkipSlot(history, zero, n, skip, j, SkipSize(n, skip), Product(skip, n - 1 - j));
    }
  }

  lemma SkipSlot<T>(history: seq<T>, zero: T, n: nat, skip: nat, j: nat, size: nat, age: nat)
    requires skip > 0 && j < n && size == SkipSize(n, skip) && age == Product(skip, n - 1 - j)
    ensures j < |SampleSkip(Window(history, size, zero), skip)|
    ensures SampleSkip(Window(history, size, zero), skip)[j] == Ago(history, age, zero)
  {
    hide Quot;
    SlotCount(n, skip);
    Ages(n, skip, j, size, age);
  }

  lemma Ages(n: nat, skip: nat, j: nat, size: nat, age: nat)
    requires j < n && size == skip * (n - 1) + 1 && age == skip * (n - 1 - j)
    ensures age == size - 1 - j * skip
  {
  }

  /** The largest of the group of `skip` entries from `from` on, when the buffer has that many. */
  function GroupMax(buf: seq<real>, from: nat, skip: nat): real
    requires skip > 0
  {
    if from + skip <= |buf| then Largest(buf[from..from + skip]) else 0.0
  }

  /** The largest of each group (one lane of the desire vector). */
  function SampleDesire(buf: seq<real>, skip: nat): seq<real>
    requires skip > 0
  {
    seq(Quot(|buf|, skip), j requires 0 <= j < Quot(|buf|, skip) => GroupMax(buf, j * skip, skip))
  }

  /** The slot in which a push of this age is seen, among `n`. */
  function SlotOf(age: nat, n: nat, skip: nat): int
    requires skip > 0
  {
    n - 1 - Quot(age, skip)
  }

  lemma GroupMember(history: seq<real>, size: nat, from: nat, skip: nat, age: nat)
    requires from + skip <= size && from <= size - 1 - age < from + skip
    ensures Ago(history, age, 0.0) in Window(history, size, 0.0)[from..from + skip]
  {
    assert Window(history, size, 0.0)[from..from + skip][size - 1 - age - from] == Ago(history, age, 0.0);
  }

  lemma DesireSlot(buf: seq<real>, n: nat, skip: nat, j: nat, from: nat)
    requires skip > 0 && j < n && |buf| == skip * n && from == j * skip
    ensures |SampleDesire(buf, skip)| == n && from + skip <= |buf|
    ensures SampleDesire(buf, skip)[j] == Largest(buf[from..from + skip])
  {
    hide Quot, GroupMax;
    MulDiv(|buf|, n, skip, 0);
    MulMono(j + 1, n, skip);
    assert (j + 1) * skip == from + skip;
    assert SampleDesire(buf, skip)[j] == GroupMax(buf, from, skip);
    GroupMaxDef(buf, from, skip);
  }

  lemma GroupMaxDef(buf: seq<real>, from: nat, skip: nat)
    requires skip > 0 && from + skip <= |buf|
    ensures GroupMax(buf, from, skip) == Largest(buf[from..from + skip])
  {
  }

  /** A slot is the maximum over its own `skip` ages: one of them reaches it and none exceeds it. */
  lemma DesireIsHistory(history: seq<real>, n: nat, skip: nat, j: nat) returns (best: nat)
    requires skip > 0 && j < n
    ensures |SampleDesire(Window(history, skip * n, 0.0), skip)| == n
    ensures best < skip * n && SlotOf(best, n, skip) == j
    ensures Ago(history, best, 0.0) == SampleDesire(Window(history, skip * n, 0.0), skip)[j]
    ensures forall age: nat :: age < skip * n && SlotOf(age, n, skip) == j ==>
      Ago(history, age, 0.0) <= SampleDesire(Window(history, skip * n, 0.0), skip)[j]
  {
    var (size, from) := (skip * n, j * skip);
    var w := Window(history, size, 0.0);
    DesireSlot(w, n, skip, j, from);
    best := BestOfGroup(history, size, n, skip, j, from, w, SampleDesire(w, skip)[j]);
  }

  lemma BestOfGroup(history: seq<real>, size: nat, n: nat, skip: nat, j: nat, from: nat, w: seq<real>, slot: real)
    returns (best: nat)
    requires skip > 0 && j < n && size == skip * n && from == j * skip && from + skip <= size
    requires w == Window(history, size, 0.0) && slot == Largest(w[from..from + skip])
    ensures best < size && SlotOf(best, n, skip) == j && Ago(history, best, 0.0) == slot
    ensures forall age: nat :: age < size && SlotOf(age, n, skip) == j ==> Ago(history, age, 0.0) <= slot
  {
    hide Quot, SlotOf, Largest;
    var group := w[from..from + skip];
    forall age: nat | age < size && SlotOf(age, n, skip) == j ensures Ago(history, age, 0.0) <= slot {
      AgeAt(age, n, skip, j, from, size);
      GroupMember(history, size, from, skip, age);
    }
    var i :| 0 <= i < |group| && group[i] == slot;
    best := size - 1 - (from + i);
    AtAge(j, i, n, skip, from, size);
  }

  /** The entry of a given age lies in the group of its slot. */
  lemma AgeAt(age: nat, n: nat, skip: nat, j: int, from: int, size: nat)
    requires skip > 0 && size == skip * n && age < size && j == SlotOf(age, n, skip) && from == j * skip
    ensures j >= 0 && from <= size - 1 - age < from + skip
  {
    hide Quot;
    Split(age, skip);
    var q := Quot(age, skip);
    if q >= n {
      MulMono(n, q, skip);
    }
    assert j * skip == skip * n - skip - q * skip;
  }

  lemma AtAge(j: nat, i: nat, n: nat, skip: nat, from: nat, size: nat)
    requires i < skip && j < n && size == skip * n && from == j * skip
    ensures var age := size - 1 - (from + i); 0 <= age < size && SlotOf(age, n, skip) == j
  {
    hide Quot;
    var age := size - 1 - (from + i);
    MulMono(j + 1, n, skip);
    assert (j + 1) * skip == from + skip;
    assert age == (n - 1 - j) * skip + (skip - 1 - i);
    MulDiv(age, n - 1 - j, skip, skip - 1 - i);
  }

  /** A push is in exactly one slot's window for exactly skip n pushes, its own included, and in none after. */
  lemma SeenForItsTime(age: nat, n: nat, skip: nat)
    requires skip > 0
    ensures 0 <= SlotOf(age, n, skip) < n <==> age < skip * n
  {
    if age < skip * n {
      AgeAt(age, n, skip, SlotOf(age, n, skip), SlotOf(age, n, skip) * skip, skip * n);
    } else {
      Split(age, skip);
      hide Quot, Rem;
      var q := Quot(age, skip);
      assert (q + 1) * skip == q * skip + skip;
      if q < n {
        MulMono(q + 1, n, skip);
      }
    }
  }

  // ---------------------------------------------------------------- the whole desire vector

  const DESIRE_LEN: nat := 8

  predicate Vectors(rows: seq<seq<real>>) {
    forall i :: 0 <= i < |rows| ==> |rows[i]| == DESIRE_LEN
  }

  function Lane(rows: seq<seq<real>>, l: nat): (r: seq<real>)
    requires Vectors(rows) && l < DESIRE_LEN
    ensures |r| == |rows| && forall i :: 0 <= i < |r| ==> r[i] == rows[i][l]
  {
    seq(|rows|, i requires 0 <= i < |rows| => rows[i][l])
  }

  function MaxVector(a: seq<real>, b: seq<real>): (r: seq<real>)
    requires |a| == |b|
    ensures |r| == |a| && forall l :: 0 <= l < |a| ==> r[l] == if a[l] > b[l] then a[l] else b[l]
  {
    seq(|a|, l requires 0 <= l < |a| => if a[l] > b[l] then a[l] else b[l])
  }

  /** The elementwise maximum of the vectors of a group. */
  function LargestVector(rows: seq<seq<real>>): (r: seq<real>)
    requires |rows| > 0 && Vectors(rows)
    ensures |r| == DESIRE_LEN
  {
    if |rows| == 1 then rows[0] else MaxVector(rows[0], LargestVector(rows[1..]))
  }

  lemma {:induction false} LargestOfLane(rows: seq<seq<real>>, l: nat)
    requires |rows| > 0 && Vectors(rows) && l < DESIRE_LEN
    ensures LargestVector(rows)[l] == Largest(Lane(rows, l))
  {
    if |rows| > 1 {
      LargestOfLane(rows[1..], l);
      assert Lane(rows, l)[1..] == Lane(rows[1..], l);
    }
  }

  function GroupMaxVector(buf: seq<seq<real>>, from: nat, skip: nat): (r: seq<real>)
    requires skip > 0 && Vectors(buf)
    ensures |r| == DESIRE_LEN
  {
    if from + skip <= |buf| then LargestVector(buf[from..from + skip]) else seq(DESIRE_LEN, _ => 0.0)
  }

  /** `sample_desire`: the maximum of each group of `skip` vectors. */
  function SampleDesireVectors(buf: seq<seq<real>>, skip: nat): (r: seq<seq<real>>)
    requires skip > 0 && Vectors(buf)
    ensures Vectors(r) && |r| == Quot(|buf|, skip)
  {
    seq(Quot(|buf|, skip), j requires 0 <= j < Quot(|buf|, skip) => GroupMaxVector(buf, j * skip, skip))
  }

  lemma GroupMaxOfLane(buf: seq<seq<real>>, from: nat, skip: nat, l: nat)
    requires skip > 0 && Vectors(buf) && l < DESIRE_LEN
    ensures GroupMaxVector(buf, from, skip)[l] == GroupMax(Lane(buf, l), from, skip)
  {
    if from + skip <= |buf| {
      var group := buf[from..from + skip];
      LargestOfLane(group, l);
      LaneOfSlice(buf, from, from + skip, l);
      hide Lane, Largest, LargestVector;
    }
  }

  lemma LaneOfSlice(buf: seq<seq<real>>, from: nat, to: nat, l: nat)
    requires from <= to <= |buf| && Vectors(buf) && l < DESIRE_LEN
    ensures Vectors(buf[from..to]) && Lane(buf[from..to], l) == Lane(buf, l)[from..to]
  {
  }

  /** The vector maximum acts on each lane by itself. */
  lemma SampleOfLane(buf: seq<seq<real>>, skip: nat, l: nat)
    requires skip > 0 && Vectors(buf) && l < DESIRE_LEN
    ensures Lane(SampleDesireVectors(buf, skip), l) == SampleDesire(Lane(buf, l), skip)
  {
    hide GroupMax, GroupMaxVector, Quot;
    var slots := SampleDesireVectors(buf, skip);
    forall j | 0 <= j < |slots| ensures Lane(slots, l)[j] == SampleDesire(Lane(buf, l), skip)[j] {
      GroupMaxOfLane(buf, j * skip, skip, l);
    }
  }

  const NO_DESIRE: seq<real> := seq(DESIRE_LEN, _ => 0.0)

  lemma WindowOfLane(history: seq<seq<real>>, size: nat, l: nat)
    requires Vectors(history) && l < DESIRE_LEN
    ensures Vectors(Window(history, size, NO_DESIRE))
    ensures Lane(Window(history, size, NO_DESIRE), l) == Window(Lane(history, l), size, 0.0)
  {
    var (w, v) := (Window(history, size, NO_DESIRE), Window(Lane(history, l), size, 0.0));
    forall j | 0 <= j < size ensures |w[j]| == DESIRE_LEN && w[j][l] == v[j] {
      assert w[j] == Ago(history, size - 1 - j, NO_DESIRE);
    }
  }

  /** Every lane of every slot of the sampled queue is the maximum of that lane over the slot's own ages. */
  lemma DesireVectorsAreHistory(history: seq<seq<real>>, n: nat, skip: nat, j: nat, l: nat) returns (best: nat)
    requires skip > 0 && j < n && l < DESIRE_LEN && Vectors(history)
    ensures Vectors(Window(history, skip * n, NO_DESIRE))
    ensures |SampleDesireVectors(Window(history, skip * n, NO_DESIRE), skip)| == n
    ensures best < skip * n && SlotOf(best, n, skip) == j
    ensures var slot := SampleDesireVectors(Window(history, skip * n, NO_DESIRE), skip)[j][l];
            && Ago(Lane(history, l), best, 0.0) == slot
            && forall age: nat :: age < skip * n && SlotOf(age, n, skip) == j ==> Ago(Lane(history, l), age, 0.0) <= slot
  {
    WindowOfLane(history, skip * n, l);
    hide SampleDesire, SampleDesireVectors, Window, SlotOf;
    SampleOfLane(Window(history, skip * n, NO_DESIRE), skip, l);
    best := DesireIsHistory(Lane(history, l), n, skip, j);
  }

  // ---------------------------------------------------------------- desire pulses

  /** Only a rising edge gets through. */
  function Pulse(now: real, before: real): real {
    if now - before > 0.99 then now else 0.0
  }

  function Pulses(now: seq<real>, before: seq<real>): (r: seq<real>)
    requires |now| == |before|
    ensures |r| == |now| && forall i :: 0 <= i < |r| ==> r[i] == Pulse(now[i], before[i])
  {
    seq(|now|, i requires 0 <= i < |now| => Pulse(now[i], before[i]))
  }

  class ModelState {
    const desire: array<real>
    const prevDesire: array<real>
    const desireQueue: InputQueue<seq<real>>

    ghost predicate Valid()
      reads this, desireQueue
    {
      && desire.Length == prevDesire.Length == DESIRE_LEN && desire != prevDesire
      && desireQueue.Valid() && desireQueue.zero == NO_DESIRE && Vectors(desireQueue.history)
    }

    constructor (queueSize: nat)
      requires queueSize > 0
      ensures Valid() && fresh(desire) && fresh(prevDesire) && fresh(desireQueue)
      ensures prevDesire[..] == NO_DESIRE && desireQueue.history == []
      ensures |desireQueue.buf| == queueSize && desireQueue.zero == NO_DESIRE
    {
      desire := new real[DESIRE_LEN](_ => 0.0);
      prevDesire := new real[DESIRE_LEN](_ => 0.0);
      desireQueue := new InputQueue<seq<real>>(queueSize, NO_DESIRE);
    }

    /**
     The desire part of `run`: the first lane is cleared in the caller's array, rising edges become the new entry, and
     the entry is pushed unless the frame is only prepared.
     */
    method Run(input: array<real>, prepareOnly: bool)
      requires Valid() && input.Length == DESIRE_LEN && input != desire && input != prevDesire
      modifies input, desire, prevDesire, desireQueue
      ensures Valid()
      ensures input[..] == old(input[..])[0 := 0.0] && prevDesire[..] == input[..]
      ensures desire[..] == Pulses(input[..], old(prevDesire[..]))
      ensures forall l :: 0 <= l < DESIRE_LEN ==>
        desire[l] == if l > 0 && old(input[l]) - old(prevDesire[l]) > 0.99 then old(input[l]) else 0.0
      ensures desireQueue.history == old(desireQueue.history) + if prepareOnly then [] else [desire[..]]
      ensures |desireQueue.buf| == old(|desireQueue.buf|)
    {
      input[0] := 0.0;
      forall i | 0 <= i < DESIRE_LEN {
        desire[i] := Pulse(input[i], prevDesire[i]);
      }
      forall i | 0 <= i < DESIRE_LEN {
        prevDesire[i] := input[i];
      }
      assert desire[..] == Pulses(input[..], old(prevDesire[..]));
      if prepareOnly {
        return;
      }
      desireQueue.Shift(desire[..]);
    }

    /** A run of frames, each with its desire vector and whether it was only prepared. */
    method RunFrames(inputs: seq<seq<real>>, prepareOnly: seq<bool>)
      requires Valid() && Vectors(inputs) && |inputs| == |prepareOnly|
      modifies desire, prevDesire, desireQueue
      ensures Valid()
      ensures desireQueue.history == old(desireQueue.history) + QueueHistory(old(prevDesire[..]), inputs, prepareOnly)
      ensures |desireQueue.buf| == old(|desireQueue.buf|)
    {
      ghost var all := QueueHistory(prevDesire[..], inputs, prepareOnly);
      assert inputs[0..] == inputs && prepareOnly[0..] == prepareOnly && desireQueue.history + all == old(desireQueue.history) + all;
      for i := 0 to |inputs|
        invariant Valid() && |desireQueue.buf| == old(|desireQueue.buf|)
        invariant desireQueue.history + QueueHistory(prevDesire[..], inputs[i..], prepareOnly[i..]) == old(desireQueue.history) + all
      {
        ghost var (before, history) := (prevDesire[..], desireQueue.history);
        HistoryFirst(before, inputs[i..], prepareOnly[i..]);
        var input := new real[DESIRE_LEN](l requires 0 <= l < DESIRE_LEN => inputs[i][l]);
        assert input[..] == inputs[i];
        Run(input, prepareOnly[i]);
        ghost var rest := QueueHistory(prevDesire[..], inputs[i + 1..], prepareOnly[i + 1..]);
        assert inputs[i..][1..] == inputs[i + 1..] && prepareOnly[i..][1..] == prepareOnly[i + 1..];
        assert history + (Entry(before, inputs[i], prepareOnly[i]) + rest) == history + Entry(before, inputs[i], prepareOnly[i]) + rest;
      }
      assert inputs[|inputs|..] == [] && prepareOnly[|inputs|..] == [];
    }
  }

  function Cleared(input: seq<real>): (r: seq<real>)
    requires |input| == DESIRE_LEN
    ensures |r| == DESIRE_LEN
  {
    input[0 := 0.0]
  }

  /** What one frame pushes. */
  function Entry(before: seq<real>, input: seq<real>, prepareOnly: bool): (r: seq<seq<real>>)
    requires |before| == |input| == DESIRE_LEN
    ensures Vectors(r)
  {
    if prepareOnly then [] else [Pulses(Cleared(input), before)]
  }

  /** What a run of frames pushes. */
  function QueueHistory(before: seq<real>, inputs: seq<seq<real>>, prepareOnly: seq<bool>): (r: seq<seq<real>>)
    requires |before| == DESIRE_LEN && Vectors(inputs) && |inputs| == |prepareOnly|
    ensures Vectors(r)
    decreases |inputs|
  {
    if |inputs| == 0 then []
    else Entry(before, inputs[0], prepareOnly[0]) + QueueHistory(Cleared(inputs[0]), inputs[1..], prepareOnly[1..])
  }

  lemma HistoryFirst(before: seq<real>, inputs: seq<seq<real>>, prepareOnly: seq<bool>)
    requires |before| == DESIRE_LEN && Vectors(inputs) && |inputs| == |prepareOnly| > 0
    ensures QueueHistory(before, inputs, prepareOnly)
         == Entry(before, inputs[0], prepareOnly[0]) + QueueHistory(Cleared(inputs[0]), inputs[1..], prepareOnly[1..])
  {
  }

  /** One lane over a run of frames: `inputs` with, per frame, whether it was only prepared. */
  function LaneHistory(before: real, inputs: seq<real>, prepareOnly: seq<bool>): seq<real>
    requires |inputs| == |prepareOnly|
    decreases |inputs|
  {
    if |inputs| == 0 then []
    else
      (if prepareOnly[0] then [] else [Pulse(inputs[0], before)]) + LaneHistory(inputs[0], inputs[1..], prepareOnly[1..])
  }

  /** Frames that were evaluated, not only prepared. */
  function Evaluated(prepareOnly: seq<bool>): nat
    decreases |prepareOnly|
  {
    if |prepareOnly| == 0 then 0 else (if prepareOnly[0] then 0 else 1) + Evaluated(prepareOnly[1..])
  }

  lemma {:induction false} HoldIsQuiet(inputs: seq<real>, prepareOnly: seq<bool>)
    requires |inputs| == |prepareOnly| && forall i :: 0 <= i < |inputs| ==> inputs[i] == 1.0
    ensures LaneHistory(1.0, inputs, prepareOnly) == seq(Evaluated(prepareOnly), _ => 0.0)
    decreases |inputs|
  {
    if |inputs| > 0 {
      HoldIsQuiet(inputs[1..], prepareOnly[1..]);
    }
  }

  /**
   A desire held from rest pushes one pulse, in its first frame, and zeros after. If that frame was only prepared the
   pulse is lost for the whole hold.
   */
  lemma HoldPushesOnePulse(inputs: seq<real>, prepareOnly: seq<bool>)
    requires |inputs| == |prepareOnly| > 0 && forall i :: 0 <= i < |inputs| ==> inputs[i] == 1.0
    ensures var h := LaneHistory(0.0, inputs, prepareOnly);
            && |h| == Evaluated(prepareOnly)
            && (1.0 in h <==> !prepareOnly[0])
            && forall i :: 0 <= i < |h| ==> h[i] == if i == 0 && !prepareOnly[0] then 1.0 else 0.0
  {
    HoldIsQuiet(inputs[1..], prepareOnly[1..]);
  }

  /** Lane by lane, the queue's history is that of the lane's inputs; the first lane's inputs are cleared. */
  lemma {:induction false} LanesOfQueue(before: seq<real>, inputs: seq<seq<real>>, prepareOnly: seq<bool>, l: nat)
    requires |before| == DESIRE_LEN && Vectors(inputs) && |inputs| == |prepareOnly| && l < DESIRE_LEN
    ensures Lane(QueueHistory(before, inputs, prepareOnly), l)
         == LaneHistory(before[l], if l == 0 then seq(|inputs|, _ => 0.0) else Lane(inputs, l), prepareOnly)
    decreases |inputs|
  {
    if |inputs| > 0 {
      var (x, rest) := (inputs[0], inputs[1..]);
      var first := Entry(before, x, prepareOnly[0]);
      var lane := if l == 0 then seq(|inputs|, _ => 0.0) else Lane(inputs, l);
      LanesOfQueue(Cleared(x), rest, prepareOnly[1..], l);
      HistoryFirst(before, inputs, prepareOnly);
      assert lane[1..] == if l == 0 then seq(|rest|, _ => 0.0) else Lane(rest, l);
      assert lane[0] == Cleared(x)[l];
      LaneOfEntry(before, x, prepareOnly[0], l);
      hide QueueHistory, Entry, Cleared;
      LaneOfConcat(first, QueueHistory(Cleared(x), rest, prepareOnly[1..]), l);
    }
  }

  lemma LaneOfConcat(a: seq<seq<real>>, b: seq<seq<real>>, l: nat)
    requires Vectors(a) && Vectors(b) && l < DESIRE_LEN
    ensures Vectors(a + b) && Lane(a + b, l) == Lane(a, l) + Lane(b, l)
  {
  }

  lemma LaneOfEntry(before: seq<real>, input: seq<real>, prepareOnly: bool, l: nat)
    requires |before| == |input| == DESIRE_LEN && l < DESIRE_LEN
    ensures Lane(Entry(before, input, prepareOnly), l) == if prepareOnly then [] else [Pulse(Cleared(input)[l], before[l])]
  {
  }

  lemma {:induction false} NothingInFirstLane(n: nat, prepareOnly: seq<bool>)
    requires n == |prepareOnly|
    ensures LaneHistory(0.0, seq(n, _ => 0.0), prepareOnly) == seq(Evaluated(prepareOnly), _ => 0.0)
    decreases n
  {
    if n > 0 {
      assert seq(n, _ => 0.0)[1..] == seq(n - 1, _ => 0.0);
      NothingInFirstLane(n - 1, prepareOnly[1..]);
    }
  }

  /**
   What a desire held from rest puts in the queue over a run of frames: in its lane one pulse, from the first frame, and
   zeros after, and no pulse at all exactly when that frame was only prepared; in the first lane nothing ever.
   */
  lemma HoldInQueue(before: seq<real>, inputs: seq<seq<real>>, prepareOnly: seq<bool>, l: nat)
    requires |before| == DESIRE_LEN && Vectors(inputs) && |inputs| == |prepareOnly| > 0
    requires 0 < l < DESIRE_LEN && before[l] == 0.0 == before[0] && forall i :: 0 <= i < |inputs| ==> inputs[i][l] == 1.0
    ensures var h := QueueHistory(before, inputs, prepareOnly);
            && |h| == Evaluated(prepareOnly)
            && (1.0 in Lane(h, l) <==> !prepareOnly[0])
            && (forall i :: 0 <= i < |h| ==> h[i][l] == if i == 0 && !prepareOnly[0] then 1.0 else 0.0)
            && (forall i :: 0 <= i < |h| ==> h[i][0] == 0.0)
  {
    var h := QueueHistory(before, inputs, prepareOnly);
    LanesOfQueue(before, inputs, prepareOnly, l);
    LanesOfQueue(before, inputs, prepareOnly, 0);
    HoldPushesOnePulse(Lane(inputs, l), prepareOnly);
    NothingInFirstLane(|inputs|, prepareOnly);
    hide LaneHistory, QueueHistory;
    forall i | 0 <= i < |h|
      ensures h[i][l] == (if i == 0 && !prepareOnly[0] then 1.0 else 0.0) && h[i][0] == 0.0
    {
      assert Lane(h, l)[i] == h[i][l] && Lane(h, 0)[i] == h[i][0];
    }
  }

  /** In one lane of a run without prepared frames there is a pulse exactly where the input rises from zero to one. */
  lemma {:induction false} PulsesAreRisingEdges(before: real, inputs: seq<real>, prepareOnly: seq<bool>, i: nat)
    requires |inputs| == |prepareOnly| && forall j :: 0 <= j < |inputs| ==> !prepareOnly[j] && (inputs[j] == 0.0 || inputs[j] == 1.0)
    requires (before == 0.0 || before == 1.0) && i < |inputs|
    ensures var h := LaneHistory(before, inputs, prepareOnly);
            && |h| == |inputs|
            && h[i] == if inputs[i] == 1.0 && (if i == 0 then before else inputs[i - 1]) == 0.0 then 1.0 else 0.0
    decreases |inputs|
  {
    var rest := LaneHistory(inputs[0], inputs[1..], prepareOnly[1..]);
    if i > 0 {
      PulsesAreRisingEdges(inputs[0], inputs[1..], prepareOnly[1..], i - 1);
    } else if |inputs| > 1 {
      PulsesAreRisingEdges(inputs[0], inputs[1..], prepareOnly[1..], 0);
    }
  }

  /** The pulse of a hold, by its age in the queue; `past` is what the lane held before, nothing of it in the window. */
  lemma AgoOfHold(past: seq<seq<real>>, q: seq<seq<real>>, l: nat, pulse: bool, size: nat, age: nat)
    requires Vectors(past) && Vectors(q) && l < DESIRE_LEN && age < size
    requires forall a: nat :: a < size ==> Ago(Lane(past, l), a, 0.0) == 0.0
    requires forall i :: 0 <= i < |q| ==> q[i][l] == if i == 0 && pulse then 1.0 else 0.0
    ensures Ago(Lane(past + q, l), age, 0.0) == if pulse && age == |q| - 1 then 1.0 else 0.0
  {
    if age >= |q| {
      assert Ago(Lane(past + q, l), age, 0.0) == Ago(Lane(past, l), age - |q|, 0.0);
    }
  }

  /**
   What the policy is shown of a desire held from rest, after any run of frames: the slot of the pulse's age shows it, no
   other slot does, and none if the first frame was only prepared.
   */
  lemma HoldIsSeen(past: seq<seq<real>>, before: seq<real>, inputs: seq<seq<real>>, prepareOnly: seq<bool>, l: nat,
                   n: nat, skip: nat, j: nat)
    requires skip > 0 && j < n && Vectors(past)
    requires |before| == DESIRE_LEN && Vectors(inputs) && |inputs| == |prepareOnly| > 0
    requires 0 < l < DESIRE_LEN && before[l] == 0.0 == before[0] && forall i :: 0 <= i < |inputs| ==> inputs[i][l] == 1.0
    requires forall a: nat :: a < skip * n ==> Ago(Lane(past, l), a, 0.0) == 0.0
    ensures var w := Window(past + QueueHistory(before, inputs, prepareOnly), skip * n, NO_DESIRE);
            && Vectors(w) && |SampleDesireVectors(w, skip)| == n
            && SampleDesireVectors(w, skip)[j][l]
               == if !prepareOnly[0] && SlotOf(Evaluated(prepareOnly[1..]), n, skip) == j then 1.0 else 0.0
  {
    var (q, age) := (QueueHistory(before, inputs, prepareOnly), Evaluated(prepareOnly[1..]));
    HoldInQueue(before, inputs, prepareOnly, l);
    assert !prepareOnly[0] ==> |q| - 1 == age;
    hide QueueHistory, Evaluated, SampleDesireVectors, Window, SlotOf, Ago;
    var best := DesireVectorsAreHistory(past + q, n, skip, j, l);
    AgoOfHold(past, q, l, !prepareOnly[0], skip * n, best);
    SeenForItsTime(age, n, skip);
    if SlotOf(age, n, skip) == j {
      AgoOfHold(past, q, l, !prepareOnly[0], skip * n, age);
    }
  }

  /**
   So a hold evaluated in its first frame is seen in exactly one slot for exactly skip n evaluated frames, the first
   included, and in none after.
   */
  lemma HoldIsSeenForItsTime(past: seq<seq<real>>, before: seq<real>, inputs: seq<seq<real>>, prepareOnly: seq<bool>, l: nat,
                             n: nat, skip: nat) returns (slot: int)
    requires skip > 0 && Vectors(past)
    requires |before| == DESIRE_LEN && Vectors(inputs) && |inputs| == |prepareOnly| > 0
    requires 0 < l < DESIRE_LEN && before[l] == 0.0 == before[0] && forall i :: 0 <= i < |inputs| ==> inputs[i][l] == 1.0
    requires forall a: nat :: a < skip * n ==> Ago(Lane(past, l), a, 0.0) == 0.0
    ensures var w := Window(past + QueueHistory(before, inputs, prepareOnly), skip * n, NO_DESIRE);
            && Vectors(w) && |SampleDesireVectors(w, skip)| == n
            && (forall j :: 0 <= j < n ==> SampleDesireVectors(w, skip)[j][l] == if j == slot then 1.0 else 0.0)
    ensures 0 <= slot < n <==> !prepareOnly[0] && Evaluated(prepareOnly) <= skip * n
  {
    var w := Window(past + QueueHistory(before, inputs, prepareOnly), skip * n, NO_DESIRE);
    slot := if prepareOnly[0] then -1 else SlotOf(Evaluated(prepareOnly[1..]), n, skip);
    SeenForItsTime(Evaluated(prepareOnly[1..]), n, skip);
    WindowOfLane(past + QueueHistory(before, inputs, prepareOnly), skip * n, l);
    MulDiv(skip * n, n, skip, 0);
    hide QueueHistory, SampleDesireVectors, Window, SlotOf, Ago, Quot;
    forall j | 0 <= j < n ensures SampleDesireVectors(w, skip)[j][l] == if j == slot then 1.0 else 0.0 {
      HoldIsSeen(past, before, inputs, prepareOnly, l, n, skip, j);
    }
  }

  /** A slot shows a pulse exactly when one of the pushes in its window was a pulse. */
  lemma SlotShowsPulse(history: seq<real>, n: nat, skip: nat, j: nat)
    requires skip > 0 && j < n && forall i :: 0 <= i < |history| ==> history[i] == 0.0 || history[i] == 1.0
    ensures |SampleDesire(Window(history, skip * n, 0.0), skip)| == n
    ensures SampleDesire(Window(history, skip * n, 0.0), skip)[j] == 1.0
      <==> exists age: nat :: age < |history| && SlotOf(age, n, skip) == j && Ago(history, age, 0.0) == 1.0
  {
    hide SampleDesire, Window, Quot, SlotOf;
    var best := DesireIsHistory(history, n, skip, j);
    var slot := SampleDesire(Window(history, skip * n, 0.0), skip)[j];
    if age: nat :| age < |history| && SlotOf(age, n, skip) == j && Ago(history, age, 0.0) == 1.0 {
      SeenForItsTime(age, n, skip);
    }
  }

  // ---------------------------------------------------------------- frames_to_tensor

  /** The pixel of a frame of 3h/2 rows and w columns that channel `c`, row `i`, column `j` of the tensor holds. */
  function SourcePixel(c: nat, i: nat, j: nat, h: nat, w: nat): (nat, nat)
    requires w > 0
  {
    if c == 0 then (2 * i, 2 * j)
    else if c == 1 then (2 * i + 1, 2 * j)
    else if c == 2 then (2 * i, 2 * j + 1)
    else if c == 3 then (2 * i + 1, 2 * j + 1)
    else
      // a quarter of the rows, full width, read in order as rows of half the width
      var flat := i * (w / 2) + j;
      ((if c == 4 then h else h + h / 4) + Quot(flat, w), Rem(flat, w))
  }

  /** Where in the tensor a pixel of the frame goes. */
  function TensorCell(row: nat, col: nat, h: nat, w: nat): (nat, nat, nat)
  {
    if row < h then ((if row % 2 == 0 then 0 else 1) + (if col % 2 == 0 then 0 else 2), row / 2, col / 2)
    else
      var c := if row < h + h / 4 then 4 else 5;
      var r := if c == 4 then row - h else row - h - h / 4;
      (c, 2 * r + (if col < w / 2 then 0 else 1), if col < w / 2 then col else col - w / 2)
  }

  predicate IsCell(c: nat, i: nat, j: nat, h: nat, w: nat) {
    c < 6 && i < h / 2 && j < w / 2
  }

  predicate IsPixel(row: nat, col: nat, h: nat, w: nat) {
    row < h + h / 2 && col < w
  }

  lemma ChromaRow(i: nat, j: nat, w: nat)
    requires w % 2 == 0 && j < w / 2
    ensures var flat := i * (w / 2) + j; Quot(flat, w) == i / 2 && Rem(flat, w) == if i % 2 == 0 then j else w / 2 + j
  {
    hide Quot, Rem;
    var half := w / 2;
    var (q, b) := (i / 2, i % 2);
    Halves(i, q, b, w, half);
    MulDiv(i * half + j, q, w, if b == 0 then j else half + j);
  }

  lemma Halves(i: nat, q: nat, b: nat, w: nat, half: nat)
    requires i == 2 * q + b && w == 2 * half
    ensures i * half == q * w + b * half
  {
    assert (2 * q + b) * half == q * (2 * half) + b * half;
  }

  lemma ChromaPixel(c: nat, i: nat, j: nat, h: nat, w: nat)
    requires w > 0 && w % 2 == 0 && 4 <= c && j < w / 2
    ensures SourcePixel(c, i, j, h, w) == ((if c == 4 then h else h + h / 4) + i / 2, if i % 2 == 0 then j else w / 2 + j)
  {
    hide Quot, Rem;
    ChromaRow(i, j, w);
  }

  lemma CellRoundTrip(c: nat, i: nat, j: nat, h: nat, w: nat)
    requires w > 0 && h % 4 == 0 && w % 2 == 0 && IsCell(c, i, j, h, w)
    ensures var (row, col) := SourcePixel(c, i, j, h, w); IsPixel(row, col, h, w) && TensorCell(row, col, h, w) == (c, i, j)
  {
    if c >= 4 {
      hide SourcePixel;
      ChromaPixel(c, i, j, h, w);
    }
  }

  lemma PixelRoundTrip(row: nat, col: nat, h: nat, w: nat)
    requires w > 0 && h % 4 == 0 && w % 2 == 0 && IsPixel(row, col, h, w)
    ensures var (c, i, j) := TensorCell(row, col, h, w); IsCell(c, i, j, h, w) && SourcePixel(c, i, j, h, w) == (row, col)
  {
    hide SourcePixel, TensorCell, IsCell;
    if row >= h {
      ChromaRoundTrip(row, col, h, w, h / 4, w / 2);
    } else {
      LumaPixel(row, col, h, w);
    }
  }

  lemma ChromaRoundTrip(row: nat, col: nat, h: nat, w: nat, quarter: nat, half: nat)
    requires h == 4 * quarter && w == 2 * half && half > 0 && h <= row < h + 2 * quarter && col < w
    ensures var (c, i, j) := TensorCell(row, col, h, w); IsCell(c, i, j, h, w) && SourcePixel(c, i, j, h, w) == (row, col)
  {
    hide SourcePixel;
    var (c, i, j) := TensorCell(row, col, h, w);
    var r := row - h - if c == 4 then 0 else quarter;
    assert i == 2 * r + (if col < half then 0 else 1) && j < half;
    ChromaPixel(c, i, j, h, w);
  }

  lemma LumaPixel(row: nat, col: nat, h: nat, w: nat)
    requires w > 0 && h % 4 == 0 && w % 2 == 0 && row < h && col < w
    ensures var (c, i, j) := TensorCell(row, col, h, w); IsCell(c, i, j, h, w) && SourcePixel(c, i, j, h, w) == (row, col)
  {
    hide Quot, Rem;
  }

  /** Every pixel of the frame is used exactly once: cells and pixels correspond one to one. */
  lemma TensorHoldsEveryPixelOnce(h: nat, w: nat)
    requires w > 0 && h % 4 == 0 && w % 2 == 0
    ensures forall c: nat, i: nat, j: nat :: IsCell(c, i, j, h, w) ==>
      var (row, col) := SourcePixel(c, i, j, h, w); IsPixel(row, col, h, w) && TensorCell(row, col, h, w) == (c, i, j)
    ensures forall row: nat, col: nat :: IsPixel(row, col, h, w) ==>
      var (c, i, j) := TensorCell(row, col, h, w); IsCell(c, i, j, h, w) && SourcePixel(c, i, j, h, w) == (row, col)
  {
    hide SourcePixel, TensorCell, IsCell, IsPixel;
    forall c: nat, i: nat, j: nat | IsCell(c, i, j, h, w)
      ensures var (row, col) := SourcePixel(c, i, j, h, w); IsPixel(row, col, h, w) && TensorCell(row, col, h, w) == (c, i, j)
    {
      CellRoundTrip(c, i, j, h, w);
    }
    forall row: nat, col: nat | IsPixel(row, col, h, w)
      ensures var (c, i, j) := TensorCell(row, col, h, w); IsCell(c, i, j, h, w) && SourcePixel(c, i, j, h, w) == (row, col)
    {
      PixelRoundTrip(row, col, h, w);
    }
  }

  /**
   Which pixel each cell holds: the first four channels are the luma pixels of the four parities, rows before columns; the
   last two are the two quarters of chroma rows in reading order.
   */
  lemma ChannelsTell(c: nat, i: nat, j: nat, h: nat, w: nat)
    requires w > 0 && h % 4 == 0 && w % 2 == 0 && IsCell(c, i, j, h, w)
    ensures var (row, col) := SourcePixel(c, i, j, h, w);
            && col < w
            && (c < 4 ==> row / 2 == i && col / 2 == j && row % 2 == c % 2 && col % 2 == c / 2)
            && (c == 4 ==> row >= h && (row - h) * w + col == i * (w / 2) + j)
            && (c == 5 ==> row >= h + h / 4 && (row - h - h / 4) * w + col == i * (w / 2) + j)
  {
    if c >= 4 {
      Split(i * (w / 2) + j, w);
    }
    hide Quot, Rem;
  }
}
