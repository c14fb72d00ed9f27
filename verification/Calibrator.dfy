/**
 The camera calibrator (selfdrive/locationd/calibrationd.py): a ring of 50 block averages of 100 samples each, restarted
 when the blocks disagree too much. Vectors are exact reals; the observed orientation of a sample is an input.
 */
module Calibrator {
  import opened Numbers

  datatype Vec = Vec(roll: real, pitch: real, yaw: real)

  const ZERO: Vec := Vec(0.0, 0.0, 0.0)
  const HEIGHT_INIT: real := 1.22
  const SMOOTH_CYCLES: real := 10.0
  const BLOCK_SIZE: int := 100
  const INPUTS_NEEDED: int := 5
  const INPUTS_WANTED: int := 50

  /** The limits depend on the device; the spread limits are four and two degrees. */
  datatype Limits = Limits(pitchMin: real, pitchMax: real, yawMin: real, yawMax: real, pitchSpread: real, yawSpread: real)
  {
    predicate Valid() {
      pitchMin < 0.0 < pitchMax && yawMin < 0.0 < yawMax && pitchSpread > 0.0 && yawSpread > 0.0
    }
  }

  datatype Status = Uncalibrated | Recalibrating | Calibrated | Invalid

  /** What a camera odometry message amounts to; an absent or malformed part is replaced by the source's default. */
  datatype Sample = Sample(straightAndFast: bool, certain: bool, observed: Vec, wide: Vec, height: real)

  /** The ring of block averages. */
  datatype Blocks = Blocks(rpys: seq<Vec>, wides: seq<Vec>, heights: seq<real>)

  /** The current block, the samples in it, and how many blocks hold data. */
  datatype Ring = Ring(validBlocks: int, idx: int, blockIdx: int)

  datatype Output = Output(rpy: Vec, wide: Vec, height: real, spread: Vec)

  /** The orientation to blend from, and its weight. */
  datatype Blend = Blend(rpy: Vec, weight: real)

  datatype State = State(blocks: Blocks, ring: Ring, output: Output, blend: Blend, status: Status)

  predicate IsCalibrationValid(l: Limits, v: Vec) {
    l.pitchMin < v.pitch < l.pitchMax && l.yawMin < v.yaw < l.yawMax
  }

  function Clip(x: real, lo: real, hi: real): real {
    if x < lo then lo else if x > hi then hi else x
  }

  function SanityClip(l: Limits, v: Vec): Vec {
    Vec(v.roll, Clip(v.pitch, l.pitchMin - 0.005, l.pitchMax + 0.005), Clip(v.yaw, l.yawMin - 0.005, l.yawMax + 0.005))
  }

  /** moving_avg_with_linear_decay with the block size of the source. */
  function Decayed(prev: real, value: real, idx: int): real {
    (idx as real * prev + (BLOCK_SIZE - idx) as real * value) / BLOCK_SIZE as real
  }

  function DecayedVec(prev: Vec, value: Vec, idx: int): Vec {
    Vec(Decayed(prev.roll, value.roll, idx), Decayed(prev.pitch, value.pitch, idx), Decayed(prev.yaw, value.yaw, idx))
  }

  function Between(from: int, to: int): (r: seq<int>)
    ensures |r| == if from < to then to - from else 0
    ensures forall k :: 0 <= k < |r| ==> r[k] == from + k
  {
    seq(if from < to then to - from else 0, k => from + k)
  }

  /** get_valid_idxs */
  function ValidIdxs(blockIdx: int, validBlocks: int): seq<int> {
    Between(0, blockIdx) + Between(Min(validBlocks, blockIdx + 1), validBlocks)
  }

  function Mean(xs: seq<real>): real
    requires |xs| > 0
  {
    Sum(xs) / |xs| as real
  }

  function Smallest(xs: seq<real>): (r: real)
    requires |xs| > 0
    ensures r in xs && forall k :: 0 <= k < |xs| ==> r <= xs[k]
  {
    if |xs| == 1 then xs[0]
    else
      var m := Smallest(xs[1..]);
      if xs[0] < m then xs[0] else m
  }

  function Pick<T>(rows: seq<T>, idxs: seq<int>): (r: seq<T>)
    requires forall k :: 0 <= k < |idxs| ==> 0 <= idxs[k] < |rows|
    ensures |r| == |idxs| && forall k :: 0 <= k < |idxs| ==> r[k] == rows[idxs[k]]
  {
    seq(|idxs|, k requires 0 <= k < |idxs| => rows[idxs[k]])
  }

  function Rolls(rows: seq<Vec>): (r: seq<real>)
    ensures |r| == |rows| && forall k :: 0 <= k < |r| ==> r[k] == rows[k].roll
  {
    seq(|rows|, k requires 0 <= k < |rows| => rows[k].roll)
  }

  function Pitches(rows: seq<Vec>): (r: seq<real>)
    ensures |r| == |rows| && forall k :: 0 <= k < |r| ==> r[k] == rows[k].pitch
  {
    seq(|rows|, k requires 0 <= k < |rows| => rows[k].pitch)
  }

  function Yaws(rows: seq<Vec>): (r: seq<real>)
    ensures |r| == |rows| && forall k :: 0 <= k < |r| ==> r[k] == rows[k].yaw
  {
    seq(|rows|, k requires 0 <= k < |rows| => rows[k].yaw)
  }

  function MeanVec(rows: seq<Vec>): Vec
    requires |rows| > 0
  {
    Vec(Mean(Rolls(rows)), Mean(Pitches(rows)), Mean(Yaws(rows)))
  }

  function SpreadVec(rows: seq<Vec>): Vec
    requires |rows| > 0
  {
    Vec(Largest(Rolls(rows)) - Smallest(Rolls(rows)), Largest(Pitches(rows)) - Smallest(Pitches(rows)),
        Largest(Yaws(rows)) - Smallest(Yaws(rows)))
  }

  function Tile<T>(v: T): (r: seq<T>)
    ensures |r| == INPUTS_WANTED && forall k :: 0 <= k < |r| ==> r[k] == v
  {
    seq(INPUTS_WANTED, _ => v)
  }

  // ---------------------------------------------------------------- the operations as functions

  predicate InRing(r: Ring) {
    0 <= r.idx < BLOCK_SIZE && 0 <= r.blockIdx < INPUTS_WANTED && r.blockIdx <= r.validBlocks <= INPUTS_WANTED
  }

  predicate Shaped(b: Blocks, r: Ring) {
    |b.rpys| == |b.wides| == |b.heights| == INPUTS_WANTED && InRing(r)
  }

  function Tiles(rpy: Vec, wide: Vec, height: real): Blocks {
    Blocks(Tile(rpy), Tile(wide), Tile(height))
  }

  function StartRing(validBlocks: int): Ring {
    Ring(if validBlocks < 0 then 0 else validBlocks, 0, 0)
  }

  lemma ValidIdxsAreBlocks(r: Ring)
    requires InRing(r)
    ensures var idxs := ValidIdxs(r.blockIdx, r.validBlocks);
            forall k :: 0 <= k < |idxs| ==> 0 <= idxs[k] < INPUTS_WANTED
  {
  }

  function Averaged(b: Blocks, r: Ring, o: Output): Output
    requires Shaped(b, r)
  {
    ValidIdxsAreBlocks(r);
    var idxs := ValidIdxs(r.blockIdx, r.validBlocks);
    if |idxs| == 0 then o.(spread := ZERO)
    else Output(MeanVec(Pick(b.rpys, idxs)), MeanVec(Pick(b.wides, idxs)), Mean(Pick(b.heights, idxs)),
                SpreadVec(Pick(b.rpys, idxs)))
  }

  function StatusOf(l: Limits, validBlocks: int, rpy: Vec, status: Status): Status {
    if validBlocks < INPUTS_NEEDED then (if status == Recalibrating then Recalibrating else Uncalibrated)
    else if IsCalibrationValid(l, rpy) then Calibrated
    else Invalid
  }

  predicate SpreadTooHigh(l: Limits, spread: Vec) {
    spread.pitch > l.pitchSpread || spread.yaw > l.yawSpread
  }

  /** The index of the block before the current one, round the ring. */
  function Previous(blockIdx: int): int {
    if blockIdx == 0 then INPUTS_WANTED - 1 else blockIdx - 1
  }

  /** The averages are such that `update_status` starts over. */
  predicate StartsOver(l: Limits, s: State)
    requires Shaped(s.blocks, s.ring)
  {
    var o := Averaged(s.blocks, s.ring, s.output);
    SpreadTooHigh(l, o.spread) && StatusOf(l, s.ring.validBlocks, o.rpy, s.status) == Calibrated
  }

  /** `update_status` */
  function Updated(l: Limits, s: State): State
    requires Shaped(s.blocks, s.ring)
  {
    var o := Averaged(s.blocks, s.ring, s.output);
    if StartsOver(l, s) then
      var last := s.blocks.rpys[Previous(s.ring.blockIdx)];
      State(Tiles(last, ZERO, HEIGHT_INIT), StartRing(1), Output(last, ZERO, HEIGHT_INIT, o.spread), Blend(o.rpy, 1.0), Recalibrating)
    else s.(output := o, status := StatusOf(l, s.ring.validBlocks, o.rpy, s.status))
  }

  predicate Accepts(s: State, sample: Sample) {
    sample.straightAndFast && (sample.certain || s.ring.validBlocks < INPUTS_NEEDED)
  }

  function StoredBlocks(l: Limits, b: Blocks, r: Ring, sample: Sample): Blocks
    requires Shaped(b, r)
  {
    var i := r.blockIdx;
    Blocks(b.rpys[i := DecayedVec(b.rpys[i], SanityClip(l, sample.observed), r.idx)],
           b.wides[i := DecayedVec(b.wides[i], sample.wide, r.idx)],
           b.heights[i := Decayed(b.heights[i], sample.height, r.idx)])
  }

  /** One more sample in the ring; a full block moves it on. */
  function Advanced(r: Ring): Ring {
    if r.idx + 1 < BLOCK_SIZE then r.(idx := r.idx + 1)
    else Ring(Max(r.blockIdx + 1, r.validBlocks), 0, (r.blockIdx + 1) % INPUTS_WANTED)
  }

  function Faded(b: Blend): Blend {
    var w := b.weight - 1.0 / SMOOTH_CYCLES;
    b.(weight := if w > 0.0 then w else 0.0)
  }

  function Stored(l: Limits, s: State, sample: Sample): (r: State)
    requires Shaped(s.blocks, s.ring)
    ensures Shaped(r.blocks, r.ring)
  {
    s.(blocks := StoredBlocks(l, s.blocks, s.ring, sample), ring := Advanced(s.ring), blend := Faded(s.blend))
  }

  /** `handle_cam_odom` */
  function Handled(l: Limits, s: State, sample: Sample): State
    requires Shaped(s.blocks, s.ring)
  {
    if Accepts(s, sample) then Updated(l, Stored(l, s, sample)) else s.(blend := Faded(s.blend))
  }

  /** `get_smooth_rpy` */
  function SmoothRpy(s: State): Vec {
    if s.blend.weight > 0.0 then
      var (w, a, b) := (s.blend.weight, s.blend.rpy, s.output.rpy);
      Vec(w * a.roll + (1.0 - w) * b.roll, w * a.pitch + (1.0 - w) * b.pitch, w * a.yaw + (1.0 - w) * b.yaw)
    else s.output.rpy
  }

  /** The state after construction from cached values (or the defaults). */
  function Initial(l: Limits, rpy: Vec, validBlocks: int, wide: Vec, height: real): State
    requires validBlocks <= INPUTS_WANTED
  {
    Updated(l, State(Tiles(rpy, wide, height), StartRing(validBlocks), Output(rpy, wide, height, ZERO), Blend(ZERO, 0.0), Uncalibrated))
  }

  // ---------------------------------------------------------------- the calibrator in place

  method NewTile<T(0)>(v: T) returns (a: array<T>)
    ensures fresh(a) && a[..] == Tile(v)
  {
    a := new T[INPUTS_WANTED](_ => v);
    assert a[..] == Tile(v);
  }

  class Calibrator {
    const limits: Limits
    var rpys: array<Vec>
    var wides: array<Vec>
    var heights: array<real>
    var rpy: Vec
    var wide: Vec
    var height: real
    var validBlocks: int
    var idx: int
    var blockIdx: int
    var oldRpy: Vec
    var oldWeight: real
    var spread: Vec
    var status: Status

    ghost predicate Valid()
      reads this, rpys, wides, heights
    {
      rpys != wides && Shaped(Rows(), Place())
    }

    function Rows(): Blocks
      reads this, rpys, wides, heights
    {
      Blocks(rpys[..], wides[..], heights[..])
    }

    function Place(): Ring
      reads this
    {
      Ring(validBlocks, idx, blockIdx)
    }

    function Result(): Output
      reads this
    {
      Output(rpy, wide, height, spread)
    }

    function Smoothing(): Blend
      reads this
    {
      Blend(oldRpy, oldWeight)
    }

    function Value(): State
      reads this, rpys, wides, heights
    {
      State(Rows(), Place(), Result(), Smoothing(), status)
    }

    constructor (limits: Limits, rpy: Vec, validBlocks: int, wide: Vec, height: real)
      requires validBlocks <= INPUTS_WANTED
      ensures Valid() && fresh(rpys) && fresh(wides) && fresh(heights)
      ensures this.limits == limits && Value() == Initial(limits, rpy, validBlocks, wide, height)
    {
      hide Updated;
      this.limits := limits;
      rpys := new Vec[0];
      wides := new Vec[0];
      heights := new real[0];
      this.rpy, this.wide, this.height, this.validBlocks := ZERO, ZERO, 0.0, 0;
      idx, blockIdx, oldRpy, oldWeight, spread, status := 0, 0, ZERO, 0.0, ZERO, Uncalibrated;
      new;
      Reset(rpy, validBlocks, wide, height, ZERO, 0.0);
      UpdateStatus();
    }

    method Reset(rpy: Vec, validBlocks: int, wide: Vec, height: real, oldRpy: Vec, oldWeight: real)
      modifies this
      ensures Rows() == Tiles(rpy, wide, height) && Place() == StartRing(validBlocks)
      ensures Result() == Output(rpy, wide, height, old(spread)) && Smoothing() == Blend(oldRpy, oldWeight)
      ensures status == old(status)
      ensures rpys != wides && fresh(rpys) && fresh(wides) && fresh(heights)
    {
      this.rpy := rpy;
      this.height := height;
      this.wide := wide;
      this.validBlocks := if validBlocks < 0 then 0 else validBlocks;
      idx := 0;
      blockIdx := 0;
      this.oldRpy := oldRpy;
      this.oldWeight := oldWeight;
      hide *;
      ResetRows(rpy, wide, height);
    }

    method ResetRows(rpy: Vec, wide: Vec, height: real)
      modifies this`rpys, this`wides, this`heights
      ensures Rows() == Tiles(rpy, wide, height)
      ensures Place() == old(Place()) && Result() == old(Result()) && Smoothing() == old(Smoothing())
      ensures rpys != wides && fresh(rpys) && fresh(wides) && fresh(heights)
    {
      hide Tile;
      rpys := NewTile(rpy);
      wides := NewTile(wide);
      heights := NewTile(height);
    }

    method UpdateAverages()
      requires Valid()
      modifies this`rpy, this`wide, this`height, this`spread
      ensures Result() == Averaged(old(Rows()), old(Place()), old(Result()))
      ensures Rows() == old(Rows()) && Place() == old(Place()) && Smoothing() == old(Smoothing())
      ensures rpy == Result().rpy && spread == Result().spread
    {
      hide MeanVec, Mean, SpreadVec, Pick, ValidIdxs;
      ValidIdxsAreBlocks(Place());
      var idxs := ValidIdxs(blockIdx, validBlocks);
      if |idxs| > 0 {
        wide := MeanVec(Pick(wides[..], idxs));
        height := Mean(Pick(heights[..], idxs));
        rpy := MeanVec(Pick(rpys[..], idxs));
        spread := SpreadVec(Pick(rpys[..], idxs));
      } else {
        spread := ZERO;
      }
    }

    method UpdateCalStatus()
      modifies this`status
      ensures status == StatusOf(limits, validBlocks, rpy, old(status))
    {
      if validBlocks < INPUTS_NEEDED {
        if status != Recalibrating {
          status := Uncalibrated;
        }
      } else if IsCalibrationValid(limits, rpy) {
        status := Calibrated;
      } else {
        status := Invalid;
      }
    }

    method UpdateStatus()
      requires Valid()
      modifies this
      ensures Valid() && Value() == Updated(limits, old(Value()))
      ensures unchanged(this`rpys, this`wides, this`heights) || (fresh(rpys) && fresh(wides) && fresh(heights))
    {
      hide Averaged, StatusOf, SpreadTooHigh;
      ghost var before := Value();
      UpdateAverages();
      assert Result() == Averaged(before.blocks, before.ring, before.output);
      UpdateCalStatus();
      if SpreadTooHigh(limits, spread) && status == Calibrated {
        Reset(rpys[Previous(blockIdx)], 1, ZERO, HEIGHT_INIT, rpy, 1.0);
        status := Recalibrating;
      }
    }

    method StoreSample(sample: Sample)
      requires Valid()
      modifies this`idx, this`blockIdx, this`validBlocks, rpys, wides, heights
      ensures Valid()
      ensures Rows() == StoredBlocks(limits, old(Rows()), old(Place()), sample) && Place() == Advanced(old(Place()))
    {
      hide DecayedVec, SanityClip, Decayed;
      var newRpy := SanityClip(limits, sample.observed);
      rpys[blockIdx] := DecayedVec(rpys[blockIdx], newRpy, idx);
      wides[blockIdx] := DecayedVec(wides[blockIdx], sample.wide, idx);
      heights[blockIdx] := Decayed(heights[blockIdx], sample.height, idx);
      assert Rows() == StoredBlocks(limits, old(Rows()), Place(), sample);
      idx := (idx + 1) % BLOCK_SIZE;
      if idx == 0 {
        blockIdx := blockIdx + 1;
        validBlocks := Max(blockIdx, validBlocks);
        blockIdx := blockIdx % INPUTS_WANTED;
      }
    }

    method HandleCamOdom(sample: Sample) returns (accepted: bool)
      requires Valid()
      modifies this, rpys, wides, heights
      ensures Valid() && Value() == Handled(limits, old(Value()), sample) && accepted == Accepts(old(Value()), sample)
      ensures unchanged(this`rpys, this`wides, this`heights) || (fresh(rpys) && fresh(wides) && fresh(heights))
    {
      hide Updated, StoredBlocks, Advanced;
      ghost var before := Value();
      var w := oldWeight - 1.0 / SMOOTH_CYCLES;
      oldWeight := if w > 0.0 then w else 0.0;
      if !(sample.straightAndFast && (sample.certain || validBlocks < INPUTS_NEEDED)) {
        return false;
      }
      StoreSample(sample);
      assert Value() == Stored(limits, before, sample);
      UpdateStatus();
      return true;
    }
  }

  // ---------------------------------------------------------------- valid blocks

  predicate Increasing(s: seq<int>) {
    forall i, j :: 0 <= i < j < |s| ==> s[i] < s[j]
  }

  /** The valid blocks are those below the count except the current one, each listed once and in order. */
  lemma ValidIdxsExact(r: Ring, i: int)
    requires InRing(r)
    ensures var idxs := ValidIdxs(r.blockIdx, r.validBlocks);
            Increasing(idxs) && (i in idxs <==> 0 <= i < r.validBlocks && i != r.blockIdx)
  {
    var idxs := ValidIdxs(r.blockIdx, r.validBlocks);
    if 0 <= i < r.blockIdx {
      assert idxs[i] == i;
    } else if r.blockIdx < i < r.validBlocks {
      assert idxs[i - 1] == i;
    }
  }

  // ---------------------------------------------------------------- the clip box

  predicate InRange(x: real, lo: real, hi: real) {
    lo <= x <= hi
  }

  /** The box that `SanityClip` clips to. */
  ghost predicate InBox(l: Limits, v: Vec) {
    InRange(v.pitch, l.pitchMin - 0.005, l.pitchMax + 0.005) && InRange(v.yaw, l.yawMin - 0.005, l.yawMax + 0.005)
  }

  /** Before the first block of a start is complete, and unless the ring is full, all blocks but the first are equal. */
  ghost predicate UniformAtStart(b: Blocks, r: Ring) {
    |b.rpys| == INPUTS_WANTED
    && (r.blockIdx == 0 && r.validBlocks < INPUTS_WANTED ==> forall i :: 1 <= i < INPUTS_WANTED ==> b.rpys[i] == b.rpys[1])
  }

  ghost predicate BoxedBlocks(l: Limits, b: Blocks) {
    forall i :: 0 <= i < |b.rpys| ==> InBox(l, b.rpys[i])
  }

  ghost predicate Inv(l: Limits, s: State) {
    && l.Valid() && Shaped(s.blocks, s.ring) && UniformAtStart(s.blocks, s.ring) && BoxedBlocks(l, s.blocks)
    && InBox(l, s.output.rpy) && InBox(l, s.blend.rpy) && 0.0 <= s.blend.weight <= 1.0
  }

  lemma Weighted(w: real, a: real, b: real, lo: real, hi: real)
    requires 0.0 <= w <= 1.0 && InRange(a, lo, hi) && InRange(b, lo, hi)
    ensures InRange(w * a + (1.0 - w) * b, lo, hi)
  {
    ProductNotNegative(w, a - lo);
    ProductNotNegative(1.0 - w, b - lo);
    ProductNotNegative(w, hi - a);
    ProductNotNegative(1.0 - w, hi - b);
  }

  lemma DecayedInRange(prev: real, value: real, idx: int, lo: real, hi: real)
    requires 0 <= idx < BLOCK_SIZE && InRange(prev, lo, hi) && InRange(value, lo, hi)
    ensures InRange(Decayed(prev, value, idx), lo, hi)
  {
    var w := idx as real / 100.0;
    assert Decayed(prev, value, idx) == w * prev + (1.0 - w) * value;
    Weighted(w, prev, value, lo, hi);
  }

  lemma StoredKeepsBox(l: Limits, b: Blocks, r: Ring, sample: Sample)
    requires l.Valid() && Shaped(b, r) && BoxedBlocks(l, b)
    ensures BoxedBlocks(l, StoredBlocks(l, b, r, sample))
  {
    var (before, value) := (b.rpys[r.blockIdx], SanityClip(l, sample.observed));
    assert InBox(l, before);
    DecayedInRange(before.pitch, value.pitch, r.idx, l.pitchMin - 0.005, l.pitchMax + 0.005);
    DecayedInRange(before.yaw, value.yaw, r.idx, l.yawMin - 0.005, l.yawMax + 0.005);
    hide Decayed;
  }

  lemma StoredKeepsUniform(l: Limits, s: State, sample: Sample)
    requires Shaped(s.blocks, s.ring) && UniformAtStart(s.blocks, s.ring)
    ensures var r := Stored(l, s, sample); UniformAtStart(r.blocks, r.ring)
  {
    hide Decayed, DecayedVec, SanityClip;
  }

  lemma {:induction false} SumInRange(xs: seq<real>, lo: real, hi: real)
    requires forall k :: 0 <= k < |xs| ==> InRange(xs[k], lo, hi)
    ensures |xs| as real * lo <= Sum(xs) <= |xs| as real * hi
  {
    if |xs| > 0 {
      SumInRange(xs[..|xs| - 1], lo, hi);
    }
  }

  lemma MeanInRange(xs: seq<real>, lo: real, hi: real)
    requires |xs| > 0 && forall k :: 0 <= k < |xs| ==> InRange(xs[k], lo, hi)
    ensures InRange(Mean(xs), lo, hi)
  {
    SumInRange(xs, lo, hi);
    hide Sum;
    QuotientInRange(Sum(xs), |xs| as real, lo, hi, Mean(xs));
  }

  lemma BoundBelow(sum: real, n: real, lo: real, q: real)
    requires n > 0.0 && n * lo <= sum && q * n == sum
    ensures lo <= q
  {
    FactorNotNegative(q - lo, n);
  }

  lemma QuotientInRange(sum: real, n: real, lo: real, hi: real, q: real)
    requires n > 0.0 && n * lo <= sum <= n * hi && q * n == sum
    ensures InRange(q, lo, hi)
  {
    BoundBelow(sum, n, lo, q);
    BoundBelow(-sum, n, -hi, -q);
  }

  lemma MeanVecInBox(l: Limits, rows: seq<Vec>)
    requires |rows| > 0 && forall k :: 0 <= k < |rows| ==> InBox(l, rows[k])
    ensures InBox(l, MeanVec(rows))
  {
    hide Mean;
    MeanInRange(Pitches(rows), l.pitchMin - 0.005, l.pitchMax + 0.005);
    MeanInRange(Yaws(rows), l.yawMin - 0.005, l.yawMax + 0.005);
  }

  lemma AveragedInBox(l: Limits, b: Blocks, r: Ring, o: Output)
    requires Shaped(b, r) && BoxedBlocks(l, b) && InBox(l, o.rpy)
    ensures InBox(l, Averaged(b, r, o).rpy)
  {
    hide Mean, MeanVec, SpreadVec, InBox, ValidIdxs;
    ValidIdxsAreBlocks(r);
    var idxs := ValidIdxs(r.blockIdx, r.validBlocks);
    if |idxs| > 0 {
      MeanVecInBox(l, Pick(b.rpys, idxs));
    }
  }

  lemma TilesAreFine(l: Limits, v: Vec, wide: Vec, height: real, validBlocks: int)
    requires InBox(l, v) && validBlocks <= INPUTS_WANTED
    ensures var (b, r) := (Tiles(v, wide, height), StartRing(validBlocks));
            Shaped(b, r) && UniformAtStart(b, r) && BoxedBlocks(l, b)
  {
    hide InBox;
  }

  lemma UpdatedKeepsInv(l: Limits, s: State)
    requires Inv(l, s)
    ensures Inv(l, Updated(l, s))
  {
    hide Averaged, StatusOf, SpreadTooHigh, InBox, Tiles, StartRing, UniformAtStart;
    AveragedInBox(l, s.blocks, s.ring, s.output);
    var last := s.blocks.rpys[Previous(s.ring.blockIdx)];
    assert InBox(l, last);
    hide BoxedBlocks, Shaped;
    TilesAreFine(l, last, ZERO, HEIGHT_INIT, 1);
  }

  lemma FadedStays(b: Blend)
    requires 0.0 <= b.weight <= 1.0
    ensures 0.0 <= Faded(b).weight <= b.weight && Faded(b).rpy == b.rpy
  {
  }

  lemma HandledKeepsInv(l: Limits, s: State, sample: Sample)
    requires Inv(l, s)
    ensures Inv(l, Handled(l, s, sample))
  {
    StoredKeepsBox(l, s.blocks, s.ring, sample);
    StoredKeepsUniform(l, s, sample);
    FadedStays(s.blend);
    hide StoredBlocks, Advanced, Updated, Faded, BoxedBlocks, UniformAtStart, InBox;
    if Accepts(s, sample) {
      UpdatedKeepsInv(l, Stored(l, s, sample));
    }
  }

  /** Over every run: the ring's indices, and every block and the mean inside the box. */
  function Run(l: Limits, s: State, samples: seq<Sample>): (r: State)
    requires Inv(l, s)
    ensures Inv(l, r)
    decreases |samples|
  {
    if |samples| == 0 then s
    else
      HandledKeepsInv(l, s, samples[0]);
      Run(l, Handled(l, s, samples[0]), samples[1..])
  }

  /** From a cached start inside the box with at most 50 valid blocks. */
  lemma InitialIsInv(l: Limits, rpy: Vec, validBlocks: int, wide: Vec, height: real)
    requires l.Valid() && InBox(l, rpy) && validBlocks <= INPUTS_WANTED
    ensures Inv(l, Initial(l, rpy, validBlocks, wide, height))
  {
    hide Updated;
    UpdatedKeepsInv(l, State(Tiles(rpy, wide, height), StartRing(validBlocks), Output(rpy, wide, height, ZERO), Blend(ZERO, 0.0), Uncalibrated));
  }

  /** The blended orientation is inside the box too. */
  lemma SmoothInBox(l: Limits, s: State)
    requires Inv(l, s)
    ensures InBox(l, SmoothRpy(s))
  {
    Weighted(s.blend.weight, s.blend.rpy.pitch, s.output.rpy.pitch, l.pitchMin - 0.005, l.pitchMax + 0.005);
    Weighted(s.blend.weight, s.blend.rpy.yaw, s.output.rpy.yaw, l.yawMin - 0.005, l.yawMax + 0.005);
  }

  // ---------------------------------------------------------------- starting over

  lemma SameRowsNoSpread(rows: seq<Vec>)
    requires |rows| > 0 && forall k :: 0 <= k < |rows| ==> rows[k] == rows[0]
    ensures SpreadVec(rows) == ZERO
  {
    assert forall x :: x in Pitches(rows) ==> x == rows[0].pitch;
    assert forall x :: x in Yaws(rows) ==> x == rows[0].yaw;
    assert forall x :: x in Rolls(rows) ==> x == rows[0].roll;
  }

  lemma NoSpreadAtStart(s: State)
    requires Shaped(s.blocks, s.ring) && UniformAtStart(s.blocks, s.ring)
    requires s.ring.blockIdx == 0 && s.ring.validBlocks < INPUTS_WANTED
    ensures Averaged(s.blocks, s.ring, s.output).spread == ZERO
  {
    hide Mean, MeanVec, SpreadVec;
    ValidIdxsAreBlocks(s.ring);
    var idxs := ValidIdxs(s.ring.blockIdx, s.ring.validBlocks);
    if |idxs| > 0 {
      var rows := Pick(s.blocks.rpys, idxs);
      assert forall k :: 0 <= k < |rows| ==> rows[k] == s.blocks.rpys[1];
      SameRowsNoSpread(rows);
    }
  }

  /**
   The block a spread reset restarts from, the one before the current block round the ring, is always one of the
   valid blocks it has just compared.
   */
  lemma RestartsFromValidBlock(l: Limits, s: State)
    requires Inv(l, s) && StartsOver(l, s)
    ensures Previous(s.ring.blockIdx) in ValidIdxs(s.ring.blockIdx, s.ring.validBlocks)
    ensures Updated(l, s).output.rpy == s.blocks.rpys[Previous(s.ring.blockIdx)]
  {
    hide Averaged, BoxedBlocks, UniformAtStart, ValidIdxs;
    ValidIdxsExact(s.ring, Previous(s.ring.blockIdx));
    if s.ring.blockIdx == 0 && s.ring.validBlocks < INPUTS_WANTED {
      NoSpreadAtStart(s);
    }
  }

  /** `n` samples accepted since the ring was restarted with one valid block. */
  ghost predicate Since(r: Ring, n: int) {
    0 <= n < INPUTS_NEEDED * BLOCK_SIZE && r.blockIdx * BLOCK_SIZE + r.idx == n && r.validBlocks == Max(1, r.blockIdx)
  }

  function Accepted(l: Limits, s: State, samples: seq<Sample>): int
    requires Inv(l, s)
    decreases |samples|
  {
    if |samples| == 0 then 0
    else
      HandledKeepsInv(l, s, samples[0]);
      (if Accepts(s, samples[0]) then 1 else 0) + Accepted(l, Handled(l, s, samples[0]), samples[1..])
  }

  /** The sample makes the calibrator start over. */
  ghost predicate Restarts(l: Limits, s: State, sample: Sample)
    requires Inv(l, s)
  {
    Accepts(s, sample) && StartsOver(l, Stored(l, s, sample))
  }

  lemma NoEarlyRestart(l: Limits, s: State, sample: Sample, n: int)
    requires Inv(l, s) && Since(s.ring, n)
    ensures Restarts(l, s, sample) ==> Accepts(s, sample) && n + 1 >= INPUTS_NEEDED * BLOCK_SIZE
    ensures !Restarts(l, s, sample) ==>
      var m := if Accepts(s, sample) then n + 1 else n;
      m == INPUTS_NEEDED * BLOCK_SIZE || Since(Handled(l, s, sample).ring, m)
  {
    hide Averaged, StoredBlocks, SpreadTooHigh, Tile;
  }

  /** From any state just restarted, the next restart comes no earlier than with the 500th accepted sample. */
  lemma {:induction false} RestartsAreFarApart(l: Limits, s: State, samples: seq<Sample>, n: int)
    requires Inv(l, s) && Since(s.ring, n) && |samples| > 0
    requires Restarts(l, Run(l, s, samples[..|samples| - 1]), samples[|samples| - 1])
    ensures n + Accepted(l, s, samples) >= INPUTS_NEEDED * BLOCK_SIZE
    decreases |samples|
  {
    hide Handled, Restarts, Accepts, Since, BoxedBlocks, UniformAtStart, InBox;
    HandledKeepsInv(l, s, samples[0]);
    NoEarlyRestart(l, s, samples[0], n);
    var next := Handled(l, s, samples[0]);
    AcceptedIsNatural(l, next, samples[1..]);
    if |samples| > 1 && !Restarts(l, s, samples[0]) {
      var m := if Accepts(s, samples[0]) then n + 1 else n;
      if m < INPUTS_NEEDED * BLOCK_SIZE {
        var rest := samples[1..];
        assert samples[..|samples| - 1][1..] == rest[..|rest| - 1];
        RestartsAreFarApart(l, next, rest, m);
      }
    }
  }

  lemma {:induction false} AcceptedIsNatural(l: Limits, s: State, samples: seq<Sample>)
    requires Inv(l, s)
    ensures Accepted(l, s, samples) >= 0
    decreases |samples|
  {
    if |samples| > 0 {
      HandledKeepsInv(l, s, samples[0]);
      AcceptedIsNatural(l, Handled(l, s, samples[0]), samples[1..]);
    }
  }

  /** A restart leaves a state from which the count of the previous lemma begins at zero. */
  lemma RestartBeginsCount(l: Limits, s: State, sample: Sample)
    requires Inv(l, s) && Restarts(l, s, sample)
    ensures Since(Handled(l, s, sample).ring, 0) && Handled(l, s, sample).status == Recalibrating
  {
    hide Averaged, StoredBlocks;
  }

  // ---------------------------------------------------------------- what a block holds

  /** A block's content after more samples, the first of them at index `idx`. */
  function Folded(content: real, idx: int, samples: seq<real>): real
    decreases |samples|
  {
    if |samples| == 0 then content else Folded(Decayed(content, samples[0], idx), idx + 1, samples[1..])
  }

  lemma {:induction false} FoldedInRange(content: real, idx: int, samples: seq<real>, lo: real, hi: real)
    requires 0 <= idx && idx + |samples| <= BLOCK_SIZE && InRange(content, lo, hi)
    requires forall k :: 0 <= k < |samples| ==> InRange(samples[k], lo, hi)
    ensures InRange(Folded(content, idx, samples), lo, hi)
    decreases |samples|
  {
    if |samples| > 0 {
      DecayedInRange(content, samples[0], idx, lo, hi);
      FoldedInRange(Decayed(content, samples[0], idx), idx + 1, samples[1..], lo, hi);
    }
  }

  /** The first sample replaces whatever the block held, so a block depends on its own samples only, and is in their hull. */
  lemma BlockForgets(prev: real, other: real, samples: seq<real>, lo: real, hi: real)
    requires 0 < |samples| <= BLOCK_SIZE && forall k :: 0 <= k < |samples| ==> InRange(samples[k], lo, hi)
    ensures Folded(prev, 0, samples) == Folded(other, 0, samples) && InRange(Folded(prev, 0, samples), lo, hi)
  {
    assert Decayed(prev, samples[0], 0) == samples[0] == Decayed(other, samples[0], 0);
    FoldedInRange(samples[0], 1, samples[1..], lo, hi);
  }

  function FoldedVec(prev: Vec, idx: int, samples: seq<Vec>): Vec
    requires 0 <= idx && idx + |samples| <= BLOCK_SIZE
  {
    Vec(Folded(prev.roll, idx, Rolls(samples)), Folded(prev.pitch, idx, Pitches(samples)), Folded(prev.yaw, idx, Yaws(samples)))
  }

  lemma FoldedVecStep(prev: Vec, idx: int, samples: seq<Vec>)
    requires 0 <= idx && idx + |samples| <= BLOCK_SIZE && |samples| > 0
    ensures FoldedVec(prev, idx, samples) == FoldedVec(DecayedVec(prev, samples[0], idx), idx + 1, samples[1..])
  {
    hide Decayed;
    assert Rolls(samples)[1..] == Rolls(samples[1..]) && Pitches(samples)[1..] == Pitches(samples[1..])
        && Yaws(samples)[1..] == Yaws(samples[1..]);
  }

  function Clipped(l: Limits, samples: seq<Sample>): (r: seq<Vec>)
    ensures |r| == |samples| && forall k :: 0 <= k < |r| ==> r[k] == SanityClip(l, samples[k].observed)
  {
    seq(|samples|, k requires 0 <= k < |samples| => SanityClip(l, samples[k].observed))
  }

  function WidesOf(samples: seq<Sample>): (r: seq<Vec>)
    ensures |r| == |samples| && forall k :: 0 <= k < |r| ==> r[k] == samples[k].wide
  {
    seq(|samples|, k requires 0 <= k < |samples| => samples[k].wide)
  }

  function HeightsOf(samples: seq<Sample>): (r: seq<real>)
    ensures |r| == |samples| && forall k :: 0 <= k < |r| ==> r[k] == samples[k].height
  {
    seq(|samples|, k requires 0 <= k < |samples| => samples[k].height)
  }

  /** Block `i` holds the decayed averages of the samples on top of what it held before. */
  ghost predicate Holds(l: Limits, before: Blocks, after: Blocks, i: int, idx: int, samples: seq<Sample>)
    requires 0 <= i < |before.rpys| == |before.wides| == |before.heights|
    requires |after.rpys| == |after.wides| == |after.heights| == |before.rpys|
    requires 0 <= idx && idx + |samples| <= BLOCK_SIZE
  {
    && after.rpys[i] == FoldedVec(before.rpys[i], idx, Clipped(l, samples))
    && after.wides[i] == FoldedVec(before.wides[i], idx, WidesOf(samples))
    && after.heights[i] == Folded(before.heights[i], idx, HeightsOf(samples))
  }

  /** Every sample is accepted and none starts the calibrator over. */
  ghost predicate Undisturbed(l: Limits, s: State, samples: seq<Sample>)
    requires Inv(l, s)
    decreases |samples|
  {
    |samples| == 0
    || (HandledKeepsInv(l, s, samples[0]);
        Accepts(s, samples[0]) && !Restarts(l, s, samples[0]) && Undisturbed(l, Handled(l, s, samples[0]), samples[1..]))
  }

  lemma StoresOne(l: Limits, s: State, sample: Sample)
    requires Inv(l, s) && Accepts(s, sample) && !Restarts(l, s, sample)
    ensures var r := Handled(l, s, sample);
            && r.blocks == StoredBlocks(l, s.blocks, s.ring, sample) && r.ring == Advanced(s.ring)
            && OthersKept(s.blocks, r.blocks, s.ring.blockIdx)
  {
    hide Averaged, StatusOf, SpreadTooHigh, Advanced, Decayed, SanityClip;
  }

  /** Until the block is full it holds the decayed averages of the samples that went into it, and no other block changes. */
  lemma {:induction false} BlockHoldsItsSamples(l: Limits, s: State, samples: seq<Sample>)
    requires Inv(l, s) && Undisturbed(l, s, samples) && s.ring.idx + |samples| <= BLOCK_SIZE
    ensures var r := Run(l, s, samples);
            && Shaped(r.blocks, r.ring) && Holds(l, s.blocks, r.blocks, s.ring.blockIdx, s.ring.idx, samples)
            && OthersKept(s.blocks, r.blocks, s.ring.blockIdx)
    decreases |samples|
  {
    hide Handled, DecayedVec, SanityClip, StoredBlocks, Restarts, Accepts, BoxedBlocks, UniformAtStart, InBox, Holds;
    if |samples| > 0 {
      var next := Handled(l, s, samples[0]);
      HandledKeepsInv(l, s, samples[0]);
      StoresOne(l, s, samples[0]);
      if |samples| > 1 {
        BlockHoldsItsSamples(l, next, samples[1..]);
      } else {
        assert samples[1..] == [] && Run(l, next, []) == next;
        HoldsNone(l, next.blocks, s.ring.blockIdx, s.ring.idx + 1);
      }
      HoldsOneMore(l, s, Run(l, s, samples).blocks, samples);
    } else {
      HoldsNone(l, s.blocks, s.ring.blockIdx, s.ring.idx);
    }
  }

  ghost predicate OthersKept(before: Blocks, after: Blocks, i: int)
    requires |before.rpys| == |before.wides| == |before.heights| == |after.rpys| == |after.wides| == |after.heights|
  {
    forall j :: 0 <= j < |before.rpys| && j != i ==>
      after.rpys[j] == before.rpys[j] && after.wides[j] == before.wides[j] && after.heights[j] == before.heights[j]
  }

  lemma HoldsNone(l: Limits, b: Blocks, i: int, idx: int)
    requires 0 <= i < |b.rpys| == |b.wides| == |b.heights| && 0 <= idx <= BLOCK_SIZE
    ensures Holds(l, b, b, i, idx, [])
  {
  }

  /** One sample stored, then the rest. */
  lemma HoldsOneMore(l: Limits, s: State, after: Blocks, samples: seq<Sample>)
    requires Shaped(s.blocks, s.ring) && |samples| > 0 && s.ring.idx + |samples| <= BLOCK_SIZE
    requires |after.rpys| == |after.wides| == |after.heights| == INPUTS_WANTED
    requires Holds(l, StoredBlocks(l, s.blocks, s.ring, samples[0]), after, s.ring.blockIdx, s.ring.idx + 1, samples[1..])
    ensures Holds(l, s.blocks, after, s.ring.blockIdx, s.ring.idx, samples)
  {
    hide DecayedVec, SanityClip, Decayed, FoldedVec;
    var (b, i, idx) := (s.blocks, s.ring.blockIdx, s.ring.idx);
    FoldedVecStep(b.rpys[i], idx, Clipped(l, samples));
    FoldedVecStep(b.wides[i], idx, WidesOf(samples));
    assert Clipped(l, samples)[1..] == Clipped(l, samples[1..]);
    assert WidesOf(samples)[1..] == WidesOf(samples[1..]);
    assert HeightsOf(samples)[1..] == HeightsOf(samples[1..]);
  }

  // ---------------------------------------------------------------- what is published

  lemma MeanTimes(xs: seq<real>)
    requires |xs| > 0
    ensures |xs| as real * Mean(xs) == Sum(xs)
  {
    hide Sum;
    OverTimes(Sum(xs), |xs| as real);
  }

  /** The valid blocks of a state. */
  function Valid(s: State): (idxs: seq<int>)
    requires Shaped(s.blocks, s.ring)
    ensures forall k :: 0 <= k < |idxs| ==> 0 <= idxs[k] < INPUTS_WANTED
  {
    ValidIdxsAreBlocks(s.ring);
    ValidIdxs(s.ring.blockIdx, s.ring.validBlocks)
  }

  /** The published orientation, wide angles and height are means: times the number of valid blocks they are the sums over these. */
  lemma PublishedAreMeans(s: State)
    requires Shaped(s.blocks, s.ring) && |Valid(s)| > 0
    ensures var (o, n, b, idxs) := (Averaged(s.blocks, s.ring, s.output), |Valid(s)| as real, s.blocks, Valid(s));
            && n * o.rpy.roll == Sum(Rolls(Pick(b.rpys, idxs))) && n * o.wide.roll == Sum(Rolls(Pick(b.wides, idxs)))
            && n * o.rpy.pitch == Sum(Pitches(Pick(b.rpys, idxs))) && n * o.wide.pitch == Sum(Pitches(Pick(b.wides, idxs)))
            && n * o.rpy.yaw == Sum(Yaws(Pick(b.rpys, idxs))) && n * o.wide.yaw == Sum(Yaws(Pick(b.wides, idxs)))
            && n * o.height == Sum(Pick(b.heights, idxs))
  {
    hide *;
    var (b, idxs) := (s.blocks, Valid(s));
    AveragedOf(s);
    MeanVecTimes(Pick(b.rpys, idxs));
    MeanVecTimes(Pick(b.wides, idxs));
    MeanTimes(Pick(b.heights, idxs));
  }

  lemma AveragedOf(s: State)
    requires Shaped(s.blocks, s.ring)
    ensures |s.blocks.rpys| == |s.blocks.wides| == |s.blocks.heights| == INPUTS_WANTED
    ensures var idxs := Valid(s);
            Averaged(s.blocks, s.ring, s.output)
            == if |idxs| == 0 then s.output.(spread := Vec(0.0, 0.0, 0.0))
               else Output(MeanVec(Pick(s.blocks.rpys, idxs)), MeanVec(Pick(s.blocks.wides, idxs)), Mean(Pick(s.blocks.heights, idxs)),
                           SpreadVec(Pick(s.blocks.rpys, idxs)))
  {
    hide ValidIdxs, MeanVec, Mean, SpreadVec, Pick;
  }

  lemma MeanVecTimes(rows: seq<Vec>)
    requires |rows| > 0
    ensures |rows| as real * MeanVec(rows).roll == Sum(Rolls(rows))
    ensures |rows| as real * MeanVec(rows).pitch == Sum(Pitches(rows))
    ensures |rows| as real * MeanVec(rows).yaw == Sum(Yaws(rows))
  {
    MeanTimes(Rolls(rows));
    MeanTimes(Pitches(rows));
    MeanTimes(Yaws(rows));
    hide Sum, Mean, Rolls, Pitches, Yaws;
  }

  lemma SpreadOf(xs: seq<real>)
    requires |xs| > 0
    ensures forall i, j :: 0 <= i < |xs| && 0 <= j < |xs| ==> xs[i] - xs[j] <= Largest(xs) - Smallest(xs)
    ensures exists i, j :: 0 <= i < |xs| && 0 <= j < |xs| && xs[i] - xs[j] == Largest(xs) - Smallest(xs)
  {
    var i :| 0 <= i < |xs| && xs[i] == Largest(xs);
    var j :| 0 <= j < |xs| && xs[j] == Smallest(xs);
    assert xs[i] - xs[j] == Largest(xs) - Smallest(xs);
    forall k, m | 0 <= k < |xs| && 0 <= m < |xs| ensures xs[k] - xs[m] <= Largest(xs) - Smallest(xs) {
      assert xs[k] in xs;
    }
    hide Largest, Smallest;
  }

  /** `spread` is the largest difference between two valid blocks. */
  ghost predicate IsSpread(rows: seq<real>, spread: real) {
    && (forall i, j :: 0 <= i < |rows| && 0 <= j < |rows| ==> rows[i] - rows[j] <= spread)
    && (exists i, j :: 0 <= i < |rows| && 0 <= j < |rows| && rows[i] - rows[j] == spread)
  }

  lemma SpreadVecTells(rows: seq<Vec>)
    requires |rows| > 0
    ensures IsSpread(Pitches(rows), SpreadVec(rows).pitch) && IsSpread(Yaws(rows), SpreadVec(rows).yaw)
  {
    SpreadOf(Pitches(rows));
    SpreadOf(Yaws(rows));
    hide Largest, Smallest, Rolls, Pitches, Yaws;
  }

  lemma PublishedSpread(s: State)
    requires Shaped(s.blocks, s.ring)
    ensures var o := Averaged(s.blocks, s.ring, s.output);
            if |Valid(s)| == 0 then o == s.output.(spread := Vec(0.0, 0.0, 0.0))
            else
              && |s.blocks.rpys| == INPUTS_WANTED
              && IsSpread(Pitches(Pick(s.blocks.rpys, Valid(s))), o.spread.pitch)
              && IsSpread(Yaws(Pick(s.blocks.rpys, Valid(s))), o.spread.yaw)
  {
    hide *;
    AveragedOf(s);
    if |Valid(s)| > 0 {
      SpreadVecTells(Pick(s.blocks.rpys, Valid(s)));
    }
  }

  /** Exactly when an accepted sample starts the calibrator over: calibrated, by now, with blocks too far apart. */
  lemma RestartsIff(l: Limits, s: State, sample: Sample)
    requires Inv(l, s)
    ensures var t := Stored(l, s, sample);
            var o := Averaged(t.blocks, t.ring, t.output);
            Restarts(l, s, sample)
            <==> && sample.straightAndFast && (sample.certain || s.ring.validBlocks < 5)
                 && t.ring.validBlocks >= 5
                 && l.pitchMin < o.rpy.pitch < l.pitchMax && l.yawMin < o.rpy.yaw < l.yawMax
                 && (o.spread.pitch > l.pitchSpread || o.spread.yaw > l.yawSpread)
  {
    hide Averaged, StoredBlocks, Advanced, BoxedBlocks, UniformAtStart, InBox;
  }

  /** The status after a sample that does not start over. */
  lemma StatusTells(l: Limits, s: State, sample: Sample)
    requires Inv(l, s) && Accepts(s, sample) && !Restarts(l, s, sample)
    ensures var r := Handled(l, s, sample);
            var inside := l.pitchMin < r.output.rpy.pitch < l.pitchMax && l.yawMin < r.output.rpy.yaw < l.yawMax;
            r.status == if r.ring.validBlocks >= 5 then (if inside then Calibrated else Invalid)
                        else if s.status == Recalibrating then Recalibrating else Uncalibrated
  {
    hide Averaged, StoredBlocks, Advanced, BoxedBlocks, UniformAtStart, InBox;
  }

  /** A sample that is not accepted only fades the blend; an accepted one that does not start over is the next in the ring. */
  lemma SampleIsNext(l: Limits, s: State, sample: Sample)
    requires Inv(l, s)
    ensures !(sample.straightAndFast && (sample.certain || s.ring.validBlocks < 5)) ==>
      Handled(l, s, sample) == s.(blend := Handled(l, s, sample).blend)
    ensures Accepts(s, sample) && !Restarts(l, s, sample) ==>
      var (r, t) := (s.ring, Handled(l, s, sample).ring);
      && t.blockIdx * 100 + t.idx == (r.blockIdx * 100 + r.idx + 1) % 5000
      && t.validBlocks == (if r.idx == 99 && r.validBlocks <= r.blockIdx then r.blockIdx + 1 else r.validBlocks)
  {
    hide Averaged, StoredBlocks, BoxedBlocks, UniformAtStart, InBox, StatusOf, SpreadTooHigh;
  }

  /** The running average gives an old value idx hundredths. */
  lemma DecayedHundredths(prev: real, value: real, idx: int)
    ensures 100.0 * Decayed(prev, value, idx) == idx as real * prev + (100 - idx) as real * value
  {
  }

  /** Clipping gives the nearest value of the box. */
  lemma ClipIsNearest(l: Limits, v: Vec)
    requires l.Valid()
    ensures var r := SanityClip(l, v);
            && l.pitchMin - 0.005 <= r.pitch <= l.pitchMax + 0.005 && l.yawMin - 0.005 <= r.yaw <= l.yawMax + 0.005 && r.roll == v.roll
            && (forall p: real :: l.pitchMin - 0.005 <= p <= l.pitchMax + 0.005 ==> Distance(v.pitch, r.pitch) <= Distance(v.pitch, p))
            && (forall y: real :: l.yawMin - 0.005 <= y <= l.yawMax + 0.005 ==> Distance(v.yaw, r.yaw) <= Distance(v.yaw, y))
  {
  }

  function Distance(a: real, b: real): real {
    if a < b then b - a else a - b
  }

  // ---------------------------------------------------------------- the blend after a restart

  /** At a restart the published blend is the mean just before it, so nothing jumps. */
  lemma RestartIsSmooth(l: Limits, s: State, sample: Sample)
    requires Inv(l, s) && Restarts(l, s, sample)
    ensures var t := Stored(l, s, sample);
            && SmoothRpy(Handled(l, s, sample)) == Averaged(t.blocks, t.ring, t.output).rpy
            && Handled(l, s, sample).blend.weight == 1.0
            && Handled(l, s, sample).output.rpy == t.blocks.rpys[if t.ring.blockIdx == 0 then 49 else t.ring.blockIdx - 1]
  {
    hide Averaged, StoredBlocks, BoxedBlocks, UniformAtStart, InBox, StatusOf, SpreadTooHigh, Advanced;
  }

  /** None of the samples starts the calibrator over. */
  ghost predicate NoRestart(l: Limits, s: State, samples: seq<Sample>)
    requires Inv(l, s)
    decreases |samples|
  {
    |samples| == 0
    || (HandledKeepsInv(l, s, samples[0]); !Restarts(l, s, samples[0]) && NoRestart(l, Handled(l, s, samples[0]), samples[1..]))
  }

  lemma BlendStep(l: Limits, s: State, sample: Sample)
    requires Inv(l, s) && !Restarts(l, s, sample)
    ensures var (b, r) := (s.blend, Handled(l, s, sample).blend);
            r.rpy == b.rpy && r.weight == if b.weight > 0.1 then b.weight - 0.1 else 0.0
  {
    hide Averaged, StoredBlocks, BoxedBlocks, UniformAtStart, InBox, StatusOf, SpreadTooHigh, Advanced;
  }

  /** Then every sample, accepted or not, takes a tenth of the old mean away, and after ten of them the new one stands alone. */
  lemma {:induction false} BlendFades(l: Limits, s: State, samples: seq<Sample>)
    requires Inv(l, s) && NoRestart(l, s, samples)
    ensures var (r, w) := (Run(l, s, samples), s.blend.weight - |samples| as real / 10.0);
            && r.blend.rpy == s.blend.rpy && r.blend.weight == (if |samples| == 0 || w > 0.0 then w else 0.0)
            && (s.blend.weight <= 1.0 && |samples| >= 10 ==> SmoothRpy(r) == r.output.rpy)
    decreases |samples|
  {
    hide Handled, Restarts, BoxedBlocks, UniformAtStart, InBox;
    if |samples| > 0 {
      HandledKeepsInv(l, s, samples[0]);
      BlendStep(l, s, samples[0]);
      BlendFades(l, Handled(l, s, samples[0]), samples[1..]);
    }
  }

  /** In between the blend is on the straight line from the old mean to the new one. */
  lemma BlendIsLinear(s: State)
    requires 0.0 <= s.blend.weight <= 1.0
    ensures var (r, a, b, w) := (SmoothRpy(s), s.blend.rpy, s.output.rpy, s.blend.weight);
            && r.roll - b.roll == w * (a.roll - b.roll) && r.pitch - b.pitch == w * (a.pitch - b.pitch) && r.yaw - b.yaw == w * (a.yaw - b.yaw)
  {
    OnLine(s.blend.weight, s.blend.rpy.roll, s.output.rpy.roll);
    OnLine(s.blend.weight, s.blend.rpy.pitch, s.output.rpy.pitch);
    OnLine(s.blend.weight, s.blend.rpy.yaw, s.output.rpy.yaw);
  }

  lemma OnLine(w: real, a: real, b: real)
    ensures w * a + (1.0 - w) * b - b == w * (a - b) && (w == 0.0 ==> w * (a - b) == 0.0)
  {
  }

  // ---------------------------------------------------------------- a cached start

  lemma {:induction false} SumOfSame(xs: seq<real>, x: real)
    requires forall k :: 0 <= k < |xs| ==> xs[k] == x
    ensures Sum(xs) == |xs| as real * x
  {
    if |xs| > 0 {
      SumOfSame(xs[..|xs| - 1], x);
    }
  }

  lemma MeanOfSame(xs: seq<real>, x: real)
    requires |xs| > 0 && forall k :: 0 <= k < |xs| ==> xs[k] == x
    ensures Mean(xs) == x
  {
    SumOfSame(xs, x);
    MeanTimes(xs);
    hide Sum, Mean;
    CancelEqual(|xs| as real, Mean(xs), x);
  }

  lemma CancelEqual(n: real, a: real, b: real)
    requires n > 0.0 && n * a == n * b
    ensures a == b
  {
    if a < b {
      ProductNotNegative(n, b - a);
    } else if a > b {
      ProductNotNegative(n, a - b);
    }
  }

  lemma AveragedTiles(v: Vec, wide: Vec, height: real, n: int)
    requires n <= INPUTS_WANTED
    ensures var r := StartRing(n);
            Shaped(Tiles(v, wide, height), r) && Averaged(Tiles(v, wide, height), r, Output(v, wide, height, ZERO)) == Output(v, wide, height, ZERO)
  {
    var (b, r) := (Tiles(v, wide, height), StartRing(n));
    ValidIdxsAreBlocks(r);
    var idxs := ValidIdxs(r.blockIdx, r.validBlocks);
    hide Mean, ValidIdxs, Tiles, SpreadVec;
    TilesHold(v, wide, height);
    if |idxs| > 0 {
      var (rpys, wides) := (Pick(b.rpys, idxs), Pick(b.wides, idxs));
      MeanOfSame(Rolls(rpys), v.roll);
      MeanOfSame(Pitches(rpys), v.pitch);
      MeanOfSame(Yaws(rpys), v.yaw);
      MeanOfSame(Rolls(wides), wide.roll);
      MeanOfSame(Pitches(wides), wide.pitch);
      MeanOfSame(Yaws(wides), wide.yaw);
      MeanOfSame(Pick(b.heights, idxs), height);
      SameRowsNoSpread(rpys);
    }
  }

  lemma TilesHold(v: Vec, wide: Vec, height: real)
    ensures var b := Tiles(v, wide, height);
            && |b.rpys| == |b.wides| == |b.heights| == INPUTS_WANTED
            && forall k :: 0 <= k < INPUTS_WANTED ==> b.rpys[k] == v && b.wides[k] == wide && b.heights[k] == height
  {
  }

  /** A start from cached values publishes them, in the status their number of blocks gives, and never starts over. */
  lemma CachedStartPublishes(l: Limits, rpy: Vec, validBlocks: int, wide: Vec, height: real)
    requires l.Valid() && validBlocks <= INPUTS_WANTED
    ensures var s := Initial(l, rpy, validBlocks, wide, height);
            && s.output == Output(rpy, wide, height, Vec(0.0, 0.0, 0.0)) && SmoothRpy(s) == rpy
            && s.ring == Ring(if validBlocks < 0 then 0 else validBlocks, 0, 0)
            && s.status == if validBlocks < 5 then Uncalibrated
                           else if l.pitchMin < rpy.pitch < l.pitchMax && l.yawMin < rpy.yaw < l.yawMax then Calibrated else Invalid
  {
    AveragedTiles(rpy, wide, height, validBlocks);
    hide Averaged, Tiles;
  }
}
