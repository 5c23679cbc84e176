/** The phase-picker adapter: a model loaded at most once per process (or
    remembered as absent), normalisation of the input block to the time-major
    (N, 3) layout the model expects, and conversion of the model's output rows
    into (phase index, sample index, confidence) triples. The network itself is
    an opaque function from the normalised block to rows of numbers. */
module Pickers {

  /** A tensor: its shape and its entries in row-major order. */
  datatype Tensor = Tensor(shape: seq<nat>, data: seq<real>)

  function Volume(shape: seq<nat>): nat
  {
    if shape == [] then 1 else shape[0] * Volume(shape[1..])
  }

  /** A rectangular block: as many entries as its shape says. */
  predicate WellFormed(t: Tensor)
  {
    |t.data| == Volume(t.shape)
  }

  lemma VolumeOfPlane(shape: seq<nat>)
    requires |shape| == 2
    ensures Volume(shape) == shape[0] * shape[1]
  {
    assert shape[1..][1..] == [];
    assert Volume(shape[1..]) == shape[1];
  }

  lemma VolumeOfCube(shape: seq<nat>)
    requires |shape| == 3
    ensures Volume(shape) == shape[0] * shape[1] * shape[2]
  {
    VolumeOfPlane(shape[1..]);
  }

  lemma RowMajorBound(i: nat, j: nat, rows: nat, cols: nat)
    requires i < rows && j < cols
    ensures i * cols + j < rows * cols
  {
    assert (i + 1) * cols <= rows * cols by {
      var d := rows - (i + 1);
      assert rows * cols == (i + 1) * cols + d * cols;
    }
  }

  /** Entry [i][j] of a two-dimensional tensor. */
  function At(t: Tensor, i: nat, j: nat): real
    requires WellFormed(t) && |t.shape| == 2 && i < t.shape[0] && j < t.shape[1]
  {
    VolumeOfPlane(t.shape);
    RowMajorBound(i, j, t.shape[0], t.shape[1]);
    t.data[i * t.shape[1] + j]
  }

  /** Entry [i][j][k] of a three-dimensional tensor. */
  function At3(t: Tensor, i: nat, j: nat, k: nat): real
    requires WellFormed(t) && |t.shape| == 3
    requires i < t.shape[0] && j < t.shape[1] && k < t.shape[2]
  {
    RowMajorBound(i, j, t.shape[0], t.shape[1]);
    RowMajorBound(i * t.shape[1] + j, k, t.shape[0] * t.shape[1], t.shape[2]);
    VolumeOfCube(t.shape);
    t.data[(i * t.shape[1] + j) * t.shape[2] + k]
  }

  /** Where entry k of the (n, 3) transpose of a (3, n) block is taken from. */
  function TransposedIndex(k: nat, n: nat): (j: nat)
    requires k < 3 * n
    ensures j < 3 * n
  {
    var c, s := k % 3, k / 3;
    if c == 0 then s else if c == 1 then n + s else 2 * n + s
  }

  /** `transpose(0, 1)` of a block with three rows: entry [s][c] of the
      result is entry [c][s] of the input. */
  function Transpose3(t: Tensor): (r: Tensor)
    requires WellFormed(t) && |t.shape| == 2 && t.shape[0] == 3
    ensures WellFormed(r) && r.shape == [t.shape[1], 3]
    ensures forall s, c :: 0 <= s < t.shape[1] && 0 <= c < 3 ==> At(r, s, c) == At(t, c, s)
  {
    var n := t.shape[1];
    VolumeOfPlane(t.shape);
    var r := Tensor([n, 3], seq(3 * n, k requires 0 <= k < 3 * n => t.data[TransposedIndex(k, n)]));
    VolumeOfPlane(r.shape);
    assert forall s, c :: 0 <= s < n && 0 <= c < 3 ==> At(r, s, c) == At(t, c, s) by {
      forall s, c | 0 <= s < n && 0 <= c < 3
        ensures At(r, s, c) == At(t, c, s)
      {
        TransposedIndexAt(s, c, n);
      }
    }
    r
  }

  lemma TransposedIndexAt(s: nat, c: nat, n: nat)
    requires s < n && c < 3
    ensures s * 3 + c < 3 * n && TransposedIndex(s * 3 + c, n) == c * n + s
  {
    RowMajorBound(s, c, n, 3);
    assert (s * 3 + c) % 3 == c && (s * 3 + c) / 3 == s;
  }

  /** `squeeze(0)` of a (1, a, b) block: the same entries, shape (a, b). */
  function Squeeze0(t: Tensor): (r: Tensor)
    requires WellFormed(t) && |t.shape| == 3 && t.shape[0] == 1
    ensures WellFormed(r) && r.shape == t.shape[1..] && r.data == t.data
  {
    Tensor(t.shape[1..], t.data)
  }

  /** First normalisation step: a (3, N) block with N other than 3 is
      transposed to (N, 3). */
  function ChannelFirstStep(t: Tensor): (r: Tensor)
    requires WellFormed(t)
    ensures WellFormed(r)
  {
    if |t.shape| == 2 && t.shape[0] == 3 && t.shape[1] != 3 then Transpose3(t) else t
  }

  /** Second step: a (1, 3, N) batch is squeezed and transposed to (N, 3). */
  function BatchStep(t: Tensor): (r: Tensor)
    requires WellFormed(t)
    ensures WellFormed(r)
  {
    if |t.shape| == 3 && t.shape[0] == 1 && t.shape[1] == 3 then Transpose3(Squeeze0(t)) else t
  }

  /** Third step, the generic fallback: same condition as the first. */
  function FallbackStep(t: Tensor): (r: Tensor)
    requires WellFormed(t)
    ensures WellFormed(r)
  {
    if |t.shape| == 2 && t.shape[1] != 3 && t.shape[0] == 3 then Transpose3(t) else t
  }

  /** The three steps in the order the adapter applies them. */
  function Normalize(t: Tensor): (r: Tensor)
    requires WellFormed(t)
    ensures WellFormed(r)
  {
    FallbackStep(BatchStep(ChannelFirstStep(t)))
  }

  /** The shape test the normalised block must pass to reach the model. */
  predicate Accepted(t: Tensor)
  {
    |t.shape| == 2 && t.shape[1] == 3
  }

  /** A (3, N) block with N other than 3 becomes (N, 3) with its time order
      kept: entry [s][c] is input entry [c][s]. */
  lemma NormalizeChannelFirst(x: Tensor)
    requires WellFormed(x) && |x.shape| == 2 && x.shape[0] == 3 && x.shape[1] != 3
    ensures Normalize(x).shape == [x.shape[1], 3] && Accepted(Normalize(x))
    ensures forall s, c :: 0 <= s < x.shape[1] && 0 <= c < 3 ==> At(Normalize(x), s, c) == At(x, c, s)
  {
    assert ChannelFirstStep(x) == Transpose3(x);
  }

  /** A (1, 3, N) batch becomes (N, 3): entry [s][c] is input entry [0][c][s]. */
  lemma NormalizeBatch(x: Tensor)
    requires WellFormed(x) && |x.shape| == 3 && x.shape[0] == 1 && x.shape[1] == 3
    ensures Normalize(x).shape == [x.shape[2], 3] && Accepted(Normalize(x))
    ensures forall s, c :: 0 <= s < x.shape[2] && 0 <= c < 3 ==> At(Normalize(x), s, c) == At3(x, 0, c, s)
  {
    var q := Squeeze0(x);
    assert q.shape == [3, x.shape[2]];
    forall s, c | 0 <= s < x.shape[2] && 0 <= c < 3
      ensures At(Normalize(x), s, c) == At3(x, 0, c, s)
    {
      assert At(q, c, s) == At3(x, 0, c, s);
    }
  }

  /** The fallback step never changes what the first two steps produced. */
  lemma FallbackStepIsDead(x: Tensor)
    requires WellFormed(x)
    ensures Normalize(x) == BatchStep(ChannelFirstStep(x))
  {
  }

  /** A (3, 3) block passes through unchanged and is accepted. */
  lemma SquareBlockUnchanged(x: Tensor)
    requires WellFormed(x) && x.shape == [3, 3]
    ensures Normalize(x) == x && Accepted(Normalize(x))
  {
  }

  /** Which inputs reach the model: exactly the two-dimensional blocks with
      three columns or three rows, and the (1, 3, N) batches. */
  lemma AcceptedInputs(x: Tensor)
    requires WellFormed(x)
    ensures Accepted(Normalize(x)) <==>
              (|x.shape| == 2 && (x.shape[1] == 3 || x.shape[0] == 3)) ||
              (|x.shape| == 3 && x.shape[0] == 1 && x.shape[1] == 3)
  {
    if |x.shape| == 3 && x.shape[0] == 1 && x.shape[1] == 3 {
      NormalizeBatch(x);
    } else if |x.shape| == 2 && x.shape[0] == 3 && x.shape[1] != 3 {
      NormalizeChannelFirst(x);
    } else {
      assert Normalize(x) == x;
    }
  }

  /** One picker result: `(int(phase_idx), float(sample_idx), float(confidence))`. */
  datatype RawDetection = RawDetection(phaseIndex: int, sampleIndex: real, confidence: real)

  /** Python's `int()` on a float: truncation toward zero. */
  function TruncateToInt(x: real): (i: int)
    ensures x >= 0.0 ==> 0 <= i && i as real <= x < i as real + 1.0
    ensures x < 0.0 ==> i <= 0 && i as real - 1.0 < x <= i as real
  {
    if x >= 0.0 then x.Floor else -((-x).Floor)
  }

  /** The detection read from the first three fields of a row. */
  function RowDetection(row: seq<real>): RawDetection
    requires |row| >= 3
  {
    RawDetection(TruncateToInt(row[0]), row[1], row[2])
  }

  /** The output loop: empty rows and rows with fewer than three fields are
      skipped, longer rows contribute their first three fields, in row order. */
  function Detections(rows: seq<seq<real>>): (r: seq<RawDetection>)
    ensures |r| <= |rows|
  {
    if rows == [] then []
    else
      var last := rows[|rows| - 1];
      Detections(rows[..|rows| - 1]) + (if |last| >= 3 then [RowDetection(last)] else [])
  }

  lemma {:induction false} DetectionsAppend(a: seq<seq<real>>, b: seq<seq<real>>)
    ensures Detections(a + b) == Detections(a) + Detections(b)
    decreases |b|
  {
    if b == [] {
      assert a + b == a;
    } else {
      var b' := b[..|b| - 1];
      assert (a + b)[..|a + b| - 1] == a + b';
      DetectionsAppend(a, b');
    }
  }

  /** A malformed row is skipped and the other rows come out as they would
      without it. */
  lemma DetectionsSkipMalformed(a: seq<seq<real>>, row: seq<real>, b: seq<seq<real>>)
    requires |row| < 3
    ensures Detections(a + [row] + b) == Detections(a + b)
  {
    DetectionsAppend(a + [row], b);
    DetectionsAppend(a, [row]);
    DetectionsAppend(a, b);
    assert [row][..0] == [];
  }

  /** When every row has three fields, each row yields its own detection. */
  lemma {:induction false} DetectionsOfFullRows(rows: seq<seq<real>>)
    requires forall i :: 0 <= i < |rows| ==> |rows[i]| >= 3
    ensures |Detections(rows)| == |rows|
    ensures forall i :: 0 <= i < |rows| ==> Detections(rows)[i] == RowDetection(rows[i])
  {
    if rows != [] {
      DetectionsOfFullRows(rows[..|rows| - 1]);
    }
  }

  /** The output loop as the adapter runs it. */
  method ConvertOutput(rows: seq<seq<real>>) returns (detections: seq<RawDetection>)
    ensures detections == Detections(rows)
  {
    detections := [];
    for i := 0 to |rows|
      invariant detections == Detections(rows[..i])
    {
      var item := rows[i];
      assert rows[..i + 1][..i] == rows[..i];
      if |item| == 0 {
        continue;
      }
      if |item| >= 3 {
        detections := detections + [RawDetection(TruncateToInt(item[0]), item[1], item[2])];
      }
    }
    assert rows[..|rows|] == rows;
  }

  /** The loaded network, opaque: from a normalised block to output rows. */
  datatype Network = Network(infer: Tensor -> seq<seq<real>>)

  /** The module-level cache: not yet decided, known absent, or loaded. */
  datatype ModelState = Unloaded | Absent | Loaded(net: Network)

  /** What a call returns once a network is loaded. */
  function PickerOutput(net: Network, samples: Tensor): (r: seq<RawDetection>)
    requires WellFormed(samples)
    ensures !Accepted(Normalize(samples)) ==> r == []
    ensures Accepted(Normalize(samples)) ==> |r| <= |net.infer(Normalize(samples))|
  {
    var block := Normalize(samples);
    if Accepted(block) then Detections(net.infer(block)) else []
  }

  class Picker {
    var model: ModelState

    constructor ()
      ensures model.Unloaded?
    {
      model := Unloaded;
    }

    /** `_load_model`: decide once whether the artifact exists and remember the
        answer; a decided state is returned without looking at the file. */
    method LoadModel(artifactExists: bool, artifact: Network) returns (m: ModelState)
      modifies this
      ensures !old(model).Unloaded? ==> model == old(model)
      ensures old(model).Unloaded? ==> model == (if artifactExists then Loaded(artifact) else Absent)
      ensures m == model && !m.Unloaded?
    {
      if !model.Unloaded? {
        return model;
      }
      if !artifactExists {
        model := Absent;
        return model;
      }
      model := Loaded(artifact);
      m := model;
    }

    /** `run_phase_picker`: no model means no detections; a block whose
        normalised shape is not (N, 3) is skipped; otherwise the network's
        output rows are converted. The sampling rate is not used. */
    method RunPhasePicker(samples: Tensor, samplingRate: real, artifactExists: bool, artifact: Network)
      returns (detections: seq<RawDetection>)
      requires WellFormed(samples)
      modifies this
      ensures !old(model).Unloaded? ==> model == old(model)
      ensures old(model).Unloaded? ==> model == (if artifactExists then Loaded(artifact) else Absent)
      ensures model.Absent? ==> detections == []
      ensures model.Loaded? ==> detections == PickerOutput(model.net, samples)
    {
      var m := LoadModel(artifactExists, artifact);
      if m.Absent? {
        return [];
      }
      var data := ChannelFirstStep(samples);
      data := BatchStep(data);
      data := FallbackStep(data);
      if !(|data.shape| == 2 && data.shape[1] == 3) {
        return [];
      }
      var result := m.net.infer(data);
      detections := ConvertOutput(result);
    }
  }
}
