/**
 * Packing uniform data into typed arrays (`setFloatArray`, `setFloatVec3Array`
 * and the two allocation helpers of src/index.ts), and the point-light data
 * that `Application.init` packs with them.
 *
 * A `Float32Array` is modelled as an `array<real>`; float32 rounding is not
 * modelled. The source never checks bounds: an ECMAScript typed array ignores
 * an assignment to an index at or beyond its length, so the model performs a
 * write only when the index is in range and otherwise leaves the array as it is.
 */
module FloatBuffers {

  /** A `[number, number, number]` tuple. */
  type Vec3 = v: seq<real> | |v| == 3 witness [0.0, 0.0, 0.0]

  /**
   * The contents of a buffer `buf` after `values[i]` has been assigned to
   * index `i` for every `i`, writes beyond the end of `buf` being ignored.
   */
  function Overlay(buf: seq<real>, values: seq<real>): (r: seq<real>)
    ensures |r| == |buf|
    ensures forall i :: 0 <= i < |buf| ==> r[i] == if i < |values| then values[i] else buf[i]
  {
    if |values| <= |buf| then values + buf[|values|..] else values[..|buf|]
  }

  /** The tuples laid out one after the other, three slots per tuple (row-major). */
  function Flatten(values: seq<Vec3>): (r: seq<real>)
    ensures |r| == 3 * |values|
  {
    if values == [] then [] else Flatten(values[..|values| - 1]) + values[|values| - 1]
  }

  /** Component `j` of tuple `i` sits at slot `3*i + j` of the flattened sequence. */
  lemma {:induction false} FlattenAt(values: seq<Vec3>, i: nat, j: nat)
    requires i < |values| && j < 3
    ensures Flatten(values)[3 * i + j] == values[i][j]
  {
    var n := |values| - 1;
    if i < n {
      FlattenAt(values[..n], i, j);
      assert values[..n][i] == values[i];
    }
  }

  /** Conversely, every slot of the flattened sequence holds one component of one tuple. */
  lemma FlattenSlot(values: seq<Vec3>, k: nat)
    requires k < 3 * |values|
    ensures Flatten(values)[k] == values[k / 3][k % 3]
  {
    FlattenAt(values, k / 3, k % 3);
  }

  /** The tuples read back from a flat buffer, three slots at a time. */
  function Chunks(buf: seq<real>): (r: seq<Vec3>)
    requires |buf| % 3 == 0
    ensures 3 * |r| == |buf|
  {
    if buf == [] then [] else Chunks(buf[..|buf| - 3]) + [buf[|buf| - 3..]]
  }

  /** Reading a flattened sequence back three slots at a time gives the tuples back. */
  lemma {:induction false} ChunksFlatten(values: seq<Vec3>)
    ensures Chunks(Flatten(values)) == values
  {
    if values != [] {
      var n := |values| - 1;
      var flat := Flatten(values);
      assert flat[..|flat| - 3] == Flatten(values[..n]);
      assert flat[|flat| - 3..] == values[n];
      ChunksFlatten(values[..n]);
      assert values == values[..n] + [values[n]];
    }
  }

  /** When the values fit, the first `|values|` slots are the values and the rest is untouched. */
  lemma OverlayFits(buf: seq<real>, values: seq<real>)
    requires |values| <= |buf|
    ensures Overlay(buf, values) == values + buf[|values|..]
  {
    var r := Overlay(buf, values);
    assert forall i :: 0 <= i < |buf| ==> r[i] == (values + buf[|values|..])[i];
  }

  /** Writing the same values a second time changes nothing. */
  lemma OverlayIdempotent(buf: seq<real>, values: seq<real>)
    ensures Overlay(Overlay(buf, values), values) == Overlay(buf, values)
  {
    var once := Overlay(buf, values);
    var twice := Overlay(once, values);
    assert forall i :: 0 <= i < |buf| ==> twice[i] == once[i];
  }

  /** A write to index `k` of a typed array: ignored when `k` is out of range. */
  method Store(arr: array<real>, k: nat, v: real)
    modifies arr
    ensures arr[..] == if k < arr.Length then old(arr[..])[k := v] else old(arr[..])
  {
    if k < arr.Length {
      arr[k] := v;
    }
  }

  /** `floatArray(len)`: a fresh zero-filled buffer of `len` slots. */
  method FloatArray(len: nat) returns (arr: array<real>)
    ensures fresh(arr) && arr.Length == len
    ensures forall k :: 0 <= k < len ==> arr[k] == 0.0
  {
    arr := new real[len](_ => 0.0);
  }

  /** `floatVec3Array(len)`: a fresh zero-filled buffer for `len` tuples. */
  method FloatVec3Array(len: nat) returns (arr: array<real>)
    ensures fresh(arr) && arr.Length == 3 * len
    ensures forall k :: 0 <= k < 3 * len ==> arr[k] == 0.0
  {
    arr := new real[3 * len](_ => 0.0);
  }

  /** `setFloatArray(arr, values)`: `arr[i] = values[i]` for every `i`, in increasing `i`. */
  method SetFloatArray(arr: array<real>, values: seq<real>)
    modifies arr
    ensures arr[..] == Overlay(old(arr[..]), values)
    ensures forall i :: 0 <= i < |values| && i < arr.Length ==> arr[i] == values[i]
    ensures forall k :: |values| <= k < arr.Length ==> arr[k] == old(arr[k])
  {
    for i := 0 to |values|
      invariant forall k :: 0 <= k < i && k < arr.Length ==> arr[k] == values[k]
      invariant forall k :: i <= k < arr.Length ==> arr[k] == old(arr[k])
    {
      Store(arr, i, values[i]);
    }
  }

  /**
   * `setFloatVec3Array(arr, values)`: `arr[i*3 + j] = values[i][j]` for every
   * tuple `i` and component `j`. The ghost `slots` lists the indices the nested
   * loops assign, in order: 0, 1, ..., 3*|values| - 1, each exactly once.
   */
  method SetFloatVec3Array(arr: array<real>, values: seq<Vec3>) returns (ghost slots: seq<nat>)
    modifies arr
    ensures arr[..] == Overlay(old(arr[..]), Flatten(values))
    ensures forall i, j :: 0 <= i < |values| && 0 <= j < 3 && i * 3 + j < arr.Length ==>
      arr[i * 3 + j] == values[i][j]
    ensures forall k :: 3 * |values| <= k < arr.Length ==> arr[k] == old(arr[k])
    ensures |slots| == 3 * |values| && forall k :: 0 <= k < |slots| ==> slots[k] == k
  {
    slots := [];
    for i := 0 to |values|
      invariant |slots| == 3 * i && forall k :: 0 <= k < |slots| ==> slots[k] == k
      invariant forall k :: 0 <= k < 3 * i && k < arr.Length ==> arr[k] == Flatten(values)[k]
      invariant forall k :: 3 * i <= k < arr.Length ==> arr[k] == old(arr[k])
    {
      for j := 0 to 3
        invariant |slots| == 3 * i + j && forall k :: 0 <= k < |slots| ==> slots[k] == k
        invariant forall k :: 0 <= k < 3 * i + j && k < arr.Length ==> arr[k] == Flatten(values)[k]
        invariant forall k :: 3 * i + j <= k < arr.Length ==> arr[k] == old(arr[k])
      {
        FlattenAt(values, i, j);
        Store(arr, i * 3 + j, values[i][j]);
        slots := slots + [i * 3 + j];
      }
    }
    forall i, j | 0 <= i < |values| && 0 <= j < 3 && i * 3 + j < arr.Length
      ensures arr[i * 3 + j] == values[i][j]
    {
      FlattenAt(values, i, j);
    }
  }

  /** The positions of the four point lights of the scene. */
  const PointLightPositions: seq<Vec3> := [[-0.8, -0.8, 1.0], [-0.8, 0.8, 1.0], [0.8, -0.8, 1.0], [0.8, 0.8, 1.0]]

  /** The powers of the four point lights, in the same order. */
  const PointLightPowers: seq<real> := [20.0, 4.0, 20.0, 10.0]

  /** The light positions laid out row-major. */
  lemma FlatLightPositions()
    ensures Flatten(PointLightPositions) == [-0.8, -0.8, 1.0, -0.8, 0.8, 1.0, 0.8, -0.8, 1.0, 0.8, 0.8, 1.0]
  {
    var packed := [-0.8, -0.8, 1.0, -0.8, 0.8, 1.0, 0.8, -0.8, 1.0, 0.8, 0.8, 1.0];
    forall k | 0 <= k < 12 ensures Flatten(PointLightPositions)[k] == packed[k] {
      FlattenSlot(PointLightPositions, k);
    }
  }

  /** A buffer overwritten by exactly as many values as it has slots holds those values. */
  lemma OverlayExact(buf: seq<real>, values: seq<real>)
    requires |values| == |buf|
    ensures Overlay(buf, values) == values
  {
    OverlayFits(buf, values);
    assert buf[|values|..] == [];
  }

  /**
   * The point-light uniforms `Application.init` packs: four light positions
   * into `floatVec3Array(4)` and four powers into `floatArray(4)`.
   */
  method PackPointLights() returns (positions: array<real>, powers: array<real>)
    ensures fresh(positions) && fresh(powers)
    ensures positions[..] == [-0.8, -0.8, 1.0, -0.8, 0.8, 1.0, 0.8, -0.8, 1.0, 0.8, 0.8, 1.0]
    ensures powers[..] == [20.0, 4.0, 20.0, 10.0]
  {
    positions := FloatVec3Array(4);
    powers := FloatArray(4);
    ghost var blank := positions[..];
    ghost var slots := SetFloatVec3Array(positions, PointLightPositions);
    SetFloatArray(powers, PointLightPowers);
    FlatLightPositions();
    OverlayExact(blank, Flatten(PointLightPositions));
  }
}
