/** The data side of the multi-resolution signal viewer: a window of rows
  * cut out of a level's sample array and padded where it runs past either
  * end, a per-level cache of the loaded arrays, and the conversion of a
  * time range to sample indices. A row stands for one time sample across
  * all channels; its element type is a parameter. */
module Pyramids {
  import opened Wrappers
  import opened PyLists
  import opened Bytes

  const NChannels: nat := 384
  const SampleRate: nat := 2500
  const MaxResolution: nat := 11

  function Max(a: int, b: int): int { if a < b then b else a }
  function Min(a: int, b: int): int { if a < b then a else b }

  /** Where a slice bound lands in a sequence of length len: a negative
    * bound counts from the end, and the result is clamped to [0, len]. */
  function SliceBound(i: int, len: nat): (r: nat)
    ensures r <= len
    ensures 0 <= i <= len ==> r == i
  {
    if i < 0 then (if i + len < 0 then 0 else i + len)
    else if i > len then len
    else i
  }

  /** `s[a:b]` on the first axis. */
  function PySlice<T>(s: seq<T>, a: int, b: int): (r: seq<T>)
    ensures 0 <= a <= b <= |s| ==> r == s[a..b]
  {
    var lo, hi := SliceBound(a, |s|), SliceBound(b, |s|);
    if lo <= hi then s[lo..hi] else []
  }

  /** numpy's `dst[a:b] = src` on the first axis: the source must have as
    * many rows as the slice, or exactly one row, which is repeated; any
    * other length cannot be broadcast and raises ValueError. */
  function AssignSlice<T>(dst: seq<T>, a: int, b: int, src: seq<T>): (r: Result<seq<T>>)
    ensures r.Ok? ==> |r.value| == |dst|
    ensures r.Err? ==> r.error == ValueError
  {
    var lo, hi := SliceBound(a, |dst|), SliceBound(b, |dst|);
    var k := if lo <= hi then hi - lo else 0;
    if |src| == k then Ok(dst[..lo] + src + dst[lo + k..])
    else if |src| == 1 then Ok(dst[..lo] + Repeat(src[0], k) + dst[lo + k..])
    else Err(ValueError)
  }

  /** The intended result: i1 - i0 rows, row k being data[i0 + k] where
    * that exists and the fill value elsewhere. */
  ghost predicate IsWindow<T>(r: seq<T>, data: seq<T>, i0: int, i1: int, fill: T)
  {
    |r| == i1 - i0
    && forall k :: 0 <= k < |r| ==> r[k] == (if 0 <= i0 + k < |data| then data[i0 + k] else fill)
  }

  /** `safe_slice` as written: a negative length fails in `np.full`, and the
    * copy uses the clamped bounds without checking that they still
    * overlap. */
  function SafeSliceAsWritten<T>(data: seq<T>, i0: int, i1: int, fill: T): (r: Result<seq<T>>)
    ensures i1 < i0 ==> r == Err(ValueError)
    ensures r.Ok? ==> |r.value| == i1 - i0
  {
    var n := i1 - i0;
    if n < 0 then Err(ValueError)
    else
      var result := Repeat(fill, n);
      var s0 := Max(i0, 0);
      var s1 := Min(i1, |data|);
      var d0 := s0 - i0;
      var d1 := d0 + (s1 - s0);
      AssignSlice(result, d0, d1, PySlice(data, s0, s1))
  }

  /** While the window starts no later than the end of the data and ends no
    * earlier than its start, `safe_slice` gives the padded window. */
  lemma SafeSliceInRange<T>(data: seq<T>, i0: int, i1: int, fill: T)
    requires i0 <= i1 && i0 <= |data| && 0 <= i1
    ensures SafeSliceAsWritten(data, i0, i1, fill).Ok?
    ensures IsWindow(SafeSliceAsWritten(data, i0, i1, fill).value, data, i0, i1, fill)
  {
    var n := i1 - i0;
    var result := Repeat(fill, n);
    var s0, s1 := Max(i0, 0), Min(i1, |data|);
    var d0 := s0 - i0;
    var d1 := d0 + (s1 - s0);
    assert 0 <= s0 <= s1 <= |data| && 0 <= d0 <= d1 <= n;
    var src := data[s0..s1];
    assert PySlice(data, s0, s1) == src;
    var r := result[..d0] + src + result[d1..];
    assert AssignSlice(result, d0, d1, src) == Ok(r);
    forall k | 0 <= k < n
      ensures r[k] == (if 0 <= i0 + k < |data| then data[i0 + k] else fill)
    {
      if k < d0 {
        assert r[k] == result[k];
      } else if k < d1 {
        assert r[k] == src[k - d0];
      } else {
        assert r[k] == result[k - d1 + d0 + (d1 - d0)];
      }
    }
  }

  /** A window wholly before the data, ending at a negative index, makes
    * the clamped end negative: it then counts from the end of the data, and
    * the rows it selects cannot be put into the empty target slice. */
  lemma SafeSliceBeforeDataFails<T>(data: seq<T>, i0: int, i1: int, fill: T)
    requires i0 < i1 < 0 && |data| + i1 >= 2
    ensures SafeSliceAsWritten(data, i0, i1, fill).Err?
  {
    var n := i1 - i0;
    assert SliceBound(-i0, n) == n && SliceBound(n, n) == n;
    assert |PySlice(data, 0, i1)| == |data| + i1;
  }

  /** A window wholly after the data fails in the same way when it is long
    * enough: the target slice is cut from the end, and nothing can be
    * copied into it. */
  lemma SafeSliceAfterDataFails<T>(data: seq<T>, i0: int, i1: int, fill: T)
    requires |data| < i0 < i1 && |data| + i1 > 2 * i0
    ensures SafeSliceAsWritten(data, i0, i1, fill).Err?
  {
    var n := i1 - i0;
    assert SliceBound(0, n) == 0 && SliceBound(|data| - i0, n) == |data| - i0 + n;
    assert PySlice(data, i0, |data|) == [];
  }

  /** One instance: three rows, window [-4, -1). */
  lemma SafeSliceFailsOnExample()
    ensures SafeSliceAsWritten([10, 11, 12], -4, -1, 0).Err?
  {
    SafeSliceBeforeDataFails([10, 11, 12], -4, -1, 0);
  }

  /** `safe_slice` with the copy skipped when the clamped bounds do not
    * overlap: every window of non-negative length is padded correctly. */
  function SafeSlice<T>(data: seq<T>, i0: int, i1: int, fill: T): (r: Result<seq<T>>)
    ensures r.Ok? <==> i0 <= i1
    ensures r.Err? ==> r.error == ValueError
    ensures r.Ok? ==> IsWindow(r.value, data, i0, i1, fill)
  {
    if i1 < i0 then Err(ValueError)
    else if Max(i0, 0) >= Min(i1, |data|) then
      var r := Repeat(fill, i1 - i0);
      assert forall k :: 0 <= k < |r| ==> r[k] == fill && (i0 + k < 0 || i0 + k >= |data|);
      Ok(r)
    else
      SafeSliceInRange(data, i0, i1, fill);
      SafeSliceAsWritten(data, i0, i1, fill)
  }

  /** Where the clamped bounds overlap, the corrected slice is the one
    * written. */
  lemma SafeSliceAgrees<T>(data: seq<T>, i0: int, i1: int, fill: T)
    requires i0 <= i1 && i0 <= |data| && 0 <= i1
    ensures SafeSlice(data, i0, i1, fill) == SafeSliceAsWritten(data, i0, i1, fill)
  {
    SafeSliceInRange(data, i0, i1, fill);
    WindowUnique(SafeSlice(data, i0, i1, fill).value, SafeSliceAsWritten(data, i0, i1, fill).value, data, i0, i1, fill);
  }

  /** A window is determined by the data, its bounds and the fill value. */
  lemma WindowUnique<T>(a: seq<T>, b: seq<T>, data: seq<T>, i0: int, i1: int, fill: T)
    requires IsWindow(a, data, i0, i1, fill) && IsWindow(b, data, i0, i1, fill)
    ensures a == b
  {
    assert forall k :: 0 <= k < |a| ==> a[k] == b[k];
  }

  /** Bytes per row of a level file: one float16 per channel. */
  const RowBytes: nat := NChannels * 2

  /** The file's bytes cut into rows of RowBytes. */
  function Rows(bytes: seq<byte>): (r: seq<seq<byte>>)
    requires |bytes| % RowBytes == 0
    ensures |r| == |bytes| / RowBytes
    ensures forall i :: 0 <= i < |r| ==> r[i] == bytes[i * RowBytes..(i + 1) * RowBytes]
    decreases |bytes|
  {
    if |bytes| == 0 then []
    else [bytes[..RowBytes]] + Rows(bytes[RowBytes..])
  }

  function Flatten(rows: seq<seq<byte>>): seq<byte>
  {
    if rows == [] then [] else rows[0] + Flatten(rows[1..])
  }

  /** Cutting into rows loses and reorders nothing. */
  lemma {:induction false} RowsFlatten(bytes: seq<byte>)
    requires |bytes| % RowBytes == 0
    ensures Flatten(Rows(bytes)) == bytes
    decreases |bytes|
  {
    if |bytes| != 0 {
      RowsFlatten(bytes[RowBytes..]);
      assert bytes == bytes[..RowBytes] + bytes[RowBytes..];
    }
  }

  /** `load_file` on what the disk holds for the level (None for a missing
    * file): a size that is not a whole number of rows fails its assertion,
    * otherwise the bytes are read as rows of channel values. */
  function LoadFile(onDisk: Option<seq<byte>>): (r: Result<Option<seq<seq<byte>>>>)
    ensures onDisk.None? ==> r == Ok(None)
    ensures onDisk.Some? ==> (r.Ok? <==> |onDisk.value| % RowBytes == 0)
    ensures r.Err? ==> r.error == AssertionError
    ensures r.Ok? && onDisk.Some? ==> r.value.Some? && |r.value.value| * RowBytes == |onDisk.value|
  {
    match onDisk
    case None => Ok(None)
    case Some(bytes) =>
      if |bytes| % RowBytes != 0 then Err(AssertionError)
      else Ok(Some(Rows(bytes)))
  }

  /** The level arrays loaded so far, and the levels `load_file` was called
    * for, in call order. */
  class FileCache<T> {
    var files: map<int, Option<seq<T>>>
    var loads: seq<int>

    /** Each cached level was loaded exactly once and every load was
      * cached. */
    ghost predicate Valid()
      reads this
    {
      (forall i, j :: 0 <= i < j < |loads| ==> loads[i] != loads[j])
      && (forall l :: l in files <==> l in loads)
    }

    constructor()
      ensures files == map[] && loads == [] && Valid()
    {
      files := map[];
      loads := [];
    }

    /** `load_data`: asserts a non-empty window, calls `load_file` (whose
      * outcome is the parameter `fileRead`) only for a level not cached
      * yet and caches even a missing file, then gives nothing for a
      * missing or empty array, and otherwise what `safe_slice` as written
      * gives: the padded window when it overlaps or touches the data, a
      * ValueError for some windows beyond it (SafeSliceAfterDataFails). The
      * conversion of the window to bytes is not part of this model. */
    method LoadData(level: int, i0: int, i1: int, fileRead: Result<Option<seq<T>>>, fill: T)
      returns (r: Result<Option<seq<T>>>)
      modifies this
      ensures !(i0 < i1) ==> r == Err(AssertionError) && files == old(files) && loads == old(loads)
      ensures i0 < i1 && level in old(files) ==> files == old(files) && loads == old(loads)
      ensures i0 < i1 && level !in old(files) ==> loads == old(loads) + [level]
      ensures i0 < i1 && level !in old(files) && fileRead.Err? ==>
        r == fileRead.PropagateFailure() && files == old(files)
      ensures i0 < i1 && level !in old(files) && fileRead.Ok? ==>
        files == old(files)[level := fileRead.value]
      ensures r.Ok? ==> level in files && i0 < i1
      ensures i0 < i1 && (level in old(files) || fileRead.Ok?) ==>
        (r.Ok? <==> files[level].None? || |files[level].value| == 0
                    || SafeSliceAsWritten(files[level].value, i0, i1, fill).Ok?)
      ensures i0 < i1 && (level in old(files) || fileRead.Ok?) && r.Err? ==> r.error == ValueError
      ensures (i0 < i1 && (level in old(files) || fileRead.Ok?) && files[level].Some?
               && i0 <= |files[level].value| && 0 <= i1) ==> r.Ok?
      ensures r.Ok? ==> (r.value.None? <==> files[level].None? || |files[level].value| == 0)
      ensures r.Ok? && r.value.Some? ==> r.value.value == SafeSliceAsWritten(files[level].value, i0, i1, fill).value
      ensures r.Ok? && r.value.Some? && i0 <= |files[level].value| && 0 <= i1 ==>
        IsWindow(r.value.value, files[level].value, i0, i1, fill)
      ensures old(Valid()) && fileRead.Ok? ==> Valid()
    {
      if !(i0 < i1) {
        return Err(AssertionError);
      }
      if level !in files {
        loads := loads + [level];
        if fileRead.Err? {
          return fileRead.PropagateFailure();
        }
        files := files[level := fileRead.value];
      }
      var data := files[level];
      if data.None? || |data.value| == 0 {
        return Ok(None);
      }
      if i0 <= |data.value| && 0 <= i1 {
        SafeSliceInRange(data.value, i0, i1, fill);
      }
      var out := SafeSliceAsWritten(data.value, i0, i1, fill);
      if out.Err? {
        return Err(out.error);
      }
      if |out.value| == 0 {
        assert false;
        return Ok(None);
      }
      r := Ok(Some(out.value));
    }
  }

  /** Two loads of the same level call `load_file` once when the first
    * read succeeds. */
  method LoadTwice<T>(cache: FileCache<T>, level: int, i0: int, i1: int, fileRead: Option<seq<T>>,
                      secondRead: Result<Option<seq<T>>>, fill: T)
    returns (r1: Result<Option<seq<T>>>, r2: Result<Option<seq<T>>>)
    requires i0 < i1
    modifies cache
    ensures cache.loads == old(cache.loads) + (if level in old(cache.files) then [] else [level])
    ensures r1 == r2
  {
    r1 := cache.LoadData(level, i0, i1, Ok(fileRead), fill);
    r2 := cache.LoadData(level, i0, i1, secondRead, fill);
  }

  /** 2 to the power n, as a float. */
  function Pow2(n: nat): (r: real)
    ensures r >= 1.0
  {
    if n == 0 then 1.0 else 2.0 * Pow2(n - 1)
  }

  /** Python's `round` on a float: to the nearest integer, ties to the even
    * one. */
  function RoundHalfEven(x: real): (r: int)
    ensures x - 0.5 <= r as real <= x + 0.5
  {
    var f := x.Floor;
    var frac := x - f as real;
    if frac < 0.5 then f
    else if frac > 0.5 then f + 1
    else if f % 2 == 0 then f
    else f + 1
  }

  lemma RoundMonotone(x: real, y: real)
    requires x <= y
    ensures RoundHalfEven(x) <= RoundHalfEven(y)
  {
    if x.Floor < y.Floor {
      assert x.Floor + 1 <= y.Floor;
    }
  }

  /** The sample index of a time at a level: the full sample rate halved
    * once per level, rounded. */
  function SampleIndex(level: nat, t: real): int
  {
    RoundHalfEven(Position(level, t))
  }

  /** `find_indices`: asserts a level in [0, 11] and a time range that is
    * not empty, then converts both ends. */
  function FindIndices(level: int, tMin: real, tMax: real): (r: Result<(int, int)>)
    ensures r.Ok? <==> 0 <= level <= MaxResolution && tMin < tMax
    ensures r.Err? ==> r.error == AssertionError
  {
    if level < 0 || level > MaxResolution as int || !(tMin < tMax) then Err(AssertionError)
    else Ok((SampleIndex(level, tMin), SampleIndex(level, tMax)))
  }

  /** The exact (unrounded) sample position of a time at a level. */
  function Position(level: nat, t: real): real
  {
    t * SampleRate as real / Pow2(level)
  }

  lemma PositionMonotone(level: nat, a: real, b: real)
    requires a <= b
    ensures Position(level, a) <= Position(level, b)
  {
    var c := SampleRate as real / Pow2(level);
    assert c >= 0.0;
    assert a * c <= b * c;
    assert Position(level, a) == a * c && Position(level, b) == b * c;
  }

  /** The two indices are in order, each within half a sample of the exact
    * position; they can coincide, and `load_data` then rejects the
    * window. */
  lemma FindIndicesOrdered(level: int, tMin: real, tMax: real)
    requires FindIndices(level, tMin, tMax).Ok?
    ensures var (a, b) := FindIndices(level, tMin, tMax).value;
      a <= b
      && Position(level, tMin) - 0.5 <= a as real <= Position(level, tMin) + 0.5
      && Position(level, tMax) - 0.5 <= b as real <= Position(level, tMax) + 0.5
  {
    PositionMonotone(level, tMin, tMax);
    RoundMonotone(Position(level, tMin), Position(level, tMax));
  }

  /** A tenth of a second at the coarsest level is less than one sample. */
  lemma IndicesCanCoincide()
    ensures FindIndices(11, 0.0, 0.1) == Ok((0, 0))
  {
    assert Pow2(11) == 2048.0;
    assert 0.1 * 2500.0 / 2048.0 < 0.5;
  }
}
