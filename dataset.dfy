/**
 * `TextDataset` in src/experiment/data/dataset.py: a token sequence cut
 * into training windows `x` and targets `y`, `y` being `x` moved on by one
 * position. The tensor is a sequence; slicing is Python's, which clamps
 * bounds past the end.
 */
module Dataset {
  datatype TextDataset<T> = TextDataset(data: seq<T>, blockSize: nat)

  /** `s[a:b]` for `0 <= a <= b`: the bounds are clamped to the length. */
  function Slice<T>(s: seq<T>, a: nat, b: nat): (r: seq<T>)
    requires a <= b
    ensures b <= |s| ==> r == s[a..b]
    ensures |r| == (if b <= |s| then b - a else if a <= |s| then |s| - a else 0)
  {
    if a >= |s| then [] else if b >= |s| then s[a..] else s[a..b]
  }

  /** `__len__`: `len(data) - block_size - 1`, negative for short data (then `len()` raises). */
  function Len<T>(d: TextDataset<T>): int {
    |d.data| - d.blockSize - 1
  }

  /** `__getitem__(idx)`: `(data[idx:idx + block_size], data[idx + 1:idx + block_size + 1])`. */
  function GetItem<T>(d: TextDataset<T>, idx: nat): (xy: (seq<T>, seq<T>))
  {
    (Slice(d.data, idx, idx + d.blockSize), Slice(d.data, idx + 1, idx + d.blockSize + 1))
  }

  /**
   * At every index below `__len__`, `x` and `y` have exactly `block_size`
   * elements, `x` reads the data from `idx` and `y` from `idx + 1`, so `y`
   * is `x` moved on by one.
   */
  lemma WindowAt<T>(d: TextDataset<T>, idx: nat)
    requires idx < Len(d)
    ensures var (x, y) := GetItem(d, idx);
      && |x| == d.blockSize && |y| == d.blockSize
      && (forall i :: 0 <= i < d.blockSize ==> x[i] == d.data[idx + i] && y[i] == d.data[idx + i + 1])
      && (forall i :: 0 <= i < d.blockSize - 1 ==> y[i] == x[i + 1])
  {
  }

  /**
   * Because of the extra `- 1`, no valid index lets `y` reach the last
   * element of the data: every position `y` reads is at most
   * `len(data) - 2`.
   */
  lemma LastElementNeverTarget<T>(d: TextDataset<T>, idx: nat, i: nat)
    requires idx < Len(d) && i < d.blockSize
    ensures idx + i + 1 <= |d.data| - 2
    ensures GetItem(d, idx).1[i] == d.data[idx + i + 1]
  {
  }

  /**
   * The window at `idx == __len__` would still be complete: `__len__`
   * leaves out one full window, the one whose last target is the last
   * element.
   */
  lemma WindowAtLenIsComplete<T>(d: TextDataset<T>)
    requires Len(d) >= 0
    ensures var (x, y) := GetItem(d, Len(d) as nat);
      && |x| == d.blockSize && |y| == d.blockSize
      && (d.blockSize > 0 ==> y[d.blockSize - 1] == d.data[|d.data| - 1])
  {
  }

  /** Past the end, slicing clamps: from `len(data) - block_size` on, `y` is shorter than `block_size`. */
  lemma ShortWindowsPastTheEnd<T>(d: TextDataset<T>, idx: nat)
    requires idx + d.blockSize >= |d.data| && d.blockSize > 0
    ensures |GetItem(d, idx).1| < d.blockSize
  {
  }
}
