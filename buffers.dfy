/**
 * Sequence facts about a buffer region processed in place, one slot after
 * the other, as every stage's `Read` does.
 */
module Buffers {
  /**
   * Writing the first unprocessed slot of `pre + done + rest` extends the
   * processed part by that value and shortens the rest by one.
   */
  lemma SpliceStep<T>(pre: seq<T>, done: seq<T>, rest: seq<T>, v: T)
    requires |rest| > 0
    ensures (pre + done + rest)[|pre| + |done| := v] == pre + (done + [v]) + rest[1..]
  {
    var s := (pre + done + rest)[|pre| + |done| := v];
    var t := pre + (done + [v]) + rest[1..];
    assert |s| == |t|;
    forall k | 0 <= k < |s|
      ensures s[k] == t[k]
    {
      if k < |pre| + |done| {
      } else if k == |pre| + |done| {
      } else {
        assert s[k] == rest[k - |pre| - |done|];
        assert t[k] == rest[1..][k - |pre| - |done| - 1];
      }
    }
  }

  /** A prefix one element longer is the prefix followed by that element. */
  lemma PrefixSnoc<T>(s: seq<T>, n: nat)
    requires n < |s|
    ensures s[..n + 1] == s[..n] + [s[n]]
  {
  }

  /** Moving the boundary of a processed region one slot to the right. */
  lemma SliceExtend<T>(input: seq<T>, lo: nat, i: nat)
    requires lo + i < |input|
    ensures input[lo..lo + i + 1] == input[lo..lo + i] + [input[lo + i]]
    ensures input[lo + i..][1..] == input[lo + i + 1..]
    ensures input[lo + i..][0] == input[lo + i]
  {
  }
}
