/** Types and small functions shared by the models. */
module Prelude {
  newtype byte = x: int | 0 <= x < 256

  type Bytes = seq<byte>

  datatype Option<+T> = None | Some(value: T)

  function Min(a: int, b: int): int { if a < b then a else b }

  function One(b: bool): nat { if b then 1 else 0 }

  /** Pieces put together in order: stored chunks, fed parts, processed chunks. */
  function Concat(parts: seq<Bytes>): Bytes
    decreases |parts|
  {
    if parts == [] then [] else Concat(parts[..|parts| - 1]) + parts[|parts| - 1]
  }

  lemma ConcatAppend(parts: seq<Bytes>, part: Bytes)
    ensures Concat(parts + [part]) == Concat(parts) + part
  {
    assert (parts + [part])[..|parts|] == parts;
  }

  lemma ConcatTake(parts: seq<Bytes>, k: nat)
    requires k < |parts|
    ensures Concat(parts[..k + 1]) == Concat(parts[..k]) + parts[k]
  {
    assert parts[..k + 1] == parts[..k] + [parts[k]];
    ConcatAppend(parts[..k], parts[k]);
  }

  lemma SplitLast(parts: seq<Bytes>, k: nat)
    requires k < |parts|
    ensures var init := parts[..|parts| - 1];
      init[..k] == parts[..k] && parts[k..] == init[k..] + [parts[|parts| - 1]]
  {}

  lemma Regroup(a: Bytes, b: Bytes, c: Bytes)
    ensures a + (b + c) == (a + b) + c
  {}

  lemma {:induction false} ConcatSplit(parts: seq<Bytes>, k: nat)
    requires k <= |parts|
    ensures Concat(parts) == Concat(parts[..k]) + Concat(parts[k..])
    decreases |parts|
  {
    if k == |parts| {
      assert parts[..k] == parts && Concat(parts) + [] == Concat(parts);
    } else {
      var (init, last) := (parts[..|parts| - 1], parts[|parts| - 1]);
      ConcatSplit(init, k);
      SplitLast(parts, k);
      ConcatAppend(init[k..], last);
      Regroup(Concat(init[..k]), Concat(init[k..]), last);
    }
  }

  lemma ConcatFront(part: Bytes, parts: seq<Bytes>)
    ensures Concat([part] + parts) == part + Concat(parts)
  {
    var whole := [part] + parts;
    ConcatSplit(whole, 1);
    assert whole[..1] == [part] && whole[1..] == parts;
    assert [part][..0] == [] && Concat([part]) == [] + part == part;
  }
}
