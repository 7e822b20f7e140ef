/** Shared value types. */
module Common {
  datatype Option<+T> = None | Some(value: T)

  datatype Result<+T, +E> = Ok(value: T) | Err(error: E)

  function Max(a: int, b: int): int { if a >= b then a else b }

  function Min(a: int, b: int): int { if a <= b then a else b }

  lemma Reassociate<T>(a: seq<T>, b: seq<T>, c: seq<T>)
    ensures a + (b + c) == (a + b) + c
  {}

  function Flatten<T>(parts: seq<seq<T>>): seq<T> {
    if parts == [] then [] else parts[0] + Flatten(parts[1..])
  }

  lemma {:induction false} FlattenAppend<T>(parts: seq<seq<T>>, part: seq<T>)
    ensures Flatten(parts + [part]) == Flatten(parts) + part
  {
    if parts == [] {
      assert parts + [part] == [part] && [part][1..] == [];
    } else {
      assert (parts + [part])[1..] == parts[1..] + [part];
      FlattenAppend(parts[1..], part);
      Reassociate(parts[0], Flatten(parts[1..]), part);
    }
  }

  /** Where part `i` starts in the flattened sequence. */
  function OffsetOf<T>(parts: seq<seq<T>>, i: nat): nat
    requires i <= |parts|
  {
    if i == 0 then 0 else |parts[0]| + OffsetOf(parts[1..], i - 1)
  }

  /** `part` is found in `all` at `start`. */
  predicate SitsAt<T(==)>(all: seq<T>, start: int, part: seq<T>) {
    0 <= start && start + |part| <= |all| && forall k :: 0 <= k < |part| ==> all[start + k] == part[k]
  }

  lemma SitsLater<T>(head: seq<T>, all: seq<T>, start: int, part: seq<T>)
    requires SitsAt(all, start, part)
    ensures SitsAt(head + all, |head| + start, part)
  {
    forall k | 0 <= k < |part| ensures (head + all)[|head| + start + k] == part[k] {
      assert (head + all)[|head| + (start + k)] == all[start + k];
    }
  }

  lemma {:induction false} FlattenSits<T>(parts: seq<seq<T>>, i: nat)
    requires i < |parts|
    ensures SitsAt(Flatten(parts), OffsetOf(parts, i), parts[i])
    ensures i == |parts| - 1 ==> OffsetOf(parts, i) + |parts[i]| == |Flatten(parts)|
    decreases |parts|
  {
    if i > 0 {
      assert parts[1..][i - 1] == parts[i];
      FlattenSits(parts[1..], i - 1);
      SitsLater(parts[0], Flatten(parts[1..]), OffsetOf(parts[1..], i - 1), parts[i]);
    }
  }

  lemma {:induction false} OffsetsAscend<T>(parts: seq<seq<T>>, i: nat, j: nat)
    requires i < j < |parts|
    ensures OffsetOf(parts, i) + |parts[i]| <= OffsetOf(parts, j)
    decreases |parts|
  {
    if i > 0 {
      assert parts[1..][i - 1] == parts[i];
      OffsetsAscend(parts[1..], i - 1, j - 1);
    }
  }

  lemma {:induction false} OffsetNext<T>(parts: seq<seq<T>>, i: nat)
    requires i < |parts|
    ensures OffsetOf(parts, i + 1) == OffsetOf(parts, i) + |parts[i]|
    decreases |parts|
  {
    if i > 0 {
      assert parts[1..][i - 1] == parts[i];
      OffsetNext(parts[1..], i - 1);
    }
  }

  lemma {:induction false} FlattenSplit<T>(parts: seq<seq<T>>, i: nat)
    requires i < |parts|
    ensures |Flatten(parts)| == OffsetOf(parts, i) + |parts[i]| + |Flatten(parts[i + 1..])|
    decreases |parts|
  {
    if i > 0 {
      assert parts[1..][i - 1] == parts[i] && parts[1..][i..] == parts[i + 1..];
      FlattenSplit(parts[1..], i - 1);
    }
  }

  lemma {:induction false} FlattenLonger<T>(a: seq<seq<T>>, b: seq<seq<T>>)
    requires |a| == |b| && forall i :: 0 <= i < |a| ==> |a[i]| <= |b[i]|
    ensures |Flatten(a)| <= |Flatten(b)|
    ensures (exists i :: 0 <= i < |a| && |a[i]| < |b[i]|) ==> |Flatten(a)| < |Flatten(b)|
    decreases |a|
  {
    if a != [] {
      FlattenLonger(a[1..], b[1..]);
      if i :| 0 <= i < |a| && |a[i]| < |b[i]| {
        if i > 0 {
          assert |a[1..][i - 1]| < |b[1..][i - 1]|;
        }
      }
    }
  }
}
