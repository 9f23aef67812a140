/** Bytes, optional values, and the byte streams that the codecs read and write. */
module Bytes {

  type byte = b: int | 0 <= b < 256

  datatype Option<+T> = None | Some(value: T)

  datatype Result<+T, +E> = Ok(value: T) | Err(error: E)

  function Min(a: nat, b: nat): nat {
    if a <= b then a else b
  }

  function Concat<T>(parts: seq<seq<T>>): (whole: seq<T>) {
    if parts == [] then [] else parts[0] + Concat(parts[1..])
  }

  lemma {:induction false} ConcatAppend<T>(a: seq<seq<T>>, b: seq<seq<T>>)
    ensures Concat(a + b) == Concat(a) + Concat(b)
  {
    if a == [] {
      assert a + b == b;
    } else {
      assert (a + b)[1..] == a[1..] + b;
      ConcatAppend(a[1..], b);
    }
  }

  lemma ConcatSnoc<T>(a: seq<seq<T>>, last: seq<T>)
    ensures Concat(a + [last]) == Concat(a) + last
  {
    ConcatAppend(a, [last]);
    assert Concat([last]) == last + Concat([]);
  }

  lemma ConcatAssoc<T>(a: seq<T>, b: seq<T>, c: seq<T>)
    ensures a + b + c == a + (b + c)
  {
  }

  lemma SplitAt<T>(s: seq<T>, n: nat)
    requires n <= |s|
    ensures s == s[..n] + s[n..]
  {
  }

  lemma TakeOfConcat<T>(a: seq<T>, b: seq<T>, k: int)
    ensures 0 <= k <= |a| ==> (a + b)[..k] == a[..k]
    ensures |a| <= k <= |a| + |b| ==> (a + b)[..k] == a + b[..k - |a|]
  {
  }

  lemma SliceOfDrop<T>(s: seq<T>, i: nat, a: nat, b: nat)
    requires a <= b && i + b <= |s|
    ensures s[i..][a..b] == s[i + a..i + b]
  {
  }

  lemma DropOfDrop<T>(s: seq<T>, i: nat, a: nat)
    requires i + a <= |s|
    ensures s[i..][a..] == s[i + a..]
  {
  }

  // ---------------------------------------------------------------- filtering

  /** How many of the first `n` optional values are there. */
  function Somes<T>(options: seq<Option<T>>, n: nat): (k: nat)
    requires n <= |options|
    ensures k <= n
  {
    if n == 0 then 0 else Somes(options, n - 1) + if options[n - 1].Some? then 1 else 0
  }

  /** A list holds exactly the values that are there, each at the place that those before leave it. */
  ghost predicate Collects<T>(options: seq<Option<T>>, list: seq<T>) {
    && |list| == Somes(options, |options|)
    && forall i :: 0 <= i < |options| && options[i].Some? ==>
         Somes(options, i) < |list| && list[Somes(options, i)] == options[i].value
  }

  lemma {:induction false} SomesOfPrefix<T>(a: seq<Option<T>>, b: seq<Option<T>>, n: nat)
    requires n <= |a|
    ensures Somes(a + b, n) == Somes(a, n)
  {
    if n > 0 {
      SomesOfPrefix(a, b, n - 1);
    }
  }

  lemma {:induction false} SomesOfCons<T>(first: Option<T>, rest: seq<Option<T>>, n: nat)
    requires n <= |rest|
    ensures Somes([first] + rest, n + 1) == Somes(rest, n) + if first.Some? then 1 else 0
  {
    if n > 0 {
      SomesOfCons(first, rest, n - 1);
    }
  }

  lemma CollectsSnoc<T>(options: seq<Option<T>>, list: seq<T>, last: Option<T>)
    requires Collects(options, list)
    ensures Collects(options + [last], if last.Some? then list + [last.value] else list)
  {
    var (all, n) := (options + [last], |options|);
    var more := if last.Some? then list + [last.value] else list;
    assert all[n] == last && Somes(all, n + 1) == Somes(all, n) + if last.Some? then 1 else 0;
    SomesOfPrefix(options, [last], n);
    hide Somes;
    forall i | 0 <= i < |all| && all[i].Some?
      ensures Somes(all, i) < |more| && more[Somes(all, i)] == all[i].value
    {
      if i < n {
        assert all[i] == options[i];
        SomesOfPrefix(options, [last], i);
      }
    }
  }

  lemma CollectsCons<T>(first: Option<T>, options: seq<Option<T>>, list: seq<T>)
    requires Collects(options, list)
    ensures Collects([first] + options, if first.Some? then [first.value] + list else list)
  {
    var all := [first] + options;
    var more := if first.Some? then [first.value] + list else list;
    assert Somes(all, 0) == 0;
    SomesOfCons(first, options, |options|);
    hide Somes;
    forall i | 0 <= i < |all| && all[i].Some?
      ensures Somes(all, i) < |more| && more[Somes(all, i)] == all[i].value
    {
      if i > 0 {
        SomesOfCons(first, options, i - 1);
        assert all[i] == options[i - 1];
      }
    }
  }

  /** Every place of such a list belongs to one of the values. */
  lemma {:induction false} PlaceOf<T>(options: seq<Option<T>>, n: nat, k: nat) returns (i: nat)
    requires n <= |options| && k < Somes(options, n)
    ensures i < n && options[i].Some? && Somes(options, i) == k
  {
    if k < Somes(options, n - 1) {
      i := PlaceOf(options, n - 1, k);
    } else {
      i := n - 1;
    }
  }

  /** There is only one such list. */
  lemma CollectsOnce<T>(options: seq<Option<T>>, a: seq<T>, b: seq<T>)
    requires Collects(options, a) && Collects(options, b)
    ensures a == b
  {
    forall k | 0 <= k < |a|
      ensures a[k] == b[k]
    {
      var i := PlaceOf(options, |options|, k);
    }
  }

  // ---------------------------------------------------------------- searching and writing

  /** The position of the first occurrence of a byte. */
  function FindByte(b: byte, s: seq<byte>): (at: Option<nat>)
    ensures at.None? ==> b !in s
    ensures at.Some? ==> at.value < |s| && s[at.value] == b && b !in s[..at.value]
  {
    if s == [] then None
    else if s[0] == b then Some(0)
    else
      match FindByte(b, s[1..])
      case None => None
      case Some(i) =>
        assert s[..i + 1] == [s[0]] + s[1..][..i];
        Some(i + 1)
  }

  /**
   * The receiving end of a `Write`. It accepts `room` more bytes; a write that does not fit
   * stores what fits and reports failure, as a broken pipe or a full socket does.
   */
  class ByteSink {
    var bytes: seq<byte>
    var room: nat

    constructor (room: nat)
      ensures bytes == [] && this.room == room
    {
      bytes, this.room := [], room;
    }

    method WriteAll(data: seq<byte>) returns (ok: bool)
      modifies this
      ensures ok == (|data| <= old(room))
      ensures ok ==> bytes == old(bytes) + data && room == old(room) - |data|
      ensures !ok ==> bytes == old(bytes) + data[..old(room)] && room == 0
    {
      if |data| <= room {
        bytes, room, ok := bytes + data, room - |data|, true;
      } else {
        bytes, room, ok := bytes + data[..room], 0, false;
      }
    }
  }
}
