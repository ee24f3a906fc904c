/** The poll-based futures and streams the whole library is written against.

    A stream is described by its script: the answers it gives, one for each time it is polled.
    A stream whose script is used up is not ready. Every finite run of every stream is described by
    some script, so a statement for all scripts is a statement for all readiness patterns. */
module Futures {

  datatype Option<+T> = None | Some(value: T) {
    function ToSeq(): seq<T> {
      if None? then [] else [value]
    }
  }

  /** One answer of a polled stream. */
  datatype Ev<+T> = Pending | Item(item: T) | End | Fail(code: int)

  type Script<+T> = seq<Ev<T>>

  function Next<T>(s: Script<T>): Ev<T> {
    if s == [] then Pending else s[0]
  }

  function Rest<T>(s: Script<T>): Script<T> {
    if s == [] then [] else s[1..]
  }

  /** The items of a script, in order. */
  function Items<T>(s: Script<T>): seq<T> {
    if s == [] then [] else if s[0].Item? then [s[0].item] + Items(s[1..]) else Items(s[1..])
  }

  lemma {:induction false} ItemsAppend<T>(a: Script<T>, b: Script<T>)
    ensures Items(a + b) == Items(a) + Items(b)
  {
    if a == [] {
      assert a + b == b;
    } else {
      assert (a + b)[1..] == a[1..] + b;
      ItemsAppend(a[1..], b);
      assert (a + b)[0] == a[0];
      if a[0].Item? {
        assert Items(a + b) == [a[0].item] + (Items(a[1..]) + Items(b));
        assert Items(a + b) == Items(a) + Items(b);
      }
    }
  }

  /** The items a drain reads: those before the first other answer. */
  function ReadyItems<T>(s: Script<T>): seq<T> {
    if s == [] || !s[0].Item? then [] else [s[0].item] + ReadyItems(s[1..])
  }

  /** The answer at which a drain stops. */
  function Stop<T>(s: Script<T>): Ev<T> {
    if s == [] || !s[0].Item? then Next(s) else Stop(s[1..])
  }

  ghost predicate NeverFails<T>(s: Script<T>) {
    forall i :: 0 <= i < |s| ==> !s[i].Fail?
  }

  /** The receiving half of a channel: it may end, but it never fails. */
  type Chan<+T> = s: Script<T> | NeverFails(s) witness []

  /** `after` is what is left of `before` once the stream answered that it is not ready. */
  ghost predicate Drained<T>(before: Script<T>, after: Script<T>) {
    && |after| <= |before|
    && after == before[|before| - |after|..]
    && (after == [] || (|after| < |before| && before[|before| - |after| - 1].Pending?))
  }

  /** One step of a drain, then the rest. */
  lemma DrainedOnce<T>(a: Script<T>, c: Script<T>)
    requires a != [] && Drained(a[1..], c)
    ensures Drained(a, c)
  {
    assert a[1..][|a[1..]| - |c|..] == a[|a| - |c|..];
  }

  lemma DrainedItems<T>(before: Script<T>, after: Script<T>)
    requires Drained(before, after) && forall i :: 0 <= i < |before| ==> before[i].Item?
    ensures after == []
  {
  }
}
