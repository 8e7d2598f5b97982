/**
 * The outstanding-request tracker of VehicleHandler: the optional list of response
 * callbacks still awaited (`callbackCounter`), and the number of times the
 * troubleshoot fingerprint has been written (`logFingerPrint`).
 * The callbacks are a type parameter; the handler instantiates it with its own.
 */
module Tracking {
  import opened Options

  /**
   * `ArrayList.remove(Object)`: drop one element equal to `x`, if any
   * (RemoveFirstAt shows it is the first one).
   */
  function RemoveFirst<T(==)>(s: seq<T>, x: T): (r: seq<T>)
    ensures x in s ==> |r| == |s| - 1
    ensures x !in s ==> r == s
    ensures multiset(r) == multiset(s) - multiset{x}
  {
    if s == [] then []
    else if s[0] == x then (assert s == [s[0]] + s[1..]; s[1..])
    else (assert s == [s[0]] + s[1..]; [s[0]] + RemoveFirst(s[1..], x))
  }

  /**
   * The occurrence RemoveFirst drops is the first one: when `x` sits at position
   * `i` and nowhere before it, the result is the list without position `i`.
   */
  lemma {:induction false} RemoveFirstAt<T>(s: seq<T>, x: T, i: nat)
    requires i < |s| && s[i] == x && x !in s[..i]
    ensures RemoveFirst(s, x) == s[..i] + s[i + 1..]
    decreases i
  {
    if i == 0 {
      assert s[..0] + s[1..] == s[1..];
    } else {
      assert s[0] in s[..i];
      var t := s[1..];
      assert t[..i - 1] == s[1..i];
      RemoveFirstAt(t, x, i - 1);
      ConsSplit(s, i);
    }
  }

  /** Splitting a list around position `i` after its head. */
  lemma ConsSplit<T>(s: seq<T>, i: nat)
    requires 0 < i < |s|
    ensures [s[0]] + (s[1..][..i - 1] + s[1..][i..]) == s[..i] + s[i + 1..]
  {
    assert s[..i] == [s[0]] + s[1..][..i - 1];
    assert s[i + 1..] == s[1..][i..];
  }

  /** The callback list (absent once a cycle has completed) and the fingerprint count. */
  datatype Tracker<T> = Tracker(counter: Option<seq<T>>, fingerprints: nat)

  /** `addCallback`: append while the list exists, otherwise nothing. */
  function Add<T>(t: Tracker<T>, rc: T): Tracker<T>
  {
    match t.counter
    case None => t
    case Some(list) => Tracker(Some(list + [rc]), t.fingerprints)
  }

  /**
   * `removeCallback`: remove one occurrence; if the list is then empty, write the
   * fingerprint and drop the list.
   */
  function Remove<T(==)>(t: Tracker<T>, rc: T): Tracker<T>
  {
    match t.counter
    case None => t
    case Some(list) =>
      var rest := RemoveFirst(list, rc);
      if rest == [] then Tracker(None, t.fingerprints + 1) else Tracker(Some(rest), t.fingerprints)
  }

  /** Several `addCallback` calls, in order. */
  function AddAll<T>(t: Tracker<T>, cs: seq<T>): Tracker<T>
    decreases |cs|
  {
    if cs == [] then t else AddAll(Add(t, cs[0]), cs[1..])
  }

  /** Several `removeCallback` calls, in order. */
  function Drain<T(==)>(t: Tracker<T>, rs: seq<T>): Tracker<T>
    decreases |rs|
  {
    if rs == [] then t else Drain(Remove(t, rs[0]), rs[1..])
  }

  /** Adding to an existing list appends, whatever was in it before. */
  lemma {:induction false} AddAllAppends<T>(list: seq<T>, f: nat, cs: seq<T>)
    ensures AddAll(Tracker(Some(list), f), cs) == Tracker(Some(list + cs), f)
    decreases |cs|
  {
    if cs != [] {
      AddAllAppends(list + [cs[0]], f, cs[1..]);
      assert list + [cs[0]] + cs[1..] == list + cs;
    } else {
      assert list + cs == list;
    }
  }

  /** Once the list is absent, adding callbacks is a no-op. */
  lemma {:induction false} AddAllInert<T>(f: nat, cs: seq<T>)
    ensures AddAll(Tracker(None, f), cs) == Tracker(None, f)
    decreases |cs|
  {
    if cs != [] {
      AddAllInert(f, cs[1..]);
    }
  }

  /** Once the list is absent, removing callbacks is a no-op: no further fingerprint. */
  lemma {:induction false} DrainInert<T>(f: nat, rs: seq<T>)
    ensures Drain(Tracker(None, f), rs) == Tracker(None, f)
    decreases |rs|
  {
    if rs != [] {
      DrainInert(f, rs[1..]);
    }
  }

  /**
   * Removing callbacks that are all awaited, in any order: while some are still
   * awaited, no fingerprint is written and the list holds exactly the rest; when the
   * last one arrives, the fingerprint is written once and the list is dropped.
   */
  lemma {:induction false} DrainWithin<T>(list: seq<T>, f: nat, rs: seq<T>)
    requires list != []
    requires multiset(rs) <= multiset(list)
    ensures var d := Drain(Tracker(Some(list), f), rs);
      if multiset(rs) == multiset(list) then d == Tracker(None, f + 1)
      else (d.counter.Some? && d.counter.value != [] && d.fingerprints == f
            && multiset(d.counter.value) == multiset(list) - multiset(rs))
    decreases |rs|
  {
    if rs == [] {
      assert list[0] in multiset(list);
    } else {
      var r, tail := rs[0], rs[1..];
      var rest := RemoveFirst(list, r);
      TakeOne(list, rs, rest);
      if rest == [] {
        assert tail == [];
        assert Remove(Tracker(Some(list), f), r) == Tracker(None, f + 1);
      } else {
        assert Remove(Tracker(Some(list), f), r) == Tracker(Some(rest), f);
        DrainWithin(rest, f, tail);
      }
    }
  }

  /** The multiset bookkeeping of one step of DrainWithin. */
  lemma TakeOne<T>(list: seq<T>, rs: seq<T>, rest: seq<T>)
    requires rs != []
    requires multiset(rs) <= multiset(list)
    requires multiset(rest) == multiset(list) - multiset{rs[0]}
    ensures multiset(rs[1..]) <= multiset(rest)
    ensures multiset(list) - multiset(rs) == multiset(rest) - multiset(rs[1..])
    ensures multiset(rs) == multiset(list) <==> multiset(rs[1..]) == multiset(rest)
    ensures rest == [] ==> rs[1..] == []
  {
    assert rs == [rs[0]] + rs[1..];
    assert multiset(rs) == multiset{rs[0]} + multiset(rs[1..]);
    if rest == [] {
      assert multiset(rs[1..]) == multiset{};
    }
  }

  /**
   * One refresh cycle after `initialize`: the list starts empty, the cycle adds a
   * nonempty set of callbacks, and each of them answers once, in any order: the
   * fingerprint is written exactly once, when the last one answers.
   */
  lemma CycleFingerprintOnce<T>(f: nat, plan: seq<T>, rs: seq<T>)
    requires plan != []
    requires multiset(rs) == multiset(plan)
    ensures Drain(AddAll(Tracker(Some([]), f), plan), rs) == Tracker(None, f + 1)
    ensures forall k :: 0 <= k < |rs| ==>
      var d := Drain(AddAll(Tracker(Some([]), f), plan), rs[..k]);
      d.counter.Some? && d.fingerprints == f
  {
    AddAllAppends([], f, plan);
    assert [] + plan == plan;
    DrainWithin(plan, f, rs);
    forall k | 0 <= k < |rs|
      ensures var d := Drain(AddAll(Tracker(Some([]), f), plan), rs[..k]);
        d.counter.Some? && d.fingerprints == f
    {
      ProperPrefix(rs, k);
      DrainWithin(plan, f, rs[..k]);
    }
  }

  /** A proper prefix holds strictly fewer elements. */
  lemma ProperPrefix<T>(rs: seq<T>, k: nat)
    requires k < |rs|
    ensures multiset(rs[..k]) <= multiset(rs)
    ensures multiset(rs[..k]) != multiset(rs)
  {
    assert rs == rs[..k] + rs[k..];
    assert multiset(rs) == multiset(rs[..k]) + multiset(rs[k..]);
    assert rs[k] in multiset(rs[k..]);
  }
}
