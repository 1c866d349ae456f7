/**
  The per-operation fan-out of progress messages (backend/progress_broadcaster.py).

  A callback is an opaque identity; two registrations of the same callable
  carry the same id. Which callbacks raise during a given `Broadcast` is
  not something the broadcaster decides, so it is passed in as `failing`.
*/
module Broadcasting {

  /** Identity of a registered progress callback. */
  type CallbackId = nat

  /** One invocation `callback(message, progress)`. */
  datatype Delivery = Delivery(callback: CallbackId, message: string, progress: int)

  /** Keeps the callbacks that are not in `failed`, in their original order
      (the list comprehension that rebuilds the registry). */
  function Prune(s: seq<CallbackId>, failed: set<CallbackId>): (r: seq<CallbackId>)
    ensures forall x :: x in r <==> x in s && x !in failed
    ensures (forall x :: x in s ==> x !in failed) ==> r == s
  {
    if s == [] then []
    else if s[0] in failed then Prune(s[1..], failed)
    else [s[0]] + Prune(s[1..], failed)
  }

  /** Pruning drops every occurrence of a failed callback and keeps every
      occurrence of the others, duplicates included. */
  lemma {:induction false} PruneCounts(s: seq<CallbackId>, failed: set<CallbackId>, x: CallbackId)
    ensures multiset(Prune(s, failed))[x] == if x in failed then 0 else multiset(s)[x]
  {
    if s != [] {
      assert s == [s[0]] + s[1..];
      PruneCounts(s[1..], failed, x);
    }
  }

  /** Pruning works element by element: the survivors of `s + t` are the
      survivors of `s` followed by the survivors of `t`, so the relative
      order of the surviving callbacks never changes. */
  lemma {:induction false} PruneAppend(s: seq<CallbackId>, t: seq<CallbackId>, failed: set<CallbackId>)
    ensures Prune(s + t, failed) == Prune(s, failed) + Prune(t, failed)
  {
    if s != [] {
      assert (s + t)[0] == s[0];
      assert (s + t)[1..] == s[1..] + t;
      PruneAppend(s[1..], t, failed);
    } else {
      assert s + t == t;
    }
  }

  /** Only the members of `s` matter to the outcome of pruning `s`. */
  lemma {:induction false} PruneAgrees(s: seq<CallbackId>, f1: set<CallbackId>, f2: set<CallbackId>)
    requires forall x :: x in s ==> (x in f1 <==> x in f2)
    ensures Prune(s, f1) == Prune(s, f2)
  {
    if s != [] {
      PruneAgrees(s[1..], f1, f2);
    }
  }

  /** Position of the first occurrence of `x` in `s`. */
  function IndexOf(s: seq<CallbackId>, x: CallbackId): (k: nat)
    requires x in s
    ensures k < |s| && s[k] == x
    ensures forall j :: 0 <= j < k ==> s[j] != x
  {
    if s[0] == x then 0 else 1 + IndexOf(s[1..], x)
  }

  /** Python's `list.remove` on a list known to hold `x`, and the identity otherwise. */
  function RemoveFirst(s: seq<CallbackId>, x: CallbackId): (r: seq<CallbackId>)
    ensures x in s ==> r == s[..IndexOf(s, x)] + s[IndexOf(s, x) + 1..]
    ensures x !in s ==> r == s
  {
    if s == [] then []
    else if s[0] == x then s[1..]
    else
      var rest := RemoveFirst(s[1..], x);
      assert x in s ==> [s[0]] + rest == s[..IndexOf(s, x)] + s[IndexOf(s, x) + 1..] by {
        if x in s {
          var k := IndexOf(s[1..], x);
          assert IndexOf(s, x) == k + 1;
          assert s[1..][..k] == s[1..k + 1] && s[1..][k + 1..] == s[k + 2..];
          assert [s[0]] + s[1..k + 1] == s[..k + 1];
        }
      }
      [s[0]] + rest
  }

  /** Removing a callback that was registered once undoes its registration. */
  lemma RemoveUndoesAdd(s: seq<CallbackId>, x: CallbackId)
    requires x !in s
    ensures RemoveFirst(s + [x], x) == s
  {
  }

  /** The registry of progress callbacks of one computation. */
  class ProgressBroadcaster {
    var callbacks: seq<CallbackId>

    constructor ()
      ensures callbacks == []
    {
      callbacks := [];
    }

    /** Registers `cb` at the end; duplicates are kept and nothing is delivered now. */
    method AddCallback(cb: CallbackId)
      modifies this
      ensures callbacks == old(callbacks) + [cb]
    {
      callbacks := callbacks + [cb];
    }

    /** Calls every registered callback once, in registration order, with the
        same arguments; a callback in `failing` raises, which neither stops the
        loop nor reaches the caller. Afterwards every callback that raised is
        dropped, every occurrence of it. */
    method Broadcast(message: string, progress: int, failing: set<CallbackId>) returns (calls: seq<Delivery>)
      modifies this
      ensures |calls| == |old(callbacks)|
      ensures forall i :: 0 <= i < |calls| ==> calls[i] == Delivery(old(callbacks)[i], message, progress)
      ensures callbacks == Prune(old(callbacks), failing)
    {
      calls := [];
      var failed: seq<CallbackId> := [];
      var i := 0;
      while i < |callbacks|
        invariant 0 <= i <= |callbacks|
        invariant |calls| == i
        invariant forall j :: 0 <= j < i ==> calls[j] == Delivery(callbacks[j], message, progress)
        invariant forall x :: x in failed <==> x in callbacks[..i] && x in failing
      {
        var cb := callbacks[i];
        calls := calls + [Delivery(cb, message, progress)];
        if cb in failing {
          failed := failed + [cb];
        }
        i := i + 1;
      }
      assert callbacks[..i] == callbacks;
      if failed != [] {
        var failedSet := set x | x in failed;
        PruneAgrees(callbacks, failedSet, failing);
        callbacks := Prune(callbacks, failedSet);
      } else {
        assert forall x :: x in callbacks ==> x !in failing;
      }
    }

    /** Removes the first registration of `cb`, if there is one. */
    method RemoveCallback(cb: CallbackId)
      modifies this
      ensures callbacks == RemoveFirst(old(callbacks), cb)
    {
      if cb in callbacks {
        callbacks := RemoveFirst(callbacks, cb);
      }
    }

    /** The number of registrations; changes nothing. */
    method GetCallbackCount() returns (n: nat)
      ensures n == |callbacks|
    {
      n := |callbacks|;
    }
  }
}
