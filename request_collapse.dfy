/**
  The single-slot request-collapse cache (backend/request_collapse.py).

  The module-level globals `_current_cache_key`, `_current_cache_entry` and
  `_current_cancel_event` become the fields of one `CollapseCache` object.
  Every region of the decorated wrapper that runs under `_cache_lock` is one
  method, and so one atomic step; a blocking `event.wait()` splits a call into
  the step before it, which hands back the entry being waited on, and the step
  after it, which may only run once that entry's done-signal has fired.

  A caller of the decorated function therefore runs
    Enter, then
      Hit / CachedError                                  (finished), or
      Joined(e)      -> WakeJoined(e)                    once e.done, or
      MustWait(e)    -> AfterCancelWait                  once e.done, which
                        again yields Hit / CachedError / Joined / Started, or
      Started(e)     -> CaptureCancelFlag, the worker (RelayProgress for its
                        progress), then FinishOk or FinishErr.
*/
module Collapse {
  import opened Wrappers
  import opened Broadcasting

  /** The fingerprint produced by the key generator. */
  type Key = string

  datatype Status = Loading | Complete | Error

  /** What a worker raises: Python's `InterruptedError`, which the worker raises
      after it sees its cancel flag set, or any other exception. */
  datatype Err = Interrupted | Failure(message: string)

  /** How a call of the decorated function ends: it returns or it raises. */
  datatype Outcome<V> = Returned(value: V) | Raised(error: Err)

  /** The notice a caller's own callback receives on a cache hit. */
  const CachedMessage: string := "Using cached result"
  const CachedProgress: int := 100

  function CachedNotice(cb: Option<CallbackId>): seq<Delivery>
  {
    if cb.Some? then [Delivery(cb.value, CachedMessage, CachedProgress)] else []
  }

  function Registered(cb: Option<CallbackId>): seq<CallbackId>
  {
    if cb.Some? then [cb.value] else []
  }

  /** A `threading.Event` used as a cancel request; the worker polls it. */
  class CancelFlag {
    var isSet: bool

    constructor ()
      ensures !isSet
    {
      isSet := false;
    }
  }

  /** One cache entry (the dict of the source). `done` is its done-signal `event`. */
  class Entry<V> {
    const id: nat
    var status: Status
    var result: Option<V>
    var error: Option<Err>
    var done: bool
    const broadcaster: ProgressBroadcaster
    const cancel: CancelFlag

    constructor (id: nat, broadcaster: ProgressBroadcaster, cancel: CancelFlag)
      ensures this.id == id
      ensures this.broadcaster == broadcaster && this.cancel == cancel
      ensures status == Loading && result == None && error == None && !done
    {
      this.id := id;
      this.broadcaster := broadcaster;
      this.cancel := cancel;
      status := Loading;
      result := None;
      error := None;
      done := false;
    }
  }

  /** What a step before a wait, or the wake-up after a cancel-wait, hands back. */
  datatype Step<V> =
    | Hit(result: V)                 // returns the cached result
    | CachedError(error: Err)        // raises the cached error
    | Joined(awaited: Entry<V>)      // waits on a running entry of the same key
    | MustWait(awaited: Entry<V>)    // waits for the replaced entry to finish
    | Started(entry: Entry<V>)       // installed a fresh entry; runs the worker

  class CollapseCache<V> {
    var key: Option<Key>
    var entry: Entry?<V>
    var cancelFlag: CancelFlag?
    /** Source of entry ids, standing in for `uuid4`. */
    var nextId: nat
    /** Every entry created so far, indexed by id. */
    ghost var issued: seq<Entry<V>>
    /** The key of the call that created each entry, indexed by id; the entry
        dict itself does not store it. */
    ghost var keys: seq<Key>

    ghost predicate Valid()
      reads this, entry
    {
      && nextId == |issued| == |keys|
      && (forall i :: 0 <= i < |issued| ==> issued[i].id == i)
      && (key.Some? <==> entry != null)
      && (entry != null ==>
            && entry in issued
            && key == Some(keys[entry.id])
            && cancelFlag == entry.cancel
            && (entry.status == Complete ==> entry.result.Some?)
            && (entry.status == Error ==> entry.error.Some?)
            && (entry.done ==> entry.status != Loading))
    }

    /** The broadcaster of the entry in the slot, as a frame. */
    ghost function SlotBroadcaster(): set<object>
      reads this, entry
    {
      if entry == null then {} else {entry.broadcaster}
    }

    /** How the locked block for a same-key call answers from entry `e`:
        replay a result, replay an error, or register the callback and wait. */
    ghost predicate ServedFrom(e: Entry<V>, cb: Option<CallbackId>, before: seq<CallbackId>,
                               step: Step<V>, direct: seq<Delivery>)
      reads e, e.broadcaster
    {
      match e.status
      case Complete =>
        e.result.Some? && step == Hit(e.result.value) && direct == CachedNotice(cb)
        && e.broadcaster.callbacks == before
      case Error =>
        e.error.Some? && step == CachedError(e.error.value) && direct == []
        && e.broadcaster.callbacks == before
      case Loading =>
        step == Joined(e) && direct == [] && e.broadcaster.callbacks == before + Registered(cb)
    }

    /** `e` is a fresh `loading` entry for `k`, installed in the slot together
        with `k` and its own new cancel flag. */
    ghost predicate InstalledFresh(e: Entry<V>, k: Key, cb: Option<CallbackId>, id: nat)
      reads this, e, e.broadcaster, e.cancel
    {
      && e.id == id && |keys| == id + 1 && keys[id] == k
      && e.status == Loading && e.result == None && e.error == None && !e.done
      && !e.cancel.isSet
      && e.broadcaster.callbacks == Registered(cb)
      && key == Some(k) && entry == e && cancelFlag == e.cancel
      && nextId == id + 1
    }

    constructor ()
      ensures Valid()
      ensures key == None && entry == null && cancelFlag == null && issued == [] && keys == []
    {
      key := None;
      entry := null;
      cancelFlag := null;
      nextId := 0;
      issued := [];
      keys := [];
    }

    /** The same-key branch: the slot holds an entry for the caller's key. */
    method ServeSameKey(cb: Option<CallbackId>) returns (step: Step<V>, direct: seq<Delivery>)
      requires Valid() && entry != null
      modifies entry.broadcaster
      ensures ServedFrom(entry, cb, old(entry.broadcaster.callbacks), step, direct)
    {
      direct := [];
      match entry.status
      case Complete =>
        direct := CachedNotice(cb);
        step := Hit(entry.result.value);
      case Error =>
        step := CachedError(entry.error.value);
      case Loading =>
        if cb.Some? {
          entry.broadcaster.AddCallback(cb.value);
        }
        step := Joined(entry);
    }

    /** Creates a new `loading` entry with a fresh id, a new cancel flag and a
        broadcaster holding only the caller's callback, and puts it in the slot. */
    method Install(k: Key, cb: Option<CallbackId>) returns (e: Entry<V>)
      requires Valid()
      modifies this
      ensures Valid()
      ensures fresh(e) && fresh(e.broadcaster) && fresh(e.cancel)
      ensures InstalledFresh(e, k, cb, old(nextId))
      ensures issued == old(issued) + [e] && keys == old(keys) + [k]
    {
      var flag := new CancelFlag();
      cancelFlag := flag;
      var b := new ProgressBroadcaster();
      if cb.Some? {
        b.AddCallback(cb.value);
      }
      e := new Entry(nextId, b, flag);
      issued := issued + [e];
      keys := keys + [k];
      nextId := nextId + 1;
      key := Some(k);
      entry := e;
    }

    /** The first locked region of a call with key `k` and optional callback `cb`. */
    method Enter(k: Key, cb: Option<CallbackId>) returns (step: Step<V>, direct: seq<Delivery>)
      requires Valid()
      modifies this, cancelFlag, SlotBroadcaster()
      ensures Valid()
      // same key: answer from the entry in the slot; the slot itself is untouched
      ensures old(key) == Some(k) ==>
        && unchanged(this) && unchanged(old(cancelFlag))
        && ServedFrom(entry, cb, old(entry.broadcaster.callbacks), step, direct)
      // other key, or empty slot: the current cancel flag is set first
      ensures old(key) != Some(k) && old(cancelFlag) != null ==> old(cancelFlag).isSet
      ensures old(key) != Some(k) && old(entry) != null ==>
        && step == MustWait(old(entry)) && direct == []
        && unchanged(this) && unchanged(old(entry).broadcaster)
      ensures old(key) != Some(k) && old(entry) == null ==>
        && step.Started? && direct == []
        && fresh(step.entry) && fresh(step.entry.broadcaster) && fresh(step.entry.cancel)
        && InstalledFresh(step.entry, k, cb, old(nextId))
        && issued == old(issued) + [step.entry] && keys == old(keys) + [k]
        && (forall d :: d in old(issued) ==> d.id != step.entry.id)
      ensures old(key) != Some(k) && old(entry) != null ==> unchanged(old(entry).broadcaster)
    {
      if key == Some(k) && entry != null {
        step, direct := ServeSameKey(cb);
      } else {
        if cancelFlag != null {
          cancelFlag.isSet := true;
          if entry != null {
            return MustWait(entry), [];
          }
        }
        var e := Install(k, cb);
        step, direct := Started(e), [];
      }
    }

    /** The locked region after the replaced entry's done-signal fired: join an
        entry for `k` that another caller installed meanwhile, or install one.
        Whatever else is in the slot now is overwritten without being cancelled. */
    method AfterCancelWait(k: Key, cb: Option<CallbackId>, awaited: Entry<V>)
      returns (step: Step<V>, direct: seq<Delivery>)
      requires Valid() && awaited.done
      modifies this, SlotBroadcaster()
      ensures Valid()
      ensures old(key) == Some(k) ==>
        && unchanged(this)
        && ServedFrom(entry, cb, old(entry.broadcaster.callbacks), step, direct)
      ensures old(key) != Some(k) ==>
        && step.Started? && direct == []
        && fresh(step.entry) && fresh(step.entry.broadcaster) && fresh(step.entry.cancel)
        && InstalledFresh(step.entry, k, cb, old(nextId))
        && issued == old(issued) + [step.entry] && keys == old(keys) + [k]
        && (forall d :: d in old(issued) ==> d.id != step.entry.id)
      ensures old(key) != Some(k) && old(entry) != null ==> unchanged(old(entry).broadcaster)
    {
      if key == Some(k) && entry != null {
        step, direct := ServeSameKey(cb);
      } else {
        var e := Install(k, cb);
        step, direct := Started(e), [];
      }
    }

    /** Two issued entries with the same id are the same entry. */
    lemma IdentifiedById(a: Entry<V>, b: Entry<V>)
      requires Valid() && a in issued && b in issued && a.id == b.id
      ensures a == b
    {
    }

    /** The locked region after a joined caller's awaited entry fired: the
        caller sees that entry's own terminal outcome, or `InterruptedError`
        when the slot no longer holds it. */
    method WakeJoined(awaited: Entry<V>) returns (out: Outcome<V>)
      requires Valid() && awaited in issued && awaited.done
      modifies this
      ensures Valid()
      ensures cancelFlag == old(cancelFlag) && nextId == old(nextId) && issued == old(issued) && keys == old(keys)
      ensures old(entry) == null || old(entry).id != awaited.id ==>
        out == Raised(Interrupted) && unchanged(this)
      ensures old(entry) != null && old(entry).id == awaited.id ==>
        && old(entry) == awaited
        && (awaited.status == Error ==>
              && out == Raised(awaited.error.value)
              && (awaited.error.value == Interrupted ==> key == None && entry == null)
              && (awaited.error.value != Interrupted ==> unchanged(this)))
        && (awaited.status != Error ==>
              && awaited.status == Complete
              && out == Returned(awaited.result.value) && unchanged(this))
    {
      if entry == null || entry.id != awaited.id {
        return Raised(Interrupted);
      }
      IdentifiedById(entry, awaited);
      if entry.status == Error {
        var err := entry.error.value;
        if err == Interrupted {
          key := None;
          entry := null;
        }
        return Raised(err);
      }
      out := Returned(entry.result.value);
    }

    /** The read of `_current_cache_entry["cancel_event"]` that the starting
        caller makes after leaving the lock: the flag of whatever entry is in
        the slot by then, or null where the source would fail on an empty slot. */
    method CaptureCancelFlag() returns (flag: CancelFlag?)
      requires Valid()
      ensures flag == (if entry == null then null else entry.cancel)
      ensures flag == cancelFlag || entry == null
    {
      flag := if entry == null then null else entry.cancel;
    }

    /** Worker progress: delivered through the broadcaster of the entry that is
        in the slot now, whichever call created it; dropped when the slot is empty. */
    method RelayProgress(message: string, progress: int, failing: set<CallbackId>)
      returns (calls: seq<Delivery>)
      requires Valid()
      modifies SlotBroadcaster()
      ensures Valid()
      ensures entry == null ==> calls == []
      ensures entry != null ==>
        && |calls| == |old(entry.broadcaster.callbacks)|
        && (forall i :: 0 <= i < |calls| ==>
              calls[i] == Delivery(old(entry.broadcaster.callbacks)[i], message, progress))
        && entry.broadcaster.callbacks == Prune(old(entry.broadcaster.callbacks), failing)
    {
      calls := [];
      if entry != null {
        calls := entry.broadcaster.Broadcast(message, progress, failing);
      }
    }

    /** The worker returned `v`: the entry in the slot, whichever it is, becomes
        `complete` with `v`; then the caller's own entry `mine` fires. */
    method FinishOk(k: Key, mine: Entry<V>, v: V) returns (out: Outcome<V>)
      requires Valid() && mine in issued && keys[mine.id] == k
      modifies entry, mine
      ensures Valid()
      ensures entry == old(entry) && key == old(key)
      ensures entry != null ==> entry.status == Complete && entry.result == Some(v)
      ensures entry != null ==> entry.error == old(entry.error)
      ensures entry != null && entry != mine ==> entry.done == old(entry.done)
      ensures mine != entry ==> mine.status == old(mine.status) && mine.result == old(mine.result)
      ensures mine.error == old(mine.error)
      ensures mine.done
      ensures out == Returned(v)
    {
      if entry != null {
        entry.status := Complete;
        entry.result := Some(v);
      }
      mine.done := true;
      out := Returned(v);
    }

    /** The worker raised `err`: only when the slot still holds key `k` is it
        updated (cleared for `InterruptedError`, `error` otherwise); then the
        caller's own entry `mine` fires and `err` propagates. */
    method FinishErr(k: Key, mine: Entry<V>, err: Err) returns (out: Outcome<V>)
      requires Valid() && mine in issued && keys[mine.id] == k
      modifies this, entry, mine
      ensures Valid()
      ensures cancelFlag == old(cancelFlag) && nextId == old(nextId) && issued == old(issued) && keys == old(keys)
      ensures old(key) == Some(k) && err == Interrupted ==> key == None && entry == null
      ensures old(key) == Some(k) && err != Interrupted ==>
        && key == old(key) && entry == old(entry)
        && entry.status == Error && entry.error == Some(err) && entry.result == old(entry.result)
      ensures old(key) != Some(k) ==>
        && key == old(key) && entry == old(entry)
        && (entry != null ==> entry.status == old(entry.status))
      ensures old(entry) != null && old(entry) != mine && !(old(key) == Some(k) && err != Interrupted) ==>
        unchanged(old(entry))
      ensures old(key) == Some(k) && err != Interrupted && entry != mine ==> entry.done == old(entry.done)
      ensures mine != old(entry) ==>
        mine.status == old(mine.status) && mine.result == old(mine.result) && mine.error == old(mine.error)
      ensures err == Interrupted ==>
        mine.status == old(mine.status) && mine.result == old(mine.result) && mine.error == old(mine.error)
      ensures mine.done
      ensures out == Raised(err)
    {
      if key == Some(k) && entry != null {
        if err == Interrupted {
          key := None;
          entry := null;
        } else {
          entry.status := Error;
          entry.error := Some(err);
        }
      }
      mine.done := true;
      out := Raised(err);
    }

    /** The success path with the check that the failure path makes: the result
        is stored only when the slot still holds the caller's own entry. */
    method FinishOkChecked(k: Key, mine: Entry<V>, v: V) returns (out: Outcome<V>)
      requires Valid() && mine in issued && keys[mine.id] == k
      modifies entry, mine
      ensures Valid()
      ensures entry == old(entry) && key == old(key)
      ensures old(entry) == mine ==> mine.status == Complete && mine.result == Some(v)
      ensures old(entry) != mine && old(entry) != null ==> unchanged(old(entry))
      ensures mine.error == old(mine.error)
      ensures mine.done
      ensures out == Returned(v)
    {
      if entry != null && entry.id == mine.id {
        IdentifiedById(entry, mine);
        entry.status := Complete;
        entry.result := Some(v);
      }
      mine.done := true;
      out := Returned(v);
    }
  }
}
