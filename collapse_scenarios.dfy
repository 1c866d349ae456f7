/**
  Callers driving a fresh `CollapseCache` through interleavings of the steps
  of backend/request_collapse.py. Each method is one schedule of the
  concurrent callers; its postcondition is what every caller observes.
*/
module CollapseScenarios {
  import opened Wrappers
  import opened Broadcasting
  import opened Collapse

  /** Once a call has completed, a second call with the same key gets the
      stored result and one "Using cached result" notice at 100, and runs no worker. */
  method SequentialSameKeyHits<V>(k: Key, v: V, cb: CallbackId)
    returns (first: Outcome<V>, second: Step<V>, notice: seq<Delivery>)
    ensures first == Returned(v)
    ensures second == Hit(v)
    ensures notice == [Delivery(cb, "Using cached result", 100)]
  {
    var cache := new CollapseCache<V>();
    var s, _ := cache.Enter(k, None);
    first := cache.FinishOk(k, s.entry, v);
    second, notice := cache.Enter(k, Some(cb));
  }

  /** A worker error other than `InterruptedError` is cached: the next call with
      the same key re-raises it without running the worker again. */
  method FailureIsReplayed<V>(k: Key, msg: string, cb: CallbackId)
    returns (first: Outcome<V>, second: Step<V>, notice: seq<Delivery>)
    ensures first == Raised(Failure(msg))
    ensures second == CachedError(Failure(msg)) && notice == []
  {
    var cache := new CollapseCache<V>();
    var s, _ := cache.Enter(k, None);
    first := cache.FinishErr(k, s.entry, Failure(msg));
    second, notice := cache.Enter(k, Some(cb));
  }

  /** `InterruptedError` is not cached: the slot is emptied, progress from the
      worker is dropped from then on, and the next same-key call starts a new
      entry with a new id. */
  method InterruptionIsNotCached<V>(k: Key, cb: CallbackId)
    returns (first: Outcome<V>, dropped: seq<Delivery>, second: Step<V>, firstId: nat)
    ensures first == Raised(Interrupted)
    ensures dropped == []
    ensures second.Started? && second.entry.id != firstId
    ensures second.entry.broadcaster.callbacks == [cb]
  {
    var cache := new CollapseCache<V>();
    var s, _ := cache.Enter(k, None);
    firstId := s.entry.id;
    first := cache.FinishErr(k, s.entry, Interrupted);
    dropped := cache.RelayProgress("late", 50, {});
    var direct1: seq<Delivery>;
    second, direct1 := cache.Enter(k, Some(cb));
  }

  /** Three concurrent callers with one key: only the first runs the worker, the
      others join its entry, all three callbacks get the worker's progress in
      arrival order, and all three see the worker's result. */
  method ConcurrentSameKeyCollapse<V>(k: Key, v: V, a: CallbackId, b: CallbackId, c: CallbackId)
    returns (sa: Step<V>, sb: Step<V>, sc: Step<V>,
             outA: Outcome<V>, outB: Outcome<V>, outC: Outcome<V>, progress: seq<Delivery>)
    ensures sa.Started? && sb == Joined(sa.entry) && sc == Joined(sa.entry)
    ensures outA == Returned(v) && outB == Returned(v) && outC == Returned(v)
    ensures progress == [Delivery(a, "Loading", 40), Delivery(b, "Loading", 40), Delivery(c, "Loading", 40)]
  {
    var cache := new CollapseCache<V>();
    var da, db, dc: seq<Delivery>;
    sa, da := cache.Enter(k, Some(a));
    var e := sa.entry;
    sb, db := cache.Enter(k, Some(b));
    sc, dc := cache.Enter(k, Some(c));
    progress := cache.RelayProgress("Loading", 40, {});
    outA := cache.FinishOk(k, e, v);
    outB := cache.WakeJoined(e);
    outC := cache.WakeJoined(e);
  }

  /** Joined callers of a failing run all receive that run's error, and a later
      caller receives the cached copy. */
  method FailureReachesEveryJoiner<V>(k: Key, msg: string)
    returns (sa: Step<V>, sb: Step<V>, sc: Step<V>,
             outA: Outcome<V>, outB: Outcome<V>, outC: Outcome<V>, later: Step<V>)
    ensures sa.Started? && sb == Joined(sa.entry) && sc == Joined(sa.entry)
    ensures outA == Raised(Failure(msg)) && outB == Raised(Failure(msg)) && outC == Raised(Failure(msg))
    ensures later == CachedError(Failure(msg))
  {
    var cache := new CollapseCache<V>();
    var da, db, dc: seq<Delivery>;
    sa, da := cache.Enter(k, None);
    var e := sa.entry;
    sb, db := cache.Enter(k, None);
    sc, dc := cache.Enter(k, None);
    outA := cache.FinishErr(k, e, Failure(msg));
    outB := cache.WakeJoined(e);
    outC := cache.WakeJoined(e);
    var direct2: seq<Delivery>;
    later, direct2 := cache.Enter(k, None);
  }

  /** A call with a new key sets the running entry's cancel flag before anything
      else, waits for that run to end, and only then installs and runs its own
      entry; the first caller sees `InterruptedError`. */
  method NewKeyCancelsRunning<V>(k1: Key, k2: Key, v2: V)
    returns (seenByWorker1: bool, out1: Outcome<V>, out2: Outcome<V>)
    requires k1 != k2
    ensures seenByWorker1
    ensures out1 == Raised(Interrupted) && out2 == Returned(v2)
  {
    var cache := new CollapseCache<V>();
    var s1, _ := cache.Enter(k1, None);
    var e1 := s1.entry;
    var flag1 := cache.CaptureCancelFlag();
    var w, _ := cache.Enter(k2, None);
    assert w == MustWait(e1);
    seenByWorker1 := flag1.isSet;
    out1 := cache.FinishErr(k1, e1, Interrupted);
    var s2, _ := cache.AfterCancelWait(k2, None, e1);
    out2 := cache.FinishOk(k2, s2.entry, v2);
  }

  /** Two callers with the same new key `k2` both wait on a running `k1` entry;
      after it ends the first installs its entry and the second, finding its
      own key in the slot, joins that entry instead of creating another. */
  method SameNewKeyWaiters<V>(k1: Key, k2: Key, a: CallbackId, b: CallbackId)
    returns (cache: CollapseCache<V>, e2: Entry<V>, secondJoined: bool)
    requires k1 != k2
    ensures fresh(cache) && fresh(e2) && fresh(e2.broadcaster) && fresh(e2.cancel)
    ensures cache.Valid() && cache.key == Some(k2) && cache.entry == e2
    ensures e2 in cache.issued && cache.keys[e2.id] == k2
    ensures e2.status == Loading && !e2.done
    ensures e2.broadcaster.callbacks == [a, b]
    ensures secondJoined
  {
    cache := new CollapseCache<V>();
    var s1, d1 := cache.Enter(k1, None);
    var e1 := s1.entry;
    var wa, d2 := cache.Enter(k2, Some(a));
    var wb, d3 := cache.Enter(k2, Some(b));
    var r1 := cache.FinishErr(k1, e1, Interrupted);
    var sa, d4 := cache.AfterCancelWait(k2, Some(a), e1);
    e2 := sa.entry;
    var sb, d5 := cache.AfterCancelWait(k2, Some(b), e1);
    secondJoined := sb == Joined(e2);
  }

  /** After that opening one worker serves both callers: both callbacks get its
      progress and both callers get its result. */
  method SameNewKeyWaitersShareOneRun<V>(k1: Key, k2: Key, v2: V, a: CallbackId, b: CallbackId)
    returns (progress: seq<Delivery>, outA: Outcome<V>, outB: Outcome<V>)
    requires k1 != k2
    ensures progress == [Delivery(a, "Loading", 30), Delivery(b, "Loading", 30)]
    ensures outA == Returned(v2) && outB == Returned(v2)
  {
    var cache, e2, joined := SameNewKeyWaiters<V>(k1, k2, a, b);
    progress := cache.RelayProgress("Loading", 30, {});
    outA := cache.FinishOk(k2, e2, v2);
    outB := cache.WakeJoined(e2);
  }

  /** The slot's cancel flag is never cleared: after an interrupted run empties
      the slot, the next call with another key still sets that finished run's
      flag, and then starts its own entry at once since the slot is empty. */
  method StaleFlagSetAgain<V>(k1: Key, k2: Key)
    returns (staleSet: bool, second: Step<V>)
    requires k1 != k2
    ensures staleSet
    ensures second.Started? && !second.entry.cancel.isSet
  {
    var cache := new CollapseCache<V>();
    var s1, d1 := cache.Enter(k1, None);
    var e1 := s1.entry;
    var r1 := cache.FinishErr(k1, e1, Interrupted);
    var d2: seq<Delivery>;
    second, d2 := cache.Enter(k2, None);
    staleSet := e1.cancel.isSet;
  }

  /** A caller that joined a run which a new key then replaced, and that wakes
      before the new key's caller does: it gets the run's result. */
  method JoinerWakesBeforeReplacement<V>(k1: Key, k2: Key, v1: V) returns (out: Outcome<V>)
    requires k1 != k2
    ensures out == Returned(v1)
  {
    var cache := new CollapseCache<V>();
    var s1, d1 := cache.Enter(k1, None);
    var e1 := s1.entry;
    var j, d2 := cache.Enter(k1, None);
    var w, d3 := cache.Enter(k2, None);
    var r := cache.FinishOk(k1, e1, v1);
    out := cache.WakeJoined(e1);
  }

  /** The same joiner when the new key's caller installs its entry first: it
      gets `InterruptedError`. With the schedule above this is the race the
      cache leaves open: which of the two a joiner sees depends on timing. */
  method JoinerWakesAfterReplacement<V>(k1: Key, k2: Key, v1: V) returns (out: Outcome<V>)
    requires k1 != k2
    ensures out == Raised(Interrupted)
  {
    var cache := new CollapseCache<V>();
    var s1, d1 := cache.Enter(k1, None);
    var e1 := s1.entry;
    var j, d2 := cache.Enter(k1, None);
    var w, d3 := cache.Enter(k2, None);
    var r := cache.FinishOk(k1, e1, v1);
    var s2, d4 := cache.AfterCancelWait(k2, None, e1);
    out := cache.WakeJoined(e1);
  }

  /** The shared opening of the two schedules below: callers with keys `k2` and
      `k3` both wait on a `k1` run; it ends; `k2` installs its entry, and then
      `k3`, finding a key other than its own in the slot, installs over it
      without setting its cancel flag, so both entries are loading. */
  method TwoWaitersBothInstall<V>(k1: Key, k2: Key, k3: Key, cb3: Option<CallbackId>)
    returns (cache: CollapseCache<V>, e2: Entry<V>, e3: Entry<V>)
    requires k1 != k2 && k1 != k3 && k2 != k3
    ensures fresh(cache) && fresh(e2) && fresh(e3) && fresh(e3.broadcaster) && fresh(e3.cancel)
    ensures cache.Valid() && cache.key == Some(k3) && cache.entry == e3
    ensures e2 in cache.issued && cache.keys[e2.id] == k2 && e3 in cache.issued && cache.keys[e3.id] == k3
    ensures e2.status == Loading && !e2.done && !e2.cancel.isSet
    ensures e3.status == Loading && !e3.done && !e3.cancel.isSet
    ensures e3.broadcaster.callbacks == Registered(cb3)
  {
    cache := new CollapseCache<V>();
    var s1, d1 := cache.Enter(k1, None);
    var e1 := s1.entry;
    var w2, d2 := cache.Enter(k2, None);
    var w3, d3 := cache.Enter(k3, cb3);
    var r1 := cache.FinishErr(k1, e1, Interrupted);
    var s2, d4 := cache.AfterCancelWait(k2, None, e1);
    e2 := s2.entry;
    var s3, d5 := cache.AfterCancelWait(k3, cb3, e1);
    e3 := s3.entry;
  }

  /** As written: after that opening both workers run; the `k2` worker's
      progress goes to the `k3` caller's callback, and its result is stored in
      the `k3` entry, so a later `k3` call is served the `k2` result. */
  method ForeignResultCached<V>(k1: Key, k2: Key, k3: Key, v2: V, cb3: CallbackId)
    returns (bothRunning: bool, progressTo: seq<Delivery>, later: Step<V>)
    requires k1 != k2 && k1 != k3 && k2 != k3
    ensures bothRunning
    ensures progressTo == [Delivery(cb3, "Building", 60)]
    ensures later == Hit(v2)
  {
    var cache, e2, e3 := TwoWaitersBothInstall<V>(k1, k2, k3, Some(cb3));
    bothRunning := !e2.done && !e2.cancel.isSet && !e3.done && !e3.cancel.isSet;
    progressTo := cache.RelayProgress("Building", 60, {});
    var r2 := cache.FinishOk(k2, e2, v2);
    var d: seq<Delivery>;
    later, d := cache.Enter(k3, None);
  }

  /** The same schedule with the success path checking the entry id: the `k2`
      result is not stored, a later `k3` call joins the `k3` run, and it
      receives that run's own result. */
  method ForeignResultRejected<V>(k1: Key, k2: Key, k3: Key, v2: V, v3: V)
    returns (later: Step<V>, laterOut: Outcome<V>)
    requires k1 != k2 && k1 != k3 && k2 != k3
    ensures later.Joined?
    ensures laterOut == Returned(v3)
  {
    var cache, e2, e3 := TwoWaitersBothInstall<V>(k1, k2, k3, None);
    var r2 := cache.FinishOkChecked(k2, e2, v2);
    var d: seq<Delivery>;
    later, d := cache.Enter(k3, None);
    var r3 := cache.FinishOkChecked(k3, e3, v3);
    laterOut := cache.WakeJoined(later.awaited);
  }
}
