/** The stagger check: a pool of leases, one of which has to be free when the check runs and is taken
    when the transition happens.  Times are in nanoseconds. */
module Stagger {

  import opened Errors
  import opened Plugins

  const SECOND := 1_000_000_000
  const NO_GRAB := -1

  datatype Lease = Lease(holder: string, acquire: int, renew: int, seconds: int, transitions: Option<int>)

  datatype Setup = Setup(duration: nat, parallel: int)

  /** The lease duration is cut down to whole seconds. */
  function WholeSeconds(u: Setup): nat { u.duration / SECOND }

  /** The leases in the store, the lease the last check chose, and the clock. */
  datatype State = State(leases: map<nat, Lease>, grab: int, clock: int)

  predicate Free(l: Lease, t: int) { t - l.renew > l.seconds * SECOND }

  /** The last check chose a lease that has been free since. */
  predicate Ready(u: Setup, s: State)
  {
    0 <= s.grab < u.parallel && s.grab in s.leases && Free(s.leases[s.grab], s.clock)
  }

  /** Existing leases stay; a new one is created in the past. */
  predicate Extends(u: Setup, s: State, s': State)
  {
    && s.clock <= s'.clock
    && (forall i :: i in s.leases ==> i in s'.leases && s'.leases[i] == s.leases[i])
    && (forall i :: i in s'.leases && i !in s.leases ==> s'.leases[i].seconds == WholeSeconds(u))
  }

  /** What one check may do. */
  predicate CheckStep(u: Setup, s: State, o: CheckOutcome, s': State)
  {
    && Extends(u, s, s')
    && (o == Passed ==> Ready(u, s'))
    && (o != Passed ==> s'.grab == NO_GRAB)
    && (o == Failed ==> forall i: nat :: i < u.parallel ==> i in s'.leases && !Free(s'.leases[i], s.clock))
  }

  /** The chosen lease, taken at some time during the call. */
  predicate Taken(u: Setup, s: State, s': State)
  {
    && 0 <= s.grab && s.grab in s.leases && s.grab in s'.leases
    && s'.leases == s.leases[s.grab as nat := s'.leases[s.grab as nat]]
    && s.clock <= s'.leases[s.grab as nat].renew <= s'.clock
    && s'.leases[s.grab as nat].seconds == WholeSeconds(u)
  }

  /** What the hook of a followed transition may do. */
  predicate HookStep(u: Setup, s: State, error: Option<Error>, s': State)
  {
    && s.clock <= s'.clock && s'.grab == s.grab
    && (s'.leases == s.leases || (s.grab != NO_GRAB && Taken(u, s, s')))
    && (error.None? && s.grab != NO_GRAB ==> Taken(u, s, s'))
  }

  predicate Quiet(s: State, s': State)
  {
    s'.leases == s.leases && s'.grab == s.grab && s.clock <= s'.clock
  }

  // ---- the plugin ----

  /** Which calls to the API server fail. */
  datatype Faults = Faults(get: nat -> bool, create: nat -> bool, patch: bool)

  /** Lease i cannot be read, or is missing and cannot be created. */
  predicate Faulty(leases: map<nat, Lease>, faults: Faults, i: nat)
  {
    faults.get(i) || (i !in leases && faults.create(i))
  }

  class LeaseStore {
    var leases: map<nat, Lease>
  }

  ghost predicate Running(clock: nat -> int)
  {
    forall i: nat, j: nat :: i <= j ==> clock(i) <= clock(j)
  }

  class Stagger {
    const setup: Setup
    var grabIndex: int

    constructor (u: Setup)
      ensures setup == u && grabIndex == 0
    {
      setup, grabIndex := u, 0;
    }

    method GetOrCreateLease(store: LeaseStore, node: string, idx: nat, faults: Faults, now: int) returns (r: Result<Lease>)
      modifies store
      ensures r.Err? ==> store.leases == old(store.leases)
      ensures idx in old(store.leases) ==> store.leases == old(store.leases)
      ensures r.Ok? ==> idx in store.leases && store.leases[idx] == r.value && store.leases == old(store.leases)[idx := r.value]
      ensures r.Ok? && idx !in old(store.leases) ==>
        r.value == Lease(node, now - 2 * setup.duration, now - 2 * setup.duration, WholeSeconds(setup), None)
      ensures r.Err? <==> faults.get(idx) || (idx !in old(store.leases) && faults.create(idx))
    {
      if faults.get(idx) {
        return Err(Plain(PluginFailed));
      }
      if idx in store.leases {
        return Ok(store.leases[idx]);
      }
      var past := now - 2 * setup.duration;
      var lease := Lease(node, past, past, WholeSeconds(setup), None);
      if faults.create(idx) {
        return Err(Plain(PluginFailed));
      }
      store.leases := store.leases[idx := lease];
      r := Ok(lease);
    }

    /** Chooses the first free lease, and never refuses while a lease is still to be created; `tick` counts the readings of the clock. */
    method Check(store: LeaseStore, node: string, faults: Faults, clock: nat -> int, tick: nat) returns (o: CheckOutcome, tick': nat)
      requires Running(clock)
      modifies this, store
      ensures tick <= tick'
      ensures CheckStep(setup, old(State(store.leases, grabIndex, clock(tick))), o, State(store.leases, grabIndex, clock(tick')))
      ensures o == Passed ==> forall i: nat :: i < grabIndex ==> i in store.leases && !Free(store.leases[i], clock(tick))
      ensures o == Errored ==> exists i: nat :: i < setup.parallel && Faulty(old(store.leases), faults, i)
                                && forall j: nat :: j < i ==> j in store.leases && !Free(store.leases[j], clock(tick))
      ensures (exists i: nat :: i < setup.parallel && i in old(store.leases) && Free(old(store.leases)[i], clock(tick))
                                && forall j: nat :: j <= i ==> !Faulty(old(store.leases), faults, j)) ==> o == Passed
      ensures o == Failed && setup.duration > 0 ==> forall i: nat :: i < setup.parallel ==> i in old(store.leases)
    {
      grabIndex := NO_GRAB;
      tick' := tick;
      var i := 0;
      while i < setup.parallel
        invariant 0 <= i && tick <= tick' && grabIndex == NO_GRAB
        invariant Extends(setup, State(old(store.leases), NO_GRAB, clock(tick)), State(store.leases, NO_GRAB, clock(tick')))
        invariant i <= setup.parallel || i == 0
        invariant forall j: nat :: j < i ==> j in store.leases && !Free(store.leases[j], clock(tick))
        invariant forall j :: j in store.leases ==> j in old(store.leases) || j < i
        invariant setup.duration > 0 ==> forall j: nat :: j < i ==> j in old(store.leases)
        invariant forall j :: j in old(store.leases) ==> j in store.leases && store.leases[j] == old(store.leases)[j]
      {
        var lease := GetOrCreateLease(store, node, i, faults, clock(tick'));
        if lease.Err? {
          assert Faulty(old(store.leases), faults, i);
          return Errored, tick';
        }
        tick' := tick' + 1;
        if clock(tick') - lease.value.renew > lease.value.seconds * SECOND {
          grabIndex := i;
          return Passed, tick';
        }
        i := i + 1;
      }
      o := Failed;
    }

    method OnTransition(store: LeaseStore, node: string, faults: Faults, clock: nat -> int, tick: nat)
      returns (error: Option<Error>, tick': nat)
      requires Running(clock) && (grabIndex == NO_GRAB || 0 <= grabIndex)
      modifies store
      ensures tick <= tick'
      ensures HookStep(setup, old(State(store.leases, grabIndex, clock(tick))), error, State(store.leases, grabIndex, clock(tick')))
      ensures error.Some? <==> grabIndex != NO_GRAB && (faults.get(grabIndex) || grabIndex !in old(store.leases) || faults.patch)
    {
      if grabIndex == NO_GRAB {
        return None, tick;
      }
      if faults.get(grabIndex) || grabIndex !in store.leases {
        return Some(Plain(PluginFailed)), tick;
      }
      error, tick' := GrabLease(store, node, faults, clock, tick);
    }

    method GrabLease(store: LeaseStore, node: string, faults: Faults, clock: nat -> int, tick: nat)
      returns (error: Option<Error>, tick': nat)
      requires Running(clock) && 0 <= grabIndex && grabIndex in store.leases
      modifies store
      ensures tick' == tick + 1
      ensures error.Some? <==> faults.patch
      ensures error.Some? ==> store.leases == old(store.leases)
      ensures error.None? ==> var was := old(store.leases)[grabIndex];
        store.leases == old(store.leases)[grabIndex := Lease(node, clock(tick'), clock(tick'), WholeSeconds(setup),
                                                             Some(if was.transitions.Some? then was.transitions.value + 1 else 0))]
      ensures error.None? ==> Taken(setup, old(State(store.leases, grabIndex, clock(tick))), State(store.leases, grabIndex, clock(tick')))
    {
      var lease := store.leases[grabIndex];
      tick' := tick + 1;
      var now := clock(tick');
      var transitions := if lease.transitions.Some? then lease.transitions.value + 1 else 0;
      if faults.patch {
        return Some(Plain(PluginFailed)), tick';
      }
      store.leases := store.leases[grabIndex := Lease(node, now, now, WholeSeconds(setup), Some(transitions))];
      error := None;
    }
  }

  // ---- relations between states ----

  /** Every lease is as it was, or was taken again after it had become free. */
  predicate Evolves(u: Setup, s: State, s': State)
  {
    && s.clock <= s'.clock
    && forall i :: i in s.leases ==> i in s'.leases && (s'.leases[i] == s.leases[i] || Retaken(u, s.leases[i], s'.leases[i], s, s'))
  }

  predicate Retaken(u: Setup, l: Lease, l': Lease, s: State, s': State)
  {
    l'.seconds == WholeSeconds(u) && s.clock <= l'.renew <= s'.clock && Free(l, l'.renew)
  }

  lemma QuietEvolves(u: Setup, a: State, b: State)
    requires Quiet(a, b) || Extends(u, a, b)
    ensures Evolves(u, a, b)
  {}
}
