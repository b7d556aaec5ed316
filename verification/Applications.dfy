/** One application of a profile in terms of the plugin calls alone. */
module Applications {

  import opened Errors
  import opened Labels
  import opened Notifications
  import opened Plugins
  import opened States
  import opened Calls

  // ---- deciding ----

  /** The world after all checks of the first j transitions. */
  function AfterChecks<W>(pl: Plugins<W>, w: W, prm: Params, ts: seq<Transition>, j: nat): W
    requires j <= |ts|
  {
    if j == 0 then w
    else After(pl.check, AfterChecks(pl, w, prm, ts, j - 1), prm, ts[j - 1].check.plugins, |ts[j - 1].check.plugins|)
  }

  ghost predicate CheckErrs<W>(pl: Plugins<W>, w: W, prm: Params, ts: seq<Transition>, j: nat)
    requires j < |ts|
  {
    ChainErrs(pl, AfterChecks(pl, w, prm, ts, j), prm, ts[j].check)
  }

  /** The expression of transition j is true, and the flag does not keep it from maintenance. */
  ghost predicate Open<W>(pl: Plugins<W>, w: W, prm: Params, ts: seq<Transition>, j: nat)
    requires j < |ts|
  {
    ChainHolds(pl, AfterChecks(pl, w, prm, ts, j), prm, ts[j].check) && !(ts[j].next == InMaintenance && prm.inMaintenance)
  }

  ghost predicate NoCheckErrs<W>(pl: Plugins<W>, w: W, prm: Params, ts: seq<Transition>)
  {
    forall j :: 0 <= j < |ts| ==> !CheckErrs(pl, w, prm, ts, j)
  }

  /** Transition k is the first open one. */
  ghost predicate Chosen<W>(pl: Plugins<W>, w: W, prm: Params, ts: seq<Transition>, k: nat)
  {
    k < |ts| && Open(pl, w, prm, ts, k) && forall j :: 0 <= j < k ==> !Open(pl, w, prm, ts, j)
  }

  ghost predicate NoneOpen<W>(pl: Plugins<W>, w: W, prm: Params, ts: seq<Transition>)
  {
    forall j :: 0 <= j < |ts| ==> !Open(pl, w, prm, ts, j)
  }

  lemma ExecutionMeans<W>(pl: Plugins<W>, w: W, prm: Params, t: Transition)
    ensures var r := ExecuteTransition(pl, w, prm, t);
      && (r.error.Some? <==> ChainErrs(pl, w, prm, t.check)) && (r.error.Some? ==> r.error.value.Plain?)
      && (r.error.None? ==> (r.passed <==> ChainHolds(pl, w, prm, t.check) && !(t.next == InMaintenance && prm.inMaintenance)))
      && r.world == After(pl.check, w, prm, t.check.plugins, |t.check.plugins|)
  {
    hide ExecuteChecks, ChainErrs, ChainHolds, After;
    ChainMeans(pl, w, prm, t.check);
  }

  ghost predicate AllPlain(errors: seq<Error>) { forall k :: 0 <= k < |errors| ==> errors[k].Plain? }

  lemma {:induction false} ExecutedWorld<W>(pl: Plugins<W>, w: W, prm: Params, ts: seq<Transition>, n: nat)
    requires n <= |ts|
    ensures ExecuteAll(pl, w, prm, ts, n).world == AfterChecks(pl, w, prm, ts, n)
  {
    hide ExecuteTransition, After;
    if n > 0 {
      ExecutedWorld(pl, w, prm, ts, n - 1);
      ExecutionMeans(pl, AfterChecks(pl, w, prm, ts, n - 1), prm, ts[n - 1]);
    }
  }

  /** Transition j is executed where the checks of the earlier ones left the world. */
  lemma ExecutedIn<W>(pl: Plugins<W>, w: W, prm: Params, ts: seq<Transition>, j: nat)
    requires j < |ts|
    ensures var before, next, r := ExecuteAll(pl, w, prm, ts, j), ExecuteAll(pl, w, prm, ts, j + 1), ExecuteTransition(pl, AfterChecks(pl, w, prm, ts, j), prm, ts[j]);
      && next.errors == before.errors + (if r.error.Some? then [r.error.value] else [])
      && next.passed == before.passed + [r.passed]
      && (r.error.Some? <==> CheckErrs(pl, w, prm, ts, j)) && (r.error.Some? ==> r.error.value.Plain?)
      && (r.error.None? ==> (r.passed <==> Open(pl, w, prm, ts, j)))
  {
    ExecutedWorld(pl, w, prm, ts, j);
    ExecutionMeans(pl, AfterChecks(pl, w, prm, ts, j), prm, ts[j]);
    hide ExecuteTransition, AfterChecks, ChainErrs, ChainHolds, After;
  }

  lemma {:induction false} ExecutedErrors<W>(pl: Plugins<W>, w: W, prm: Params, ts: seq<Transition>, n: nat)
    requires n <= |ts|
    ensures ExecuteAll(pl, w, prm, ts, n).errors == [] <==> forall j :: 0 <= j < n ==> !CheckErrs(pl, w, prm, ts, j)
    ensures AllPlain(ExecuteAll(pl, w, prm, ts, n).errors)
  {
    hide ExecuteTransition, CheckErrs, AfterChecks, Open;
    if n > 0 {
      ExecutedErrors(pl, w, prm, ts, n - 1);
      ExecutedIn(pl, w, prm, ts, n - 1);
    }
  }

  lemma {:induction false} ExecutedPassed<W>(pl: Plugins<W>, w: W, prm: Params, ts: seq<Transition>, n: nat)
    requires n <= |ts|
    ensures forall j :: 0 <= j < n && !CheckErrs(pl, w, prm, ts, j) ==>
      (ExecuteAll(pl, w, prm, ts, n).passed[j] <==> Open(pl, w, prm, ts, j))
  {
    hide ExecuteTransition, CheckErrs, AfterChecks, Open;
    if n > 0 {
      ExecutedPassed(pl, w, prm, ts, n - 1);
      ExecutedIn(pl, w, prm, ts, n - 1);
    }
  }

  lemma ExecutedMeans<W>(pl: Plugins<W>, w: W, prm: Params, ts: seq<Transition>)
    ensures ExecuteAll(pl, w, prm, ts, |ts|).world == AfterChecks(pl, w, prm, ts, |ts|)
    ensures ExecuteAll(pl, w, prm, ts, |ts|).errors == [] <==> NoCheckErrs(pl, w, prm, ts)
    ensures AllPlain(ExecuteAll(pl, w, prm, ts, |ts|).errors)
    ensures NoCheckErrs(pl, w, prm, ts) ==> forall j :: 0 <= j < |ts| ==> (ExecuteAll(pl, w, prm, ts, |ts|).passed[j] <==> Open(pl, w, prm, ts, j))
  {
    hide ExecuteAll, CheckErrs, AfterChecks, Open;
    ExecutedWorld(pl, w, prm, ts, |ts|);
    ExecutedErrors(pl, w, prm, ts, |ts|);
    ExecutedPassed(pl, w, prm, ts, |ts|);
  }

  /** A check that errs anywhere is an error, and never one that asks for a retry. */
  lemma CheckErrorIsError<W>(pl: Plugins<W>, w: W, prm: Params, ts: seq<Transition>)
    requires !NoCheckErrs(pl, w, prm, ts)
    ensures var d := Decide(pl, w, prm, ts);
      d.error.Some? && !IsRetry(d.error.value) && d.next == prm.state && d.pick == None && d.world == AfterChecks(pl, w, prm, ts, |ts|)
  {
    ExecutedMeans(pl, w, prm, ts);
    hide ExecuteAll, AfterChecks, CheckErrs;
    var errors := ExecuteAll(pl, w, prm, ts, |ts|).errors;
    PlainIsNoRetry(errors);
  }

  lemma PassedAreOpen<W>(pl: Plugins<W>, w: W, prm: Params, ts: seq<Transition>)
    requires NoCheckErrs(pl, w, prm, ts)
    ensures ExecuteAll(pl, w, prm, ts, |ts|).errors == [] && ExecuteAll(pl, w, prm, ts, |ts|).world == AfterChecks(pl, w, prm, ts, |ts|)
    ensures forall j :: 0 <= j < |ts| ==> (ExecuteAll(pl, w, prm, ts, |ts|).passed[j] <==> Open(pl, w, prm, ts, j))
  {
    ExecutedMeans(pl, w, prm, ts);
    hide ExecuteAll, AfterChecks, CheckErrs, Open;
  }

  /** Without an open transition the profile stays where it is. */
  lemma StaysPut<W>(pl: Plugins<W>, w: W, prm: Params, ts: seq<Transition>)
    requires NoCheckErrs(pl, w, prm, ts) && NoneOpen(pl, w, prm, ts)
    ensures Decide(pl, w, prm, ts) == Decision(prm.state, None, None, AfterChecks(pl, w, prm, ts, |ts|))
  {
    PassedAreOpen(pl, w, prm, ts);
    hide ExecuteAll, AfterChecks, CheckErrs, Open;
    assert FirstPassing(ExecuteAll(pl, w, prm, ts, |ts|).passed).None?;
  }

  /** The first open transition is followed if all its hooks agree; the first one that does not is the error. */
  lemma FollowsChosen<W>(pl: Plugins<W>, w: W, prm: Params, ts: seq<Transition>, k: nat)
    requires NoCheckErrs(pl, w, prm, ts) && Chosen(pl, w, prm, ts, k)
    ensures var d, v, hooks := Decide(pl, w, prm, ts), AfterChecks(pl, w, prm, ts, |ts|), ts[k].check.plugins;
      && (d.error.None? <==> AllAgree(pl.onTransition, v, prm, hooks))
      && (d.error.None? ==> d == Decision(ts[k].next, Some(k), None, After(pl.onTransition, v, prm, hooks, |hooks|)))
      && forall h: nat :: Refuses(pl.onTransition, v, prm, hooks, h) ==>
           d == Decision(prm.state, Some(k), AnswerOf(pl.onTransition, v, prm, hooks, h), After(pl.onTransition, v, prm, hooks, h + 1))
  {
    PassedAreOpen(pl, w, prm, ts);
    HooksMean(pl, AfterChecks(pl, w, prm, ts, |ts|), prm, ts[k].check.plugins);
    hide ExecuteAll, AfterChecks, CheckErrs, Open, RunHooks, AllAgree, Refuses, AnswerOf, After;
    var p := FirstPassing(ExecuteAll(pl, w, prm, ts, |ts|).passed);
    assert p == Some(k);
  }

  // ---- notifying ----

  /** What an instance is decided on: the clock, the state, and when it was last sent. */
  function SituationOf<W>(pl: Plugins<W>, w: W, pd: ProfileData, notes: map<string, nat>, inst: NotificationInstance): Situation
    requires inst.schedule.Some?
  {
    var (t, w1) := pl.now(w);
    var later := if inst.schedule.value.Oneshot? then pl.now(w1).0 else t;
    Situation(pd.current, pd.previous, t, later, if inst.name in notes then notes[inst.name] else 0, pd.transition)
  }

  /** Only a oneshot instance reads the clock a second time. */
  function AfterClock<W>(pl: Plugins<W>, w: W, inst: NotificationInstance): W
  {
    var w1 := pl.now(w).1;
    if inst.schedule.Some? && inst.schedule.value.Oneshot? then pl.now(w1).1 else w1
  }

  ghost predicate Due<W>(pl: Plugins<W>, w: W, pd: ProfileData, notes: map<string, nat>, inst: NotificationInstance)
  {
    inst.schedule.Some? && ShouldNotify(inst.schedule.value, SituationOf(pl, w, pd, notes, inst))
  }

  /** The world, the times and the messages after the first k instances, each due one of which called its
      plugin right after reading the clock. */
  datatype Noticed<W> = Noticed(world: W, notes: map<string, nat>, sent: seq<Send>)

  ghost function AfterNotices<W>(pl: Plugins<W>, w: W, prm: Params, pd: ProfileData, notes: map<string, nat>,
                                 chain: seq<NotificationInstance>, k: nat): Noticed<W>
    requires k <= |chain|
  {
    if k == 0 then Noticed(w, notes, [])
    else
      var b, inst := AfterNotices(pl, w, prm, pd, notes, chain, k - 1), chain[k - 1];
      var v := AfterClock(pl, b.world, inst);
      if Due(pl, b.world, pd, b.notes, inst) then
        var at := SituationOf(pl, b.world, pd, b.notes, inst);
        Noticed(pl.notify(v, prm, inst.name).1, b.notes[inst.name := at.now], b.sent + [Send(inst.name, prm.profile, inst.schedule.value, at)])
      else Noticed(v, WithNote(b.notes, inst.name), b.sent)
  }

  /** The answer to the notify call of instance k, if it is due. */
  ghost function NoticeAnswer<W>(pl: Plugins<W>, w: W, prm: Params, pd: ProfileData, notes: map<string, nat>,
                                 chain: seq<NotificationInstance>, k: nat): Option<Error>
    requires k < |chain|
  {
    var b := AfterNotices(pl, w, prm, pd, notes, chain, k);
    if chain[k].schedule.None? then Some(Plain(MissingSchedule))
    else if Due(pl, b.world, pd, b.notes, chain[k]) then pl.notify(AfterClock(pl, b.world, chain[k]), prm, chain[k].name).0
    else None
  }

  ghost predicate AllNotified<W>(pl: Plugins<W>, w: W, prm: Params, pd: ProfileData, notes: map<string, nat>,
                                 chain: seq<NotificationInstance>)
  {
    forall k :: 0 <= k < |chain| ==> NoticeAnswer(pl, w, prm, pd, notes, chain, k).None?
  }

  lemma NotifyOneMeans<W>(pl: Plugins<W>, w: W, prm: Params, pd: ProfileData, notes: map<string, nat>, inst: NotificationInstance)
    ensures var o, v := NotifyOne(pl, w, prm, pd, notes, inst), AfterClock(pl, w, inst);
      if inst.schedule.None? then o == NotifyRun(notes, [], Some(Plain(MissingSchedule)), w)
      else if !Due(pl, w, pd, notes, inst) then o == NotifyRun(WithNote(notes, inst.name), [], None, v)
      else
        var at, call := SituationOf(pl, w, pd, notes, inst), pl.notify(v, prm, inst.name);
        && o.error == call.0 && o.world == call.1
        && (call.0.Some? ==> o.notes == WithNote(notes, inst.name) && o.sent == [])
        && (call.0.None? ==> o.notes == notes[inst.name := at.now] && o.sent == [Send(inst.name, prm.profile, inst.schedule.value, at)])
  {
    hide ShouldNotify;
    var filled, t := WithNote(notes, inst.name), pl.now(w).0;
    assert filled[inst.name := t] == notes[inst.name := t];
  }

  /** As long as every due instance's plugin agrees, the chain goes on from the world its call left. */
  lemma {:induction false} NoticesAgree<W>(pl: Plugins<W>, w: W, prm: Params, pd: ProfileData, notes: map<string, nat>,
                                           chain: seq<NotificationInstance>, n: nat)
    requires n <= |chain| && forall k :: 0 <= k < n ==> NoticeAnswer(pl, w, prm, pd, notes, chain, k).None?
    ensures var a := AfterNotices(pl, w, prm, pd, notes, chain, n);
            RunNotify(pl, w, prm, pd, notes, chain, n) == NotifyRun(a.notes, a.sent, None, a.world)
  {
    hide NotifyOne, Due, SituationOf, AfterClock;
    if n > 0 {
      NoticesAgree(pl, w, prm, pd, notes, chain, n - 1);
      assert NoticeAnswer(pl, w, prm, pd, notes, chain, n - 1).None?;
      var b := AfterNotices(pl, w, prm, pd, notes, chain, n - 1);
      NotifyOneMeans(pl, b.world, prm, pd, b.notes, chain[n - 1]);
    }
  }

  /** The first instance that fails ends the chain with its error; its time is not recorded. */
  lemma NoticeFails<W>(pl: Plugins<W>, w: W, prm: Params, pd: ProfileData, notes: map<string, nat>, chain: seq<NotificationInstance>, k: nat)
    requires k < |chain| && NoticeAnswer(pl, w, prm, pd, notes, chain, k).Some?
    requires forall j :: 0 <= j < k ==> NoticeAnswer(pl, w, prm, pd, notes, chain, j).None?
    ensures var r, b := RunNotify(pl, w, prm, pd, notes, chain, |chain|), AfterNotices(pl, w, prm, pd, notes, chain, k);
      && r.error == NoticeAnswer(pl, w, prm, pd, notes, chain, k) && r.sent == b.sent
      && r.notes == if chain[k].schedule.None? then b.notes else WithNote(b.notes, chain[k].name)
  {
    hide NotifyOne, Due, SituationOf, AfterClock;
    NoticesAgree(pl, w, prm, pd, notes, chain, k);
    var b := AfterNotices(pl, w, prm, pd, notes, chain, k);
    NotifyOneMeans(pl, b.world, prm, pd, b.notes, chain[k]);
    NotifyStops(pl, w, prm, pd, notes, chain, k + 1, |chain|);
  }

  lemma FirstFailure<W>(pl: Plugins<W>, w: W, prm: Params, pd: ProfileData, notes: map<string, nat>, chain: seq<NotificationInstance>) returns (k: nat)
    requires !AllNotified(pl, w, prm, pd, notes, chain)
    ensures k < |chain| && NoticeAnswer(pl, w, prm, pd, notes, chain, k).Some?
    ensures forall j :: 0 <= j < k ==> NoticeAnswer(pl, w, prm, pd, notes, chain, j).None?
  {
    hide NoticeAnswer;
    k := 0;
    while NoticeAnswer(pl, w, prm, pd, notes, chain, k).None?
      invariant k < |chain|
      invariant forall j :: 0 <= j < k ==> NoticeAnswer(pl, w, prm, pd, notes, chain, j).None?
      decreases |chain| - k
    {
      assert k + 1 < |chain|;
      k := k + 1;
    }
  }

  // ---- applying ----

  /** Transition j is the first one with this target; it owns the triggers. */
  predicate FirstWith(ts: seq<Transition>, j: nat, next: NodeStateLabel)
    requires j < |ts|
  {
    ts[j].next == next && forall i :: 0 <= i < j ==> ts[i].next != next
  }

  ghost predicate PendingEnter(pd: ProfileData) { pd.previous != pd.current }

  function AfterEnter<W>(pl: Plugins<W>, w: W, prm: Params, chains: PluginChains, pd: ProfileData): W
  {
    if pd.previous != pd.current then After(pl.trigger, w, prm, chains.enter, |chains.enter|) else w
  }

  ghost predicate EnterAgrees<W>(pl: Plugins<W>, w: W, prm: Params, chains: PluginChains, pd: ProfileData)
  {
    PendingEnter(pd) ==> AllAgree(pl.trigger, w, prm, chains.enter)
  }

  /** Entering and notifying meet no error. */
  ghost predicate Opened<W>(pl: Plugins<W>, w: W, prm: Params, chains: PluginChains, data: Data)
    requires prm.profile in data.profiles
  {
    var pd := data.profiles[prm.profile];
    && EnterAgrees(pl, w, prm, chains, pd)
    && AllNotified(pl, AfterEnter(pl, w, prm, chains, pd), prm, pd, data.notifications, chains.notification)
  }

  ghost function NoticedIn<W>(pl: Plugins<W>, w: W, prm: Params, chains: PluginChains, data: Data): Noticed<W>
    requires prm.profile in data.profiles
  {
    var pd := data.profiles[prm.profile];
    AfterNotices(pl, AfterEnter(pl, w, prm, chains, pd), prm, pd, data.notifications, chains.notification, |chains.notification|)
  }

  /** The hooks of transition k agree, and if it leads elsewhere so do the triggers of the first one with
      its target. */
  ghost predicate MoveAgrees<W>(pl: Plugins<W>, w: W, prm: Params, ts: seq<Transition>, k: nat)
    requires k < |ts|
  {
    var v, hooks := AfterChecks(pl, w, prm, ts, |ts|), ts[k].check.plugins;
    && AllAgree(pl.onTransition, v, prm, hooks)
    && (ts[k].next != prm.state ==>
          forall j :: 0 <= j < |ts| && FirstWith(ts, j, ts[k].next) ==>
            AllAgree(pl.trigger, After(pl.onTransition, v, prm, hooks, |hooks|), prm, ts[j].trigger))
  }

  /** Every plugin that has to be called agrees. */
  ghost predicate AllGoesWell<W>(pl: Plugins<W>, w: W, prm: Params, chains: PluginChains, data: Data)
    requires prm.profile in data.profiles
  {
    var u, ts := NoticedIn(pl, w, prm, chains, data).world, chains.transitions;
    && Opened(pl, w, prm, chains, data)
    && NoCheckErrs(pl, u, prm, ts)
    && forall k :: 0 <= k < |ts| && Chosen(pl, u, prm, ts, k) ==> MoveAgrees(pl, u, prm, ts, k)
  }

  lemma PreludeMeans<W>(pl: Plugins<W>, w: W, prm: Params, chains: PluginChains, data: Data)
    requires prm.profile in data.profiles
    ensures var p := RunPrelude(pl, w, prm, chains, data.profiles[prm.profile], data.notifications);
      var n := NoticedIn(pl, w, prm, chains, data);
      && (p.error.None? <==> Opened(pl, w, prm, chains, data))
      && (p.error.None? ==> p == Prelude(PendingEnter(data.profiles[prm.profile]), None, n.notes, n.sent, n.world))
  {
    var pd := data.profiles[prm.profile];
    TriggersMean(pl, w, prm, chains.enter);
    var u, chain := AfterEnter(pl, w, prm, chains, pd), chains.notification;
    if AllNotified(pl, u, prm, pd, data.notifications, chain) {
      NoticesAgree(pl, u, prm, pd, data.notifications, chain, |chain|);
    } else {
      var k := FirstFailure(pl, u, prm, pd, data.notifications, chain);
      NoticeFails(pl, u, prm, pd, data.notifications, chain, k);
    }
    hide RunTriggers, RunNotify, AllAgree, AllNotified, AfterNotices, After, AnswerOf, NoticeAnswer, Refuses;
  }

  /** From the world the notifications left: deciding and moving. */
  lemma MoveMeans<W>(pl: Plugins<W>, u: W, prm: Params, ts: seq<Transition>)
    requires NoCheckErrs(pl, u, prm, ts)
    ensures NoneOpen(pl, u, prm, ts) ==> Decide(pl, u, prm, ts) == Decision(prm.state, None, None, AfterChecks(pl, u, prm, ts, |ts|))
    ensures forall k :: 0 <= k < |ts| && Chosen(pl, u, prm, ts, k) ==> MovedAs(pl, u, prm, ts, k)
    ensures NoneOpen(pl, u, prm, ts) || exists k :: 0 <= k < |ts| && Chosen(pl, u, prm, ts, k)
  {
    hide AfterChecks, CheckErrs, Open, AllAgree, Refuses, AnswerOf, After, Decide, RunTriggers;
    if NoneOpen(pl, u, prm, ts) {
      StaysPut(pl, u, prm, ts);
    } else {
      var k := FirstOpen(pl, u, prm, ts);
    }
    forall k | 0 <= k < |ts| && Chosen(pl, u, prm, ts, k) ensures MovedAs(pl, u, prm, ts, k) {
      FollowsChosen(pl, u, prm, ts, k);
      var hooks := ts[k].check.plugins;
      var v := After(pl.onTransition, AfterChecks(pl, u, prm, ts, |ts|), prm, hooks, |hooks|);
      var j := FirstTo(ts, ts[k].next).value;
      assert FirstWith(ts, j, ts[k].next);
      TriggersMean(pl, v, prm, ts[j].trigger);
    }
  }

  lemma FirstOpen<W>(pl: Plugins<W>, u: W, prm: Params, ts: seq<Transition>) returns (k: nat)
    requires !NoneOpen(pl, u, prm, ts)
    ensures Chosen(pl, u, prm, ts, k)
  {
    hide Open;
    k := 0;
    while !Open(pl, u, prm, ts, k)
      invariant k < |ts| && forall j :: 0 <= j < k ==> !Open(pl, u, prm, ts, j)
      decreases |ts| - k
    {
      assert k + 1 < |ts|;
      k := k + 1;
    }
  }

  /** The decision follows transition k exactly if its hooks agree, and the triggers of its target run to
      their end exactly if they all agree. */
  ghost predicate MovedAs<W>(pl: Plugins<W>, u: W, prm: Params, ts: seq<Transition>, k: nat)
    requires k < |ts|
  {
    var d, hooks := Decide(pl, u, prm, ts), ts[k].check.plugins;
    var v := After(pl.onTransition, AfterChecks(pl, u, prm, ts, |ts|), prm, hooks, |hooks|);
    var t, j := RunTriggersTo(pl, v, prm, ts, ts[k].next), FirstTo(ts, ts[k].next);
    && (d.error.None? <==> AllAgree(pl.onTransition, AfterChecks(pl, u, prm, ts, |ts|), prm, hooks))
    && (d.error.None? ==> d == Decision(ts[k].next, Some(k), None, v))
    && j.Some? && FirstWith(ts, j.value, ts[k].next)
    && (t.error.None? <==> AllAgree(pl.trigger, v, prm, ts[j.value].trigger))
    && (t.error.None? ==> t.world == After(pl.trigger, v, prm, ts[j.value].trigger, |ts[j.value].trigger|))
  }

  /** What a successful application leaves behind. */
  ghost predicate Outcome<W>(pl: Plugins<W>, w: W, prm: Params, chains: PluginChains, data: Data, a: Applied<W>)
    requires prm.profile in data.profiles
  {
    var n, ts := NoticedIn(pl, w, prm, chains, data), chains.transitions;
    var v := AfterChecks(pl, n.world, prm, ts, |ts|);
    && a.report.entered == PendingEnter(data.profiles[prm.profile]) && a.notes == n.notes && a.sent == n.sent
    && (NoneOpen(pl, n.world, prm, ts) ==> a.report.next == prm.state && a.world == v)
    && forall k :: 0 <= k < |ts| && Chosen(pl, n.world, prm, ts, k) ==>
         && a.report.next == ts[k].next && a.report.pick == Some(k)
         && (ts[k].next == prm.state ==> a.world == After(pl.onTransition, v, prm, ts[k].check.plugins, |ts[k].check.plugins|))
  }

  lemma ApplyStops<W>(pl: Plugins<W>, w: W, prm: Params, chains: PluginChains, data: Data)
    requires prm.profile in data.profiles
    requires Opened(pl, w, prm, chains, data) ==> !NoCheckErrs(pl, NoticedIn(pl, w, prm, chains, data).world, prm, chains.transitions)
    ensures Apply(pl, w, prm, chains, data).error.Some? && !AllGoesWell(pl, w, prm, chains, data)
  {
    PreludeMeans(pl, w, prm, chains, data);
    var u := NoticedIn(pl, w, prm, chains, data).world;
    hide RunPrelude, Opened, NoticedIn, Decide, NoCheckErrs, RunTriggersTo, MoveAgrees;
    if Opened(pl, w, prm, chains, data) {
      CheckErrorIsError(pl, u, prm, chains.transitions);
    }
  }

  lemma ApplyStays<W>(pl: Plugins<W>, w: W, prm: Params, chains: PluginChains, data: Data)
    requires prm.profile in data.profiles && Opened(pl, w, prm, chains, data)
    requires var u := NoticedIn(pl, w, prm, chains, data).world;
      NoCheckErrs(pl, u, prm, chains.transitions) && NoneOpen(pl, u, prm, chains.transitions)
    ensures Apply(pl, w, prm, chains, data).error.None? && AllGoesWell(pl, w, prm, chains, data)
    ensures Outcome(pl, w, prm, chains, data, Apply(pl, w, prm, chains, data))
  {
    PreludeMeans(pl, w, prm, chains, data);
    var u, ts := NoticedIn(pl, w, prm, chains, data).world, chains.transitions;
    StaysPut(pl, u, prm, ts);
    hide RunPrelude, Opened, NoticedIn, Decide, NoCheckErrs, AfterChecks, After, RunTriggersTo, MoveAgrees, Open;
    assert forall k :: 0 <= k < |ts| ==> !Chosen(pl, u, prm, ts, k);
  }

  lemma ApplyMoves<W>(pl: Plugins<W>, w: W, prm: Params, chains: PluginChains, data: Data, k: nat)
    requires prm.profile in data.profiles && Opened(pl, w, prm, chains, data)
    requires var u := NoticedIn(pl, w, prm, chains, data).world;
      NoCheckErrs(pl, u, prm, chains.transitions) && Chosen(pl, u, prm, chains.transitions, k)
    ensures Apply(pl, w, prm, chains, data).error.None? <==> AllGoesWell(pl, w, prm, chains, data)
    ensures Apply(pl, w, prm, chains, data).error.None? ==> Outcome(pl, w, prm, chains, data, Apply(pl, w, prm, chains, data))
  {
    PreludeMeans(pl, w, prm, chains, data);
    var u, ts := NoticedIn(pl, w, prm, chains, data).world, chains.transitions;
    MoveMeans(pl, u, prm, ts);
    assert k < |ts| && MovedAs(pl, u, prm, ts, k);
    OneChosen(pl, u, prm, ts, k);
    OneOwner(ts, ts[k].next);
    hide RunPrelude, Opened, NoticedIn, Decide, NoCheckErrs, NoneOpen, Chosen, AfterChecks, After, RunTriggersTo, AllAgree, FirstWith;
  }

  /** An application has no error exactly if every plugin that has to be called agrees; then it enters if
      that was due, sends what is due, and goes where the first open transition leads. */
  lemma ApplyMeans<W>(pl: Plugins<W>, w: W, prm: Params, chains: PluginChains, data: Data)
    requires prm.profile in data.profiles
    ensures var a := Apply(pl, w, prm, chains, data);
      && (a.error.None? <==> AllGoesWell(pl, w, prm, chains, data))
      && (a.error.None? ==> Outcome(pl, w, prm, chains, data, a))
  {
    hide Apply, AllGoesWell, Outcome, Opened, NoticedIn, NoCheckErrs, NoneOpen, Chosen;
    var u, ts := NoticedIn(pl, w, prm, chains, data).world, chains.transitions;
    if !Opened(pl, w, prm, chains, data) || !NoCheckErrs(pl, u, prm, ts) {
      ApplyStops(pl, w, prm, chains, data);
    } else if NoneOpen(pl, u, prm, ts) {
      ApplyStays(pl, w, prm, chains, data);
    } else {
      var k := FirstOpen(pl, u, prm, ts);
      ApplyMoves(pl, w, prm, chains, data, k);
    }
  }

  lemma OneChosen<W>(pl: Plugins<W>, u: W, prm: Params, ts: seq<Transition>, k: nat)
    requires Chosen(pl, u, prm, ts, k)
    ensures forall i :: 0 <= i < |ts| && Chosen(pl, u, prm, ts, i) ==> i == k
    ensures !NoneOpen(pl, u, prm, ts)
  {
    hide Open;
  }

  lemma OneOwner(ts: seq<Transition>, next: NodeStateLabel)
    ensures forall i, j :: 0 <= i < |ts| && 0 <= j < |ts| && FirstWith(ts, i, next) && FirstWith(ts, j, next) ==> i == j
  {}
}
