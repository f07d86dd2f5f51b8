/** Whose entries a loop and a dispatch goroutine work on, and what becomes of a dispatch whose
    subscription is cancelled.
  */
module RedisOwners {
  import opened Options
  import opened StreamIds
  import opened SubscriptionLoop
  import opened RedisGroup

  ghost predicate HeldOnlyBy(pel: map<Consumer, set<Id>>, c: Consumer, i: Id) {
    forall d :: Holds(pel, d, i) ==> d == c
  }

  // What a goroutine or a loop works on is pending at nobody but its own consumer.
  ghost predicate HolderInv(s: Sys) {
    && (forall t <- s.tasks :: t.id in s.delivered && HeldOnlyBy(s.pel, t.consumer, t.id))
    && (forall c <- s.runs :: s.runs[c].hand.Some? ==> HeldOnlyBy(s.pel, c, s.runs[c].hand.value.id))
  }

  // A run has one goroutine for each message it dispatched, at most.
  ghost predicate NumberInv(s: Sys) {
    && (forall t <- s.tasks :: forall c <- s.runs :: t.run == s.runs[c].no ==> t.id in s.runs[c].loop.dispatched)
    && (forall t, u :: t in s.tasks && u in s.tasks && t.run == u.run && t.id == u.id ==> t == u)
  }

  // ---------- Holders ----------

  // The steps of dispatch goroutines.
  predicate IsTaskStep(step: Step) {
    step.DispatchReturns? || step.SendAck? || step.AckFails? || step.TaskAck?
  }

  // The steps that hand messages to a loop or let it handle one.
  predicate IsMessageStep(step: Step) {
    step.ReadNew? || step.ReadNewLost? || step.ReadPending? || step.HandleMessage?
  }

  // What the other steps leave as it is.
  lemma OtherStep(s: Sys, step: Step)
    requires Enabled(s, step) && !IsTaskStep(step) && !IsMessageStep(step)
    ensures var s' := Next(s, step);
            && s'.pel == s.pel && s'.delivered == s.delivered && s'.tasks <= s.tasks
            && (forall c <- s'.runs ::
                  || (s'.runs[c].no == s.nextRun && s'.runs[c].hand.None?)
                  || (c in s.runs && s'.runs[c].no == s.runs[c].no && s'.runs[c].hand == s.runs[c].hand
                      && s'.runs[c].loop.dispatched == s.runs[c].loop.dispatched))
  {
  }

  lemma TaskStep(s: Sys, step: Step)
    requires Enabled(s, step) && IsTaskStep(step)
    ensures var s' := Next(s, step);
            && s'.runs == s.runs && s'.delivered == s.delivered && step.t in s.tasks
            && (forall c :: PelOf(s', c) <= PelOf(s, c))
            && exists stage :: s'.tasks <= s.tasks - {step.t} + {step.t.(stage := stage)}
  {
    var s' := Next(s, step);
    match step
    case DispatchReturns(t) => assert s'.tasks <= s.tasks - {t} + {t.(stage := Returned)};
    case SendAck(t) => assert s'.tasks <= s.tasks - {t} + {t.(stage := AckSent)};
    case AckFails(t) => assert s'.tasks <= s.tasks - {t} + {t.(stage := Returned)};
    case TaskAck(t, applied) =>
      ApplyAckPel(s.(tasks := s.tasks - {t}), t.id);
      assert s'.tasks <= s.tasks - {t} + {t.(stage := AckSent)};
    case _ =>
  }

  lemma TaskStepHolders(s: Sys, step: Step)
    requires HolderInv(s) && Enabled(s, step) && IsTaskStep(step)
    ensures HolderInv(Next(s, step))
  {
    var s' := Next(s, step);
    TaskStep(s, step);
    hide Enabled, Next;
    forall c, i | Holds(s'.pel, c, i) ensures Holds(s.pel, c, i) {
      assert i in PelOf(s', c);
    }
  }

  lemma OtherStepHolders(s: Sys, step: Step)
    requires HolderInv(s) && Enabled(s, step) && !IsTaskStep(step) && !IsMessageStep(step)
    ensures HolderInv(Next(s, step))
  {
    OtherStep(s, step);
    hide Enabled, Next;
  }

  lemma DeliverHolders(s: Sys, c: Consumer, id: Id)
    requires HolderInv(s) && id !in s.delivered && PlaceInv(s.pel, s.delivered, s.acked)
    requires forall d <- s.runs :: s.runs[d].hand.Some? ==> s.runs[d].hand.value.id in s.delivered
    ensures HolderInv(Deliver(s, c, id)) && HeldOnlyBy(Deliver(s, c, id).pel, c, id)
  {
    var s' := Deliver(s, c, id);
    forall d, i ensures Holds(s'.pel, d, i) <==> Holds(s.pel, d, i) || (d == c && i == id) {
    }
  }

  lemma HandsDelivered(s: Sys)
    requires Inv(s)
    ensures forall d <- s.runs :: s.runs[d].hand.Some? ==> s.runs[d].hand.value.id in s.delivered
  {
    hide ServerInv;
    forall d <- s.runs ensures s.runs[d].hand.Some? ==> s.runs[d].hand.value.id in s.delivered {
      assert RunInv(s, d, s.runs[d]);
    }
  }

  lemma ReadNewHolders(s: Sys, step: Step)
    requires Inv(s) && HolderInv(s) && Enabled(s, step) && (step.ReadNew? || step.ReadNewLost?)
    ensures HolderInv(Next(s, step))
  {
    DeliverKeepsServer(s, step.c, step.id);
    HandsDelivered(s);
    hide LogInv, AckInv, TaskInv, RunsInv;
    DeliverHolders(s, step.c, step.id);
    hide PlaceInv;
  }

  lemma ReadPendingHolders(s: Sys, c: Consumer, found: Option<Id>)
    requires Inv(s) && HolderInv(s) && Enabled(s, ReadPending(c, found))
    ensures HolderInv(Next(s, ReadPending(c, found)))
  {
    hide LogInv, AckInv, TaskInv, RunsInv;
    if found.Some? {
      assert Holds(s.pel, c, found.value);
      assert HeldOnlyBy(s.pel, c, found.value);
    }
  }

  lemma HandleHolders(s: Sys, c: Consumer, acked: bool)
    requires HolderInv(s) && Enabled(s, HandleMessage(c, acked)) && s.runs[c].hand.value.id in s.delivered
    ensures HolderInv(OnHandle(s, c, acked))
  {
    hide Exceeds;
    HandleEffect(s, c, acked);
    TaskOfHandle(s, c, acked);
    hide OnHandle;
    var s' := OnHandle(s, c, acked);
    forall d, i | Holds(s'.pel, d, i) ensures Holds(s.pel, d, i) {
      assert i in PelOf(s', d);
    }
  }

  lemma TaskOfHandle(s: Sys, c: Consumer, acked: bool)
    requires c in s.runs && s.runs[c].hand.Some?
    ensures var r, m := s.runs[c], s.runs[c].hand.value;
            OnHandle(s, c, acked).tasks
            == s.tasks + if Handle(r.loop, m).dispatched == r.loop.dispatched + [m.id]
                         then {Task(c, r.no, m.id, r.loop.bound, Dispatching)} else {}
  {
  }

  lemma HoldersStep(s: Sys, step: Step)
    requires Inv(s) && HolderInv(s) && Enabled(s, step)
    ensures HolderInv(Next(s, step))
  {
    if step.ReadNew? || step.ReadNewLost? {
      ReadNewHolders(s, step);
    } else if step.ReadPending? {
      ReadPendingHolders(s, step.c, step.found);
    } else if step.HandleMessage? {
      HandsDelivered(s);
      hide Inv, HolderInv;
      HandleHolders(s, step.c, step.acked);
    } else if IsTaskStep(step) {
      hide Inv, HolderInv;
      TaskStepHolders(s, step);
    } else {
      hide Inv, HolderInv;
      OtherStepHolders(s, step);
    }
  }

  // ---------- Numbers ----------

  lemma HandleNumbers(s: Sys, c: Consumer, acked: bool)
    requires NumberInv(s) && Enabled(s, HandleMessage(c, acked))
    requires forall i <- s.runs[c].loop.dispatched :: i.Less(s.runs[c].hand.value.id)
    requires forall d <- s.runs :: s.runs[d].no == s.runs[c].no ==> d == c
    ensures NumberInv(OnHandle(s, c, acked))
  {
    hide Exceeds;
    HandleEffect(s, c, acked);
    TaskOfHandle(s, c, acked);
    hide OnHandle;
    var s', r, m := OnHandle(s, c, acked), s.runs[c], s.runs[c].hand.value;
    forall t <- s.tasks | t.run == r.no ensures t.id != m.id {
      assert t.id in r.loop.dispatched;
    }
    assert (r.loop.dispatched + [m.id])[|r.loop.dispatched|] == m.id;
  }

  lemma HandOrdered(s: Sys, c: Consumer)
    requires Inv(s) && c in s.runs && s.runs[c].hand.Some?
    ensures forall i <- s.runs[c].loop.dispatched :: i.Less(s.runs[c].hand.value.id)
    ensures forall d <- s.runs :: s.runs[d].no == s.runs[c].no ==> d == c
  {
    hide ServerInv;
    assert RunInv(s, c, s.runs[c]);
  }

  lemma TasksNumbered(s: Sys)
    requires Inv(s)
    ensures forall t <- s.tasks :: t.run < s.nextRun
  {
    hide LogInv, PlaceInv, AckInv, RunsInv;
  }

  lemma TaskStepNumbers(s: Sys, step: Step)
    requires NumberInv(s) && Enabled(s, step) && IsTaskStep(step)
    ensures NumberInv(Next(s, step))
  {
    TaskStep(s, step);
    hide Enabled, Next;
  }

  lemma OtherStepNumbers(s: Sys, step: Step)
    requires NumberInv(s) && Enabled(s, step) && !IsTaskStep(step) && !IsMessageStep(step)
    requires forall t <- s.tasks :: t.run < s.nextRun
    ensures NumberInv(Next(s, step))
  {
    OtherStep(s, step);
    hide Enabled, Next;
  }

  lemma ReadNumbers(s: Sys, step: Step)
    requires NumberInv(s) && Enabled(s, step) && (step.ReadNew? || step.ReadNewLost? || step.ReadPending?)
    ensures NumberInv(Next(s, step))
  {
    hide HasEvent, IsLeastAbove, Above;
    var s', c := Next(s, step), step.c;
    assert s'.tasks == s.tasks && s'.runs.Keys == s.runs.Keys;
    assert forall d <- s.runs :: d != c ==> s'.runs[d] == s.runs[d];
    assert s'.runs[c].no == s.runs[c].no && s'.runs[c].loop.dispatched == s.runs[c].loop.dispatched;
  }

  lemma NumbersStep(s: Sys, step: Step)
    requires Inv(s) && NumberInv(s) && Enabled(s, step)
    ensures NumberInv(Next(s, step))
  {
    if step.HandleMessage? {
      HandOrdered(s, step.c);
      hide Inv, NumberInv;
      HandleNumbers(s, step.c, step.acked);
    } else if IsTaskStep(step) {
      hide Inv, NumberInv;
      TaskStepNumbers(s, step);
    } else if IsMessageStep(step) {
      hide Inv, NumberInv;
      ReadNumbers(s, step);
    } else {
      TasksNumbered(s);
      hide Inv, NumberInv;
      OtherStepNumbers(s, step);
    }
  }

  // ---------- Reachable states ----------

  lemma {:induction false} OwnersRun(s: Sys, steps: seq<Step>)
    requires Inv(s) && HolderInv(s) && NumberInv(s) && Valid(s, steps)
    ensures HolderInv(Exec(s, steps)) && NumberInv(Exec(s, steps))
    decreases |steps|
  {
    if steps != [] {
      hide Inv, HolderInv, NumberInv;
      StepKeepsInv(s, steps[0]);
      HoldersStep(s, steps[0]);
      NumbersStep(s, steps[0]);
      OwnersRun(Next(s, steps[0]), steps[1..]);
    }
  }

  lemma ReachableOwners(s: Sys)
    requires Reachable(s)
    ensures HolderInv(s) && NumberInv(s)
  {
    var s0, steps :| Initial(s0) && Valid(s0, steps) && Exec(s0, steps) == s;
    InitialInv(s0);
    hide Inv;
    OwnersRun(s0, steps);
  }

  // ---------- Dispatched is not acknowledged ----------

  // No step of these takes the entry away, as far as other runs and trimming are concerned.
  ghost predicate LeftAlone(steps: seq<Step>, run: nat, i: Id) {
    forall step <- steps :: LeavesAlone(step, run, i)
  }

  predicate LeavesAlone(step: Step, run: nat, i: Id) {
    !(step.Trim? && i in step.gone) && !(step.TaskAck? && step.applied && step.t.id == i && step.t.run != run)
  }

  ghost predicate Unsent(s: Sys, c: Consumer, run: nat, i: Id) {
    && Holds(s.pel, c, i) && HasEvent(s, i)
    && run in s.cancelled
    && forall t <- s.tasks :: t.run == run && t.id == i ==> !t.stage.AckSent?
  }

  lemma HandleKeepsUnsent(s: Sys, d: Consumer, acked: bool, c: Consumer, run: nat, i: Id)
    requires Unsent(s, c, run, i) && Enabled(s, HandleMessage(d, acked))
    requires !s.runs[d].hand.value.valid ==> !HasEvent(s, s.runs[d].hand.value.id)
    ensures Unsent(OnHandle(s, d, acked), c, run, i)
  {
    hide Exceeds;
    HandleEffect(s, d, acked);
    assert i in PelOf(OnHandle(s, d, acked), c);
  }

  lemma TaskStepKeepsUnsent(s: Sys, step: Step, c: Consumer, run: nat, i: Id)
    requires Unsent(s, c, run, i) && Enabled(s, step) && IsTaskStep(step) && LeavesAlone(step, run, i)
    ensures Unsent(Next(s, step), c, run, i)
  {
    var s' := Next(s, step);
    assert s'.live == s.live && s'.entries == s.entries && s'.cancelled == s.cancelled;
    assert i in PelOf(s', c);
  }

  lemma OtherStepKeepsUnsent(s: Sys, step: Step, c: Consumer, run: nat, i: Id)
    requires Unsent(s, c, run, i) && Enabled(s, step) && LeavesAlone(step, run, i)
    requires !IsTaskStep(step) && !IsMessageStep(step)
    requires i in s.entries && forall j <- s.entries :: step.Append? ==> j.Less(step.id)
    ensures Unsent(Next(s, step), c, run, i)
  {
    OtherStep(s, step);
  }

  lemma ReadKeepsUnsent(s: Sys, step: Step, c: Consumer, run: nat, i: Id)
    requires Unsent(s, c, run, i) && Enabled(s, step) && (step.ReadNew? || step.ReadNewLost? || step.ReadPending?)
    ensures Unsent(Next(s, step), c, run, i)
  {
    var s' := Next(s, step);
    assert s'.tasks == s.tasks && s'.cancelled == s.cancelled && s'.live == s.live && s'.entries == s.entries;
    assert i in PelOf(s', c);
  }

  lemma UnsentStep(s: Sys, step: Step, c: Consumer, run: nat, i: Id)
    requires Inv(s) && Unsent(s, c, run, i) && Enabled(s, step) && LeavesAlone(step, run, i)
    ensures Unsent(Next(s, step), c, run, i)
  {
    if step.HandleMessage? {
      HandReady(s, step.c);
      hide Inv;
      HandleKeepsUnsent(s, step.c, step.acked, c, run, i);
    } else if IsTaskStep(step) {
      hide Inv, Unsent;
      TaskStepKeepsUnsent(s, step, c, run, i);
    } else if IsMessageStep(step) {
      hide Inv, Unsent;
      ReadKeepsUnsent(s, step, c, run, i);
    } else {
      hide Inv;
      OtherStepKeepsUnsent(s, step, c, run, i);
    }
  }

  lemma {:induction false} UnsentRun(s: Sys, steps: seq<Step>, c: Consumer, run: nat, i: Id)
    requires Inv(s) && Unsent(s, c, run, i) && Valid(s, steps) && LeftAlone(steps, run, i)
    ensures Unsent(Exec(s, steps), c, run, i)
    decreases |steps|
  {
    if steps != [] {
      hide Inv, Unsent;
      assert steps[0] in steps && forall step <- steps[1..] :: step in steps;
      UnsentStep(s, steps[0], c, run, i);
      StepKeepsInv(s, steps[0]);
      UnsentRun(Next(s, steps[0]), steps[1..], c, run, i);
    }
  }

  // A dispatch whose acknowledgement had not been sent when its subscription was cancelled never
  // acknowledges: however long it takes and whatever else happens, its entry stays pending at its
  // consumer, unless it is trimmed or a dispatch of another run acknowledges it.
  lemma CancelledDispatchStaysPending(s: Sys, t: Task, steps: seq<Step>)
    requires Reachable(s) && t in s.tasks && !t.stage.AckSent? && t.run in s.cancelled
    requires Holds(s.pel, t.consumer, t.id) && HasEvent(s, t.id)
    requires Valid(s, steps) && LeftAlone(steps, t.run, t.id)
    ensures Holds(Exec(s, steps).pel, t.consumer, t.id) && t.id !in Exec(s, steps).acked
  {
    ReachableInv(s);
    ReachableOwners(s);
    hide Inv;
    assert Unsent(s, t.consumer, t.run, t.id);
    UnsentRun(s, steps, t.consumer, t.run, t.id);
    RunKeepsInv(s, steps);
    PendingIsNotAcked(Exec(s, steps), t.consumer, t.id);
  }

  lemma PendingIsNotAcked(s: Sys, c: Consumer, i: Id)
    requires Inv(s) && Holds(s.pel, c, i)
    ensures i !in s.acked
  {
    hide LogInv, AckInv, TaskInv, RunsInv;
  }
}
