/** That acknowledgements take effect, and that every event can come to its end.
  */
module RedisDelivery {
  import opened Options
  import opened StreamIds
  import opened SubscriptionLoop
  import opened RedisGroup
  import opened RedisOwners
  import opened RedisProgress
  import opened RedisMoves

  // ---------- Acknowledgements ----------

  // An acknowledgement that arrives takes effect, for its entry and for no other: from
  // then on nobody holds the entry. One that does not arrive changes nothing at the server.
  lemma AckTakesEffect(s: Sys, t: Task, applied: bool)
    requires Reachable(s) && Enabled(s, TaskAck(t, applied))
    ensures var s' := Next(s, TaskAck(t, applied));
            && t !in s'.tasks
            && (applied ==> forall c :: !Holds(s'.pel, c, t.id))
            && (applied && Holds(s.pel, t.consumer, t.id) ==> Done(s', t.id) && Processed(s'.returned, t.id))
            && (forall c, i :: i != t.id || !applied ==> (Holds(s'.pel, c, i) <==> Holds(s.pel, c, i)))
            && (forall i :: i != t.id || !applied ==> (i in s'.acked <==> i in s.acked))
  {
    var step := TaskAck(t, applied);
    var s' := Next(s, step);
    forall c, i
      ensures Holds(s'.pel, c, i) <==> Holds(s.pel, c, i) && !Acknowledges(s, step, i)
      ensures i in s'.acked <==> i in s.acked || (Acknowledges(s, step, i) && exists d :: Holds(s.pel, d, i))
    {
      EntryMoves(s, step, c, i);
    }
    ReturnedIsProcessed(s, t);
    assert s'.returned == s.returned;
  }

  lemma ReturnedIsProcessed(s: Sys, t: Task)
    requires Reachable(s) && t in s.tasks && !t.stage.Dispatching?
    ensures Processed(s.returned, t.id)
  {
    ReachableInv(s);
    hide LogInv, PlaceInv, AckInv, RunsInv;
    assert (t.id, t.bound) in s.returned;
  }

  // ---------- Every event can be done ----------

  ghost predicate ComesToBeDone(s: Sys, i: Id) {
    exists steps :: Valid(s, steps) && Done(Exec(s, steps), i)
  }

  lemma ReachableRun(s: Sys, steps: seq<Step>)
    requires Reachable(s) && Valid(s, steps)
    ensures Reachable(Exec(s, steps))
  {
    var s0, before :| Initial(s0) && Valid(s0, before) && Exec(s0, before) == s;
    ValidConcat(s0, before, steps);
  }

  lemma Later(s: Sys, steps: seq<Step>, i: Id)
    requires Valid(s, steps) && ComesToBeDone(Exec(s, steps), i)
    ensures ComesToBeDone(s, i)
  {
    var rest :| Valid(Exec(s, steps), rest) && Done(Exec(Exec(s, steps), rest), i);
    ValidConcat(s, steps, rest);
    assert Valid(s, steps + rest);
  }

  // A dispatch under way on a context that is not cancelled: it returns, its acknowledgement is sent
  // and arrives, and the event is done.
  lemma DispatchCompletes(s: Sys, t: Task)
    requires Reachable(s) && t in s.tasks && t.stage.Dispatching? && t.run !in s.cancelled
    requires Holds(s.pel, t.consumer, t.id)
    ensures ComesToBeDone(s, t.id)
  {
    hide Reachable, Done;
    var t1, t2 := t.(stage := Returned), t.(stage := AckSent);
    var s1 := ReachableStep(s, DispatchReturns(t));
    assert t1 in s1.tasks && s1.pel == s.pel && s1.cancelled == s.cancelled;
    var s2 := ReachableStep(s1, SendAck(t1));
    assert t2 in s2.tasks && s2.pel == s.pel;
    AckTakesEffect(s2, t2, true);
    OneStep(s2, TaskAck(t2, true));
    assert Valid(s2, [TaskAck(t2, true)]) && Done(Exec(s2, [TaskAck(t2, true)]), t.id);
    OneStep(s1, SendAck(t1));
    Later(s1, [SendAck(t1)], t.id);
    OneStep(s, DispatchReturns(t));
    Later(s, [DispatchReturns(t)], t.id);
  }

  // A loop that reads new messages, has no bound and is not cancelled.
  ghost predicate Following(s: Sys, c: Consumer) {
    && c in s.runs && AtTop(s.runs[c]) && !s.runs[c].loop.exit && s.runs[c].no !in s.cancelled
    && s.runs[c].loop.position.New? && s.runs[c].loop.bound.None?
  }

  lemma FollowOne(s: Sys, c: Consumer, i: Id) returns (s': Sys)
    requires Reachable(s) && Following(s, c) && IsLeastAbove(s.live, s.lastDelivered, i)
    ensures Reachable(s') && Following(s', c) && IsRun(s', c, s.runs[c].no)
    ensures Valid(s, [Ask(c), ReadNew(c, i), HandleMessage(c, true)])
    ensures Exec(s, [Ask(c), ReadNew(c, i), HandleMessage(c, true)]) == s'
    ensures s'.live == s.live && s'.entries == s.entries && s'.lastDelivered == i
    ensures HasEvent(s, i) ==> FreshTask(s, c, i) in s'.tasks && Holds(s'.pel, c, i)
  {
    hide Reachable;
    var s1 := ReachableStep(s, Ask(c));
    var s2 := ReachableStep(s1, ReadNew(c, i));
    assert s2.runs[c].hand == Some(Message(i, HasEvent(s, i))) && Holds(s2.pel, c, i);
    assert s2.runs[c].loop == s.runs[c].loop && s2.cancelled == s.cancelled;
    HandleEffect(s2, c, true);
    s' := ReachableStep(s2, HandleMessage(c, true));
    OneStep(s2, HandleMessage(c, true));
    OneStep(s1, ReadNew(c, i));
    OneStep(s, Ask(c));
    ValidConcat(s1, [ReadNew(c, i)], [HandleMessage(c, true)]);
    ValidConcat(s, [Ask(c)], [ReadNew(c, i)] + [HandleMessage(c, true)]);
    assert [Ask(c)] + ([ReadNew(c, i)] + [HandleMessage(c, true)]) == [Ask(c), ReadNew(c, i), HandleMessage(c, true)];
    if HasEvent(s, i) {
      assert i in PelOf(s', c);
    }
  }

  lemma {:induction false} FollowingReaches(s: Sys, c: Consumer, i: Id)
    requires Reachable(s) && Following(s, c) && HasEvent(s, i) && s.lastDelivered.Less(i)
    ensures ComesToBeDone(s, i)
    decreases |Above(s.live, s.lastDelivered)|
  {
    assert i in Above(s.live, s.lastDelivered);
    var j := LeastAbove(s.live, s.lastDelivered);
    var s' := FollowOne(s, c, j);
    if j == i {
      hide Reachable;
      DispatchCompletes(s', FreshTask(s, c, i));
    } else {
      assert j in Above(s.live, s.lastDelivered);
      SubsetCard(Above(s'.live, s'.lastDelivered), Above(s.live, s.lastDelivered) - {j});
      FollowingReaches(s', c, i);
    }
    Later(s, [Ask(c), ReadNew(c, j), HandleMessage(c, true)], i);
  }

  lemma RestartSteps(s: Sys, c: Consumer) returns (steps: seq<Step>)
    ensures Valid(s, steps) && Exec(s, steps) == Restarted(s, c, None)
  {
    OneStep(s, Crash(c));
    OneStep(Crashed(s, c), StartRun(c, None));
    ValidConcat(s, [Crash(c)], [StartRun(c, None)]);
    steps := [Crash(c)] + [StartRun(c, None)];
  }

  lemma NotDoneYet(s: Sys, c: Consumer, i: Id)
    requires Reachable(s) && HasEvent(s, i) && s.start.Less(i) && i !in s.acked
    requires PendingAtOne(s, i) ==> Holds(s.pel, c, i)
    ensures Holds(s.pel, c, i) || s.lastDelivered.Less(i)
  {
    hide Reachable;
    AtLeastOnce(s, i);
  }

  // From every reachable state, whatever has crashed, failed or been cancelled so far: an event above
  // the group's start that is not trimmed and not done yet can still come to be dispatched and
  // acknowledged, by any consumer if it is waiting, and else by the one that holds it.
  lemma EventCanBeDone(s: Sys, c: Consumer, i: Id)
    requires Reachable(s) && HasEvent(s, i) && s.start.Less(i) && i !in s.acked
    requires PendingAtOne(s, i) ==> Holds(s.pel, c, i)
    ensures ComesToBeDone(s, i)
  {
    NotDoneYet(s, c, i);
    ReachableInv(s);
    RestartReady(s, c, None);
    hide Inv, Reachable, PendingAtOne, Restarted;
    var restart := RestartSteps(s, c);
    var s1 := Restarted(s, c, None);
    ReachableRun(s, restart);
    if Holds(s.pel, c, i) {
      assert i in Above(PelOf(s1, c), ZERO_ID);
      var replay := ReplayReaches(s1, c, i);
      ReachableRun(s1, replay);
      DispatchCompletes(Exec(s1, replay), FreshTask(s1, c, i));
      Later(s1, replay, i);
    } else {
      var replay := ReplayFromTop(s1, c);
      ReachableRun(s1, replay);
      FollowingReaches(Exec(s1, replay), c, i);
      Later(s1, replay, i);
    }
    Later(s, restart, i);
  }
}
