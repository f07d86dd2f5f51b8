/** What a subscription run can still do: after a cancellation, and after a crash.
  */
module RedisProgress {
  import opened Options
  import opened StreamIds
  import opened SubscriptionLoop
  import opened RedisGroup
  import opened RedisOwners

  ghost predicate IsRun(s: Sys, c: Consumer, no: nat) {
    c in s.runs && s.runs[c].no == no
  }

  lemma RunBasics(s: Sys, c: Consumer)
    requires Inv(s) && c in s.runs
    ensures var r := s.runs[c]; r.no < s.nextRun && r.no !in s.closed && ContextInv(s, r)
  {
    hide ServerInv;
    assert RunInv(s, c, s.runs[c]);
  }

  // ---------- A cancelled run without end bound ----------

  // A read on its way to the server can still bring a message.
  function InFlightReads(r: Run): nat {
    if r.read.InFlight? then 1 else 0
  }

  // Messages the run has dispatched or may still dispatch without another read.
  function Committed(r: Run): nat {
    |r.loop.dispatched| + InFlightReads(r) + if r.hand.Some? then 1 else 0
  }

  ghost predicate Leaving(s: Sys, c: Consumer, no: nat, budget: nat, limit: nat) {
    && no < s.nextRun
    && (IsRun(s, c, no) ==>
          var r := s.runs[c];
          && r.loop.bound.None? && r.loop.exit
          && r.readCount + InFlightReads(r) <= budget && Committed(r) <= limit)
  }

  lemma LeavingStep(s: Sys, step: Step, c: Consumer, no: nat, budget: nat, limit: nat)
    requires Leaving(s, c, no, budget, limit) && Enabled(s, step)
    ensures Leaving(Next(s, step), c, no, budget, limit)
  {
    hide Exceeds, OnHandle, HasEvent;
    if step.HandleMessage? {
      HandleEffect(s, step.c, step.acked);
    }
  }

  lemma {:induction false} LeavingRun(s: Sys, steps: seq<Step>, c: Consumer, no: nat, budget: nat, limit: nat)
    requires Leaving(s, c, no, budget, limit) && Valid(s, steps)
    ensures Leaving(Exec(s, steps), c, no, budget, limit)
    decreases |steps|
  {
    if steps != [] {
      LeavingStep(s, steps[0], c, no, budget, limit);
      LeavingRun(Next(s, steps[0]), steps[1..], c, no, budget, limit);
    }
  }

  // Once its exit flag is set, a run without bound finishes at most the iteration it is in: it
  // asks for nothing more, gets at most the answer to a read on its way, and dispatches at most
  // the message it holds or that answer. It never waits for anything but that read, which can
  // fail at any time; at the top it can exit, and it has not closed its stop channel before.
  lemma CancelledRunEnds(s: Sys, c: Consumer, steps: seq<Step>)
    requires Reachable(s) && c in s.runs && s.runs[c].loop.bound.None? && s.runs[c].loop.exit
    requires Valid(s, steps)
    ensures var s', r := Exec(s, steps), s.runs[c];
            IsRun(s', c, r.no) ==>
              && var r' := s'.runs[c];
              && r'.loop.exit && !Enabled(s', Ask(c)) && r'.no !in s'.closed
              && r'.readCount <= r.readCount + InFlightReads(r)
              && |r'.loop.dispatched| <= Committed(r)
              && (Enabled(s', Exit(c)) || Enabled(s', HandleMessage(c, false)) || Enabled(s', ReadFails(c)))
  {
    hide Inv;
    ReachableInv(s);
    RunBasics(s, c);
    var r := s.runs[c];
    LeavingRun(s, steps, c, r.no, r.readCount + InFlightReads(r), Committed(r));
    RunKeepsInv(s, steps);
    if c in Exec(s, steps).runs {
      RunBasics(Exec(s, steps), c);
    }
  }

  // ---------- A cancelled run with an end bound ----------

  // The flag was raised, and it is cleared or about to be.
  ghost predicate Lost(s: Sys, c: Consumer, no: nat) {
    && no < s.nextRun && no in s.cancelled
    && (IsRun(s, c, no) ==>
          var r := s.runs[c];
          && r.flagged && !r.read.InFlight?
          && (if r.hand.Some? then r.read.NotReading? && Clears(r.loop.bound, r.hand.value) else !r.loop.exit))
  }

  lemma LostStep(s: Sys, step: Step, c: Consumer, no: nat)
    requires Lost(s, c, no) && Enabled(s, step)
    ensures Lost(Next(s, step), c, no)
    ensures var s' := Next(s, step);
            IsRun(s', c, no) ==> IsRun(s, c, no) && Committed(s'.runs[c]) <= Committed(s.runs[c])
                                 && (s.runs[c].hand.None? ==> s'.runs[c].hand.None?)
  {
    hide Exceeds, OnHandle, HasEvent;
    if step.HandleMessage? {
      HandleEffect(s, step.c, step.acked);
    }
  }

  lemma {:induction false} LostRun(s: Sys, steps: seq<Step>, c: Consumer, no: nat)
    requires Lost(s, c, no) && Valid(s, steps)
    ensures Lost(Exec(s, steps), c, no)
    ensures var s' := Exec(s, steps);
            IsRun(s', c, no) ==> IsRun(s, c, no) && Committed(s'.runs[c]) <= Committed(s.runs[c])
                                 && (s.runs[c].hand.None? ==> s'.runs[c].hand.None?)
    decreases |steps|
  {
    if steps != [] {
      LostStep(s, steps[0], c, no);
      LostRun(Next(s, steps[0]), steps[1..], c, no);
    }
  }

  ghost predicate CanExit(s: Sys, c: Consumer, no: nat) {
    IsRun(s, c, no) && Enabled(s, Exit(c))
  }

  ghost predicate CanComeToExit(s: Sys, c: Consumer, no: nat) {
    exists steps :: Valid(s, steps) && CanExit(Exec(s, steps), c, no)
  }

  lemma OneStep(s: Sys, step: Step)
    requires Enabled(s, step)
    ensures Valid(s, [step]) && Exec(s, [step]) == Next(s, step)
  {
    var s' := Next(s, step);
    assert [step][1..] == [] && Valid(s', []) && Exec(s', []) == s';
    assert Exec(s, [step]) == Exec(s', [step][1..]);
  }

  // From every reachable state after the context was cancelled and the flag raised: the run can
  // ever exit if and only if the flag is still up and no message in hand clears it.
  lemma CancellationLost(s: Sys, c: Consumer)
    requires Reachable(s) && c in s.runs && s.runs[c].flagged
    ensures var r := s.runs[c];
            CanComeToExit(s, c, r.no) <==> r.loop.exit && (r.hand.Some? ==> !Clears(r.loop.bound, r.hand.value))
  {
    hide Inv, Exceeds;
    ReachableInv(s);
    RunBasics(s, c);
    var r := s.runs[c];
    if r.loop.exit && (r.hand.Some? ==> !Clears(r.loop.bound, r.hand.value)) {
      StillExits(s, c);
    } else {
      assert Lost(s, c, r.no);
      forall steps | Valid(s, steps) ensures !CanExit(Exec(s, steps), c, r.no) {
        LostRun(s, steps, c, r.no);
      }
    }
  }

  lemma StillExits(s: Sys, c: Consumer)
    requires c in s.runs && s.runs[c].loop.exit && ContextInv(s, s.runs[c])
    requires s.runs[c].hand.Some? ==> !Clears(s.runs[c].loop.bound, s.runs[c].hand.value)
    ensures CanComeToExit(s, c, s.runs[c].no)
  {
    var r := s.runs[c];
    if AtTop(r) {
      assert Valid(s, []) && CanExit(Exec(s, []), c, r.no);
    } else {
      var step := if r.hand.Some? then HandleMessage(c, false) else ReadFails(c);
      OneStep(s, step);
      assert CanExit(Next(s, step), c, r.no);
      assert Valid(s, [step]) && CanExit(Exec(s, [step]), c, r.no);
    }
  }

  // It does happen: from every reachable state in which a run is about to handle a message below its
  // bound, a cancellation at this moment is lost.
  lemma CancellationGetsLost(s: Sys, c: Consumer) returns (s': Sys)
    requires Reachable(s) && c in s.runs && !s.runs[c].flagged && s.runs[c].hand.Some?
    requires Clears(s.runs[c].loop.bound, s.runs[c].hand.value)
    ensures Reachable(s') && IsRun(s', c, s.runs[c].no) && s'.runs[c].flagged && !s'.runs[c].loop.exit
    ensures !CanComeToExit(s', c, s.runs[c].no) && s'.runs[c].hand.None?
  {
    hide Inv, Exceeds;
    var s1 := ReachableStep(s, Cancel(c));
    var s2 := ReachableStep(s1, Flag(c));
    s' := ReachableStep(s2, HandleMessage(c, false));
    CancellationLost(s', c);
  }

  lemma ReachableStep(s: Sys, step: Step) returns (s': Sys)
    requires Reachable(s) && Enabled(s, step)
    ensures s' == Next(s, step) && Reachable(s')
  {
    s' := Next(s, step);
    var s0, steps :| Initial(s0) && Valid(s0, steps) && Exec(s0, steps) == s;
    OneStep(s, step);
    ValidConcat(s0, steps, [step]);
  }

  // Such states are reached, for every consumer, every bound and every ID below it: the message is
  // appended, and the loop gets it as its first new one.
  lemma MessageBelowBoundIsRead(c: Consumer, bound: string, id: Id) returns (s: Sys)
    requires ZERO_ID.Less(id) && !Exceeds(Some(bound), id)
    ensures Reachable(s) && c in s.runs && !s.runs[c].flagged && s.runs[c].hand.Some?
    ensures Clears(s.runs[c].loop.bound, s.runs[c].hand.value) && s.runs[c].loop.bound == Some(bound)
  {
    hide Inv, Exceeds;
    var s0 := Sys(map[], {}, ZERO_ID, ZERO_ID, map[], map[], {}, 0, {}, {}, {}, {}, {}, {}, {}, {});
    assert Valid(s0, []) && Exec(s0, []) == s0 && Initial(s0);
    assert Reachable(s0);
    hide Reachable, Initial;
    var s1 := ReachableStep(s0, Append(id, true));
    assert s1.live == {id} && HasEvent(s1, id) && s1.pel == map[] && s1.runs == map[];
    var s2 := ReachableStep(s1, StartRun(c, Some(bound)));
    assert s2.live == {id} && HasEvent(s2, id) && s2.runs[c].loop == Fresh(Some(bound)) && !s2.runs[c].flagged;
    s := FirstNewMessage(s2, c, id);
  }

  // So for each of them there is a reachable state whose run never comes to its exit, and beside it the
  // trigger can be subscribed again.
  lemma LostRunExists(c: Consumer, bound: string, id: Id) returns (s: Sys)
    requires ZERO_ID.Less(id) && !Exceeds(Some(bound), id)
    ensures Reachable(s) && c in s.runs && s.runs[c].flagged && !s.runs[c].loop.exit
    ensures !CanComeToExit(s, c, s.runs[c].no) && forall again :: Enabled(s, StartRun(c, again))
  {
    hide Inv, Exceeds, Reachable;
    var read := MessageBelowBoundIsRead(c, bound, id);
    s := CancellationGetsLost(read, c);
  }

  lemma FirstNewMessage(s: Sys, c: Consumer, id: Id) returns (s': Sys)
    requires Reachable(s) && c in s.runs && AtTop(s.runs[c]) && !s.runs[c].loop.exit && s.runs[c].no !in s.cancelled
    requires s.runs[c].loop.position.Pending? && Above(PelOf(s, c), s.runs[c].loop.position.after) == {}
    requires IsLeastAbove(s.live, s.lastDelivered, id)
    ensures Reachable(s') && c in s'.runs && s'.runs[c].flagged == s.runs[c].flagged
    ensures s'.runs[c].hand == Some(Message(id, HasEvent(s, id))) && s'.runs[c].loop == s.runs[c].loop.(position := New)
  {
    hide Reachable;
    var s1 := ReachableStep(s, Ask(c));
    var s2 := ReachableStep(s1, ReadPending(c, None));
    assert AtTop(s2.runs[c]) && s2.runs[c].loop == s.runs[c].loop.(position := New);
    var s3 := ReachableStep(s2, Ask(c));
    s' := ReachableStep(s3, ReadNew(c, id));
  }

  // A run whose flag was lost stays for good and does nothing: nothing more is read or dispatched.
  lemma LostRunIsIdle(s: Sys, c: Consumer, steps: seq<Step>)
    requires Reachable(s) && c in s.runs && s.runs[c].flagged && !s.runs[c].loop.exit && Valid(s, steps)
    ensures var s', r := Exec(s, steps), s.runs[c];
            IsRun(s', c, r.no) ==> !s'.runs[c].loop.exit && |s'.runs[c].loop.dispatched| <= |r.loop.dispatched|
  {
    hide Inv, Exceeds;
    ReachableInv(s);
    RunBasics(s, c);
    LostRun(s, steps, c, s.runs[c].no);
  }

  // ---------- Replay of pending entries ----------

  lemma {:induction false} LeastAbove(ids: set<Id>, cursor: Id) returns (i: Id)
    requires Above(ids, cursor) != {}
    ensures IsLeastAbove(ids, cursor, i)
    decreases |ids|
  {
    var x :| x in Above(ids, cursor);
    var rest := ids - {x};
    if Above(rest, cursor) == {} {
      i := x;
      forall j <- ids | cursor.Less(j) ensures j.AtLeast(i) {
        assert j != x ==> j in Above(rest, cursor);
      }
    } else {
      var y := LeastAbove(rest, cursor);
      i := if y.Less(x) then y else x;
      forall j <- ids | cursor.Less(j) ensures j.AtLeast(i) {
        assert j != x ==> j in rest;
      }
    }
  }

  ghost predicate Replaying(s: Sys, c: Consumer) {
    && c in s.runs && s.runs[c].no !in s.cancelled
    && !s.runs[c].loop.exit && s.runs[c].loop.position.Pending?
  }

  function Cursor(s: Sys, c: Consumer): Id
    requires c in s.runs && s.runs[c].loop.position.Pending?
  {
    s.runs[c].loop.position.after
  }

  predicate Stops(s: Sys, bound: Option<string>, i: Id) {
    HasEvent(s, i) && Exceeds(bound, i)
  }

  // s' follows s with the same run of c and no event lost from its pending list.
  ghost predicate SameReplay(s: Sys, s': Sys, c: Consumer) {
    && c in s.runs && IsRun(s', c, s.runs[c].no)
    && s'.runs[c].startPel == s.runs[c].startPel && s'.runs[c].loop.bound == s.runs[c].loop.bound
    && (forall i <- s.runs[c].loop.dispatched :: i in s'.runs[c].loop.dispatched)
    && s'.live == s.live && s'.entries == s.entries && s'.lastDelivered == s.lastDelivered
    && PelOf(s', c) <= PelOf(s, c)
    && forall i <- PelOf(s, c) :: HasEvent(s, i) ==> i in PelOf(s', c)
  }

  ghost predicate NothingTrimmed(steps: seq<Step>) {
    forall step <- steps :: !step.Trim?
  }

  // The goroutine of a message the run has just dispatched.
  function FreshTask(s: Sys, c: Consumer, i: Id): Task
    requires c in s.runs
  {
    Task(c, s.runs[c].no, i, s.runs[c].loop.bound, Dispatching)
  }

  lemma ReplayHandle(s: Sys, c: Consumer, i: Id)
    requires Replaying(s, c) && s.runs[c].hand == Some(Message(i, HasEvent(s, i))) && s.runs[c].read.NotReading?
    requires !Stops(s, s.runs[c].loop.bound, i)
    ensures var s' := OnHandle(s, c, true);
            && Replaying(s', c) && AtTop(s'.runs[c]) && SameReplay(s, s', c)
            && Cursor(s', c) == (if HasEvent(s, i) then i else Cursor(s, c))
            && PelOf(s', c) == (if HasEvent(s, i) then PelOf(s, c) else PelOf(s, c) - {i})
            && (HasEvent(s, i) ==> i in s'.runs[c].loop.dispatched && FreshTask(s, c, i) in s'.tasks)
  {
    HandleEffect(s, c, true);
    var l := s.runs[c].loop;
    if HasEvent(s, i) {
      assert (l.dispatched + [i])[|l.dispatched|] == i;
    }
  }

  lemma ReplayRead(s: Sys, c: Consumer, i: Id)
    requires Replaying(s, c) && AtTop(s.runs[c])
    requires IsLeastAbove(PelOf(s, c), Cursor(s, c), i)
    ensures var steps := [Ask(c), ReadPending(c, Some(i))];
            && Valid(s, steps)
            && var s' := Exec(s, steps);
            && Replaying(s', c) && SameReplay(s, s', c) && PelOf(s', c) == PelOf(s, c) && Cursor(s', c) == Cursor(s, c)
            && s'.runs[c].loop == s.runs[c].loop
            && s'.runs[c].hand == Some(Message(i, HasEvent(s', i))) && s'.runs[c].read.NotReading?
  {
    OneStep(s, Ask(c));
    OneStep(Next(s, Ask(c)), ReadPending(c, Some(i)));
    ValidConcat(s, [Ask(c)], [ReadPending(c, Some(i))]);
    assert [Ask(c)] + [ReadPending(c, Some(i))] == [Ask(c), ReadPending(c, Some(i))];
  }

  // One iteration: asking, receiving the next pending entry, and handling it.
  lemma ReplayOne(s: Sys, c: Consumer, i: Id) returns (s': Sys)
    requires Replaying(s, c) && AtTop(s.runs[c])
    requires IsLeastAbove(PelOf(s, c), Cursor(s, c), i) && !Stops(s, s.runs[c].loop.bound, i)
    ensures var steps := [Ask(c), ReadPending(c, Some(i)), HandleMessage(c, true)];
            Valid(s, steps) && NothingTrimmed(steps) && s' == Exec(s, steps)
    ensures Replaying(s', c) && AtTop(s'.runs[c]) && SameReplay(s, s', c)
    ensures Cursor(s', c).AtLeast(Cursor(s, c)) && i.AtLeast(Cursor(s', c))
    ensures HasEvent(s, i) ==> i in s'.runs[c].loop.dispatched && FreshTask(s, c, i) in s'.tasks
    ensures |Above(PelOf(s', c), Cursor(s', c))| < |Above(PelOf(s, c), Cursor(s, c))|
  {
    ReplayRead(s, c, i);
    var read := [Ask(c), ReadPending(c, Some(i))];
    var mid := Exec(s, read);
    ReplayHandle(mid, c, i);
    s' := Next(mid, HandleMessage(c, true));
    OneStep(mid, HandleMessage(c, true));
    ValidConcat(s, read, [HandleMessage(c, true)]);
    assert read + [HandleMessage(c, true)] == [Ask(c), ReadPending(c, Some(i)), HandleMessage(c, true)];
    SubsetCard(Above(PelOf(s', c), Cursor(s', c)), Above(PelOf(s, c), Cursor(s, c)) - {i});
  }

  lemma {:induction false} ValidConcat(s: Sys, a: seq<Step>, b: seq<Step>)
    requires Valid(s, a) && Valid(Exec(s, a), b)
    ensures Valid(s, a + b) && Exec(s, a + b) == Exec(Exec(s, a), b)
    decreases |a|
  {
    if a == [] {
      assert a + b == b;
    } else {
      assert (a + b)[1..] == a[1..] + b;
      ValidConcat(Next(s, a[0]), a[1..], b);
    }
  }

  lemma HandAhead(s: Sys, c: Consumer)
    requires Inv(s) && Replaying(s, c)
    ensures s.runs[c].hand.Some? ==> Cursor(s, c).Less(s.runs[c].hand.value.id)
    ensures s.runs[c].hand.Some? && !s.runs[c].hand.value.valid ==> !HasEvent(s, s.runs[c].hand.value.id)
  {
    hide ServerInv;
    assert RunInv(s, c, s.runs[c]);
  }

  // Finishing what the loop is in the middle of.
  lemma ToTop(s: Sys, c: Consumer) returns (steps: seq<Step>)
    requires Inv(s) && Replaying(s, c)
    requires var r := s.runs[c]; r.hand.Some? && r.hand.value.valid ==> !Exceeds(r.loop.bound, r.hand.value.id)
    ensures Valid(s, steps)
    ensures var s' := Exec(s, steps);
            && Replaying(s', c) && AtTop(s'.runs[c]) && SameReplay(s, s', c) && Cursor(s', c).AtLeast(Cursor(s, c))
  {
    hide Inv, Exceeds;
    RunBasics(s, c);
    HandAhead(s, c);
    var r := s.runs[c];
    if r.hand.Some? {
      steps := [HandleMessage(c, true)];
      OneStep(s, HandleMessage(c, true));
      HandleEffect(s, c, true);
    } else if !r.read.NotReading? {
      steps := [ReadFails(c)];
      OneStep(s, ReadFails(c));
    } else {
      steps := [];
    }
  }

  lemma NoStopAhead(s: Sys, s': Sys, c: Consumer)
    requires Replaying(s, c) && Replaying(s', c) && SameReplay(s, s', c) && Cursor(s', c).AtLeast(Cursor(s, c))
    requires forall j <- Above(PelOf(s, c), Cursor(s, c)) :: !Stops(s, s.runs[c].loop.bound, j)
    ensures forall j <- Above(PelOf(s', c), Cursor(s', c)) :: !Stops(s', s'.runs[c].loop.bound, j)
  {
    hide Exceeds;
    forall j <- Above(PelOf(s', c), Cursor(s', c)) ensures !Stops(s', s'.runs[c].loop.bound, j) {
      assert j in Above(PelOf(s, c), Cursor(s, c));
    }
  }

  // From any state of a replay, with whatever bound: if the message in hand and the pending
  // events ahead are all below the bound, reads and acks that succeed bring the loop to new messages
  // with no pending event lost.
  lemma ReplayFinishes(s: Sys, c: Consumer) returns (steps: seq<Step>)
    requires Inv(s) && Replaying(s, c)
    requires var r := s.runs[c]; r.hand.Some? && r.hand.value.valid ==> !Exceeds(r.loop.bound, r.hand.value.id)
    requires forall j <- Above(PelOf(s, c), Cursor(s, c)) :: !Stops(s, s.runs[c].loop.bound, j)
    ensures Valid(s, steps)
    ensures var s' := Exec(s, steps); SameReplay(s, s', c) && s'.runs[c].loop.position.New?
  {
    hide Inv, Exceeds;
    var top := ToTop(s, c);
    NoStopAhead(s, Exec(s, top), c);
    var rest := ReplayFromTop(Exec(s, top), c);
    ValidConcat(s, top, rest);
    steps := top + rest;
  }

  lemma {:induction false} ReplayFromTop(s: Sys, c: Consumer) returns (steps: seq<Step>)
    requires Replaying(s, c) && AtTop(s.runs[c])
    requires forall j <- Above(PelOf(s, c), Cursor(s, c)) :: !Stops(s, s.runs[c].loop.bound, j)
    ensures Valid(s, steps)
    ensures var s' := Exec(s, steps);
            && SameReplay(s, s', c) && s'.runs[c].loop.position.New? && AtTop(s'.runs[c])
            && !s'.runs[c].loop.exit && s'.runs[c].no !in s'.cancelled && s'.lastDelivered == s.lastDelivered
    decreases |Above(PelOf(s, c), Cursor(s, c))|
  {
    if Above(PelOf(s, c), Cursor(s, c)) == {} {
      steps := [Ask(c)] + [ReadPending(c, None)];
      OneStep(s, Ask(c));
      OneStep(Next(s, Ask(c)), ReadPending(c, None));
      ValidConcat(s, [Ask(c)], [ReadPending(c, None)]);
    } else {
      var i := LeastAbove(PelOf(s, c), Cursor(s, c));
      assert i in Above(PelOf(s, c), Cursor(s, c));
      var s' := ReplayOne(s, c, i);
      NoStopAhead(s, s', c);
      var rest := ReplayFromTop(s', c);
      steps := [Ask(c), ReadPending(c, Some(i)), HandleMessage(c, true)];
      ValidConcat(s, steps, rest);
      steps := steps + rest;
    }
  }

  // ---------- Redelivery after a crash ----------

  ghost predicate DispatchedBy(s: Sys, c: Consumer, no: nat, i: Id) {
    IsRun(s, c, no) && i in s.runs[c].loop.dispatched
  }

  // The consumer's process restarts and subscribes with this bound.
  function Restarted(s: Sys, c: Consumer, bound: Option<string>): Sys {
    Started(Crashed(s, c), c, bound)
  }

  ghost predicate Redelivers(s: Sys, c: Consumer, no: nat, i: Id) {
    exists steps :: Valid(s, steps) && NothingTrimmed(steps) && DispatchedBy(Exec(s, steps), c, no, i)
  }

  // From every reachable state, whatever crashed or is in flight, and for every bound: a restart
  // can redeliver a pending event if and only if neither the event itself nor a pending event
  // before it is at or past the bound. Whatever else is read, dispatched, acknowledged or restarted
  // meanwhile does not change that; only trimming can.
  lemma RedeliveredExactly(s: Sys, c: Consumer, bound: Option<string>, i: Id)
    requires Reachable(s) && Holds(s.pel, c, i) && HasEvent(s, i)
    ensures Redelivers(Restarted(s, c, bound), c, s.nextRun, i)
            <==> forall j <- PelOf(s, c) :: i.AtLeast(j) ==> !Stops(s, bound, j)
  {
    ReachableInv(s);
    ReachableOwners(s);
    RestartReady(s, c, bound);
    RestartOwners(s, c, bound);
    var s1 := Restarted(s, c, bound);
    if forall j <- PelOf(s, c) :: i.AtLeast(j) ==> !Stops(s, bound, j) {
      assert i in Above(PelOf(s1, c), ZERO_ID);
      var steps := ReplayReaches(s1, c, i);
    } else {
      var k :| k in PelOf(s, c) && i.AtLeast(k) && Stops(s, bound, k);
      StartHalting(s, c, bound, k);
      forall steps | Valid(s1, steps) && NothingTrimmed(steps) ensures !DispatchedBy(Exec(s1, steps), c, s.nextRun, i) {
        HaltingRun(s1, steps, c, s.nextRun, bound, k);
      }
    }
  }

  lemma RestartReady(s: Sys, c: Consumer, bound: Option<string>)
    requires Inv(s)
    ensures var s1 := Restarted(s, c, bound);
            && Inv(s1) && Replaying(s1, c) && AtTop(s1.runs[c]) && IsRun(s1, c, s.nextRun)
            && s1.runs[c].loop == Fresh(bound) && s1.pel == s.pel && s1.live == s.live && s1.entries == s.entries
            && forall i <- PelOf(s, c) :: ZERO_ID.Less(i)
  {
    CrashKeepsInv(s, c);
    StartRunKeepsInv(Crashed(s, c), c, bound);
    forall i <- PelOf(s, c) ensures ZERO_ID.Less(i) {
      assert Holds(s.pel, c, i);
    }
  }

  lemma RestartOwners(s: Sys, c: Consumer, bound: Option<string>)
    requires Inv(s) && HolderInv(s) && NumberInv(s)
    ensures HolderInv(Restarted(s, c, bound)) && NumberInv(Restarted(s, c, bound))
  {
    hide Inv, HolderInv, NumberInv;
    CrashKeepsInv(s, c);
    HoldersStep(s, Crash(c));
    NumbersStep(s, Crash(c));
    HoldersStep(Crashed(s, c), StartRun(c, bound));
    NumbersStep(Crashed(s, c), StartRun(c, bound));
  }

  // The crash ends all dispatches that could acknowledge an entry of this consumer.
  lemma StartHalting(s: Sys, c: Consumer, bound: Option<string>, k: Id)
    requires HolderInv(s) && k in PelOf(s, c) && Stops(s, bound, k) && ZERO_ID.Less(k)
    ensures Halting(Restarted(s, c, bound), c, s.nextRun, bound, k)
  {
    hide Exceeds;
    assert Holds(s.pel, c, k);
  }

  lemma {:induction false} ReplayReaches(s: Sys, c: Consumer, i: Id) returns (steps: seq<Step>)
    requires Replaying(s, c) && AtTop(s.runs[c])
    requires i in Above(PelOf(s, c), Cursor(s, c)) && HasEvent(s, i)
    requires forall j <- PelOf(s, c) :: i.AtLeast(j) ==> !Stops(s, s.runs[c].loop.bound, j)
    ensures Valid(s, steps) && NothingTrimmed(steps) && DispatchedBy(Exec(s, steps), c, s.runs[c].no, i)
    ensures var s' := Exec(s, steps);
            s.runs[c].no !in s'.cancelled && FreshTask(s, c, i) in s'.tasks && i in PelOf(s', c)
    decreases |Above(PelOf(s, c), Cursor(s, c))|
  {
    var j := LeastAbove(PelOf(s, c), Cursor(s, c));
    var s' := ReplayOne(s, c, j);
    steps := [Ask(c), ReadPending(c, Some(j)), HandleMessage(c, true)];
    if j != i {
      var rest := ReplayReaches(s', c, i);
      ValidConcat(s, steps, rest);
      steps := steps + rest;
    }
  }

  // The run has not come past the pending event k, which its bound stops, and no dispatch is there
  // that could acknowledge it.
  ghost predicate Halting(s: Sys, c: Consumer, no: nat, bound: Option<string>, k: Id) {
    && no < s.nextRun
    && (IsRun(s, c, no) ==>
          var r := s.runs[c];
          && k in PelOf(s, c) && Stops(s, bound, k)
          && (forall t <- s.tasks :: t.id != k)
          && r.loop.bound == bound && r.loop.position.Pending? && r.loop.position.after.Less(k)
          && (forall d <- r.loop.dispatched :: d.Less(k))
          && (r.hand.Some? ==> k.AtLeast(r.hand.value.id) && (r.hand.value.id == k ==> r.hand.value.valid)))
  }

  lemma HaltingHandle(s: Sys, d: Consumer, acked: bool, c: Consumer, no: nat, bound: Option<string>, k: Id)
    requires Halting(s, c, no, bound, k) && Enabled(s, HandleMessage(d, acked))
    requires !s.runs[d].hand.value.valid ==> !HasEvent(s, s.runs[d].hand.value.id)
    requires HeldOnlyBy(s.pel, d, s.runs[d].hand.value.id)
    ensures Halting(OnHandle(s, d, acked), c, no, bound, k)
  {
    hide StrAtLeast;
    HandleEffect(s, d, acked);
    if IsRun(s, c, no) {
      assert Holds(s.pel, c, k);
    }
  }

  lemma HaltingTaskStep(s: Sys, step: Step, c: Consumer, no: nat, bound: Option<string>, k: Id)
    requires Halting(s, c, no, bound, k) && Enabled(s, step) && IsTaskStep(step)
    ensures Halting(Next(s, step), c, no, bound, k)
  {
    hide Exceeds;
    var s' := Next(s, step);
    assert s'.live == s.live && s'.entries == s.entries && s'.runs == s.runs && s'.nextRun == s.nextRun;
    if IsRun(s, c, no) {
      assert step.t.id != k;
      assert k in PelOf(s', c);
    }
  }

  lemma HaltingOtherStep(s: Sys, step: Step, c: Consumer, no: nat, bound: Option<string>, k: Id)
    requires Halting(s, c, no, bound, k) && Enabled(s, step) && !step.Trim?
    requires !IsTaskStep(step) && !step.HandleMessage?
    ensures Halting(Next(s, step), c, no, bound, k)
  {
    hide Exceeds;
    if step.ReadPending? && step.c == c && IsRun(s, c, no) {
      assert k in Above(PelOf(s, c), Cursor(s, c));
    }
  }

  lemma HaltingStep(s: Sys, step: Step, c: Consumer, no: nat, bound: Option<string>, k: Id)
    requires Inv(s) && HolderInv(s) && Halting(s, c, no, bound, k) && Enabled(s, step) && !step.Trim?
    ensures Halting(Next(s, step), c, no, bound, k)
  {
    if step.HandleMessage? {
      HandReady(s, step.c);
      hide Inv, Halting;
      HaltingHandle(s, step.c, step.acked, c, no, bound, k);
    } else if IsTaskStep(step) {
      hide Inv, HolderInv, Halting;
      HaltingTaskStep(s, step, c, no, bound, k);
    } else {
      hide Inv, HolderInv, Halting;
      HaltingOtherStep(s, step, c, no, bound, k);
    }
  }

  lemma {:induction false} HaltingRun(s: Sys, steps: seq<Step>, c: Consumer, no: nat, bound: Option<string>, k: Id)
    requires Inv(s) && HolderInv(s) && Halting(s, c, no, bound, k) && Valid(s, steps) && NothingTrimmed(steps)
    ensures Halting(Exec(s, steps), c, no, bound, k)
    decreases |steps|
  {
    hide Inv, HolderInv, Halting;
    if steps != [] {
      assert steps[0] in steps && forall step <- steps[1..] :: step in steps;
      HaltingStep(s, steps[0], c, no, bound, k);
      StepKeepsInv(s, steps[0]);
      HoldersStep(s, steps[0]);
      HaltingRun(Next(s, steps[0]), steps[1..], c, no, bound, k);
    }
  }

  // In particular, from every reachable state a restart without bound redelivers every pending event.
  lemma PendingIsRedelivered(s: Sys, c: Consumer, i: Id)
    requires Reachable(s) && Holds(s.pel, c, i) && HasEvent(s, i)
    ensures Redelivers(Restarted(s, c, None), c, s.nextRun, i)
  {
    RedeliveredExactly(s, c, None, i);
  }
}
