/** What moves what: exactly the steps that change an entry's place, a run of the loop, or a
    dispatch, and how. Every other step leaves it as it is.
  */
module RedisMoves {
  import opened Options
  import opened StreamIds
  import opened SubscriptionLoop
  import opened RedisGroup
  import opened RedisOwners
  import opened RedisProgress

  // ---------- What moves an entry ----------

  // The server hands the entry to this consumer, whether the reply arrives or not.
  predicate HandsOver(step: Step, c: Consumer, i: Id) {
    (step.ReadNew? || step.ReadNewLost?) && step.c == c && step.id == i
  }

  // An acknowledgement of the entry takes effect: of its dispatch, or of a message without event.
  predicate Acknowledges(s: Sys, step: Step, i: Id) {
    || (step.TaskAck? && step.applied && step.t.id == i)
    || (step.HandleMessage? && step.acked && step.c in s.runs && s.runs[step.c].hand == Some(Message(i, false)))
  }

  // Exactly these steps move an entry, each in its own way; every other step leaves every entry
  // where it is.
  lemma EntryMoves(s: Sys, step: Step, c: Consumer, i: Id)
    requires Enabled(s, step)
    ensures var s' := Next(s, step);
            && (Holds(s'.pel, c, i) <==> HandsOver(step, c, i) || (Holds(s.pel, c, i) && !Acknowledges(s, step, i)))
            && (i in s'.acked <==> i in s.acked || (Acknowledges(s, step, i) && exists d :: Holds(s.pel, d, i)))
            && (i in s'.delivered <==> i in s.delivered || exists d :: HandsOver(step, d, i))
            && s'.lastDelivered == (if step.ReadNew? || step.ReadNewLost? then step.id else s.lastDelivered)
  {
    if step.ReadNew? || step.ReadNewLost? {
      assert HandsOver(step, step.c, step.id);
      hide HasEvent, IsLeastAbove;
    } else if step.HandleMessage? {
      HandleMoves(s, step.c, step.acked, c, i);
    } else if step.TaskAck? {
      AckMoves(s.(tasks := s.tasks - {step.t}), step.t.id, c, i);
    } else {
      hide HasEvent, IsLeastAbove, Above;
    }
  }

  lemma AckMoves(s: Sys, id: Id, c: Consumer, i: Id)
    ensures var s' := ApplyAck(s, id);
            && (Holds(s'.pel, c, i) <==> Holds(s.pel, c, i) && i != id)
            && (i in s'.acked <==> i in s.acked || (i == id && exists d :: Holds(s.pel, d, i)))
  {
    if d :| d in s.pel && id in s.pel[d] {
      assert Holds(s.pel, d, id);
    }
  }

  lemma HandleMoves(s: Sys, d: Consumer, acked: bool, c: Consumer, i: Id)
    requires Enabled(s, HandleMessage(d, acked))
    ensures var s', step := OnHandle(s, d, acked), HandleMessage(d, acked);
            && (Holds(s'.pel, c, i) <==> Holds(s.pel, c, i) && !Acknowledges(s, step, i))
            && (i in s'.acked <==> i in s.acked || (Acknowledges(s, step, i) && exists e :: Holds(s.pel, e, i)))
            && s'.delivered == s.delivered && s'.lastDelivered == s.lastDelivered
  {
    hide Exceeds;
    var r, m := s.runs[d], s.runs[d].hand.value;
    if !m.valid && acked {
      var dispatch := m.valid && !Exceeds(r.loop.bound, m.id);
      AckMoves(s.(runs := s.runs[d := Handled(r, m, acked)], tasks := s.tasks), m.id, c, i);
      assert OnHandle(s, d, acked).pel == ApplyAck(s, m.id).pel;
      AckMoves(s, m.id, c, i);
    }
  }

  // ---------- The stream ----------

  // Entries come by being appended and stay as they are; the history of what was lost to trimming or
  // discarded tells of exactly those.
  lemma StreamMoves(s: Sys, step: Step, i: Id)
    requires Enabled(s, step)
    ensures var s' := Next(s, step);
            && s'.start == s.start
            && (i in s'.entries <==> i in s.entries || (step.Append? && step.id == i))
            && (i in s'.entries ==> s'.entries[i] == if step.Append? && step.id == i then step.valid else s.entries[i])
            && (i in s'.live <==> (i in s.live && !(step.Trim? && i in step.gone)) || (step.Append? && step.id == i))
            && (i in s'.cut <==> i in s.cut || (step.Trim? && i in step.gone && i !in s.acked))
            && (i in s'.discarded <==>
                  i in s.discarded
                  || (step.HandleMessage? && Acknowledges(s, step, i) && exists d :: Holds(s.pel, d, i)))
  {
    hide Exceeds, IsLeastAbove;
    if step.HandleMessage? && Acknowledges(s, step, i) {
      if d :| d in s.pel && i in s.pel[d] {
        assert Holds(s.pel, d, i);
      }
    }
  }

  // ---------- Runs ----------

  // Runs begin, are cancelled, and end by closing their stop channel or with their process.
  lemma RunsComeAndGo(s: Sys, step: Step, c: Consumer, no: nat)
    requires Enabled(s, step)
    ensures var s' := Next(s, step);
            && (IsRun(s', c, no) <==>
                  if step.StartRun? && step.c == c then no == s.nextRun
                  else IsRun(s, c, no) && !((step.Exit? || step.Crash?) && step.c == c))
            && s'.nextRun == (if step.StartRun? then s.nextRun + 1 else s.nextRun)
            && (no in s'.closed <==> no in s.closed || (step.Exit? && IsRun(s, step.c, no)))
            && (no in s'.cancelled <==> no in s.cancelled || (step.Cancel? && IsRun(s, step.c, no)))
            && (forall b :: b in s'.bounds <==> b in s.bounds || (step.StartRun? && step.bound == b))
  {
    hide Exceeds, IsLeastAbove, HasEvent, Handle, OnReply;
    if step.HandleMessage? {
      HandleEffect(s, step.c, step.acked);
      hide OnHandle;
    }
  }

  // A run begins at the top, before all pending entries, with its flag down.
  lemma RunBegins(s: Sys, c: Consumer, bound: Option<string>)
    requires Enabled(s, StartRun(c, bound))
    ensures var s' := Next(s, StartRun(c, bound));
            && c in s'.runs
            && var r := s'.runs[c];
            && AtTop(r) && !r.flagged && !r.loop.exit && r.loop.position == Pending(ZERO_ID) && r.loop.bound == bound
            && r.loop.dispatched == [] && r.startPel == PelOf(s, c) && r.readCount == 0 && r.failedAcks == 0
  {
  }

  predicate Handles(s: Sys, step: Step, c: Consumer, m: Message) {
    step.HandleMessage? && step.c == c && c in s.runs && s.runs[c].hand == Some(m)
  }

  predicate Receives(step: Step, c: Consumer, i: Id) {
    (step.ReadNew? && step.c == c && step.id == i) || step == ReadPending(c, Some(i))
  }

  // A read is over when it is answered, with a message or without, or fails.
  predicate ReadEnds(step: Step, c: Consumer) {
    (step.ReadPending? || step.ReadNew? || step.ReadNewLost? || step.ReadFails?) && step.c == c
  }

  // The message in hand, the read, and the flag of the context's goroutine.
  lemma ReadMoves(s: Sys, step: Step, c: Consumer)
    requires Enabled(s, step) && c in s.runs && c in Next(s, step).runs && !(step.StartRun? && step.c == c)
    ensures var r, r' := s.runs[c], Next(s, step).runs[c];
            && r'.startPel == r.startPel
            && (r'.flagged <==> r.flagged || step == Flag(c))
            && r'.readCount == r.readCount + (if step.ReadPending? && step.c == c then 1 else 0)
            && (forall i :: Receives(step, c, i) ==>
                  r'.hand == Some(Message(i, i in s.live && i in s.entries && s.entries[i])))
            && ((forall i :: !Receives(step, c, i)) ==>
                  r'.hand == if step.HandleMessage? && step.c == c then None else r.hand)
            && r'.read == if ReadEnds(step, c) then NotReading
                          else if step != Ask(c) then r.read
                          else if r.no in s.cancelled then Doomed
                          else InFlight
  {
    hide Exceeds, IsLeastAbove, Handle, OnReply;
    if step.ReadNew? || step.ReadPending? {
      assert step.ReadNew? ==> Receives(step, step.c, step.id);
      assert step.ReadPending? && step.found.Some? ==> Receives(step, step.c, step.found.value);
    } else if step.HandleMessage? {
      HandleEffect(s, step.c, step.acked);
      hide OnHandle;
    }
  }

  // The loop itself: it changes by the messages it handles, by an empty reply and by the context's
  // goroutine, which raises the flag. A message at the bound raises it too, and one that a bounded
  // loop dispatches clears it.
  lemma LoopMoves(s: Sys, step: Step, c: Consumer)
    requires Enabled(s, step) && c in s.runs && c in Next(s, step).runs && !(step.StartRun? && step.c == c)
    ensures var l, l' := s.runs[c].loop, Next(s, step).runs[c].loop;
            && l'.bound == l.bound
            && (if step.HandleMessage? && step.c == c then LoopTook(l, s.runs[c].hand.value, l')
                else LoopKept(l, step == Flag(c), step == ReadPending(c, None), l'))
  {
    if step.HandleMessage? {
      HandlingMoves(s, step.c, step.acked, c);
      hide Enabled, LoopTook, LoopKept, OnHandle;
    } else {
      hide Exceeds, IsLeastAbove, HasEvent, Above, PelOf, LoopTook, OnHandle;
    }
  }

  lemma HandlingMoves(s: Sys, d: Consumer, acked: bool, c: Consumer)
    requires Enabled(s, HandleMessage(d, acked)) && c in s.runs
    ensures var s' := OnHandle(s, d, acked);
            && c in s'.runs
            && var l, l' := s.runs[c].loop, s'.runs[c].loop;
            && l'.bound == l.bound
            && if c == d then LoopTook(l, s.runs[c].hand.value, l') else LoopKept(l, false, false, l')
  {
    hide Handle, LoopTook;
    HandleEffect(s, d, acked);
    TookMessage(s.runs[d].loop, s.runs[d].hand.value);
    hide OnHandle;
  }

  ghost predicate LoopKept(l: Loop, raised: bool, empty: bool, l': Loop) {
    && l'.handled == l.handled && l'.dispatched == l.dispatched && l'.removed == l.removed && l'.stopped == l.stopped
    && (l'.exit <==> l.exit || raised)
    && l'.position == if empty then New else l.position
  }

  ghost predicate LoopTook(l: Loop, m: Message, l': Loop) {
    && l'.handled == l.handled + [m]
    && l'.dispatched == l.dispatched + (if m.valid && !Exceeds(l.bound, m.id) then [m.id] else [])
    && l'.removed == l.removed + (if m.valid then [] else [m.id])
    && l'.stopped == l.stopped + (if m.valid && Exceeds(l.bound, m.id) then [m.id] else [])
    && (l'.exit <==> if m.valid && l.bound.Some? then Exceeds(l.bound, m.id) else l.exit)
    && l'.position == if m.valid && !Exceeds(l.bound, m.id) && l.position.Pending? then Pending(m.id) else l.position
  }

  lemma TookMessage(l: Loop, m: Message)
    ensures LoopTook(l, m, Handle(l, m)) && Handle(l, m).bound == l.bound
  {
  }

  // ---------- Dispatches ----------

  // A dispatch begins when its loop hands over an event below the bound; it returns, its ack is sent, and
  // it ends with the ack, without one on a cancelled context, or with its process.
  lemma DispatchMoves(s: Sys, step: Step, t: Task)
    requires Enabled(s, step)
    ensures var s' := Next(s, step);
            && (t in s'.tasks <==>
                  || (t in s.tasks && !(IsTaskStep(step) && step.t == t) && step != Crash(t.consumer))
                  || Begins(s, step, t)
                  || (t.stage.Returned? && step == DispatchReturns(t.(stage := Dispatching)))
                  || (t.stage.AckSent? && step == SendAck(t.(stage := Returned))))
            && (forall i, b :: (i, b) in s'.returned <==>
                  (i, b) in s.returned || (step.DispatchReturns? && step.t.id == i && step.t.bound == b))
  {
    hide IsLeastAbove, HasEvent, Handle, OnReply, Exceeds;
    if step.HandleMessage? {
      HandBegins(s, step.c, step.acked, t);
      hide OnHandle, Begins;
    }
  }

  lemma HandBegins(s: Sys, c: Consumer, acked: bool, t: Task)
    requires Enabled(s, HandleMessage(c, acked))
    ensures t in OnHandle(s, c, acked).tasks <==> t in s.tasks || Begins(s, HandleMessage(c, acked), t)
    ensures OnHandle(s, c, acked).returned == s.returned
  {
    hide HasEvent, Handle, Exceeds;
  }

  predicate Begins(s: Sys, step: Step, t: Task) {
    && t.stage.Dispatching? && Handles(s, step, t.consumer, Message(t.id, true))
    && !Exceeds(t.bound, t.id) && t.bound == s.runs[t.consumer].loop.bound && t.run == s.runs[t.consumer].no
  }

  // ---------- What can happen at any time ----------

  // How the server answers a read that reached it: with the next entry after the cursor, or with the next
  // new one, whose reply can get lost.
  lemma ReadsAreAnswered(s: Sys, c: Consumer, id: Id)
    requires c in s.runs && s.runs[c].read.InFlight?
    ensures match s.runs[c].loop.position
            case Pending(after) =>
              && (Enabled(s, ReadPending(c, None)) <==> forall i <- PelOf(s, c) :: after.AtLeast(i))
              && (Enabled(s, ReadPending(c, Some(id))) <==> IsLeastAbove(PelOf(s, c), after, id))
            case New =>
              && (Enabled(s, ReadNew(c, id)) <==> IsLeastAbove(s.live, s.lastDelivered, id))
              && (Enabled(s, ReadNewLost(c, id)) <==> IsLeastAbove(s.live, s.lastDelivered, id))
  {
    hide Exceeds, HasEvent, IsLeastAbove, PelOf;
    if s.runs[c].loop.position.Pending? {
      var ids, after := PelOf(s, c), s.runs[c].loop.position.after;
      if Above(ids, after) == {} {
        forall i <- ids ensures after.AtLeast(i) { assert i !in Above(ids, after); }
      }
    }
  }

  // When each step is possible. Nothing the environment may do is ruled out in any state: appends with
  // growing IDs, trimming, crashes, cancellations at any point of an iteration, reads that fail, dispatches
  // that take as long as they like, and acknowledgements that do not arrive. On a cancelled context
  // nothing is acknowledged any more, unless it was sent before.
  lemma NothingIsRuledOut(s: Sys, c: Consumer, t: Task, id: Id)
    ensures forall valid :: Enabled(s, Append(id, valid)) <==> ZERO_ID.Less(id) && forall j <- s.entries :: j.Less(id)
    ensures (forall gone :: Enabled(s, Trim(gone)) <==> gone <= s.live) && Enabled(s, Crash(c))
    ensures forall bound :: Enabled(s, StartRun(c, bound)) <==> c !in s.runs || Abandoned(s.runs[c])
    ensures c in s.runs ==>
              && var r := s.runs[c];
              && Enabled(s, Cancel(c))
              && (Enabled(s, Flag(c)) <==> r.no in s.cancelled && !r.flagged)
              && (Enabled(s, Ask(c)) <==> AtTop(r) && !r.loop.exit)
              && (Enabled(s, Exit(c)) <==> AtTop(r) && r.loop.exit)
              && (Enabled(s, ReadFails(c)) <==> !r.read.NotReading?)
              && (Enabled(s, HandleMessage(c, false)) <==> r.hand.Some?)
              && (Enabled(s, HandleMessage(c, true)) <==> r.hand.Some? && r.no !in s.cancelled)
    ensures t in s.tasks ==>
              && (Enabled(s, DispatchReturns(t)) <==> t.stage.Dispatching?)
              && (Enabled(s, SendAck(t)) <==> t.stage.Returned? && t.run !in s.cancelled)
              && (Enabled(s, AckFails(t)) <==> t.stage.Returned? && t.run in s.cancelled)
              && forall applied :: Enabled(s, TaskAck(t, applied)) <==> t.stage.AckSent?
  {
    hide Exceeds, HasEvent, IsLeastAbove, Above, PelOf;
  }
}
