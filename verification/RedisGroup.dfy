/** One consumer group of a Redis stream, read by any number of broker instances.

    The server side (stream, last-delivered ID, pending lists) and the subscription loops with
    their dispatch goroutines form one state; every step is one atomic action of a loop, a
    goroutine, the server or the environment. All results hold for every sequence of steps.
  */
module RedisGroup {
  import opened Options
  import opened StreamIds
  import opened SubscriptionLoop

  type Consumer = string

  // A read is issued and answered in two steps, and anything can happen in between. One that is
  // issued on a cancelled context fails before it reaches the server.
  datatype Read = NotReading | InFlight | Doomed

  // One run of the loop on behalf of a consumer.
  datatype Run = Run(
    no: nat,
    loop: Loop,
    read: Read,
    hand: Option<Message>,    // read, not handled yet
    flagged: bool,            // the goroutine that waits for the context has raised the exit flag
    startPel: set<Id>,        // history: the consumer's pending entries when the run began
    readCount: nat,           // history: replies to reads of pending entries
    failedAcks: nat           // history: acks of invalid messages that did not reach the server
  )

  // An acknowledgement is sent and applied in two steps; on a cancelled context it is not sent.
  datatype Stage = Dispatching | Returned | AckSent

  // A dispatch goroutine. It outlives the run that started it, but not its process.
  datatype Task = Task(consumer: Consumer, run: nat, id: Id, bound: Option<string>, stage: Stage)

  datatype Sys = Sys(
    entries: map<Id, bool>,           // everything ever appended; the value tells if it is a valid CloudEvent
    live: set<Id>,                    // entries not trimmed
    start: Id,                        // where the group was created
    lastDelivered: Id,
    pel: map<Consumer, set<Id>>,
    runs: map<Consumer, Run>,
    tasks: set<Task>,
    nextRun: nat,
    cancelled: set<nat>,              // runs whose context is cancelled
    delivered: set<Id>,               // history: entries the server handed to some consumer
    acked: set<Id>,                   // history: entries an ack removed
    discarded: set<Id>,               // history: those a loop acknowledged because it received no CloudEvent
    cut: set<Id>,                     // history: entries trimmed before they were acknowledged
    returned: set<(Id, Option<string>)>,  // history: dispatches that returned, with their run's bound
    closed: set<nat>,                 // history: runs that closed their stop channel
    bounds: set<Option<string>>       // history: bounds of all runs
  )

  datatype Step =
    | Append(id: Id, valid: bool)
    | Trim(gone: set<Id>)
    | StartRun(c: Consumer, bound: Option<string>)
    | Ask(c: Consumer)                       // top of an iteration, past the check of the flag
    | ReadPending(c: Consumer, found: Option<Id>)
    | ReadNew(c: Consumer, id: Id)
    | ReadNewLost(c: Consumer, id: Id)       // delivered by the server, but the reply never arrived
    | ReadFails(c: Consumer)                 // nothing new, a timeout, an error, or a cancelled context
    | HandleMessage(c: Consumer, acked: bool) // acked: whether the ack of an invalid message is applied
    | Cancel(c: Consumer)                    // of the context
    | Flag(c: Consumer)                      // the waiting goroutine sets the exit flag, once
    | Exit(c: Consumer)
    | DispatchReturns(t: Task)
    | SendAck(t: Task)
    | AckFails(t: Task)                      // the context is cancelled
    | TaskAck(t: Task, applied: bool)        // at the server, unless it does not arrive
    | Crash(c: Consumer)

  function PelOf(s: Sys, c: Consumer): set<Id> {
    if c in s.pel then s.pel[c] else {}
  }

  // The pending entries a cursor has yet to reach.
  function Above(ids: set<Id>, cursor: Id): set<Id> {
    set i | i in ids && cursor.Less(i)
  }

  ghost predicate IsLeastAbove(ids: set<Id>, cursor: Id, i: Id) {
    i in ids && cursor.Less(i) && forall j <- ids :: cursor.Less(j) ==> j.AtLeast(i)
  }

  predicate Reading(s: Sys, c: Consumer) {
    c in s.runs && s.runs[c].read.InFlight?
  }

  // At the top of an iteration.
  predicate AtTop(r: Run) {
    r.hand.None? && r.read.NotReading?
  }

  // A run whose flag was lost does not stop. Unsubscribing gives up waiting for it, and then the
  // trigger can be subscribed again beside it.
  predicate Abandoned(r: Run) {
    r.flagged && !r.loop.exit && r.hand.None?
  }

  ghost predicate Enabled(s: Sys, step: Step) {
    match step
    case Append(id, valid) => ZERO_ID.Less(id) && forall j <- s.entries :: j.Less(id)
    case Trim(gone) => gone <= s.live
    case StartRun(c, bound) => c in s.runs ==> Abandoned(s.runs[c])
    case Ask(c) => c in s.runs && AtTop(s.runs[c]) && !s.runs[c].loop.exit
    case ReadPending(c, found) =>
      && Reading(s, c)
      && s.runs[c].loop.position.Pending?
      && var cursor := s.runs[c].loop.position.after;
         if found.None? then Above(PelOf(s, c), cursor) == {}
         else IsLeastAbove(PelOf(s, c), cursor, found.value)
    case ReadNew(c, id) => Reading(s, c) && s.runs[c].loop.position.New? && IsLeastAbove(s.live, s.lastDelivered, id)
    case ReadNewLost(c, id) =>
      Reading(s, c) && s.runs[c].loop.position.New? && IsLeastAbove(s.live, s.lastDelivered, id)
    case ReadFails(c) => c in s.runs && !s.runs[c].read.NotReading?
    case HandleMessage(c, acked) =>
      c in s.runs && s.runs[c].hand.Some? && (acked ==> s.runs[c].no !in s.cancelled)
    case Cancel(c) => c in s.runs
    case Flag(c) => c in s.runs && s.runs[c].no in s.cancelled && !s.runs[c].flagged
    case Exit(c) => c in s.runs && AtTop(s.runs[c]) && s.runs[c].loop.exit
    case DispatchReturns(t) => t in s.tasks && t.stage.Dispatching?
    case SendAck(t) => t in s.tasks && t.stage.Returned? && t.run !in s.cancelled
    case AckFails(t) => t in s.tasks && t.stage.Returned? && t.run in s.cancelled
    case TaskAck(t, applied) => t in s.tasks && t.stage.AckSent?
    case Crash(c) => true
  }

  function Started(s: Sys, c: Consumer, bound: Option<string>): Sys {
    s.(runs := s.runs[c := Run(s.nextRun, Fresh(bound), NotReading, None, false, PelOf(s, c), 0, 0)],
       nextRun := s.nextRun + 1, bounds := s.bounds + {bound})
  }

  function Cancelled(s: Sys, c: Consumer): Sys
    requires c in s.runs
  {
    s.(cancelled := s.cancelled + {s.runs[c].no})
  }

  function Flagged(s: Sys, c: Consumer): Sys
    requires c in s.runs
  {
    s.(runs := s.runs[c := s.runs[c].(flagged := true, loop := Raise(s.runs[c].loop, true))])
  }

  function Asked(s: Sys, c: Consumer): Sys
    requires c in s.runs
  {
    s.(runs := s.runs[c := s.runs[c].(read := if s.runs[c].no in s.cancelled then Doomed else InFlight)])
  }

  function Failed(s: Sys, c: Consumer): Sys
    requires c in s.runs
  {
    s.(runs := s.runs[c := s.runs[c].(read := NotReading)])
  }

  function Exited(s: Sys, c: Consumer): Sys
    requires c in s.runs
  {
    s.(runs := s.runs - {c}, closed := s.closed + {s.runs[c].no})
  }

  function Crashed(s: Sys, c: Consumer): Sys {
    s.(runs := s.runs - {c}, tasks := set t | t in s.tasks && t.consumer != c)
  }

  // XREADGROUP with ">": the entry becomes pending at the reader.
  function Deliver(s: Sys, c: Consumer, id: Id): Sys {
    s.(lastDelivered := id, delivered := s.delivered + {id}, pel := s.pel[c := PelOf(s, c) + {id}])
  }

  predicate Held(s: Sys, id: Id) {
    exists c :: c in s.pel && id in s.pel[c]
  }

  // XACK: the entry leaves whichever pending list holds it.
  function ApplyAck(s: Sys, id: Id): Sys {
    s.(pel := map c | c in s.pel :: s.pel[c] - {id}, acked := if Held(s, id) then s.acked + {id} else s.acked)
  }

  // The ack of a message without CloudEvent.
  function Discard(s: Sys, id: Id): Sys {
    ApplyAck(s, id).(discarded := if Held(s, id) then s.discarded + {id} else s.discarded)
  }

  function Receive(s: Sys, c: Consumer, id: Id): Sys
    requires c in s.runs
  {
    s.(runs := s.runs[c := s.runs[c].(read := NotReading, hand := Some(Message(id, HasEvent(s, id))))])
  }

  function PendingRead(s: Sys, c: Consumer, id: Id): Sys
    requires c in s.runs
  {
    var r := s.runs[c];
    s.(runs := s.runs[c := r.(read := NotReading, readCount := r.readCount + 1,
                              hand := Some(Message(id, HasEvent(s, id))))])
  }

  // An empty reply: the loop goes over to new messages.
  function PendingEnd(s: Sys, c: Consumer): Sys
    requires c in s.runs
  {
    var r := s.runs[c];
    s.(runs := s.runs[c := r.(read := NotReading, readCount := r.readCount + 1, loop := OnReply(r.loop, [], 0))])
  }

  function Handled(r: Run, m: Message, acked: bool): Run {
    r.(loop := Handle(r.loop, m), hand := None,
       failedAcks := r.failedAcks + if m.valid || acked then 0 else 1)
  }

  function OnHandle(s: Sys, c: Consumer, acked: bool): Sys
    requires c in s.runs && s.runs[c].hand.Some?
  {
    var r := s.runs[c];
    var m := r.hand.value;
    var dispatch := m.valid && !Exceeds(r.loop.bound, m.id);
    var s' := s.(runs := s.runs[c := Handled(r, m, acked)],
                 tasks := s.tasks + if dispatch then {Task(c, r.no, m.id, r.loop.bound, Dispatching)} else {});
    if !m.valid && acked then Discard(s', m.id) else s'
  }

  function Next(s: Sys, step: Step): (s': Sys)
    requires Enabled(s, step)
  {
    match step
    case Append(id, valid) => s.(entries := s.entries[id := valid], live := s.live + {id})
    case Trim(gone) => s.(live := s.live - gone, cut := s.cut + (gone - s.acked))
    case StartRun(c, bound) => Started(s, c, bound)
    case Ask(c) => Asked(s, c)
    case ReadPending(c, found) => if found.None? then PendingEnd(s, c) else PendingRead(s, c, found.value)
    case ReadNew(c, id) => Receive(Deliver(s, c, id), c, id)
    case ReadNewLost(c, id) => Failed(Deliver(s, c, id), c)
    case ReadFails(c) => Failed(s, c)
    case HandleMessage(c, acked) => OnHandle(s, c, acked)
    case Cancel(c) => Cancelled(s, c)
    case Flag(c) => Flagged(s, c)
    case Exit(c) => Exited(s, c)
    case DispatchReturns(t) =>
      s.(tasks := s.tasks - {t} + {t.(stage := Returned)}, returned := s.returned + {(t.id, t.bound)})
    case SendAck(t) => s.(tasks := s.tasks - {t} + {t.(stage := AckSent)})
    case AckFails(t) => s.(tasks := s.tasks - {t})
    case TaskAck(t, applied) =>
      var s' := s.(tasks := s.tasks - {t});
      if applied then ApplyAck(s', t.id) else s'
    case Crash(c) => Crashed(s, c)
  }

  ghost predicate Valid(s: Sys, steps: seq<Step>)
    decreases |steps|
  {
    steps == [] || (Enabled(s, steps[0]) && Valid(Next(s, steps[0]), steps[1..]))
  }

  ghost function Exec(s: Sys, steps: seq<Step>): Sys
    requires Valid(s, steps)
    decreases |steps|
  {
    if steps == [] then s else Exec(Next(s, steps[0]), steps[1..])
  }

  // A stream with any contents, on which the group is created at any start ID.
  ghost predicate Initial(s: Sys) {
    && (forall i <- s.entries :: ZERO_ID.Less(i))
    && s.live <= s.entries.Keys
    && s.lastDelivered == s.start
    && s.pel == map[] && s.runs == map[] && s.tasks == {}
    && s.delivered == {} && s.acked == {} && s.discarded == {} && s.cut == s.entries.Keys - s.live
    && s.returned == {} && s.cancelled == {} && s.closed == {} && s.bounds == {}
  }

  // ---------- What every reachable state satisfies ----------

  ghost predicate Holds(pel: map<Consumer, set<Id>>, c: Consumer, i: Id) {
    c in pel && i in pel[c]
  }

  // The dispatch of this entry returned: it was filtered, sent, dead-lettered or logged as lost.
  ghost predicate Processed(returned: set<(Id, Option<string>)>, i: Id) {
    exists p <- returned :: p.0 == i
  }

  predicate IsEvent(s: Sys, i: Id) {
    i in s.entries && s.entries[i]
  }

  predicate HasEvent(s: Sys, i: Id) {
    i in s.live && IsEvent(s, i)
  }

  ghost predicate LogInv(s: Sys) {
    && (forall i <- s.entries :: ZERO_ID.Less(i))
    && s.live <= s.entries.Keys
    && s.lastDelivered.AtLeast(s.start)
    && (s.lastDelivered == s.start || s.lastDelivered in s.delivered)
    && s.delivered <= s.entries.Keys
    && (forall i <- s.delivered :: s.start.Less(i) && s.lastDelivered.AtLeast(i))
    && (forall i <- s.live :: s.start.Less(i) && s.lastDelivered.AtLeast(i) ==> i in s.delivered)
    && (forall i <- s.entries :: i in s.live || i in s.cut || i in s.acked)
  }

  ghost predicate PlaceInv(pel: map<Consumer, set<Id>>, delivered: set<Id>, acked: set<Id>) {
    && (forall c, i :: Holds(pel, c, i) ==> i in delivered && i !in acked)
    && (forall c, d, i :: Holds(pel, c, i) && Holds(pel, d, i) ==> c == d)
    && acked <= delivered
    && (forall i <- delivered :: i in acked || exists c :: Holds(pel, c, i))
  }

  ghost predicate AckInv(s: Sys) {
    && (forall i <- s.acked :: Processed(s.returned, i) || i in s.discarded)
    && (forall i <- s.discarded :: !IsEvent(s, i) || i in s.cut)
    && s.discarded <= s.acked
  }

  ghost predicate TaskInv(s: Sys) {
    && (forall t <- s.tasks ::
          && t.bound in s.bounds && t.run < s.nextRun && !Exceeds(t.bound, t.id)
          && (!t.stage.Dispatching? ==> (t.id, t.bound) in s.returned))
    && (forall p <- s.returned :: p.1 in s.bounds && !Exceeds(p.1, p.0))
  }

  ghost predicate Increasing(ids: seq<Id>) {
    forall i, j :: 0 <= i < j < |ids| ==> ids[i].Less(ids[j])
  }

  // How far the loop has come: nothing it handled is beyond this ID.
  function Reach(s: Sys, r: Run): Id {
    if r.loop.position.Pending? then r.loop.position.after else s.lastDelivered
  }

  // Dispatched messages are in ID order, and a message in hand is beyond all of them.
  ghost predicate OrderInv(s: Sys, r: Run) {
    && Increasing(r.loop.dispatched)
    && s.lastDelivered.AtLeast(Reach(s, r))
    && (forall i <- r.loop.dispatched ::
          i in s.delivered && IsEvent(s, i) && Reach(s, r).AtLeast(i) && (r.hand.Some? ==> i.Less(r.hand.value.id)))
    && (r.hand.Some? ==>
          && var m := r.hand.value;
          && m.id in s.delivered
          && (if m.valid then IsEvent(s, m.id) else !HasEvent(s, m.id))
          && (r.loop.position.Pending? ==> r.loop.position.after.Less(m.id)))
  }

  ghost predicate Passed(r: Run, i: Id) {
    match r.loop.position
    case New => true
    case Pending(after) => after.AtLeast(i) || (r.hand.Some? && i.Less(r.hand.value.id))
  }

  // Entries pending since the run began that the loop has passed were dispatched or are gone.
  ghost predicate ReplayInv(r: Run, pel: set<Id>, delivered: set<Id>) {
    && r.startPel <= delivered
    && (r.loop.position.Pending? ==> pel <= r.startPel)
    && (forall i <- r.startPel :: Passed(r, i) ==> i in r.loop.dispatched || i !in pel)
  }

  ghost predicate ReadsInv(r: Run, pel: set<Id>) {
    match r.loop.position
    case New => r.readCount <= |r.startPel| + r.failedAcks + 1
    case Pending(after) =>
      r.readCount + |Above(pel, after)| <= |r.startPel| + r.failedAcks
        + if r.loop.stopped != [] || (r.hand.Some? && r.hand.value.id in pel) then 1 else 0
  }

  // A run whose flag was raised and cleared again is past its last read that reached the server.
  ghost predicate ContextInv(s: Sys, r: Run) {
    && (r.flagged ==> r.no in s.cancelled)
    && (r.read.Doomed? ==> r.no in s.cancelled)
    && (r.hand.Some? ==> r.read.NotReading?)
    && (r.flagged && !r.loop.exit ==> r.loop.bound.Some? && r.hand.None? && !r.read.InFlight?)
  }

  ghost predicate RunInv(s: Sys, c: Consumer, r: Run) {
    && r.no < s.nextRun && r.no !in s.closed
    && ContextInv(s, r)
    && r.loop.bound in s.bounds
    && LoopOk(r.loop)
    && (AtTop(r) || r.loop.stopped == [])
    && OrderInv(s, r)
    && ReplayInv(r, PelOf(s, c), s.delivered)
    && ReadsInv(r, PelOf(s, c))
  }

  ghost predicate RunsInv(s: Sys) {
    && (forall c <- s.runs :: RunInv(s, c, s.runs[c]))
    && (forall c, d :: c in s.runs && d in s.runs && s.runs[c].no == s.runs[d].no ==> c == d)
    && (forall n <- s.closed :: n < s.nextRun)
    && (forall n <- s.cancelled :: n < s.nextRun)
  }

  ghost predicate ServerInv(s: Sys) {
    LogInv(s) && PlaceInv(s.pel, s.delivered, s.acked) && AckInv(s) && TaskInv(s)
  }

  ghost predicate Inv(s: Sys) {
    ServerInv(s) && RunsInv(s)
  }

  // ---------- What a step can do to the runs it is not about ----------

  ghost predicate Advances(s: Sys, s': Sys) {
    && s.nextRun <= s'.nextRun && s.bounds <= s'.bounds && s.cancelled <= s'.cancelled
    && s.delivered <= s'.delivered && s'.lastDelivered.AtLeast(s.lastDelivered)
    && (forall i <- s.delivered :: HasEvent(s', i) ==> HasEvent(s, i))
    && (forall i <- s.delivered :: IsEvent(s, i) ==> IsEvent(s', i))
  }

  lemma {:induction false} SubsetCard<T>(a: set<T>, b: set<T>)
    requires a <= b
    ensures |a| <= |b|
  {
    if a != {} {
      var x :| x in a;
      SubsetCard(a - {x}, b - {x});
    }
  }

  lemma ReadsInvShrinks(r: Run, pel: set<Id>, pel': set<Id>)
    requires ReadsInv(r, pel) && pel' <= pel
    requires r.loop.position.Pending? && r.hand.Some? ==> r.loop.position.after.Less(r.hand.value.id)
    ensures ReadsInv(r, pel')
  {
    if r.loop.position.Pending? {
      var after := r.loop.position.after;
      if r.hand.Some? && r.hand.value.id in pel && r.hand.value.id !in pel' {
        SubsetCard(Above(pel', after), Above(pel, after) - {r.hand.value.id});
      } else {
        SubsetCard(Above(pel', after), Above(pel, after));
      }
    }
  }

  lemma OtherRun(s: Sys, s': Sys, c: Consumer, r: Run)
    requires RunInv(s, c, r) && Advances(s, s')
    requires PelOf(s', c) <= PelOf(s, c) && r.no !in s'.closed
    ensures RunInv(s', c, r)
  {
    ReadsInvShrinks(r, PelOf(s, c), PelOf(s', c));
  }

  // All runs of s', given the run of the one consumer the step is about.
  lemma RunsAfterStep(s: Sys, s': Sys, c: Consumer)
    requires RunsInv(s) && Advances(s, s') && s'.closed == s.closed
    requires forall n <- s'.cancelled :: n < s'.nextRun
    requires forall d <- s'.runs :: d != c ==> d in s.runs && s'.runs[d] == s.runs[d]
    requires forall d :: d != c ==> PelOf(s', d) <= PelOf(s, d)
    requires c in s'.runs ==> RunInv(s', c, s'.runs[c])
    requires c in s'.runs ==> s'.runs[c].no == s.nextRun || (c in s.runs && s'.runs[c].no == s.runs[c].no)
    ensures RunsInv(s')
  {
    forall d <- s'.runs | d != c ensures RunInv(s', d, s'.runs[d]) {
      OtherRun(s, s', d, s.runs[d]);
    }
  }

  // All runs of s', when the step was about none of those that are left.
  lemma RunsUntouched(s: Sys, s': Sys)
    requires RunsInv(s) && Advances(s, s')
    requires forall c <- s'.runs :: c in s.runs && s'.runs[c] == s.runs[c]
    requires forall c <- s'.runs :: s'.runs[c].no in s'.closed ==> s'.runs[c].no in s.closed
    requires forall n <- s'.closed + s'.cancelled ::
               n in s.closed || n in s.cancelled || exists c <- s.runs :: n == s.runs[c].no
    requires forall d :: PelOf(s', d) <= PelOf(s, d)
    ensures RunsInv(s')
  {
    forall n <- s'.closed + s'.cancelled ensures n < s'.nextRun {
      if c :| c in s.runs && n == s.runs[c].no {
        assert RunInv(s, c, s.runs[c]);
      }
    }
    forall n <- s'.closed ensures n < s'.nextRun { assert n in s'.closed + s'.cancelled; }
    forall n <- s'.cancelled ensures n < s'.nextRun { assert n in s'.closed + s'.cancelled; }
    forall c <- s'.runs ensures RunInv(s', c, s'.runs[c]) {
      assert RunInv(s, c, s.runs[c]);
      OtherRun(s, s', c, s.runs[c]);
    }
  }

  // ---------- Steps ----------

  lemma AppendKeepsInv(s: Sys, id: Id, valid: bool)
    requires Inv(s) && Enabled(s, Append(id, valid))
    ensures var s' := Next(s, Append(id, valid)); Inv(s')
  {
    hide RunInv;
    RunsUntouched(s, Next(s, Append(id, valid)));
  }

  lemma TrimKeepsInv(s: Sys, gone: set<Id>)
    requires Inv(s) && Enabled(s, Trim(gone))
    ensures var s' := Next(s, Trim(gone)); Inv(s')
  {
    hide RunInv;
    RunsUntouched(s, Next(s, Trim(gone)));
  }

  lemma ReturnKeepsInv(s: Sys, t: Task)
    requires Inv(s) && Enabled(s, DispatchReturns(t))
    ensures var s' := Next(s, DispatchReturns(t)); Inv(s')
  {
    hide RunInv;
    RunsUntouched(s, Next(s, DispatchReturns(t)));
  }

  // What only moves a loop does not concern the server.
  lemma SameServer(s: Sys, s': Sys)
    requires ServerInv(s) && s'.nextRun == s.nextRun && s'.bounds == s.bounds
    requires s' == s.(runs := s'.runs, cancelled := s'.cancelled, closed := s'.closed)
    ensures ServerInv(s')
  {
  }

  lemma SendKeepsInv(s: Sys, t: Task)
    requires Inv(s) && Enabled(s, SendAck(t))
    ensures var s' := Next(s, SendAck(t)); Inv(s')
  {
    hide RunInv;
    RunsUntouched(s, Next(s, SendAck(t)));
  }

  lemma AckFailsKeepsInv(s: Sys, t: Task)
    requires Inv(s) && Enabled(s, AckFails(t))
    ensures var s' := Next(s, AckFails(t)); Inv(s')
  {
    hide RunInv;
    RunsUntouched(s, Next(s, AckFails(t)));
  }

  lemma NewRun(s: Sys, c: Consumer, bound: Option<string>)
    requires LogInv(s) && PlaceInv(s.pel, s.delivered, s.acked) && RunsInv(s)
    ensures var s' := Started(s, c, bound); RunInv(s', c, s'.runs[c])
  {
    assert forall i <- PelOf(s, c) :: Holds(s.pel, c, i);
    SubsetCard(Above(PelOf(s, c), ZERO_ID), PelOf(s, c));
  }

  lemma StartRunKeepsInv(s: Sys, c: Consumer, bound: Option<string>)
    requires Inv(s) && Enabled(s, StartRun(c, bound))
    ensures var s' := Next(s, StartRun(c, bound)); Inv(s')
  {
    NewRun(s, c, bound);
    RunsAfterStep(s, Started(s, c, bound), c);
  }

  lemma ExitKeepsRuns(s: Sys, c: Consumer)
    requires RunsInv(s) && c in s.runs
    ensures RunsInv(Exited(s, c))
  {
    RunsUntouched(s, Exited(s, c));
  }

  lemma CrashKeepsInv(s: Sys, c: Consumer)
    requires Inv(s)
    ensures Inv(Crashed(s, c))
  {
    hide RunInv;
    RunsUntouched(s, Crashed(s, c));
  }

  lemma CancelKeepsRuns(s: Sys, c: Consumer)
    requires RunsInv(s) && c in s.runs
    ensures RunsInv(Cancelled(s, c))
  {
    RunsAfterStep(s, Cancelled(s, c), c);
  }

  lemma FlagKeepsRuns(s: Sys, c: Consumer)
    requires RunsInv(s) && c in s.runs && s.runs[c].no in s.cancelled
    ensures RunsInv(Flagged(s, c))
  {
    RunsAfterStep(s, Flagged(s, c), c);
  }

  lemma AskKeepsRuns(s: Sys, c: Consumer)
    requires RunsInv(s) && c in s.runs && AtTop(s.runs[c]) && !s.runs[c].loop.exit
    ensures RunsInv(Asked(s, c))
  {
    RunsAfterStep(s, Asked(s, c), c);
  }

  lemma FailKeepsRuns(s: Sys, c: Consumer)
    requires RunsInv(s) && c in s.runs
    ensures RunsInv(Failed(s, c))
  {
    RunsAfterStep(s, Failed(s, c), c);
  }

  lemma ApplyAckPel(s: Sys, id: Id)
    ensures forall c :: PelOf(ApplyAck(s, id), c) == PelOf(s, c) - {id}
  {
  }

  // An ack takes the entry out of the pending lists; whoever held it no longer does.
  lemma ApplyAckPlaces(s: Sys, id: Id)
    requires PlaceInv(s.pel, s.delivered, s.acked)
    ensures PlaceInv(ApplyAck(s, id).pel, s.delivered, ApplyAck(s, id).acked)
    ensures ApplyAck(s, id).acked <= s.acked + {id}
  {
    var s' := ApplyAck(s, id);
    forall c, i ensures Holds(s'.pel, c, i) <==> Holds(s.pel, c, i) && i != id {
    }
    if c :| c in s.pel && id in s.pel[c] {
      assert Holds(s.pel, c, id);
    }
    forall i <- s.delivered | i !in s'.acked ensures exists c :: Holds(s'.pel, c, i) {
      var c :| Holds(s.pel, c, i);
      assert Holds(s'.pel, c, i);
    }
  }

  lemma TaskAckKeepsServer(s: Sys, t: Task, applied: bool)
    requires ServerInv(s) && Enabled(s, TaskAck(t, applied))
    ensures var s' := Next(s, TaskAck(t, applied)); ServerInv(s')
  {
    ApplyAckPlaces(s.(tasks := s.tasks - {t}), t.id);
    assert (t.id, t.bound) in s.returned;
  }

  lemma TaskAckKeepsInv(s: Sys, t: Task, applied: bool)
    requires Inv(s) && Enabled(s, TaskAck(t, applied))
    ensures var s' := Next(s, TaskAck(t, applied)); Inv(s')
  {
    hide LogInv, PlaceInv, AckInv, TaskInv, RunInv;
    TaskAckKeepsServer(s, t, applied);
    ApplyAckPel(s.(tasks := s.tasks - {t}), t.id);
    RunsUntouched(s, Next(s, TaskAck(t, applied)));
  }

  lemma DeliverPlaces(s: Sys, c: Consumer, id: Id)
    requires PlaceInv(s.pel, s.delivered, s.acked) && id !in s.delivered
    ensures var s' := Deliver(s, c, id); PlaceInv(s'.pel, s'.delivered, s'.acked)
  {
    var s' := Deliver(s, c, id);
    forall d, i ensures Holds(s'.pel, d, i) <==> Holds(s.pel, d, i) || (d == c && i == id) {
    }
    forall i <- s'.delivered | i !in s'.acked ensures exists d :: Holds(s'.pel, d, i) {
      if i == id {
        assert Holds(s'.pel, c, i);
      } else {
        var d :| Holds(s.pel, d, i);
        assert Holds(s'.pel, d, i);
      }
    }
  }

  lemma DeliverKeepsServer(s: Sys, c: Consumer, id: Id)
    requires ServerInv(s) && IsLeastAbove(s.live, s.lastDelivered, id)
    ensures ServerInv(Deliver(s, c, id)) && id !in s.delivered
  {
    DeliverPlaces(s, c, id);
  }

  lemma DeliverKeepsOrder(s: Sys, s': Sys, r: Run, r': Run, id: Id)
    requires OrderInv(s, r) && r.loop.position.New? && s.lastDelivered.Less(id) && id !in s.delivered
    requires r'.loop == r.loop && (r'.hand.None? || r'.hand == Some(Message(id, HasEvent(s, id))))
    requires s'.delivered == s.delivered + {id} && s'.lastDelivered == id
    requires s'.entries == s.entries && s'.live == s.live
    ensures OrderInv(s', r')
  {
    hide Exceeds;
  }

  lemma DeliverKeepsReplay(r: Run, r': Run, pel: set<Id>, delivered: set<Id>, id: Id)
    requires ReplayInv(r, pel, delivered) && r.loop.position.New? && id !in delivered
    requires r'.loop == r.loop && r'.startPel == r.startPel
    ensures ReplayInv(r', pel + {id}, delivered + {id})
  {
  }

  // The reading run after a delivery, with the message it receives or without.
  lemma ReaderOfNew(s: Sys, s': Sys, c: Consumer, id: Id)
    requires RunsInv(s) && Reading(s, c) && s.runs[c].loop.position.New?
    requires s.lastDelivered.Less(id) && id !in s.delivered
    requires s' == Receive(Deliver(s, c, id), c, id) || s' == Failed(Deliver(s, c, id), c)
    ensures RunInv(s', c, s'.runs[c])
  {
    assert RunInv(s, c, s.runs[c]);
    hide OrderInv, ReplayInv, LoopOk, Exceeds;
    assert PelOf(s', c) == PelOf(s, c) + {id};
    DeliverKeepsOrder(s, s', s.runs[c], s'.runs[c], id);
    DeliverKeepsReplay(s.runs[c], s'.runs[c], PelOf(s, c), s.delivered, id);
  }

  lemma ReadNewKeepsRuns(s: Sys, c: Consumer, id: Id)
    requires RunsInv(s) && Reading(s, c) && s.runs[c].loop.position.New?
    requires s.lastDelivered.Less(id) && id !in s.delivered
    ensures RunsInv(Receive(Deliver(s, c, id), c, id))
  {
    hide RunInv;
    var s' := Receive(Deliver(s, c, id), c, id);
    ReaderOfNew(s, s', c, id);
    RunsAfterStep(s, s', c);
  }

  lemma ReadNewLostKeepsRuns(s: Sys, c: Consumer, id: Id)
    requires RunsInv(s) && Reading(s, c) && s.runs[c].loop.position.New?
    requires s.lastDelivered.Less(id) && id !in s.delivered
    ensures RunsInv(Failed(Deliver(s, c, id), c))
  {
    hide RunInv;
    var s' := Failed(Deliver(s, c, id), c);
    ReaderOfNew(s, s', c, id);
    RunsAfterStep(s, s', c);
  }

  lemma EndedReplay(r: Run, pel: set<Id>, delivered: set<Id>)
    requires r.loop.position.Pending? && r.hand.None? && Above(pel, r.loop.position.after) == {}
    requires ReplayInv(r, pel, delivered) && ReadsInv(r, pel)
    ensures var r' := r.(readCount := r.readCount + 1, loop := r.loop.(position := New));
            ReplayInv(r', pel, delivered) && (r.loop.stopped == [] ==> ReadsInv(r', pel))
  {
    forall i <- r.startPel | i in pel ensures i in r.loop.dispatched {
      assert i !in Above(pel, r.loop.position.after);
    }
  }

  lemma PendingEnder(s: Sys, c: Consumer)
    requires RunsInv(s) && Reading(s, c) && s.runs[c].loop.position.Pending?
    requires Above(PelOf(s, c), s.runs[c].loop.position.after) == {}
    ensures var s' := PendingEnd(s, c); RunInv(s', c, s'.runs[c])
  {
    assert RunInv(s, c, s.runs[c]);
    EndedReplay(s.runs[c], PelOf(s, c), s.delivered);
    hide ReplayInv, ReadsInv, Exceeds;
  }

  lemma PendingEndKeepsRuns(s: Sys, c: Consumer)
    requires RunsInv(s) && Reading(s, c) && s.runs[c].loop.position.Pending?
    requires Above(PelOf(s, c), s.runs[c].loop.position.after) == {}
    ensures RunsInv(PendingEnd(s, c))
  {
    hide RunInv;
    PendingEnder(s, c);
    RunsAfterStep(s, PendingEnd(s, c), c);
  }

  lemma PendingReadKeepsRuns(s: Sys, c: Consumer, id: Id)
    requires RunsInv(s) && Reading(s, c) && s.runs[c].loop.position.Pending?
    requires IsLeastAbove(PelOf(s, c), s.runs[c].loop.position.after, id) && id in s.delivered
    ensures RunsInv(PendingRead(s, c, id))
  {
    PendingReader(s, c, id);
    hide RunInv;
    RunsAfterStep(s, PendingRead(s, c, id), c);
  }

  lemma PendingReader(s: Sys, c: Consumer, id: Id)
    requires RunsInv(s) && Reading(s, c) && s.runs[c].loop.position.Pending?
    requires IsLeastAbove(PelOf(s, c), s.runs[c].loop.position.after, id) && id in s.delivered
    ensures var s' := PendingRead(s, c, id); RunInv(s', c, s'.runs[c])
  {
    hide LoopOk, Exceeds;
    assert RunInv(s, c, s.runs[c]);
  }

  lemma ReadPendingKeepsInv(s: Sys, c: Consumer, found: Option<Id>)
    requires Inv(s) && Enabled(s, ReadPending(c, found))
    ensures var s' := Next(s, ReadPending(c, found)); Inv(s')
  {
    hide LogInv, AckInv, TaskInv, RunInv;
    if found.Some? {
      assert Holds(s.pel, c, found.value);
      PendingReadKeepsRuns(s, c, found.value);
    } else {
      PendingEndKeepsRuns(s, c);
    }
    SameServer(s, Next(s, ReadPending(c, found)));
  }

  // The loop that handles a message, before any ack of it is applied.
  lemma HandlerLoop(s: Sys, c: Consumer, r: Run, m: Message)
    requires RunInv(s, c, r) && r.hand == Some(m) && (m.id in s.delivered ==> s.lastDelivered.AtLeast(m.id))
    ensures var r' := r.(loop := Handle(r.loop, m), hand := None);
            OrderInv(s, r') && ReplayInv(r', PelOf(s, c), s.delivered)
  {
  }

  lemma HandlerReads(r: Run, m: Message, pel: set<Id>, acked: bool)
    requires ReadsInv(r, pel) && r.hand == Some(m)
    requires r.loop.position.Pending? ==> r.loop.position.after.Less(m.id)
    ensures ReadsInv(Handled(r, m, acked), if m.valid || !acked then pel else pel - {m.id})
  {
    if r.loop.position.Pending? {
      var after := r.loop.position.after;
      var ahead := Above(pel, after);
      assert m.id in pel <==> m.id in ahead;
      assert Above(pel - {m.id}, after) == ahead - {m.id};
      SubsetCard(Above(pel, m.id), ahead - {m.id});
      assert |ahead - {m.id}| + (if m.id in pel then 1 else 0) == |ahead|;
    }
  }

  lemma HandlerRun(s: Sys, s': Sys, c: Consumer, r: Run, m: Message, acked: bool)
    requires RunInv(s, c, r) && r.hand == Some(m) && s.lastDelivered.AtLeast(m.id)
    requires s'.nextRun == s.nextRun && s'.bounds == s.bounds && s'.closed == s.closed && s'.cancelled == s.cancelled
    requires s'.delivered == s.delivered && s'.lastDelivered == s.lastDelivered
    requires s'.entries == s.entries && s'.live == s.live
    requires PelOf(s', c) == if m.valid || !acked then PelOf(s, c) else PelOf(s, c) - {m.id}
    ensures RunInv(s', c, Handled(r, m, acked))
  {
    HandlerLoop(s, c, r, m);
    HandlerReads(r, m, PelOf(s, c), acked);
    HandleKeepsLoopOk(r.loop, m);
  }

  lemma HandleEffect(s: Sys, c: Consumer, acked: bool)
    requires c in s.runs && s.runs[c].hand.Some?
    ensures var s', m := OnHandle(s, c, acked), s.runs[c].hand.value;
            && s'.runs == s.runs[c := Handled(s.runs[c], m, acked)]
            && s' == s.(runs := s'.runs, tasks := s'.tasks, pel := s'.pel, acked := s'.acked, discarded := s'.discarded)
            && forall d :: PelOf(s', d) == if m.valid || !acked then PelOf(s, d) else PelOf(s, d) - {m.id}
  {
  }

  // An ack only shortens pending lists, which every run can bear.
  lemma HandleKeepsRuns(s: Sys, s': Sys, c: Consumer, m: Message, acked: bool)
    requires RunsInv(s) && c in s.runs && s.runs[c].hand == Some(m) && s.lastDelivered.AtLeast(m.id)
    requires s'.runs == s.runs[c := Handled(s.runs[c], m, acked)]
    requires s' == s.(runs := s'.runs, tasks := s'.tasks, pel := s'.pel, acked := s'.acked, discarded := s'.discarded)
    requires forall d :: PelOf(s', d) == if m.valid || !acked then PelOf(s, d) else PelOf(s, d) - {m.id}
    ensures RunsInv(s')
  {
    HandlerRun(s, s', c, s.runs[c], m, acked);
    RunsAfterStep(s, s', c);
  }

  // What is discarded was pending, so it is trimmed before its acknowledgement or no event at all.
  lemma DiscardKeepsAcks(s: Sys, id: Id)
    requires LogInv(s) && PlaceInv(s.pel, s.delivered, s.acked) && AckInv(s) && !HasEvent(s, id)
    ensures AckInv(Discard(s, id))
  {
    if Held(s, id) {
      var c :| c in s.pel && id in s.pel[c];
      assert Holds(s.pel, c, id);
      assert id in s.delivered && id in s.entries && id !in s.acked;
    }
  }

  lemma HandleKeepsServer(s: Sys, c: Consumer, acked: bool)
    requires ServerInv(s) && c in s.runs && s.runs[c].hand.Some?
    requires var m := s.runs[c].hand.value; m.valid || !HasEvent(s, m.id)
    requires s.runs[c].loop.bound in s.bounds && s.runs[c].no < s.nextRun
    ensures ServerInv(OnHandle(s, c, acked))
  {
    var m := s.runs[c].hand.value;
    var s' := s.(runs := s.runs[c := Handled(s.runs[c], m, acked)]);
    if !m.valid && acked {
      ApplyAckPlaces(s', m.id);
      DiscardKeepsAcks(s', m.id);
    }
  }

  lemma ReadKeepsInv(s: Sys, step: Step)
    requires Inv(s) && Enabled(s, step) && (step.ReadNew? || step.ReadNewLost?)
    ensures var s' := Next(s, step); Inv(s')
  {
    hide LogInv, PlaceInv, AckInv, TaskInv, RunInv;
    DeliverKeepsServer(s, step.c, step.id);
    SameServer(Deliver(s, step.c, step.id), Next(s, step));
    if step.ReadNew? {
      ReadNewKeepsRuns(s, step.c, step.id);
    } else {
      ReadNewLostKeepsRuns(s, step.c, step.id);
    }
  }

  lemma HandleKeepsInv(s: Sys, c: Consumer, acked: bool)
    requires Inv(s) && Enabled(s, HandleMessage(c, acked))
    ensures Inv(OnHandle(s, c, acked))
  {
    HandReady(s, c);
    hide LogInv, PlaceInv, AckInv, TaskInv, RunInv;
    HandleEffect(s, c, acked);
    HandleKeepsRuns(s, OnHandle(s, c, acked), c, s.runs[c].hand.value, acked);
    HandleKeepsServer(s, c, acked);
  }

  lemma HandReady(s: Sys, c: Consumer)
    requires Inv(s) && c in s.runs && s.runs[c].hand.Some?
    ensures var m := s.runs[c].hand.value; s.lastDelivered.AtLeast(m.id) && (m.valid || !HasEvent(s, m.id))
    ensures s.runs[c].loop.bound in s.bounds && s.runs[c].no < s.nextRun
  {
    assert RunInv(s, c, s.runs[c]);
  }

  lemma ContextKeepsInv(s: Sys, step: Step)
    requires Inv(s) && Enabled(s, step)
    requires step.Ask? || step.ReadFails? || step.Cancel? || step.Flag? || step.Exit?
    ensures var s' := Next(s, step); Inv(s')
  {
    hide LogInv, PlaceInv, AckInv, TaskInv, RunInv;
    SameServer(s, Next(s, step));
    match step
    case Ask(c) => AskKeepsRuns(s, c);
    case ReadFails(c) => FailKeepsRuns(s, c);
    case Cancel(c) => CancelKeepsRuns(s, c);
    case Flag(c) => FlagKeepsRuns(s, c);
    case Exit(c) => ExitKeepsRuns(s, c);
  }

  lemma StepKeepsInv(s: Sys, step: Step)
    requires Inv(s) && Enabled(s, step)
    ensures var s' := Next(s, step); Inv(s')
  {
    hide LogInv, PlaceInv, AckInv, TaskInv, RunInv;
    match step
    case Append(id, valid) => AppendKeepsInv(s, id, valid);
    case Trim(gone) => TrimKeepsInv(s, gone);
    case StartRun(c, bound) => StartRunKeepsInv(s, c, bound);
    case ReadPending(c, found) => ReadPendingKeepsInv(s, c, found);
    case ReadNew(_, _) => ReadKeepsInv(s, step);
    case ReadNewLost(_, _) => ReadKeepsInv(s, step);
    case HandleMessage(c, acked) => HandleKeepsInv(s, c, acked);
    case Ask(_) => ContextKeepsInv(s, step);
    case ReadFails(_) => ContextKeepsInv(s, step);
    case Cancel(_) => ContextKeepsInv(s, step);
    case Flag(_) => ContextKeepsInv(s, step);
    case Exit(_) => ContextKeepsInv(s, step);
    case DispatchReturns(t) => ReturnKeepsInv(s, t);
    case SendAck(t) => SendKeepsInv(s, t);
    case AckFails(t) => AckFailsKeepsInv(s, t);
    case TaskAck(t, applied) => TaskAckKeepsInv(s, t, applied);
    case Crash(c) => CrashKeepsInv(s, c);
  }

  lemma {:induction false} RunKeepsInv(s: Sys, steps: seq<Step>)
    requires Inv(s) && Valid(s, steps)
    ensures Inv(Exec(s, steps))
    decreases |steps|
  {
    if steps != [] {
      StepKeepsInv(s, steps[0]);
      RunKeepsInv(Next(s, steps[0]), steps[1..]);
    }
  }

  // ---------- Results, for every run of the whole system ----------

  lemma InitialInv(s: Sys)
    requires Initial(s)
    ensures Inv(s)
  {
    assert PlaceInv(s.pel, s.delivered, s.acked);
  }

  ghost predicate Reachable(s: Sys) {
    exists s0, steps :: Initial(s0) && Valid(s0, steps) && Exec(s0, steps) == s
  }

  lemma ReachableInv(s: Sys)
    requires Reachable(s)
    ensures Inv(s)
  {
    var s0, steps :| Initial(s0) && Valid(s0, steps) && Exec(s0, steps) == s;
    InitialInv(s0);
    RunKeepsInv(s0, steps);
  }

  // Still ahead of the group, or trimmed before any consumer received it.
  ghost predicate Waiting(s: Sys, i: Id) {
    (s.lastDelivered.Less(i) || i !in s.live) && i !in s.acked && forall c :: !Holds(s.pel, c, i)
  }

  ghost predicate PendingAtOne(s: Sys, i: Id) {
    i !in s.acked && exists c :: Holds(s.pel, c, i) && forall d :: Holds(s.pel, d, i) ==> d == c
  }

  ghost predicate Done(s: Sys, i: Id) {
    && i in s.acked
    && (forall c :: !Holds(s.pel, c, i))
    && (Processed(s.returned, i) || (i in s.discarded && (!IsEvent(s, i) || i in s.cut)))
  }

  // Nothing above the group's start is ever lost: each entry is in one of three places, and it
  // was acknowledged only after its dispatch returned or because a loop received no CloudEvent,
  // which it does just for entries that hold none or were trimmed while they were pending.
  lemma AtLeastOnce(s: Sys, i: Id)
    requires Reachable(s) && i in s.entries && s.start.Less(i)
    ensures Waiting(s, i) || PendingAtOne(s, i) || Done(s, i)
  {
    ReachableInv(s);
    if i in s.delivered && i !in s.acked {
      var c :| Holds(s.pel, c, i);
      assert forall d :: Holds(s.pel, d, i) ==> d == c;
    }
  }

  // Within one run, over both phases and however long acks lag, messages are dispatched in the
  // order of their IDs, so none is dispatched twice; each holds a CloudEvent and lies beyond the
  // group's start.
  lemma DispatchesInOrder(s: Sys, c: Consumer)
    requires Reachable(s) && c in s.runs
    ensures Increasing(s.runs[c].loop.dispatched)
    ensures forall i <- s.runs[c].loop.dispatched :: IsEvent(s, i) && s.start.Less(i)
  {
    ReachableInv(s);
    assert RunInv(s, c, s.runs[c]);
  }

  // When the loop asks for new messages, everything pending at its start was dispatched or has
  // been acknowledged; replay takes one read per pending entry, one more to see the end, and
  // one for each ack of an invalid message that did not reach the server.
  lemma ReplayIsComplete(s: Sys, c: Consumer)
    requires Reachable(s) && c in s.runs
    ensures var r := s.runs[c];
            && (r.loop.position.New? ==>
                  forall i <- r.startPel :: i in r.loop.dispatched || i !in PelOf(s, c))
            && r.readCount <= |r.startPel| + r.failedAcks + 1
  {
    ReachableInv(s);
    assert RunInv(s, c, s.runs[c]);
  }

  // A run never dispatches at or past its bound, reports Complete at most once, and dispatched
  // every other valid message it read, and removed just the invalid ones; with a canonical end ID
  // a dispatched message is below the end exactly if the two agree on their digits.
  lemma BoundedReplay(s: Sys, c: Consumer, end: Id)
    requires Reachable(s) && c in s.runs
    ensures var l := s.runs[c].loop;
            && (forall i <- l.dispatched :: !Exceeds(l.bound, i))
            && |l.stopped| <= 1
            && IdsOf(l.handled, true) == l.dispatched + l.stopped && IdsOf(l.handled, false) == l.removed
            && (l.bound == Some(end.Show()) ==> forall i <- l.dispatched :: IdsAgree(i, end) <==> i.Less(end))
  {
    ReachableInv(s);
    var l := s.runs[c].loop;
    assert RunInv(s, c, s.runs[c]);
    forall i <- l.dispatched | l.bound == Some(end.Show()) ensures IdsAgree(i, end) <==> i.Less(end) {
      StringOrderIsIdOrder(i, end);
    }
  }

  // A message that the bound of every run stops stays pending at one consumer, whatever the
  // bounds otherwise are.
  lemma BoundMessageStaysPending(s: Sys, i: Id)
    requires Reachable(s) && forall bound <- s.bounds :: Exceeds(bound, i)
    requires i in s.delivered && IsEvent(s, i) && i !in s.cut
    ensures PendingAtOne(s, i)
  {
    ReachableInv(s);
    AtLeastOnce(s, i);
    assert i !in s.acked;
  }
}
