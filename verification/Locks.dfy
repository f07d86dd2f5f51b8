/** The locks of the broker's components, the programs that take them, and why they never wait in
    a circle.

    A thread is a sequence of lock operations and of work that takes no lock and ends by itself.
    A reply that re-enters Produce on a full buffer is such work: it ends by its timeout.
  */
module Locks {
  import opened Options

  type Name = string

  datatype Lock = PollerLock | ManagerLock | BackendLock | SubscriberLock(name: Name) | StatusLock

  datatype Mode = Read | Write

  // What is done between lock operations.
  datatype Deed =
    | ReadFiles                          // a poll
    | TrackFile(path: string)
    | Register(name: Name)               // a callback at the backend
    | Unregister(name: Name)
    | Record(name: Name)                 // in the manager's map, or out of it
    | Configure(name: Name)              // the trigger of a subscriber
    | Deliver(name: Name, fanOut: bool)  // filters, request, reply; by the memory backend's fan-out or not
    | EditStatus
    | Offer                              // Produce

  datatype Action = Acquire(lock: Lock, mode: Mode) | Release(lock: Lock) | Work(deed: Deed)

  type Program = seq<Action>
  type Held = map<Lock, Mode>

  function Rank(l: Lock): nat {
    match l
    case PollerLock => 0 case ManagerLock => 1 case BackendLock => 2 case SubscriberLock(_) => 3 case StatusLock => 4
  }

  function Do(held: Held, a: Action): Held {
    match a
    case Acquire(l, m) => held[l := m]
    case Release(l) => held - {l}
    case Work(_) => held
  }

  predicate HeldFor(held: Held, l: Lock, m: Mode) {
    l in held && (m == Write ==> held[l] == Write)
  }

  // The locks under which each deed is done.
  predicate Needs(held: Held, d: Deed) {
    match d
    case ReadFiles => HeldFor(held, PollerLock, Read)
    case TrackFile(_) => HeldFor(held, PollerLock, Write)
    case Register(_) => HeldFor(held, ManagerLock, Write) && HeldFor(held, BackendLock, Write)
    case Unregister(_) => HeldFor(held, ManagerLock, Write) && HeldFor(held, BackendLock, Write)
    case Record(_) => HeldFor(held, ManagerLock, Write)
    case Configure(n) => HeldFor(held, SubscriberLock(n), Write)
    case Deliver(n, fanOut) => HeldFor(held, SubscriberLock(n), Read) && (fanOut ==> HeldFor(held, BackendLock, Read))
    case EditStatus => HeldFor(held, StatusLock, Write)
    case Offer => true
  }

  // Locks are taken above everything held, only held ones are released, and a deed is done under
  // those it needs.
  predicate Allowed(held: Held, a: Action) {
    match a
    case Acquire(l, _) => forall h <- held :: Rank(h) < Rank(l)
    case Release(l) => l in held
    case Work(d) => Needs(held, d)
  }

  predicate Ordered(held: Held, p: Program)
    decreases |p|
  {
    p == [] || (Allowed(held, p[0]) && Ordered(Do(held, p[0]), p[1..]))
  }

  function After(held: Held, p: Program): Held
    decreases |p|
  {
    if p == [] then held else After(Do(held, p[0]), p[1..])
  }

  // ---------- Threads ----------

  datatype Thread = Thread(held: Held, todo: Program)

  type Threads = seq<Thread>

  predicate Wants(t: Thread, l: Lock, m: Mode) {
    t.todo != [] && t.todo[0] == Acquire(l, m)
  }

  predicate WantsAny(t: Thread, l: Lock) {
    Wants(t, l, Read) || Wants(t, l, Write)
  }

  // A writer waits for every holder; a reader waits for a writer that holds or wants the lock.
  // Locks are not re-entrant: a thread waits for itself as for any other.
  ghost predicate Blocked(ts: Threads, i: nat)
    requires i < |ts| && ts[i].todo != []
  {
    var a := ts[i].todo[0];
    a.Acquire? && exists j :: 0 <= j < |ts| && Hinders(ts[j], a.lock, a.mode)
  }

  predicate Hinders(t: Thread, l: Lock, m: Mode) {
    match m
    case Write => l in t.held
    case Read => (l in t.held && t.held[l] == Write) || Wants(t, l, Write)
  }

  // When a thread that wants a lock gets it: a writer when nobody has it, a reader when no writer has it
  // or waits for it.
  lemma WhoWaits(ts: Threads, i: nat, l: Lock, m: Mode)
    requires i < |ts| && Wants(ts[i], l, m)
    ensures CanMove(ts, i) <==>
              forall j :: 0 <= j < |ts| ==>
                && (m == Write ==> l !in ts[j].held)
                && (m == Read ==> !(l in ts[j].held && ts[j].held[l] == Write) && !Wants(ts[j], l, Write))
  {
    if CanMove(ts, i) {
      forall j | 0 <= j < |ts| ensures !Hinders(ts[j], l, m) {
      }
    } else {
      var j :| 0 <= j < |ts| && Hinders(ts[j], l, m);
    }
  }

  ghost predicate CanMove(ts: Threads, i: nat) {
    i < |ts| && ts[i].todo != [] && !Blocked(ts, i)
  }

  function Move(ts: Threads, i: nat): Threads
    requires i < |ts| && ts[i].todo != []
  {
    ts[i := Thread(Do(ts[i].held, ts[i].todo[0]), ts[i].todo[1..])]
  }

  ghost predicate Schedule(ts: Threads, moves: seq<nat>)
    decreases |moves|
  {
    moves == [] || (CanMove(ts, moves[0]) && Schedule(Move(ts, moves[0]), moves[1..]))
  }

  ghost function Run(ts: Threads, moves: seq<nat>): Threads
    requires Schedule(ts, moves)
    decreases |moves|
  {
    if moves == [] then ts else Run(Move(ts, moves[0]), moves[1..])
  }

  // Every thread goes on in order and ends without locks; locks exclude as they should.
  ghost predicate Disciplined(ts: Threads) {
    && (forall i :: 0 <= i < |ts| ==> Ordered(ts[i].held, ts[i].todo) && After(ts[i].held, ts[i].todo) == map[])
    && (forall i, j, l :: 0 <= i < |ts| && 0 <= j < |ts| && i != j && l in ts[i].held && l in ts[j].held ==>
          ts[i].held[l] == Read)
  }

  lemma MoveKeepsDiscipline(ts: Threads, i: nat)
    requires Disciplined(ts) && CanMove(ts, i)
    ensures Disciplined(Move(ts, i))
  {
    var ts', a := Move(ts, i), ts[i].todo[0];
    forall j, k, l | 0 <= j < |ts| && 0 <= k < |ts| && j != k && l in ts'[j].held && l in ts'[k].held
      ensures ts'[j].held[l] == Read
    {
      if a.Acquire? && a.lock == l && i in {j, k} {
        var other := if i == j then k else j;
        assert !Hinders(ts[other], l, a.mode);
      }
    }
  }

  // ---------- No circle ----------

  lemma {:induction false} HighestWanted(ts: Threads, n: nat) returns (i: nat)
    requires n <= |ts|
    requires forall j :: 0 <= j < |ts| && ts[j].todo != [] ==> ts[j].todo[0].Acquire?
    requires exists j :: 0 <= j < n && ts[j].todo != []
    ensures i < n && ts[i].todo != []
    ensures forall j :: 0 <= j < n && ts[j].todo != [] ==> Rank(ts[j].todo[0].lock) <= Rank(ts[i].todo[0].lock)
  {
    if exists j :: 0 <= j < n - 1 && ts[j].todo != [] {
      i := HighestWanted(ts, n - 1);
      if ts[n - 1].todo != [] && Rank(ts[i].todo[0].lock) < Rank(ts[n - 1].todo[0].lock) {
        i := n - 1;
      }
    } else {
      i := n - 1;
    }
  }

  // A lock of the highest rank that anyone wants is held by nobody.
  lemma HighestIsFree(ts: Threads, l: Lock, i: nat)
    requires Disciplined(ts) && i < |ts|
    requires forall j :: 0 <= j < |ts| && ts[j].todo != [] ==>
               ts[j].todo[0].Acquire? && Rank(ts[j].todo[0].lock) <= Rank(l)
    ensures l !in ts[i].held
  {
    assert Ordered(ts[i].held, ts[i].todo) && After(ts[i].held, ts[i].todo) == map[];
  }

  lemma SomeoneCanMove(ts: Threads)
    requires Disciplined(ts) && exists i :: 0 <= i < |ts| && ts[i].todo != []
    ensures exists i :: CanMove(ts, i)
  {
    if i :| 0 <= i < |ts| && ts[i].todo != [] && !ts[i].todo[0].Acquire? {
      assert CanMove(ts, i);
    } else {
      var i := HighestWanted(ts, |ts|);
      var l := ts[i].todo[0].lock;
      forall j | 0 <= j < |ts| ensures l !in ts[j].held {
        HighestIsFree(ts, l, j);
      }
      if j :| 0 <= j < |ts| && Wants(ts[j], l, Write) {
        assert CanMove(ts, j);
      } else {
        assert CanMove(ts, i);
      }
    }
  }

  // ---------- The broker's programs ----------

  // Runs in order from the locks held, and gives back what it takes.
  predicate Balanced(held: Held, p: Program) {
    Ordered(held, p) && After(held, p) == held
  }

  function Section(l: Lock, m: Mode, body: Program): Program {
    [Acquire(l, m)] + body + [Release(l)]
  }

  lemma {:induction false} Concat(held: Held, p: Program, q: Program)
    requires Ordered(held, p) && Ordered(After(held, p), q)
    ensures Ordered(held, p + q) && After(held, p + q) == After(After(held, p), q)
    decreases |p|
  {
    if p == [] {
      assert p + q == q;
    } else {
      assert (p + q)[1..] == p[1..] + q;
      Concat(Do(held, p[0]), p[1..], q);
    }
  }

  lemma SectionBalanced(held: Held, l: Lock, m: Mode, body: Program)
    requires forall h <- held :: Rank(h) < Rank(l)
    requires Balanced(held[l := m], body)
    ensures Balanced(held, Section(l, m, body))
  {
    var inside := held[l := m];
    assert inside - {l} == held;
    assert [Release(l)][1..] == [];
    assert Ordered(inside - {l}, []);
    assert Ordered(inside, [Release(l)]) && After(inside, [Release(l)]) == After(inside - {l}, []);
    Concat(inside, body, [Release(l)]);
    var p := Section(l, m, body);
    assert p[1..] == body + [Release(l)];
  }

  datatype Changes = Changes(removed: seq<Name>, created: seq<Name>, changed: seq<Name>)

  datatype Job =
    | Update(changes: Changes)             // UpdateFromConfig
    | Poll(found: Option<Changes>)         // the poller calls UpdateFromConfig back when the file changed
    | AddFile(path: string, polled: set<string>)  // Add, with the paths that are polled by then
    | FanOut(names: seq<Name>)             // memory backend: one event to every callback
    | DispatchAlone(name: Name)            // Redis backend: one dispatch goroutine
    | TouchStatus                          // one turn of the status loop, or any one update
    | Produce

  function TellStatus(): Program {
    Section(StatusLock, Write, [Work(EditStatus)])
  }

  function Remove(n: Name): Program {
    Section(BackendLock, Write, [Work(Unregister(n))]) + ([Work(Record(n))] + TellStatus())
  }

  function Change(n: Name): Program {
    Section(SubscriberLock(n), Write, [Work(Configure(n))])
  }

  function Create(n: Name): Program {
    Change(n) + (Section(BackendLock, Write, [Work(Register(n))]) + (TellStatus() + [Work(Record(n))]))
  }

  // The delivery, the reply, and then the status change, all under the subscriber's read lock.
  function Dispatch(n: Name, fanOut: bool): Program {
    Section(SubscriberLock(n), Read, [Work(Deliver(n, fanOut))] + ([Work(Offer)] + TellStatus()))
  }

  function ForAll(names: seq<Name>, one: Name -> Program): Program {
    if names == [] then [] else one(names[0]) + ForAll(names[1..], one)
  }

  function UpdateProgram(c: Changes): Program {
    Section(ManagerLock, Write, ForAll(c.removed, Remove) + ForAll(c.created, Create) + ForAll(c.changed, Change))
  }

  // Adding a path that is polled already polls at once, which reads under the lock.
  function AddProgram(path: string, polled: set<string>): Program {
    Section(PollerLock, Write,
            [Work(TrackFile(path))] + if path in polled then Section(PollerLock, Read, [Work(ReadFiles)]) else [])
  }

  function ProgramOf(job: Job): Program {
    match job
    case Update(changes) => UpdateProgram(changes)
    case Poll(found) =>
      Section(PollerLock, Read, [Work(ReadFiles)] + if found.Some? then UpdateProgram(found.value) else [])
    case AddFile(path, polled) => AddProgram(path, polled)
    case FanOut(names) => Section(BackendLock, Read, ForAll(names, n => Dispatch(n, true)))
    case DispatchAlone(name) => Dispatch(name, false)
    case TouchStatus => TellStatus()
    case Produce => [Work(Offer)]
  }

  function ProgramOfAll(jobs: seq<Job>): Program {
    if jobs == [] then [] else ProgramOf(jobs[0]) + ProgramOfAll(jobs[1..])
  }

  lemma WorkBalanced(held: Held, d: Deed)
    requires Needs(held, d)
    ensures Balanced(held, [Work(d)])
  {
    var p: Program := [Work(d)];
    assert p[1..] == [];
    assert Ordered(held, []) && After(held, []) == held;
  }

  lemma SimpleSection(held: Held, l: Lock, m: Mode, d: Deed)
    requires forall h <- held :: Rank(h) < Rank(l)
    requires Needs(held[l := m], d)
    ensures Balanced(held, Section(l, m, [Work(d)]))
  {
    WorkBalanced(held[l := m], d);
    SectionBalanced(held, l, m, [Work(d)]);
  }

  lemma {:induction false} ForAllBalanced(held: Held, names: seq<Name>, one: Name -> Program)
    requires forall n :: Balanced(held, one(n))
    ensures Balanced(held, ForAll(names, one))
    decreases |names|
  {
    if names != [] {
      ForAllBalanced(held, names[1..], one);
      Concat(held, one(names[0]), ForAll(names[1..], one));
    }
  }

  lemma RemoveBalanced(held: Held, n: Name)
    requires held.Keys <= {PollerLock, ManagerLock} && HeldFor(held, ManagerLock, Write)
    ensures Balanced(held, Remove(n))
  {
    SimpleSection(held, BackendLock, Write, Unregister(n));
    WorkBalanced(held, Record(n));
    SimpleSection(held, StatusLock, Write, EditStatus);
    Concat(held, [Work(Record(n))], TellStatus());
    Concat(held, Section(BackendLock, Write, [Work(Unregister(n))]), [Work(Record(n))] + TellStatus());
  }

  lemma ChangeBalanced(held: Held, n: Name)
    requires held.Keys <= {PollerLock, ManagerLock}
    ensures Balanced(held, Change(n))
  {
    SimpleSection(held, SubscriberLock(n), Write, Configure(n));
  }

  lemma CreateBalanced(held: Held, n: Name)
    requires held.Keys <= {PollerLock, ManagerLock} && HeldFor(held, ManagerLock, Write)
    ensures Balanced(held, Create(n))
  {
    ChangeBalanced(held, n);
    SimpleSection(held, BackendLock, Write, Register(n));
    WorkBalanced(held, Record(n));
    SimpleSection(held, StatusLock, Write, EditStatus);
    var rest := TellStatus() + [Work(Record(n))];
    Concat(held, TellStatus(), [Work(Record(n))]);
    Concat(held, Section(BackendLock, Write, [Work(Register(n))]), rest);
    Concat(held, Change(n), Section(BackendLock, Write, [Work(Register(n))]) + rest);
  }

  lemma DispatchBalanced(held: Held, n: Name, fanOut: bool)
    requires held.Keys <= {BackendLock} && (fanOut ==> HeldFor(held, BackendLock, Read))
    ensures Balanced(held, Dispatch(n, fanOut))
  {
    var inside := held[SubscriberLock(n) := Read];
    WorkBalanced(inside, Deliver(n, fanOut));
    WorkBalanced(inside, Offer);
    SimpleSection(inside, StatusLock, Write, EditStatus);
    Concat(inside, [Work(Offer)], TellStatus());
    Concat(inside, [Work(Deliver(n, fanOut))], [Work(Offer)] + TellStatus());
    SectionBalanced(held, SubscriberLock(n), Read, [Work(Deliver(n, fanOut))] + ([Work(Offer)] + TellStatus()));
  }

  lemma UpdateBalanced(held: Held, c: Changes)
    requires held.Keys <= {PollerLock}
    ensures Balanced(held, UpdateProgram(c))
  {
    var inside := held[ManagerLock := Write];
    forall n ensures Balanced(inside, Remove(n)) && Balanced(inside, Create(n)) && Balanced(inside, Change(n)) {
      RemoveBalanced(inside, n);
      CreateBalanced(inside, n);
      ChangeBalanced(inside, n);
    }
    ForAllBalanced(inside, c.removed, Remove);
    ForAllBalanced(inside, c.created, Create);
    ForAllBalanced(inside, c.changed, Change);
    Concat(inside, ForAll(c.removed, Remove), ForAll(c.created, Create));
    Concat(inside, ForAll(c.removed, Remove) + ForAll(c.created, Create), ForAll(c.changed, Change));
    var body := ForAll(c.removed, Remove) + ForAll(c.created, Create) + ForAll(c.changed, Change);
    SectionBalanced(held, ManagerLock, Write, body);
  }

  lemma PollBalanced(found: Option<Changes>)
    ensures Balanced(map[], ProgramOf(Poll(found)))
  {
    var held: Held := map[][PollerLock := Read];
    var update := if found.Some? then UpdateProgram(found.value) else [];
    WorkBalanced(held, ReadFiles);
    assert Ordered(held, []) && After(held, []) == held;
    if found.Some? {
      UpdateBalanced(held, found.value);
    }
    Concat(held, [Work(ReadFiles)], update);
    SectionBalanced(map[], PollerLock, Read, [Work(ReadFiles)] + update);
  }

  // Add keeps to the order of the locks exactly for paths that are not polled yet.
  lemma AddIsBalanced(path: string, polled: set<string>)
    ensures Balanced(map[], AddProgram(path, polled)) <==> path !in polled
  {
    var inside: Held := map[][PollerLock := Write];
    if path in polled {
      var p, track, again := AddProgram(path, polled), Work(TrackFile(path)), Acquire(PollerLock, Read);
      var tail := [again, Work(ReadFiles), Release(PollerLock), Release(PollerLock)];
      assert p == [Acquire(PollerLock, Write)] + ([track] + tail);
      assert p[1..] == [track] + tail && ([track] + tail)[1..] == tail;
      assert PollerLock in inside && !Allowed(inside, again);
      assert !Ordered(inside, tail);
      assert !Ordered(inside, [track] + tail);
    } else {
      assert [Work(TrackFile(path))] + [] == [Work(TrackFile(path))];
      SimpleSection(map[], PollerLock, Write, TrackFile(path));
    }
  }

  // What the broker does: it adds each path once.
  predicate Regular(job: Job) {
    job.AddFile? ==> job.path !in job.polled
  }

  lemma JobBalanced(job: Job)
    ensures Balanced(map[], ProgramOf(job)) <==> Regular(job)
  {
    match job
    case Update(changes) => UpdateBalanced(map[], changes);
    case Poll(found) => PollBalanced(found);
    case AddFile(path, polled) => AddIsBalanced(path, polled);
    case FanOut(names) =>
      var held: Held := map[][BackendLock := Read];
      var one := (n: Name) => Dispatch(n, true);
      forall n ensures Balanced(held, one(n)) { DispatchBalanced(held, n, true); }
      ForAllBalanced(held, names, one);
      SectionBalanced(map[], BackendLock, Read, ForAll(names, one));
    case DispatchAlone(name) => DispatchBalanced(map[], name, false);
    case TouchStatus => SimpleSection(map[], StatusLock, Write, EditStatus);
    case Produce => WorkBalanced(map[], Offer);
  }

  lemma {:induction false} JobsBalanced(jobs: seq<Job>)
    requires forall job <- jobs :: Regular(job)
    ensures Balanced(map[], ProgramOfAll(jobs))
    decreases |jobs|
  {
    if jobs != [] {
      assert jobs[0] in jobs && forall job <- jobs[1..] :: job in jobs;
      JobBalanced(jobs[0]);
      JobsBalanced(jobs[1..]);
      Concat(map[], ProgramOf(jobs[0]), ProgramOfAll(jobs[1..]));
    }
  }

  predicate IsThread(t: Thread, jobs: seq<Job>) {
    t == Thread(map[], ProgramOfAll(jobs)) && forall job <- jobs :: Regular(job)
  }

  ghost predicate IsBroker(ts: Threads) {
    forall i :: 0 <= i < |ts| ==> exists jobs :: IsThread(ts[i], jobs)
  }

  lemma {:induction false} RunKeepsDiscipline(ts: Threads, moves: seq<nat>)
    requires Disciplined(ts) && Schedule(ts, moves)
    ensures Disciplined(Run(ts, moves))
    decreases |moves|
  {
    if moves != [] {
      MoveKeepsDiscipline(ts, moves[0]);
      RunKeepsDiscipline(Move(ts, moves[0]), moves[1..]);
    }
  }

  lemma BrokerStaysDisciplined(ts: Threads, moves: seq<nat>)
    requires IsBroker(ts) && Schedule(ts, moves)
    ensures Disciplined(Run(ts, moves))
  {
    forall i | 0 <= i < |ts|
      ensures Ordered(ts[i].held, ts[i].todo) && After(ts[i].held, ts[i].todo) == map[] && ts[i].held == map[]
    {
      var jobs :| IsThread(ts[i], jobs);
      JobsBalanced(jobs);
    }
    RunKeepsDiscipline(ts, moves);
  }

  // Any number of threads, each with any sequence of jobs, under any schedule: as long as one is
  // not done, one can move; and no lock is held by a writer together with anyone else.
  lemma BrokerHasNoDeadlock(ts: Threads, moves: seq<nat>)
    requires IsBroker(ts) && Schedule(ts, moves)
    ensures var now := Run(ts, moves);
            && ((exists i :: 0 <= i < |now| && now[i].todo != []) ==> exists i :: CanMove(now, i))
            && forall i, j, l :: 0 <= i < |now| && 0 <= j < |now| && i != j && l in now[i].held && l in now[j].held ==>
                 now[i].held[l] == Read
  {
    BrokerStaysDisciplined(ts, moves);
    var now := Run(ts, moves);
    if exists i :: 0 <= i < |now| && now[i].todo != [] {
      SomeoneCanMove(now);
    }
  }

  // ---------- What the programs do, and what never happens at once ----------

  function DeedsOf(p: Program): seq<Deed> {
    if p == [] then [] else (if p[0].Work? then [p[0].deed] else []) + DeedsOf(p[1..])
  }

  function ForEach(names: seq<Name>, deeds: Name -> seq<Deed>): seq<Deed> {
    if names == [] then [] else deeds(names[0]) + ForEach(names[1..], deeds)
  }

  function UpdateDeeds(c: Changes): seq<Deed> {
    ForEach(c.removed, n => [Unregister(n), Record(n), EditStatus])
    + ForEach(c.created, n => [Configure(n), Register(n), EditStatus, Record(n)])
    + ForEach(c.changed, n => [Configure(n)])
  }

  function JobDeeds(job: Job): seq<Deed> {
    match job
    case Update(c) => UpdateDeeds(c)
    case Poll(found) => [ReadFiles] + if found.Some? then UpdateDeeds(found.value) else []
    case AddFile(path, polled) => [TrackFile(path)] + if path in polled then [ReadFiles] else []
    case FanOut(names) => ForEach(names, n => [Deliver(n, true), Offer, EditStatus])
    case DispatchAlone(n) => [Deliver(n, false), Offer, EditStatus]
    case TouchStatus => [EditStatus]
    case Produce => [Offer]
  }

  lemma {:induction false} DeedsConcat(p: Program, q: Program)
    ensures DeedsOf(p + q) == DeedsOf(p) + DeedsOf(q)
    decreases |p|
  {
    if p == [] {
      assert p + q == q;
    } else {
      assert (p + q)[0] == p[0] && (p + q)[1..] == p[1..] + q;
      DeedsConcat(p[1..], q);
      var first := if p[0].Work? then [p[0].deed] else [];
      assert first + DeedsOf(p[1..]) + DeedsOf(q) == first + (DeedsOf(p[1..]) + DeedsOf(q));
    }
  }

  lemma SectionDeeds(l: Lock, m: Mode, body: Program)
    ensures DeedsOf(Section(l, m, body)) == DeedsOf(body)
  {
    DeedsConcat([Acquire(l, m)] + body, [Release(l)]);
    DeedsConcat([Acquire(l, m)], body);
    assert [Acquire(l, m)][1..] == [] && [Release(l)][1..] == [];
    assert DeedsOf(body) + [] == DeedsOf(body);
  }

  lemma WorkDeeds(d: Deed)
    ensures DeedsOf([Work(d)]) == [d]
  {
    assert [Work(d)][1..] == [];
  }

  lemma {:induction false} ForAllDeeds(names: seq<Name>, one: Name -> Program, deeds: Name -> seq<Deed>)
    requires forall n :: DeedsOf(one(n)) == deeds(n)
    ensures DeedsOf(ForAll(names, one)) == ForEach(names, deeds)
    decreases |names|
  {
    if names != [] {
      ForAllDeeds(names[1..], one, deeds);
      DeedsConcat(one(names[0]), ForAll(names[1..], one));
    }
  }

  lemma OneDeed(l: Lock, m: Mode, d: Deed)
    ensures DeedsOf(Section(l, m, [Work(d)])) == [d]
  {
    SectionDeeds(l, m, [Work(d)]);
    WorkDeeds(d);
  }

  lemma RemoveDeeds(n: Name)
    ensures DeedsOf(Remove(n)) == [Unregister(n), Record(n), EditStatus]
  {
    OneDeed(StatusLock, Write, EditStatus);
    OneDeed(BackendLock, Write, Unregister(n));
    WorkDeeds(Record(n));
    DeedsConcat([Work(Record(n))], TellStatus());
    DeedsConcat(Section(BackendLock, Write, [Work(Unregister(n))]), [Work(Record(n))] + TellStatus());
  }

  lemma CreateDeeds(n: Name)
    ensures DeedsOf(Create(n)) == [Configure(n), Register(n), EditStatus, Record(n)]
  {
    OneDeed(StatusLock, Write, EditStatus);
    OneDeed(BackendLock, Write, Register(n));
    OneDeed(SubscriberLock(n), Write, Configure(n));
    WorkDeeds(Record(n));
    var end := TellStatus() + [Work(Record(n))];
    DeedsConcat(TellStatus(), [Work(Record(n))]);
    DeedsConcat(Section(BackendLock, Write, [Work(Register(n))]), end);
    DeedsConcat(Change(n), Section(BackendLock, Write, [Work(Register(n))]) + end);
  }

  lemma DispatchDeeds(n: Name, fanOut: bool)
    ensures DeedsOf(Dispatch(n, fanOut)) == [Deliver(n, fanOut), Offer, EditStatus]
  {
    OneDeed(StatusLock, Write, EditStatus);
    WorkDeeds(Deliver(n, fanOut));
    WorkDeeds(Offer);
    var body := [Work(Deliver(n, fanOut))] + ([Work(Offer)] + TellStatus());
    DeedsConcat([Work(Offer)], TellStatus());
    DeedsConcat([Work(Deliver(n, fanOut))], [Work(Offer)] + TellStatus());
    SectionDeeds(SubscriberLock(n), Read, body);
  }

  lemma PartDeeds(n: Name)
    ensures DeedsOf(Remove(n)) == [Unregister(n), Record(n), EditStatus]
    ensures DeedsOf(Change(n)) == [Configure(n)]
    ensures DeedsOf(Create(n)) == [Configure(n), Register(n), EditStatus, Record(n)]
  {
    RemoveDeeds(n);
    CreateDeeds(n);
    OneDeed(SubscriberLock(n), Write, Configure(n));
  }

  lemma UpdateDoes(c: Changes)
    ensures DeedsOf(UpdateProgram(c)) == UpdateDeeds(c)
  {
    forall n { PartDeeds(n); }
    ForAllDeeds(c.removed, Remove, n => [Unregister(n), Record(n), EditStatus]);
    ForAllDeeds(c.created, Create, n => [Configure(n), Register(n), EditStatus, Record(n)]);
    ForAllDeeds(c.changed, Change, n => [Configure(n)]);
    var removes, creates, changes := ForAll(c.removed, Remove), ForAll(c.created, Create), ForAll(c.changed, Change);
    DeedsConcat(removes, creates);
    DeedsConcat(removes + creates, changes);
    SectionDeeds(ManagerLock, Write, removes + creates + changes);
  }

  // Leaving the locks aside, each job does what it is for, in this order.
  lemma JobDoes(job: Job)
    ensures DeedsOf(ProgramOf(job)) == JobDeeds(job)
  {
    forall d { WorkDeeds(d); }
    OneDeed(StatusLock, Write, EditStatus);
    match job
    case Update(c) => UpdateDoes(c);
    case Poll(found) =>
      var update := if found.Some? then UpdateProgram(found.value) else [];
      if found.Some? { UpdateDoes(found.value); }
      DeedsConcat([Work(ReadFiles)], update);
      SectionDeeds(PollerLock, Read, [Work(ReadFiles)] + update);
    case AddFile(path, polled) =>
      var again := if path in polled then Section(PollerLock, Read, [Work(ReadFiles)]) else [];
      SectionDeeds(PollerLock, Read, [Work(ReadFiles)]);
      DeedsConcat([Work(TrackFile(path))], again);
      SectionDeeds(PollerLock, Write, [Work(TrackFile(path))] + again);
    case FanOut(names) =>
      var one := (n: Name) => Dispatch(n, true);
      forall n { DispatchDeeds(n, true); }
      ForAllDeeds(names, one, n => [Deliver(n, true), Offer, EditStatus]);
      SectionDeeds(BackendLock, Read, ForAll(names, one));
    case DispatchAlone(n) => DispatchDeeds(n, false);
    case _ =>
  }

  // Deeds that must not happen at the same time: two edits of the status, of the manager's map or of
  // the registrations; a change of a trigger and a delivery by it; and a change of the registrations
  // and a delivery of the memory backend's fan-out to anyone.
  predicate Exclusive(d: Deed, e: Deed) {
    || (d.EditStatus? && e.EditStatus?)
    || (d.Record? && e.Record?)
    || ((d.Register? || d.Unregister?) && (e.Register? || e.Unregister? || (e.Deliver? && e.fanOut)))
    || (d.Configure? && (e.Configure? || e.Deliver?) && d.name == e.name)
    || (d.TrackFile? && (e.TrackFile? || e.ReadFiles?))
  }

  lemma ExclusiveNeeds(d: Deed, e: Deed, a: Held, b: Held) returns (l: Lock)
    requires Exclusive(d, e) && Needs(a, d) && Needs(b, e)
    ensures l in a && l in b && a[l] == Write
  {
    l := match d
         case EditStatus => StatusLock
         case Record(_) => ManagerLock
         case Register(_) => BackendLock
         case Unregister(_) => BackendLock
         case Configure(n) => SubscriberLock(n)
         case _ => PollerLock;
  }

  predicate AtWork(t: Thread) {
    t.todo != [] && t.todo[0].Work?
  }

  // Any number of threads with any jobs under any schedule: no two threads are ever at exclusive
  // deeds together.
  lemma ExclusiveDeeds(ts: Threads, moves: seq<nat>)
    requires IsBroker(ts) && Schedule(ts, moves)
    ensures var now := Run(ts, moves);
            forall i, j :: 0 <= i < |now| && 0 <= j < |now| && i != j && AtWork(now[i]) && AtWork(now[j]) ==>
              !Exclusive(now[i].todo[0].deed, now[j].todo[0].deed)
  {
    BrokerStaysDisciplined(ts, moves);
    var now := Run(ts, moves);
    forall i, j | 0 <= i < |now| && 0 <= j < |now| && i != j && AtWork(now[i]) && AtWork(now[j])
      ensures !Exclusive(now[i].todo[0].deed, now[j].todo[0].deed)
    {
      var d, e := now[i].todo[0].deed, now[j].todo[0].deed;
      assert Ordered(now[i].held, now[i].todo) && Ordered(now[j].held, now[j].todo);
      if Exclusive(d, e) {
        var l := ExclusiveNeeds(d, e, now[i].held, now[j].held);
      }
    }
  }

  // ---------- Adding a polled file again ----------

  // Inside the second Add of a path: it has the lock and wants to read, or will want to next.
  ghost predicate Stuck(t: Thread) {
    && HeldFor(t.held, PollerLock, Write)
    && (Wants(t, PollerLock, Read)
        || (|t.todo| >= 2 && t.todo[0].Work? && t.todo[1] == Acquire(PollerLock, Read)))
  }

  lemma {:induction false} StuckForGood(ts: Threads, i: nat, moves: seq<nat>)
    requires i < |ts| && Stuck(ts[i]) && Schedule(ts, moves)
    ensures |Run(ts, moves)| == |ts| && Stuck(Run(ts, moves)[i])
    decreases |moves|
  {
    if moves != [] {
      assert Wants(ts[i], PollerLock, Read) ==> Hinders(ts[i], PollerLock, Read);
      StuckForGood(Move(ts, moves[0]), i, moves[1..]);
    }
  }

  // A thread that adds a path that is polled already, whatever it was to do afterwards and
  // whatever all other threads do: it never gets out of this call, and once it has the poller's lock
  // nobody gets it again, so that no file is polled any more.
  lemma {:induction false} AddingAgainHangs(
    ts: Threads, i: nat, path: string, polled: set<string>, rest: Program, moves: seq<nat>)
    requires i < |ts| && ts[i] == Thread(map[], AddProgram(path, polled) + rest) && path in polled
    requires Schedule(ts, moves)
    ensures var now := Run(ts, moves);
            && |now| == |ts| && now[i].todo != []
            && (i in moves ==>
                  Stuck(now[i]) && forall k: nat :: k < |now| && WantsAny(now[k], PollerLock) ==> !CanMove(now, k))
            && (i !in moves ==> now[i] == ts[i])
    decreases |moves|
  {
    var p := AddProgram(path, polled) + rest;
    assert p[0] == Acquire(PollerLock, Write) && p[1..][0] == Work(TrackFile(path));
    assert p[1..][1] == Acquire(PollerLock, Read);
    if moves != [] {
      var next := Move(ts, moves[0]);
      if moves[0] == i {
        StuckForGood(next, i, moves[1..]);
        assert forall m :: Hinders(Run(next, moves[1..])[i], PollerLock, m);
      } else {
        AddingAgainHangs(next, i, path, polled, rest, moves[1..]);
      }
    }
  }
}
