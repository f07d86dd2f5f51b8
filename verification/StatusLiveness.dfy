/** How long a live instance stays listed in the shared status.

    Time is counted in whole units (nanoseconds in the program). A write takes no time, and the
    ticker wakes the loop at the latest one resync period after it last woke.
  */
module StatusLiveness {
  import opened Options
  import opened StatusTypes
  import Shared = SharedStatus
  import opened StatusManager

  datatype Timed = Timed(
    cache: Cache,
    wake: Time,        // when the loop last woke
    accepted: Time,    // the last write the API server accepted
    misses: nat        // writes that failed since then
  )

  datatype Event = Change(step: Step) | Wake(now: Time, ok: bool)

  predicate Timely(t: Timed, e: Event, resync: int) {
    match e
    case Change(step) => step.Update? || step.Remove? || step.UpdateIngest?
    case Wake(now, _) => t.wake <= now <= t.wake + resync
  }

  function CheckAt(t: Timed, now: Time): Cache {
    Next(t.cache.(loop := Woken), Check(now))
  }

  function OnEvent(t: Timed, e: Event): Timed {
    match e
    case Change(step) => t.(cache := Next(t.cache, step))
    case Wake(now, ok) =>
      var c := CheckAt(t, now);
      if c.loop.Writing? then
        Timed(Next(c, Write(now)), now, if ok then now else t.accepted, if ok then 0 else t.misses + 1)
      else t.(cache := c, wake := now)
  }

  predicate AllTimely(t: Timed, events: seq<Event>, resync: int)
    decreases |events|
  {
    events == [] || (Timely(t, events[0], resync) && AllTimely(OnEvent(t, events[0]), events[1..], resync))
  }

  function RunEvents(t: Timed, events: seq<Event>): Timed
    decreases |events|
  {
    if events == [] then t else RunEvents(OnEvent(t, events[0]), events[1..])
  }

  // The moment after an accepted write, which clears the flag and leaves the loop waiting.
  predicate JustWritten(t: Timed, force: int) {
    && t.cache.expiration == force && !t.cache.writeAsap && t.cache.loop.Waiting?
    && t.cache.lastWrite == t.wake == t.accepted && t.misses == 0
  }

  ghost predicate Bounded(t: Timed, force: int, resync: int) {
    && t.cache.expiration == force
    && t.accepted <= t.cache.lastWrite <= t.wake < t.cache.lastWrite + force
    && t.cache.lastWrite - t.accepted <= t.misses * (force + resync - 1)
  }

  lemma EventKeepsBounded(t: Timed, e: Event, force: int, resync: int)
    requires 0 < force && 0 <= resync && Bounded(t, force, resync) && Timely(t, e, resync)
    ensures Bounded(OnEvent(t, e), force, resync)
  {
    if e.Wake? && CheckAt(t, e.now).loop.Writing? {
      assert e.now - t.cache.lastWrite <= force + resync - 1;
      assert (t.misses + 1) * (force + resync - 1) == t.misses * (force + resync - 1) + (force + resync - 1);
    }
  }

  lemma {:induction false} RunKeepsBounded(t: Timed, events: seq<Event>, force: int, resync: int)
    requires 0 < force && 0 <= resync && Bounded(t, force, resync) && AllTimely(t, events, resync)
    ensures Bounded(RunEvents(t, events), force, resync)
    decreases |events|
  {
    if events != [] {
      EventKeepsBounded(t, events[0], force, resync);
      RunKeepsBounded(OnEvent(t, events[0]), events[1..], force, resync);
    }
  }

  // Whatever changes come in between, consecutive attempted writes are less than the force
  // period plus the resync period apart.
  lemma AttemptsAreTimely(t: Timed, events: seq<Event>, force: int, resync: int, now: Time, ok: bool)
    requires 0 < force && 0 <= resync && JustWritten(t, force) && AllTimely(t, events, resync)
    requires Timely(RunEvents(t, events), Wake(now, ok), resync)
    requires CheckAt(RunEvents(t, events), now).loop.Writing?
    ensures now - RunEvents(t, events).cache.lastWrite < force + resync
  {
    RunKeepsBounded(t, events, force, resync);
  }

  // ---------- The loop of one instance and the document shared with its peers ----------

  // The loop of instance i gets, edits and writes the document when it wakes and a write is due;
  // everything else at the document is done by peers, at any time.
  datatype Joint = Joint(cluster: Shared.Cluster, timed: Timed)

  datatype JointStep = Peer(step: Shared.Step) | Local(e: Event, seen: Shared.Instance -> Time)

  predicate ByPeer(step: Shared.Step, i: Shared.Instance) {
    match step
    case Advance(_) => true
    case Get(p, _) => p != i
    case Purge(p, _) => p != i
    case Put(p) => p != i
    case Abort(p) => p != i
  }

  ghost predicate JointEnabled(j: Joint, i: Shared.Instance, resync: int, step: JointStep) {
    match step
    case Peer(st) =>
      Shared.Enabled(j.cluster, st) && ByPeer(st, i) && (st.Advance? ==> st.now <= j.timed.wake + resync)
    case Local(e, seen) =>
      Timely(j.timed, e, resync) && (e.Wake? ==> j.cluster.clock <= e.now && forall k :: seen(k) <= e.now)
  }

  // A write that is accepted: nothing comes between its three steps.
  ghost function Written(c: Shared.Cluster, i: Shared.Instance, v: StatusValue, seen: Shared.Instance -> Time)
    : Shared.Cluster
    requires i !in c.at && forall k :: seen(k) <= c.clock
  {
    Shared.Next(Shared.Next(Shared.Next(c, Shared.Get(i, v)), Shared.Purge(i, seen)), Shared.Put(i))
  }

  ghost function JointNext(j: Joint, i: Shared.Instance, resync: int, step: JointStep): Joint
    requires i !in j.cluster.at && JointEnabled(j, i, resync, step)
  {
    match step
    case Peer(st) => j.(cluster := Shared.Next(j.cluster, st))
    case Local(e, seen) =>
      var t := OnEvent(j.timed, e);
      if e.Change? then j.(timed := t)
      else
        var c := j.cluster.(clock := e.now);
        if CheckAt(j.timed, e.now).loop.Writing? && e.ok then Joint(Written(c, i, t.cache.attempted.value, seen), t)
        else Joint(c, t)
  }

  ghost predicate JointValid(j: Joint, i: Shared.Instance, resync: int, steps: seq<JointStep>)
    decreases |steps|
  {
    steps == [] || (i !in j.cluster.at && JointEnabled(j, i, resync, steps[0])
                    && JointValid(JointNext(j, i, resync, steps[0]), i, resync, steps[1..]))
  }

  ghost function JointExec(j: Joint, i: Shared.Instance, resync: int, steps: seq<JointStep>): Joint
    requires JointValid(j, i, resync, steps)
    decreases |steps|
  {
    if steps == [] then j else JointExec(JointNext(j, i, resync, steps[0]), i, resync, steps[1..])
  }

  ghost predicate SharedReachable(c: Shared.Cluster) {
    exists c0, steps :: Shared.Initial(c0) && Shared.Valid(c0, steps) && Shared.Exec(c0, steps) == c
  }

  // The document shows what the instance last wrote successfully, which was at the time accepted.
  ghost predicate Listed(j: Joint, i: Shared.Instance) {
    var st := Shared.Parsed(j.cluster.data);
    i in st && i in j.cluster.wrote && st[i] == j.cluster.wrote[i] && st[i].lastUpdated == j.timed.accepted
  }

  // After any history of the document, the instance has just written.
  ghost predicate Start(j: Joint, i: Shared.Instance, force: int) {
    && SharedReachable(j.cluster) && i !in j.cluster.at && Listed(j, i)
    && JustWritten(j.timed, force) && j.cluster.clock == j.timed.wake
  }

  ghost predicate JointInv(j: Joint, i: Shared.Instance, force: int, resync: int, expire: int) {
    && Shared.Inv(j.cluster) && i !in j.cluster.at && j.cluster.expire == expire
    && Bounded(j.timed, force, resync)
    && j.cluster.clock <= j.timed.wake + resync
    && i in j.cluster.wrote && j.cluster.wrote[i].lastUpdated == j.timed.accepted
  }

  lemma WrittenKeepsInv(c: Shared.Cluster, i: Shared.Instance, v: StatusValue, seen: Shared.Instance -> Time)
    requires Shared.Inv(c) && i !in c.at && forall k :: seen(k) <= c.clock
    ensures var c' := Written(c, i, v, seen);
            && Shared.Inv(c') && i !in c'.at && c'.expire == c.expire && c'.clock == c.clock
            && i in c'.wrote && c'.wrote[i] == v
  {
    hide Shared.EntryInv, Shared.PointInv;
    var c1 := Shared.Next(c, Shared.Get(i, v));
    var c2 := Shared.Next(c1, Shared.Purge(i, seen));
    Shared.StepKeepsInv(c, Shared.Get(i, v));
    Shared.StepKeepsInv(c1, Shared.Purge(i, seen));
    Shared.StepKeepsInv(c2, Shared.Put(i));
  }

  lemma ClockKeepsInv(c: Shared.Cluster, now: Time)
    requires Shared.Inv(c) && c.clock <= now
    ensures Shared.Inv(c.(clock := now))
  {
    Shared.StepKeepsInv(c, Shared.Advance(now));
  }

  lemma JointStepKeepsInv(j: Joint, i: Shared.Instance, step: JointStep, force: int, resync: int, expire: int)
    requires 0 < force && 0 <= resync && JointInv(j, i, force, resync, expire) && JointEnabled(j, i, resync, step)
    ensures JointInv(JointNext(j, i, resync, step), i, force, resync, expire)
  {
    hide Shared.Inv, Bounded;
    match step
    case Peer(st) => Shared.StepKeepsInv(j.cluster, st);
    case Local(e, seen) =>
      EventKeepsBounded(j.timed, e, force, resync);
      if e.Wake? {
        var c := j.cluster.(clock := e.now);
        ClockKeepsInv(j.cluster, e.now);
        var t := OnEvent(j.timed, e);
        if CheckAt(j.timed, e.now).loop.Writing? && e.ok {
          WrittenKeepsInv(c, i, t.cache.attempted.value, seen);
        }
      }
  }

  lemma {:induction false} JointRunKeepsInv(
    j: Joint, i: Shared.Instance, steps: seq<JointStep>, force: int, resync: int, expire: int)
    requires 0 < force && 0 <= resync && JointInv(j, i, force, resync, expire) && JointValid(j, i, resync, steps)
    ensures JointInv(JointExec(j, i, resync, steps), i, force, resync, expire)
    decreases |steps|
  {
    if steps != [] {
      JointStepKeepsInv(j, i, steps[0], force, resync, expire);
      JointRunKeepsInv(JointNext(j, i, resync, steps[0]), i, steps[1..], force, resync, expire);
    }
  }

  lemma StartInv(j: Joint, i: Shared.Instance, force: int, resync: int)
    requires 0 < force && 0 <= resync && Start(j, i, force)
    ensures JointInv(j, i, force, resync, j.cluster.expire)
  {
    var c0, steps :| Shared.Initial(c0) && Shared.Valid(c0, steps) && Shared.Exec(c0, steps) == j.cluster;
    Shared.RunKeepsInv(c0, steps);
  }

  // Whatever peers do and whichever updates come in between: as long as at most f writes in a row
  // have failed, the instance is listed with its last accepted status, if f + 1 of the longest gaps
  // between two attempts fit into the expiry.
  lemma LiveInstanceStaysListed(j: Joint, i: Shared.Instance, steps: seq<JointStep>, force: int, resync: int, f: nat)
    requires 0 < force && 0 <= resync && Start(j, i, force) && JointValid(j, i, resync, steps)
    requires (f + 1) * (force + resync - 1) <= j.cluster.expire
    requires JointExec(j, i, resync, steps).timed.misses <= f
    ensures Listed(JointExec(j, i, resync, steps), i)
  {
    StartInv(j, i, force, resync);
    JointRunKeepsInv(j, i, steps, force, resync, j.cluster.expire);
    var j', gap := JointExec(j, i, resync, steps), force + resync - 1;
    assert Shared.EntryInv(j'.cluster, i);
    assert j'.timed.misses * gap <= f * gap by { MulMono(j'.timed.misses, f, gap); }
    assert f * gap + gap == (f + 1) * gap;
  }

  lemma MulMono(a: nat, b: nat, c: nat)
    requires a <= b
    ensures a * c <= b * c
  {
  }

  // ---------- The bound is exact ----------

  ghost predicate Follows(j: Joint, i: Shared.Instance, resync: int, steps: seq<JointStep>, j': Joint) {
    JointValid(j, i, resync, steps) && JointExec(j, i, resync, steps) == j'
  }

  lemma {:induction false} JointConcat(
    j: Joint, i: Shared.Instance, resync: int, a: seq<JointStep>, mid: Joint, b: seq<JointStep>, j': Joint)
    requires Follows(j, i, resync, a, mid) && Follows(mid, i, resync, b, j')
    ensures Follows(j, i, resync, a + b, j')
    decreases |a|
  {
    if a == [] {
      assert a + b == b;
    } else {
      assert (a + b)[1..] == a[1..] + b;
      JointConcat(JointNext(j, i, resync, a[0]), i, resync, a[1..], mid, b, j');
    }
  }

  lemma JointOne(j: Joint, i: Shared.Instance, resync: int, step: JointStep)
    requires i !in j.cluster.at && JointEnabled(j, i, resync, step)
    ensures Follows(j, i, resync, [step], JointNext(j, i, resync, step))
  {
    var j' := JointNext(j, i, resync, step);
    assert [step][1..] == [] && JointValid(j', i, resync, []) && JointExec(j', i, resync, []) == j';
    assert JointExec(j, i, resync, [step]) == JointExec(j', i, resync, [step][1..]);
  }

  // Between two writes, with nothing to write, at the time of a tick.
  ghost predicate Quiet(j: Joint, i: Shared.Instance, force: int) {
    && i !in j.cluster.at && j.cluster.clock == j.timed.wake
    && j.timed.cache.expiration == force && !j.timed.cache.writeAsap && j.timed.cache.loop.Waiting?
  }

  function At(j: Joint, now: Time): Joint {
    Joint(j.cluster.(clock := now), j.timed.(wake := now))
  }

  // Ticks that find nothing to write.
  lemma {:induction false} IdleUntil(j: Joint, i: Shared.Instance, force: int, resync: int, now: Time)
    returns (steps: seq<JointStep>)
    requires 1 <= resync && Quiet(j, i, force) && j.timed.wake <= now < j.timed.cache.lastWrite + force
    ensures Follows(j, i, resync, steps, At(j, now))
    decreases now - j.timed.wake
  {
    if j.timed.wake == now {
      steps := [];
    } else {
      var tick := if j.timed.wake + resync < now then j.timed.wake + resync else now;
      var step := Local(Wake(tick, false), _ => tick);
      JointOne(j, i, resync, step);
      assert JointNext(j, i, resync, step) == At(j, tick);
      var rest := IdleUntil(At(j, tick), i, force, resync, now);
      JointConcat(j, i, resync, [step], At(j, tick), rest, At(j, now));
      steps := [step] + rest;
    }
  }

  // A failed write as late as it can be: the last tick that finds nothing to write falls just
  // before the write is due, and the next one comes a full period later.
  lemma LateMiss(j: Joint, i: Shared.Instance, force: int, resync: int) returns (steps: seq<JointStep>, j': Joint)
    requires 0 < force && 1 <= resync && Quiet(j, i, force) && j.timed.wake == j.timed.cache.lastWrite
    ensures Follows(j, i, resync, steps, j') && Quiet(j', i, force)
    ensures j'.timed.wake == j'.timed.cache.lastWrite == j.timed.wake + force + resync - 1
    ensures j'.timed.misses == j.timed.misses + 1 && j'.timed.accepted == j.timed.accepted
    ensures j'.cluster == j.cluster.(clock := j'.timed.wake)
  {
    var last := j.timed.wake + force - 1;
    var idle := IdleUntil(j, i, force, resync, last);
    var step := Local(Wake(last + resync, false), _ => last + resync);
    JointOne(At(j, last), i, resync, step);
    j' := JointNext(At(j, last), i, resync, step);
    JointConcat(j, i, resync, idle, At(j, last), [step], j');
    steps := idle + [step];
  }

  lemma {:induction false} LateMisses(j: Joint, i: Shared.Instance, force: int, resync: int, f: nat)
    returns (steps: seq<JointStep>, j': Joint)
    requires 0 < force && 1 <= resync && Quiet(j, i, force) && j.timed.wake == j.timed.cache.lastWrite
    ensures Follows(j, i, resync, steps, j') && Quiet(j', i, force)
    ensures j'.timed.wake == j'.timed.cache.lastWrite == j.timed.wake + f * (force + resync - 1)
    ensures j'.timed.misses == j.timed.misses + f && j'.timed.accepted == j.timed.accepted
    ensures j'.cluster == j.cluster.(clock := j'.timed.wake)
    decreases f
  {
    if f == 0 {
      steps, j' := [], j;
    } else {
      var first, mid := LateMiss(j, i, force, resync);
      var rest;
      rest, j' := LateMisses(mid, i, force, resync, f - 1);
      JointConcat(j, i, resync, first, mid, rest, j');
      steps := first + rest;
      assert (f - 1) * (force + resync - 1) + (force + resync - 1) == f * (force + resync - 1);
    }
  }

  // A peer that reads the document now finds an expired entry, and removes it with its own write.
  lemma PeerEvicts(j: Joint, i: Shared.Instance, p: Shared.Instance, resync: int, now: Time)
    returns (steps: seq<JointStep>, j': Joint)
    requires i !in j.cluster.at && p != i && j.cluster.clock <= now <= j.timed.wake + resync
    requires Listed(j, i) && now - j.timed.accepted > j.cluster.expire
    ensures Follows(j, i, resync, steps, j') && j'.timed == j.timed
    ensures i !in Shared.Parsed(j'.cluster.data)
  {
    var seen := (k: Shared.Instance) => now;
    var v := StatusValue(now, IngestValue("", None, None), map[]);
    var s0, s1, s2, s3, s4 := Peer(Shared.Advance(now)), Peer(Shared.Abort(p)), Peer(Shared.Get(p, v)),
                              Peer(Shared.Purge(p, seen)), Peer(Shared.Put(p));
    JointOne(j, i, resync, s0);
    var j1 := JointNext(j, i, resync, s0);
    JointOne(j1, i, resync, s1);
    var j2 := JointNext(j1, i, resync, s1);
    JointOne(j2, i, resync, s2);
    var j3 := JointNext(j2, i, resync, s2);
    JointOne(j3, i, resync, s3);
    var j4 := JointNext(j3, i, resync, s3);
    JointOne(j4, i, resync, s4);
    j' := JointNext(j4, i, resync, s4);
    JointConcat(j, i, resync, [s0], j1, [s1], j2);
    JointConcat(j, i, resync, [s0] + [s1], j2, [s2], j3);
    JointConcat(j, i, resync, [s0] + [s1] + [s2], j3, [s3], j4);
    JointConcat(j, i, resync, [s0] + [s1] + [s2] + [s3], j4, [s4], j');
    steps := [s0] + [s1] + [s2] + [s3] + [s4];
    assert Shared.Expired(Shared.Parsed(j.cluster.data)[i], now, j.cluster.expire);
  }

  // When the gaps do not fit, there is a run with f failed writes after which a peer has removed
  // the instance, although it is alive and its ticks are timely.
  lemma LiveInstanceIsEvicted(j: Joint, i: Shared.Instance, force: int, resync: int, f: nat)
    returns (steps: seq<JointStep>, j': Joint)
    requires 0 < force && 1 <= resync && Start(j, i, force)
    requires (f + 1) * (force + resync - 1) > j.cluster.expire
    ensures Follows(j, i, resync, steps, j') && j'.timed.misses == f
    ensures i !in Shared.Parsed(j'.cluster.data)
  {
    var missed, j1 := LateMisses(j, i, force, resync, f);
    var last := j1.timed.wake + force - 1;
    var idle := IdleUntil(j1, i, force, resync, last);
    var j2 := At(j1, last);
    JointConcat(j, i, resync, missed, j1, idle, j2);
    assert f * (force + resync - 1) + (force + resync - 1) == (f + 1) * (force + resync - 1);
    var evicted;
    evicted, j' := PeerEvicts(j2, i, i + "x", resync, last + resync);
    JointConcat(j, i, resync, missed + idle, j2, evicted, j');
    steps := missed + idle + evicted;
  }

  ghost predicate SurvivesMisses(j: Joint, i: Shared.Instance, resync: int, f: nat) {
    forall steps :: JointValid(j, i, resync, steps) && JointExec(j, i, resync, steps).timed.misses <= f ==>
                      Listed(JointExec(j, i, resync, steps), i)
  }

  // For all periods and every expiry: an instance is listed in every run in which at most f writes in
  // a row fail, if and only if f + 1 of the longest gaps fit into the expiry.
  lemma StaysListedExactly(j: Joint, i: Shared.Instance, force: int, resync: int, f: nat)
    requires 0 < force && 1 <= resync && Start(j, i, force)
    ensures SurvivesMisses(j, i, resync, f) <==> (f + 1) * (force + resync - 1) <= j.cluster.expire
  {
    if (f + 1) * (force + resync - 1) <= j.cluster.expire {
      forall steps | JointValid(j, i, resync, steps) && JointExec(j, i, resync, steps).timed.misses <= f
        ensures Listed(JointExec(j, i, resync, steps), i)
      {
        LiveInstanceStaysListed(j, i, steps, force, resync, f);
      }
    } else {
      var steps, j' := LiveInstanceIsEvicted(j, i, force, resync, f);
      assert JointValid(j, i, resync, steps) && !Listed(JointExec(j, i, resync, steps), i);
    }
  }

  // With the default periods of 60 and 10 seconds, in any unit of time, and the expiry of three
  // force periods: one failed write is always survived, and two are not.
  lemma DefaultPeriods(j: Joint, i: Shared.Instance, second: nat)
    requires 1 <= second && Start(j, i, 60 * second) && j.cluster.expire == 3 * (60 * second)
    ensures SurvivesMisses(j, i, 10 * second, 1) && !SurvivesMisses(j, i, 10 * second, 2)
  {
    StaysListedExactly(j, i, 60 * second, 10 * second, 1);
    StaysListedExactly(j, i, 60 * second, 10 * second, 2);
  }
}
