/** The status document that all broker instances share: one key of a ConfigMap, read, edited and
    written back by each of them.

    The API server accepts an update only if the object has not changed since it was read. Every
    step below is one action of one instance, so a sequence of steps is any interleaving.
  */
module SharedStatus {
  import opened StatusTypes

  type Instance = string
  type Entries = map<Instance, StatusValue>

  // The contents of the key: absent, not a status document, or one.
  datatype Contents = Absent | Unreadable | Document(entries: Entries)

  function Parsed(data: Contents): Entries {
    if data.Document? then data.entries else map[]
  }

  predicate Expired(v: StatusValue, now: Time, expire: int) {
    now - v.lastUpdated > expire
  }

  // Peers whose age, read at the time seen, exceeds the expiry.
  function Stale(st: Entries, me: Instance, seen: Instance -> Time, expire: int): set<Instance> {
    set k | k in st && k != me && Expired(st[k], seen(k), expire)
  }

  function Edited(st: Entries, me: Instance, s: StatusValue, stale: set<Instance>): Entries {
    (st - stale)[me := s]
  }

  datatype Eviction = Eviction(peer: Instance, seenAt: Time, stamp: Time)

  // Where an instance is between reading and writing the ConfigMap.
  datatype Point =
    | Got(version: nat, st: Entries, s: StatusValue)
    | Ready(version: nat, next: Entries, s: StatusValue, seen: Instance -> Time, evicting: map<Instance, Eviction>)

  datatype Cluster = Cluster(
    version: nat,
    data: Contents,
    clock: Time,
    expire: int,
    at: map<Instance, Point>,
    wrote: Entries,                       // history: what each instance last wrote successfully
    evicted: map<Instance, Eviction>      // history: who removed an entry, and how old it was
  )

  datatype Step =
    | Advance(now: Time)
    | Get(i: Instance, s: StatusValue)
    | Purge(i: Instance, seen: Instance -> Time)
    | Put(i: Instance)
    | Abort(i: Instance)                  // a failed call, or the instance went away

  ghost predicate Enabled(c: Cluster, step: Step) {
    match step
    case Advance(now) => c.clock <= now
    case Get(i, s) => i !in c.at
    case Purge(i, seen) => i in c.at && c.at[i].Got? && forall k :: seen(k) <= c.clock
    case Put(i) => i in c.at && c.at[i].Ready?
    case Abort(i) => true
  }

  function Accepted(c: Cluster, i: Instance): Cluster
    requires i in c.at && c.at[i].Ready?
  {
    var p := c.at[i];
    c.(version := c.version + 1, data := Document(p.next), at := c.at - {i},
       wrote := c.wrote[i := p.s], evicted := (c.evicted + p.evicting) - {i})
  }

  function Next(c: Cluster, step: Step): Cluster
    requires Enabled(c, step)
  {
    match step
    case Advance(now) => c.(clock := now)
    case Get(i, s) => c.(at := c.at[i := Got(c.version, Parsed(c.data), s)])
    case Purge(i, seen) =>
      var p := c.at[i];
      var stale := Stale(p.st, i, seen, c.expire);
      c.(at := c.at[i := Ready(p.version, Edited(p.st, i, p.s, stale), p.s, seen,
                               map k | k in stale :: Eviction(i, seen(k), p.st[k].lastUpdated))])
    case Put(i) => if c.at[i].version == c.version then Accepted(c, i) else c.(at := c.at - {i})
    case Abort(i) => c.(at := c.at - {i})
  }

  ghost predicate Valid(c: Cluster, steps: seq<Step>)
    decreases |steps|
  {
    steps == [] || (Enabled(c, steps[0]) && Valid(Next(c, steps[0]), steps[1..]))
  }

  ghost function Exec(c: Cluster, steps: seq<Step>): Cluster
    requires Valid(c, steps)
    decreases |steps|
  {
    if steps == [] then c else Exec(Next(c, steps[0]), steps[1..])
  }

  ghost predicate Initial(c: Cluster) {
    c.at == map[] && c.wrote == Parsed(c.data) && c.evicted == map[]
  }

  // A record of an eviction that the expiry justified.
  ghost predicate Justified(c: Cluster, i: Instance, e: Eviction, stamp: Time) {
    e.peer != i && e.stamp == stamp && e.seenAt - stamp > c.expire && e.seenAt <= c.clock
  }

  // The instance's entry is what it last wrote, or a peer removed exactly that after its expiry.
  ghost predicate EntryInv(c: Cluster, i: Instance) {
    var st := Parsed(c.data);
    && (i in st ==> i in c.wrote && st[i] == c.wrote[i])
    && (i in c.wrote && i !in st ==> i in c.evicted && Justified(c, i, c.evicted[i], c.wrote[i].lastUpdated))
  }

  // An instance that still has the current version has the current entries.
  ghost predicate PointInv(c: Cluster, i: Instance, p: Point) {
    var st := Parsed(c.data);
    && p.version <= c.version
    && (p.version == c.version ==>
          match p
          case Got(_, got, _) => got == st
          case Ready(_, next, s, seen, evicting) =>
            && next == Edited(st, i, s, evicting.Keys)
            && evicting.Keys == Stale(st, i, seen, c.expire)
            && forall k <- evicting :: k in st && Justified(c, k, evicting[k], st[k].lastUpdated) && k != i)
  }

  ghost predicate Inv(c: Cluster) {
    && (forall i :: EntryInv(c, i))
    && (forall i <- c.at :: PointInv(c, i, c.at[i]))
  }

  // The document, its version and the history change by an accepted write only, and the clock by its own
  // step. An attempt begins by reading, and ends by writing, accepted or not, or by being given up.
  lemma DocumentMoves(c: Cluster, step: Step, i: Instance)
    requires Enabled(c, step)
    ensures var c' := Next(c, step);
            var accepts := step.Put? && c.at[step.i].version == c.version;
            && (if accepts then
                  && c'.version == c.version + 1 && c'.data == Document(c.at[step.i].next)
                  && c'.wrote == c.wrote[step.i := c.at[step.i].s]
                  && (i in c'.evicted <==> i != step.i && (i in c.evicted || i in c.at[step.i].evicting))
                else c'.version == c.version && c'.data == c.data && c'.wrote == c.wrote && c'.evicted == c.evicted)
            && c'.clock == (if step.Advance? then step.now else c.clock) && c'.expire == c.expire
            && (i in c'.at <==>
                  (i in c.at && step != Put(i) && step != Abort(i)) || (step.Get? && step.i == i))
            && (step.Get? && step.i == i ==> c'.at[i].Got? && c'.at[i].version == c.version && c'.at[i].s == step.s)
  {
  }

  // An instance can begin at any time, read the ages of its peers at any times up to now, write whatever
  // has happened in between, and go away at any moment.
  lemma AnyTime(c: Cluster, i: Instance, s: StatusValue, seen: Instance -> Time, now: Time)
    requires (forall k :: seen(k) <= c.clock) && c.clock <= now
    ensures Enabled(c, Advance(now)) && Enabled(c, Abort(i))
    ensures if i !in c.at then Enabled(c, Get(i, s))
            else if c.at[i].Got? then Enabled(c, Purge(i, seen))
            else Enabled(c, Put(i))
  {
  }

  lemma PurgeKeepsInv(c: Cluster, i: Instance, seen: Instance -> Time)
    requires Inv(c) && Enabled(c, Purge(i, seen))
    ensures Inv(Next(c, Purge(i, seen)))
  {
    var c' := Next(c, Purge(i, seen));
    assert PointInv(c, i, c.at[i]);
    assert c'.at[i].evicting.Keys == Stale(c.at[i].st, i, seen, c.expire);
    forall k ensures EntryInv(c', k) { assert EntryInv(c, k); }
    forall k <- c'.at ensures PointInv(c', k, c'.at[k]) {
      if k != i { assert PointInv(c, k, c.at[k]); }
    }
  }

  lemma AcceptedKeepsInv(c: Cluster, i: Instance)
    requires Inv(c) && i in c.at && c.at[i].Ready? && c.at[i].version == c.version
    ensures Inv(Accepted(c, i))
  {
    var c' := Accepted(c, i);
    assert PointInv(c, i, c.at[i]);
    forall k ensures EntryInv(c', k) { assert EntryInv(c, k); }
    forall k <- c'.at ensures PointInv(c', k, c'.at[k]) { assert PointInv(c, k, c.at[k]); }
  }

  lemma StepKeepsInv(c: Cluster, step: Step)
    requires Inv(c) && Enabled(c, step)
    ensures Inv(Next(c, step))
  {
    if step.Purge? {
      PurgeKeepsInv(c, step.i, step.seen);
    } else if step.Put? && c.at[step.i].version == c.version {
      AcceptedKeepsInv(c, step.i);
    } else {
      var c' := Next(c, step);
      forall k ensures EntryInv(c', k) { assert EntryInv(c, k); }
      forall k <- c'.at ensures PointInv(c', k, c'.at[k]) {
        if k in c.at { assert PointInv(c, k, c.at[k]); }
      }
    }
  }

  lemma {:induction false} RunKeepsInv(c: Cluster, steps: seq<Step>)
    requires Inv(c) && Valid(c, steps)
    ensures Inv(Exec(c, steps))
    decreases |steps|
  {
    if steps != [] {
      StepKeepsInv(c, steps[0]);
      RunKeepsInv(Next(c, steps[0]), steps[1..]);
    }
  }

  // Under every interleaving of any number of instances, an entry is exactly what its instance
  // last wrote successfully; it is absent only if the instance never wrote, or if a peer saw
  // that very write older than the expiry.
  lemma NoLostUpdate(c0: Cluster, steps: seq<Step>, i: Instance)
    requires Initial(c0) && Valid(c0, steps)
    ensures var c := Exec(c0, steps);
            var st := Parsed(c.data);
            && (i in st ==> i in c.wrote && st[i] == c.wrote[i])
            && (i !in st && i in c.wrote ==>
                  && i in c.evicted && c.evicted[i].peer != i
                  && c.evicted[i].stamp == c.wrote[i].lastUpdated
                  && c.evicted[i].seenAt - c.wrote[i].lastUpdated > c.expire
                  && c.evicted[i].seenAt <= c.clock)
  {
    RunKeepsInv(c0, steps);
    assert EntryInv(Exec(c0, steps), i);
  }

  // An accepted write acts on the document as it is at that moment, however long ago it was
  // read: it sets its own entry, and otherwise removes just the entries it saw expired.
  lemma AcceptedWriteIsAtomic(c0: Cluster, steps: seq<Step>, i: Instance, k: Instance)
    requires Initial(c0) && Valid(c0, steps)
    requires var c := Exec(c0, steps); i in c.at && c.at[i].Ready? && c.at[i].version == c.version
    ensures var c := Exec(c0, steps);
            var before, after := Parsed(c.data), Parsed(Next(c, Put(i)).data);
            && i in after && after[i] == c.at[i].s
            && (k != i ==> (k in after <==> k in before && !Expired(before[k], c.at[i].seen(k), c.expire)))
            && (k != i && k in after ==> after[k] == before[k])
  {
    RunKeepsInv(c0, steps);
    var c := Exec(c0, steps);
    assert PointInv(c, i, c.at[i]);
  }

  // ---------- The ConfigMap and one instance's update of it ----------

  class ConfigMap {
    var version: nat
    var data: Contents

    constructor (data: Contents)
      ensures this.version == 0 && this.data == data
    {
      version, this.data := 0, data;
    }

    method Update(version: nat, data: Contents) returns (ok: bool)
      modifies this
      ensures ok <==> version == old(this.version)
      ensures this.version == old(this.version) + (if ok then 1 else 0)
      ensures this.data == if ok then data else old(this.data)
    {
      ok := version == this.version;
      if ok {
        this.version, this.data := version + 1, data;
      }
    }

    // Updates by peers, applied one after the other.
    method PeerUpdates(writes: seq<Contents>)
      modifies this
      ensures version == old(version) + |writes|
      ensures data == if writes == [] then old(data) else writes[|writes| - 1]
    {
      for n := 0 to |writes|
        invariant version == old(version) + n
        invariant data == if n == 0 then old(data) else writes[n - 1]
      {
        version, data := version + 1, writes[n];
      }
    }
  }

  class KubernetesBackend {
    const instance: Instance
    const instanceExpire: int
    const cm: ConfigMap

    constructor (instance: Instance, expire: int, cm: ConfigMap)
      ensures this.instance == instance && instanceExpire == expire && this.cm == cm
    {
      this.instance, instanceExpire, this.cm := instance, expire, cm;
    }

    method RemoveStale(entries: Entries, seen: Instance -> Time) returns (st: Entries)
      ensures st == entries - Stale(entries, instance, seen, instanceExpire)
    {
      st := entries;
      ghost var stale := Stale(entries, instance, seen, instanceExpire);
      var todo := entries.Keys;
      while todo != {}
        invariant todo <= entries.Keys
        invariant st == entries - (stale - todo)
      {
        var k :| k in todo;
        todo := todo - {k};
        if k != instance && seen(k) - st[k].lastUpdated > instanceExpire {
          st := st - {k};
        }
      }
      assert stale - todo == stale;
    }

    // peers are the updates that land between the read and the write; seen gives the time at
    // which each entry's age is read. Any such update makes the write fail, and nothing is lost.
    method UpdateStatus(s: StatusValue, getFails: bool, seen: Instance -> Time, peers: seq<Contents>) returns (ok: bool)
      modifies cm
      ensures ok <==> !getFails && peers == []
      ensures ok ==>
        cm.data == Document(Edited(Parsed(old(cm.data)), instance, s,
                                   Stale(Parsed(old(cm.data)), instance, seen, instanceExpire)))
      ensures !ok && getFails ==> cm.data == old(cm.data)
      ensures !ok && !getFails ==> cm.data == peers[|peers| - 1]
    {
      if getFails {
        return false;
      }
      var version, st: Entries := cm.version, map[];
      if cm.data.Document? {
        st := cm.data.entries;
      }
      st := RemoveStale(st, seen);
      st := st[instance := s];
      cm.PeerUpdates(peers);
      ok := cm.Update(version, Document(st));
    }
  }
}
