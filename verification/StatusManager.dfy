/** The write-behind cache of a broker's status and the loop that writes it.

    Updates come from subscriptions and the ingest at any time; the loop wakes on a ticker or on a
    signal that is dropped when the loop is busy, checks whether a write is due, and writes. The
    check reads the dirty flag without the lock, so updates can fall between check and write.
  */
module StatusManager {
  import opened Options
  import opened StatusTypes

  datatype LoopPoint = Waiting | Woken | Writing

  datatype Cache = Cache(
    subs: Subscriptions,
    ingest: IngestValue,
    writeAsap: bool,
    lastWrite: Time,
    expiration: int,                              // cacheExpiration
    loop: LoopPoint,
    attempted: Option<StatusValue>,               // history: the last status handed to the backends
    updates: map<string, seq<SubscriptionValue>>  // history: updates of a name since it was last removed
  )

  datatype Step =
    | Update(name: string, v: SubscriptionValue)  // EnsureSubscription
    | Remove(name: string)                        // EnsureNoSubscription
    | UpdateIngest(iv: IngestValue)
    | Tick
    | Check(now: Time)
    | Write(now: Time)

  function NewCache(expiration: int): Cache {
    Cache(map[], IngestValue("", None, None), true, 0, expiration, Waiting, None, map[])
  }

  // The flag is raised, and the signal is taken only by a loop that is waiting for one.
  function MarkDirty(c: Cache): Cache {
    c.(writeAsap := true, loop := if c.loop.Waiting? then Woken else c.loop)
  }

  function OnUpdate(c: Cache, name: string, v: SubscriptionValue): Cache {
    var known := name in c.subs;
    var merged := if known then v.MergedWith(c.subs[name]) else v;
    var logged := c.(updates := c.updates[name := (if name in c.updates then c.updates[name] else []) + [v]]);
    if known && c.subs[name] == merged then logged
    else
      var stored := logged.(subs := c.subs[name := merged]);
      if known && c.subs[name].SoftEqual(merged) then stored else MarkDirty(stored)
  }

  // A name's entry after an update of it.
  function Stored(subs: Subscriptions, name: string, v: SubscriptionValue): Subscriptions {
    subs[name := if name in subs then v.MergedWith(subs[name]) else v]
  }

  function OnRemove(c: Cache, name: string): Cache {
    if name in c.subs then MarkDirty(c.(subs := c.subs - {name}, updates := c.updates - {name})) else c
  }

  // Due when something is flagged or the last write has expired.
  predicate WriteDue(c: Cache, now: Time) {
    c.writeAsap || c.lastWrite + c.expiration <= now
  }

  // The outcome of the backends does not matter: their failures never raise the flag.
  function OnWrite(c: Cache, now: Time): Cache {
    c.(attempted := Some(StatusValue(now, c.ingest, c.subs)), writeAsap := false, lastWrite := now, loop := Waiting)
  }

  predicate Enabled(c: Cache, step: Step) {
    match step
    case Tick => c.loop.Waiting?
    case Check(_) => c.loop.Woken?
    case Write(_) => c.loop.Writing?
    case _ => true
  }

  function Next(c: Cache, step: Step): Cache {
    match step
    case Update(name, v) => OnUpdate(c, name, v)
    case Remove(name) => OnRemove(c, name)
    case UpdateIngest(v) => c.(ingest := v)
    case Tick => c.(loop := Woken)
    case Check(now) => c.(loop := if WriteDue(c, now) then Writing else Waiting)
    case Write(now) => OnWrite(c, now)
  }

  predicate Valid(c: Cache, steps: seq<Step>)
    decreases |steps|
  {
    steps == [] || (Enabled(c, steps[0]) && Valid(Next(c, steps[0]), steps[1..]))
  }

  function Exec(c: Cache, steps: seq<Step>): Cache
    decreases |steps|
  {
    if steps == [] then c else Exec(Next(c, steps[0]), steps[1..])
  }

  // An unflagged cache shows what the last attempted write showed.
  ghost predicate CleanMeansWritten(c: Cache) {
    !c.writeAsap ==> c.attempted.Some? && SoftSame(c.subs, c.attempted.value.subs)
  }

  // The cache is the fold of each name's updates.
  ghost predicate Refines(c: Cache) {
    && c.subs.Keys == c.updates.Keys
    && forall n <- c.subs :: c.updates[n] != [] && c.subs[n] == Fold(c.updates[n])
  }

  lemma FoldOneMore(us: seq<SubscriptionValue>, v: SubscriptionValue)
    requires us != []
    ensures Fold(us + [v]) == v.MergedWith(Fold(us))
  {
    assert (us + [v])[..|us|] == us;
  }

  lemma UpdateRefines(c: Cache, name: string, v: SubscriptionValue)
    requires Refines(c)
    ensures Refines(OnUpdate(c, name, v))
  {
    UpdateStores(c, name, v);
    if name in c.subs {
      FoldOneMore(c.updates[name], v);
    }
    hide SubscriptionValue.MergedWith, SubscriptionValue.SoftEqual, OnUpdate, Fold;
  }

  lemma UpdateStores(c: Cache, name: string, v: SubscriptionValue)
    ensures var c' := OnUpdate(c, name, v);
            && c'.subs == Stored(c.subs, name, v)
            && c'.updates == c.updates[name := (if name in c.updates then c.updates[name] else []) + [v]]
  {
    hide SubscriptionValue.MergedWith, SubscriptionValue.SoftEqual;
  }

  lemma StepRefines(c: Cache, step: Step)
    requires Refines(c)
    ensures Refines(Next(c, step))
  {
    if step.Update? {
      UpdateRefines(c, step.name, step.v);
    } else {
      hide Fold, OnUpdate;
    }
  }

  lemma StepKeepsClean(c: Cache, step: Step)
    requires CleanMeansWritten(c)
    ensures CleanMeansWritten(Next(c, step))
  {
    hide SubscriptionValue.MergedWith;
  }

  lemma StepKeepsCache(c: Cache, step: Step)
    requires CleanMeansWritten(c) && Refines(c)
    ensures CleanMeansWritten(Next(c, step)) && Refines(Next(c, step))
  {
    hide CleanMeansWritten, Refines, Next;
    StepRefines(c, step);
    StepKeepsClean(c, step);
  }

  // After every run, whatever signals were dropped and whichever writes failed.
  lemma {:induction false} CacheRefinesUpdates(c: Cache, steps: seq<Step>)
    requires CleanMeansWritten(c) && Refines(c) && Valid(c, steps)
    ensures CleanMeansWritten(Exec(c, steps)) && Refines(Exec(c, steps))
    decreases |steps|
  {
    if steps != [] {
      StepKeepsCache(c, steps[0]);
      CacheRefinesUpdates(Next(c, steps[0]), steps[1..]);
    }
  }

  // The invariants hold at the start, so after any run a change the backends were not handed
  // is flagged, and the cached value of a name is what its updates add up to.
  lemma DirtyFlagAndLog(expiration: int, steps: seq<Step>, name: string)
    requires Valid(NewCache(expiration), steps)
    ensures var c := Exec(NewCache(expiration), steps);
            && (c.writeAsap
                || (c.attempted.Some?
                    && var written := c.attempted.value.subs;
                       c.subs.Keys == written.Keys
                       && forall n <- c.subs ::
                            c.subs[n].status == written[n].status && c.subs[n].message == written[n].message))
            && (name in c.subs <==> name in c.updates)
            && (name in c.subs ==> c.updates[name] != [] && c.subs[name] == Fold(c.updates[name]))
  {
    CacheRefinesUpdates(NewCache(expiration), steps);
  }

  // What a single update does, in terms of what is shown before and after: the flag goes up exactly
  // for a new name and for a change of status or message, and the loop is woken exactly then, if it
  // waits. Other names stay as they are, and the update is on record.
  ghost predicate UpdateShows(c: Cache, name: string, v: SubscriptionValue, c': Cache) {
    && c'.subs.Keys == c.subs.Keys + {name}
    && (forall n <- c.subs :: n != name ==> c'.subs[n] == c.subs[n])
    && c'.updates == c.updates[name := (if name in c.updates then c.updates[name] else []) + [v]]
    && var changed := name !in c.subs || c'.subs[name].status != c.subs[name].status
                      || c'.subs[name].message != c.subs[name].message;
    && c'.writeAsap == (c.writeAsap || changed)
    && c'.loop == (if changed && c.loop.Waiting? then Woken else c.loop)
  }

  lemma FlagExactly(c: Cache, name: string, v: SubscriptionValue)
    ensures UpdateShows(c, name, v, OnUpdate(c, name, v))
  {
  }

  // An update that informs of nothing but the processing time is stored and does not cause a write.
  lemma ProcessingTimeWaits(c: Cache, name: string, v: SubscriptionValue)
    requires name in c.subs && v.status in {"", c.subs[name].status} && v.message.None?
    ensures var c' := OnUpdate(c, name, v);
            && c'.writeAsap == c.writeAsap && c'.loop == c.loop
            && c'.subs[name].status == c.subs[name].status && c'.subs[name].message == c.subs[name].message
            && c'.subs[name].lastProcessed
               == if v.lastProcessed.Some? then v.lastProcessed else c.subs[name].lastProcessed
  {
  }

  predicate Writes(steps: seq<Step>) {
    exists i :: 0 <= i < |steps| && steps[i].Write?
  }

  lemma {:induction false} FlagStaysUp(c: Cache, steps: seq<Step>)
    requires c.writeAsap && !Writes(steps)
    ensures Exec(c, steps).writeAsap
    decreases |steps|
  {
    if steps != [] {
      assert !steps[0].Write?;
      assert forall i :: 0 <= i < |steps[1..]| ==> steps[1..][i] == steps[i + 1];
      FlagStaysUp(Next(c, steps[0]), steps[1..]);
    }
  }

  // A change that has not been handed to the backends is never skipped: whatever else happens
  // before the next check, unless that includes a write, the check decides to write, and the
  // write hands over all subscriptions as they then are. No signal is needed for this.
  lemma UnwrittenChangeIsWritten(c: Cache, between: seq<Step>, now: Time, during: seq<Step>, later: Time)
    requires CleanMeansWritten(c)
    requires c.attempted.Some? ==> !SoftSame(c.subs, c.attempted.value.subs)
    requires !Writes(between) && !Writes(during)
    ensures var checked := Next(Exec(c, between), Check(now));
            && checked.loop.Writing?
            && var c' := Exec(checked, during);
               Next(c', Write(later)).attempted == Some(StatusValue(later, c'.ingest, c'.subs))
  {
    FlagStaysUp(c, between);
  }

  // What the loop has to do before it decides about a write.
  function Turn(c: Cache, now: Time): seq<Step> {
    match c.loop
    case Waiting => [Tick, Check(now)]
    case Woken => [Check(now)]
    case Writing => []
  }

  // Updates are possible at any time. Wherever the loop is, its next turn is, and leaves it writing
  // exactly if it was already, or if something is flagged or the last write has expired; and else waiting.
  lemma TurnDecides(c: Cache, now: Time)
    ensures forall step: Step :: step.Update? || step.Remove? || step.UpdateIngest? ==> Enabled(c, step)
    ensures Enabled(c, Write(now)) <==> c.loop.Writing?
    ensures Valid(c, Turn(c, now))
    ensures Exec(c, Turn(c, now))
            == c.(loop := if c.loop.Writing? || c.writeAsap || c.lastWrite + c.expiration <= now then Writing
                          else Waiting)
  {
    var woken := if c.loop.Waiting? then Next(c, Tick) else c;
    var checked := Next(woken, Check(now));
    assert [Check(now)][1..] == [] && [Tick, Check(now)][1..] == [Check(now)];
    assert Valid(checked, []) && Exec(checked, []) == checked;
    assert Exec(woken, [Check(now)]) == Exec(checked, [Check(now)][1..]);
  }

  predicate OnlyIngest(steps: seq<Step>, until: Time) {
    forall step <- steps :: step.UpdateIngest? || step.Tick? || (step.Check? && step.now < until)
  }

  // Ingest changes never raise the flag, however many and however different they are: the soft
  // comparison runs after the assignment. No check before the expiry of the last write lets
  // them through, and the first one after it writes the ingest as it then is.
  lemma {:induction false} IngestWaitsForExpiry(c: Cache, steps: seq<Step>, now: Time)
    requires !c.writeAsap && !c.loop.Writing? && Valid(c, steps) && OnlyIngest(steps, c.lastWrite + c.expiration)
    ensures var c' := Exec(c, steps);
            && c' == c.(ingest := LastIngest(c.ingest, steps), loop := c'.loop) && !c'.loop.Writing?
            && (WriteDue(c', now) <==> c.lastWrite + c.expiration <= now)
            && Next(c', Write(now)).attempted == Some(StatusValue(now, LastIngest(c.ingest, steps), c.subs))
    decreases |steps|
  {
    if steps != [] {
      assert steps[0] in steps && forall step <- steps[1..] :: step in steps;
      IngestWaitsForExpiry(Next(c, steps[0]), steps[1..], now);
    }
  }

  function LastIngest(before: IngestValue, steps: seq<Step>): IngestValue
    decreases |steps|
  {
    if steps == [] then before
    else LastIngest(if steps[0].UpdateIngest? then steps[0].iv else before, steps[1..])
  }

  // ---------- The manager object ----------

  class Manager {
    var cached: map<string, SubscriptionStatus>
    var ingest: IngestValue
    var writeAsap: bool
    var lastStatusWrite: Time
    const cacheExpiration: int
    var loop: LoopPoint
    var attempted: Option<StatusValue>
    ghost var updates: map<string, seq<SubscriptionValue>>

    ghost function Subs(): Subscriptions
      reads `cached, cached.Values
    {
      map n | n in cached :: cached[n].Value()
    }

    ghost function View(): Cache
      reads this, cached.Values
    {
      Cache(Subs(), ingest, writeAsap, lastStatusWrite, cacheExpiration, loop, attempted, updates)
    }

    constructor (expiration: int)
      ensures View() == NewCache(expiration) && cached == map[]
    {
      cached, ingest := map[], IngestValue("", None, None);
      writeAsap, lastStatusWrite, cacheExpiration := true, 0, expiration;
      loop, attempted, updates := Waiting, None, map[];
    }

    method MaybeEnqueueReconcile()
      modifies this`loop
      ensures loop == if old(loop).Waiting? then Woken else old(loop)
    {
      if loop == Waiting {
        loop := Woken;
      }
    }

    method Store(name: string, ss: SubscriptionStatus)
      modifies this`cached
      ensures Subs() == old(Subs())[name := ss.Value()]
      ensures cached == old(cached)[name := ss]
    {
      cached := cached[name := ss];
    }

    // ss is a new object of the caller; it becomes the cached one unless nothing changed.
    method EnsureSubscription(name: string, ss: SubscriptionStatus)
      requires ss !in cached.Values
      modifies this, ss
      ensures View() == OnUpdate(old(View()), name, old(ss.Value()))
      ensures cached.Values <= old(cached.Values) + {ss}
    {
      ghost var subs := Subs();
      var ok := name in cached;
      var s: SubscriptionStatus? := if ok then cached[name] else null;
      updates := updates[name := (if name in updates then updates[name] else []) + [ss.Value()]];
      ss.Merge(s);
      assert Subs() == subs;
      if ok && s.Value() == ss.Value() {
        return;
      }
      Store(name, ss);
      if ok && s.Value().SoftEqual(ss.Value()) {
        return;
      }
      writeAsap := true;
      MaybeEnqueueReconcile();
      assert Subs() == subs[name := ss.Value()];
    }

    method EnsureNoSubscription(name: string)
      modifies this
      ensures View() == OnRemove(old(View()), name)
      ensures Subs() == old(Subs()) - {name} && writeAsap == (old(writeAsap) || name in old(cached))
      ensures loop == if name in old(cached) && old(loop).Waiting? then Woken else old(loop)
      ensures cached.Values <= old(cached.Values)
    {
      if name in cached {
        cached := cached - {name};
        assert Subs() == old(Subs()) - {name};
        updates := updates - {name};
        writeAsap := true;
        MaybeEnqueueReconcile();
      }
    }

    method UpdateIngestStatus(v: IngestValue)
      modifies this
      ensures View() == Next(old(View()), UpdateIngest(v)) && cached == old(cached)
      ensures ingest == v && writeAsap == old(writeAsap) && loop == old(loop)
    {
      if ingest == v {
        return;
      }
      ingest := v;
      // The comparison is with the value just assigned, so the flag is never raised here.
      if !ingest.SoftEqual(v) {
        assert false;
      }
    }

    // outcomes tells which of the registered backends accepted the status.
    method UpdateStatus(now: Time, outcomes: seq<bool>)
      modifies this
      ensures View() == OnWrite(old(View()), now) && cached == old(cached)
      ensures attempted == Some(StatusValue(now, ingest, Subs())) && ingest == old(ingest)
      ensures !writeAsap && lastStatusWrite == now && loop == Waiting
    {
      attempted := Some(StatusValue(now, ingest, map n | n in cached :: cached[n].Value()));
      var failed := false;
      for i := 0 to |outcomes|
        invariant !failed && View() == old(View()).(attempted := attempted) && cached == old(cached)
      {
        if !outcomes[i] {
          if failed {
            failed := true;
          }
        }
      }
      // The local flag is only ever set when it is set already, so no failure keeps the write due.
      if failed {
        assert false;
      }
      writeAsap := false;
      lastStatusWrite := now;
      loop := Waiting;
    }

    // The check in the loop of Start, which does not take the lock: other callers can come between
    // it and the write.
    method CheckDue(now: Time) returns (due: bool)
      requires loop.Woken?
      modifies this`loop
      ensures View() == Next(old(View()), Check(now)) && due == loop.Writing?
      ensures due <==> writeAsap || lastStatusWrite + cacheExpiration <= now
      ensures loop == if due then Writing else Waiting
    {
      due := writeAsap || lastStatusWrite + cacheExpiration <= now;
      loop := if due then Writing else Waiting;
    }
  }
}
