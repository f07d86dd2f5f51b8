/** Reconciliation: bringing the subscribers, the backend's registrations and the cached status in
    line with a configuration.
  */
module SubscriptionManager {
  import opened Options
  import opened StatusTypes
  import opened StatusManager
  import S = Subscriber

  type Name = string
  type Trigger = S.Trigger
  type Triggers = map<Name, Trigger>

  datatype Call = Registered(name: Name) | Unregistered(name: Name)

  const READY := SubscriptionValue("Ready", None, None)
  const FAILED := SubscriptionValue("Failed", Some("Failed to create trigger subscription"), None)

  // What can go wrong in one update: names whose creation is refused by the backend or a client
  // library, and triggers whose options cannot be applied.
  datatype Faults = Faults(refused: set<Name>, parses: string -> bool)

  predicate CannotCreate(name: Name, t: Trigger, faults: Faults) {
    S.Unusable(t, faults.parses) || name in faults.refused
  }

  // ---------- The calls made at the backend ----------

  function CallsAbout(log: seq<Call>, name: Name): seq<Call> {
    if log == [] then []
    else
      var last := log[|log| - 1];
      CallsAbout(log[..|log| - 1], name) + if last.name == name then [last] else []
  }

  lemma LogOneMore(log: seq<Call>, call: Call)
    ensures forall n :: CallsAbout(log + [call], n) == CallsAbout(log, n) + if call.name == n then [call] else []
  {
    assert (log + [call])[..|log|] == log;
  }

  lemma {:induction false} LogGrows(a: seq<Call>, b: seq<Call>, name: Name)
    requires a <= b
    ensures |CallsAbout(a, name)| <= |CallsAbout(b, name)|
    decreases |b|
  {
    if a != b {
      LogGrows(a, b[..|b| - 1], name);
    }
  }

  // A log that grew has a new entry about someone.
  lemma SameLog(a: seq<Call>, b: seq<Call>)
    requires a <= b && forall n :: CallsAbout(b, n) == CallsAbout(a, n)
    ensures a == b
  {
    if |a| < |b| {
      var call := b[|a|];
      assert b[..|a| + 1] == a + [call];
      LogOneMore(a, call);
      LogGrows(a + [call], b, call.name);
    }
  }

  // What an update changes: subscribers, cached status entries, and the log of backend calls.
  datatype Books = Books(subs: Triggers, statuses: Subscriptions, log: seq<Call>) {
    // Names with a status but no subscriber.
    ghost function Stale(): set<Name> {
      statuses.Keys - subs.Keys
    }
  }

  // ---------- What an update does to one name ----------

  datatype Entry = Entry(sub: Option<Trigger>, status: Option<SubscriptionValue>, calls: seq<Call>)

  function Find<V>(m: map<Name, V>, name: Name): Option<V> {
    if name in m then Some(m[name]) else None
  }

  function EntryOf(b: Books, name: Name): Entry {
    Entry(Find(b.subs, name), Find(b.statuses, name), CallsAbout(b.log, name))
  }

  // A status update, over what the name showed.
  function Reported(status: Option<SubscriptionValue>, v: SubscriptionValue): Option<SubscriptionValue> {
    Some(if status.Some? then v.MergedWith(status.value) else v)
  }

  // A name that is not configured.
  function Removed(e: Entry, name: Name): Entry {
    if e.sub.Some? then Entry(None, None, e.calls + [Unregistered(name)]) else e
  }

  // A configured trigger that is got to.
  function Applied(e: Entry, name: Name, t: Trigger, faults: Faults): Entry {
    if e.sub.Some? then e.(sub := Some(t))
    else if CannotCreate(name, t, faults) then e.(status := Reported(e.status, FAILED))
    else Entry(Some(t), Reported(e.status, READY), e.calls + [Registered(name)])
  }

  // A surviving trigger that changed and cannot be applied: it ends the update.
  predicate StopsAt(triggers: Triggers, faults: Faults, subs: Triggers, name: Name) {
    name in triggers && name in subs && subs[name] != triggers[name] && S.Unusable(triggers[name], faults.parses)
  }

  ghost predicate Stops(triggers: Triggers, faults: Faults, subs: Triggers) {
    exists n :: StopsAt(triggers, faults, subs, n)
  }

  predicate PanicsAt(triggers: Triggers, subs: Triggers, name: Name) {
    name in triggers && S.Panics(triggers[name]) && !(name in subs && subs[name] == triggers[name])
  }

  // The books when the triggers named in done have been got to, the others not yet.
  ghost predicate Progressed(triggers: Triggers, faults: Faults, before: Books, done: set<Name>, after: Books) {
    && before.log <= after.log && done <= triggers.Keys
    && (forall n <- done :: !StopsAt(triggers, faults, before.subs, n))
    && forall n :: EntryOf(after, n) ==
         if n !in triggers then Removed(EntryOf(before, n), n)
         else if n in done then Applied(EntryOf(before, n), n, triggers[n], faults)
         else EntryOf(before, n)
  }

  // One update: every name is got to, unless a surviving trigger ends it early.
  ghost predicate Updated(triggers: Triggers, faults: Faults, before: Books, after: Books) {
    exists done :: Progressed(triggers, faults, before, done, after)
                   && (done == triggers.Keys <==> !Stops(triggers, faults, before.subs))
  }

  // ---------- What this means for the configuration ----------

  // A name that survives or can be created is in force with its configured value, and shows Ready
  // if it is new, without what an earlier status told; any other configured name has no subscriber and
  // shows that it failed.
  ghost predicate InForce(triggers: Triggers, faults: Faults, before: Books, after: Books, name: Name)
    requires name in triggers
  {
    if name in before.subs || !(S.Unusable(triggers[name], faults.parses) || name in faults.refused) then
      && name in after.subs && after.subs[name] == triggers[name]
      && (name !in before.subs ==>
            && name in after.statuses && after.statuses[name].status == "Ready"
            && (name in before.statuses && before.statuses[name].status != "Ready" ==>
                  after.statuses[name].message.None?))
    else
      && name !in after.subs && name in after.statuses && after.statuses[name].status == "Failed"
      && after.statuses[name].message == Some("Failed to create trigger subscription")
  }

  // Whatever creations fail, each failure concerns its own name only: unless a surviving trigger
  // that cannot be applied ends the update, every name of the configuration gets what it can.
  lemma FailuresAreIsolated(triggers: Triggers, faults: Faults, before: Books, after: Books)
    requires Updated(triggers, faults, before, after) && !Stops(triggers, faults, before.subs)
    ensures forall n <- triggers :: InForce(triggers, faults, before, after, n)
    ensures after.subs.Keys <= triggers.Keys
  {
    forall n <- triggers ensures InForce(triggers, faults, before, after, n) {
      OneName(triggers, faults, before, after, n);
    }
    forall n <- after.subs ensures n in triggers {
      OneName(triggers, faults, before, after, n);
    }
  }

  // Any update: a name is removed, got to, or as it was; and the last only if it is configured and
  // some surviving trigger ended the update.
  lemma OneName(triggers: Triggers, faults: Faults, before: Books, after: Books, name: Name)
    requires Updated(triggers, faults, before, after)
    ensures var e, e' := EntryOf(before, name), EntryOf(after, name);
            if name !in triggers then e' == Removed(e, name)
            else e' == Applied(e, name, triggers[name], faults) || (e' == e && Stops(triggers, faults, before.subs))
  {
    hide CannotCreate, StopsAt;
    var done :| Progressed(triggers, faults, before, done, after)
                && (done == triggers.Keys <==> !Stops(triggers, faults, before.subs));
    hide EntryOf, Applied, Removed;
  }

  // A trigger that ends the update is itself left as it was, and keeps its status.
  lemma StoppingTriggerIsKept(triggers: Triggers, faults: Faults, before: Books, after: Books, name: Name)
    requires Updated(triggers, faults, before, after) && StopsAt(triggers, faults, before.subs, name)
    ensures EntryOf(after, name) == EntryOf(before, name)
  {
    hide S.Unusable;
    var done :| Progressed(triggers, faults, before, done, after);
    assert name !in done;
  }

  // For every update, with any failures: a surviving name keeps its status and causes no backend
  // call, and has its new or its former value; a name that is created shows Ready.
  lemma SurvivorsAreLeftAlone(triggers: Triggers, faults: Faults, before: Books, after: Books, name: Name)
    requires Updated(triggers, faults, before, after)
    ensures name in before.subs && name in triggers ==>
              && name in after.subs && after.subs[name] in {before.subs[name], triggers[name]}
              && Find(after.statuses, name) == Find(before.statuses, name)
              && CallsAbout(after.log, name) == CallsAbout(before.log, name)
    ensures name !in before.subs && name in after.subs ==>
              name in triggers && name in after.statuses && after.statuses[name].status == "Ready"
  {
    hide CannotCreate, Stops;
    OneName(triggers, faults, before, after, name);
  }

  ghost predicate NoFault(triggers: Triggers, faults: Faults) {
    forall n <- triggers :: !CannotCreate(n, triggers[n], faults)
  }

  // Without a fault the update converges, by name and by value, and clears stale statuses of
  // configured names.
  lemma Converges(triggers: Triggers, faults: Faults, before: Books, after: Books)
    requires Updated(triggers, faults, before, after) && NoFault(triggers, faults)
    ensures after.subs == triggers && after.Stale() == before.Stale() - triggers.Keys
  {
    assert !Stops(triggers, faults, before.subs);
    FailuresAreIsolated(triggers, faults, before, after);
    assert after.subs.Keys == triggers.Keys by {
      forall n <- triggers ensures n in after.subs { assert InForce(triggers, faults, before, after, n); }
    }
    forall n <- triggers ensures after.subs[n] == triggers[n] { assert InForce(triggers, faults, before, after, n); }
    forall n ensures n in after.Stale() <==> n in before.Stale() && n !in triggers {
      OneName(triggers, faults, before, after, n);
      StaleEntry(before, n);
      StaleEntry(after, n);
      hide NoFault, CannotCreate, Updated;
    }
  }

  lemma StaleEntry(b: Books, name: Name)
    ensures name in b.Stale() <==> EntryOf(b, name).sub.None? && EntryOf(b, name).status.Some?
  {
  }

  // A configuration that is in force already changes nothing, whatever would fail.
  lemma NothingToDo(triggers: Triggers, faults: Faults, before: Books, after: Books)
    requires Updated(triggers, faults, before, after) && before.subs == triggers
    ensures after == before
  {
    forall n ensures EntryOf(after, n) == EntryOf(before, n) {
      OneName(triggers, faults, before, after, n);
      hide Updated;
    }
    SameBooks(before, after) by {
      hide EntryOf, Stops, StopsAt, Applied, Removed;
      var done :| Progressed(triggers, faults, before, done, after);
    }
  }

  lemma SameBooks(a: Books, b: Books)
    requires a.log <= b.log && forall n :: EntryOf(b, n) == EntryOf(a, n)
    ensures a == b
  {
    forall n ensures (n in a.subs <==> n in b.subs) && (n in a.subs ==> a.subs[n] == b.subs[n])
             && (n in a.statuses <==> n in b.statuses) && (n in a.statuses ==> a.statuses[n] == b.statuses[n])
             && CallsAbout(b.log, n) == CallsAbout(a.log, n) {
      assert EntryOf(b, n) == EntryOf(a, n);
    }
    SameLog(a.log, b.log);
    assert a.subs == b.subs && a.statuses == b.statuses;
  }

  // ---------- Any sequence of configurations ----------

  datatype Config = Config(triggers: Triggers, faults: Faults)

  // One update, from the books it found to those it left.
  datatype Round = Round(config: Config, before: Books, after: Books)

  // Between two updates events are dispatched, and subscribers change their status in any way.
  ghost predicate Between(a: Books, b: Books) {
    && b.subs == a.subs && b.log == a.log && b.statuses.Keys == a.statuses.Keys
    && forall n <- a.Stale() :: b.statuses[n] == a.statuses[n]
  }

  ghost predicate History(h: seq<Round>) {
    && (forall i :: 0 <= i < |h| ==> Updated(h[i].config.triggers, h[i].config.faults, h[i].before, h[i].after))
    && (forall i, j :: 0 <= i < j < |h| && j == i + 1 ==> Between(h[i].after, h[j].before))
  }

  // Registrations and removals take turns, starting with a registration, and the last of them
  // tells whether the name has a subscriber.
  ghost predicate OnRecord(b: Books, name: Name) {
    var calls := CallsAbout(b.log, name);
    && (forall k :: 0 <= k < |calls| ==> calls[k] == if k % 2 == 0 then Registered(name) else Unregistered(name))
    && (name in b.subs <==> |calls| % 2 == 1)
  }

  // Over any history, with any failures: every registration at the backend is undone before the
  // next one for that name, and no name is unregistered that is not registered.
  lemma {:induction false} CallsTakeTurns(h: seq<Round>, name: Name, n: nat)
    requires History(h) && n < |h| && OnRecord(h[0].before, name)
    ensures OnRecord(h[n].before, name) && OnRecord(h[n].after, name)
    decreases n
  {
    if n > 0 {
      CallsTakeTurns(h, name, n - 1);
      assert Between(h[n - 1].after, h[n].before);
    }
    OneCall(h[n].config, h[n].before, h[n].after, name);
  }

  lemma OneCall(config: Config, before: Books, after: Books, name: Name)
    requires Updated(config.triggers, config.faults, before, after) && OnRecord(before, name)
    ensures OnRecord(after, name)
  {
    hide Updated, CannotCreate, Stops;
    OneName(config.triggers, config.faults, before, after, name);
    assert EntryOf(after, name).calls == CallsAbout(after.log, name);
  }

  // A failed creation whose report has stood since, while the name was never registered.
  ghost predicate FailedAt(h: seq<Round>, name: Name, n: nat, k: nat)
    requires n < |h|
  {
    && k <= n && name in h[k].config.triggers
    && CannotCreate(name, h[k].config.triggers[name], h[k].config.faults)
    && name in h[n].after.statuses && h[n].after.statuses[name].status == "Failed"
    && forall j :: k <= j <= n ==>
         name in h[j].after.Stale() && h[j].after.statuses[name] == h[n].after.statuses[name]
  }

  // Over any history that starts clean, a status without subscriber tells of such a failure,
  // and nothing else leaves one behind.
  lemma {:induction false} StaleTellsOfFailure(h: seq<Round>, name: Name, n: nat)
    requires History(h) && n < |h| && h[0].before.Stale() == {}
    requires name in h[n].after.Stale()
    ensures exists k :: FailedAt(h, name, n, k)
    decreases n
  {
    var before, after := h[n].before, h[n].after;
    StaleAfterUpdate(h[n].config, before, after, name);
    if name in before.Stale() && after.statuses[name] == before.statuses[name] {
      var p := n - 1;
      assert Between(h[p].after, before);
      StaleTellsOfFailure(h, name, p);
      var k :| FailedAt(h, name, p, k);
      assert FailedAt(h, name, n, k);
    } else {
      assert FailedAt(h, name, n, n);
    }
  }

  lemma StaleAfterUpdate(config: Config, before: Books, after: Books, name: Name)
    requires Updated(config.triggers, config.faults, before, after) && name in after.Stale()
    ensures || (name in before.Stale() && after.statuses[name] == before.statuses[name])
            || (name in config.triggers && CannotCreate(name, config.triggers[name], config.faults)
                && after.statuses[name].status == "Failed")
  {
    OneName(config.triggers, config.faults, before, after, name);
    StaleEntry(before, name);
    StaleEntry(after, name);
    hide Updated, CannotCreate, Stops;
  }

  // After an update without fault, repeating the configuration changes nothing, however often and
  // whatever fails then: each repetition leaves the books as it finds them, so that only dispatches
  // change them, which add and remove neither subscribers, status entries nor calls.
  lemma {:induction false} ConvergesAndStays(h: seq<Round>, i: nat, n: nat)
    requires History(h) && i <= n < |h|
    requires NoFault(h[i].config.triggers, h[i].config.faults)
    requires forall j :: i <= j <= n ==> h[j].config.triggers == h[i].config.triggers
    ensures i < n ==> h[n].after == h[n].before
    ensures h[n].after.subs == h[i].config.triggers && h[n].after.log == h[i].after.log
    ensures h[n].after.statuses.Keys == h[i].after.statuses.Keys
    decreases n
  {
    hide Updated, NoFault;
    assert Updated(h[n].config.triggers, h[n].config.faults, h[n].before, h[n].after);
    if i < n {
      ConvergesAndStays(h, i, n - 1);
      assert Between(h[n - 1].after, h[n].before);
      NothingToDo(h[n].config.triggers, h[n].config.faults, h[n].before, h[n].after);
    } else {
      Converges(h[n].config.triggers, h[n].config.faults, h[n].before, h[n].after);
    }
  }

  // ---------- The manager object ----------

  lemma StatusWritten(c: Cache, name: Name, v: SubscriptionValue)
    ensures OnUpdate(c, name, v).subs == c.subs[name := Reported(Find(c.subs, name), v).value]
    ensures OnRemove(c, name).subs == c.subs - {name}
  {
  }

  ghost predicate ChangedOnly(before: Books, name: Name, e: Entry, after: Books) {
    && before.log <= after.log && EntryOf(after, name) == e
    && forall n | n != name :: EntryOf(after, n) == EntryOf(before, n)
  }

  class Manager {
    var subscribers: Triggers
    var registered: set<Name>     // callbacks at the backend
    var status: Cache
    var calls: seq<Call>          // made at the backend, in order

    // Subscribers and registrations have the same names, and each of them a status.
    ghost predicate Agrees()
      reads `subscribers, `registered, `status
    {
      registered == subscribers.Keys && subscribers.Keys <= status.subs.Keys
    }

    ghost function View(): Books
      reads `subscribers, `status, `calls
    {
      Books(subscribers, status.subs, calls)
    }

    constructor (expiration: int)
      ensures Agrees() && View() == Books(map[], map[], [])
    {
      subscribers, registered, status, calls := map[], {}, NewCache(expiration), [];
    }

    method Remove(name: Name)
      requires Agrees() && name in subscribers
      modifies this
      ensures Agrees() && subscribers.Keys == old(subscribers).Keys - {name}
      ensures ChangedOnly(old(View()), name, Removed(EntryOf(old(View()), name), name), View())
    {
      LogOneMore(calls, Unregistered(name));
      registered, calls := registered - {name}, calls + [Unregistered(name)];
      subscribers := subscribers - {name};
      StatusWritten(status, name, READY);
      status := OnRemove(status, name);
    }

    method RemoveSubscribers(triggers: Triggers, ghost faults: Faults)
      requires Agrees()
      modifies this
      ensures Agrees() && Progressed(triggers, faults, old(View()), {}, View())
    {
      ghost var before, done := View(), {};
      var gone := set n | n in subscribers && n !in triggers;
      var todo := gone;
      while todo != {}
        invariant done + todo == gone && done !! todo
        invariant Agrees() && subscribers.Keys == before.subs.Keys - done && before.log <= calls
        invariant forall n ::
                    EntryOf(View(), n) == if n in done then Removed(EntryOf(before, n), n) else EntryOf(before, n)
      {
        var name :| name in todo;
        todo, done := todo - {name}, done + {name};
        Remove(name);
      }
      forall n | n !in triggers && n !in done ensures Removed(EntryOf(before, n), n) == EntryOf(before, n) {
      }
    }

    // Creates the subscriber of one trigger, or reports the failure.
    method Create(name: Name, trigger: Trigger, faults: Faults) returns (panicked: bool)
      requires Agrees() && name !in subscribers
      modifies this
      ensures panicked <==> S.Panics(trigger)
      ensures !panicked ==>
                && Agrees()
                && ChangedOnly(old(View()), name, Applied(EntryOf(old(View()), name), name, trigger, faults), View())
    {
      if S.Panics(trigger) {
        return true;
      }
      if CannotCreate(name, trigger, faults) {
        StatusWritten(status, name, FAILED);
        status := OnUpdate(status, name, FAILED);
        return false;
      }
      LogOneMore(calls, Registered(name));
      registered, calls := registered + {name}, calls + [Registered(name)];
      StatusWritten(status, name, READY);
      status := OnUpdate(status, name, READY);
      subscribers := subscribers[name := trigger];
      return false;
    }

    // Brings everything in line with the configuration, in any order of its names. A trigger that
    // lacks a delay it needs makes the process panic when it is applied, unless it is in force
    // already or another trigger ended the update before.
    method UpdateFromConfig(triggers: Triggers, faults: Faults) returns (panicked: bool)
      requires Agrees()
      modifies this
      ensures panicked ==> exists n :: PanicsAt(triggers, old(subscribers), n)
      ensures !panicked ==> Agrees() && Updated(triggers, faults, old(View()), View())
      ensures !panicked && !Stops(triggers, faults, old(subscribers)) ==>
                forall n :: !PanicsAt(triggers, old(subscribers), n)
    {
      ghost var before, done := View(), {};
      RemoveSubscribers(triggers, faults);
      hide Removed, EntryOf, Applied, S.Panics, S.Unusable;
      var todo := triggers.Keys;
      while todo != {}
        invariant done + todo == triggers.Keys && done !! todo
        invariant Agrees() && Progressed(triggers, faults, before, done, View())
        invariant forall n <- done :: !PanicsAt(triggers, before.subs, n)
      {
        var name :| name in todo;
        ghost var was := View();
        SameSubscriber(was, before, name) by {
          assert EntryOf(was, name) == EntryOf(before, name);
        }
        var stop;
        stop, panicked := Apply(name, triggers[name], faults);
        if panicked {
          assert PanicsAt(triggers, before.subs, name);
          return;
        }
        if stop {
          assert StopsAt(triggers, faults, before.subs, name);
          return;
        }
        OneMore(triggers, faults, before, done, was, name, View());
        todo, done := todo - {name}, done + {name};
      }
      assert done == triggers.Keys;
      return false;
    }

    // One trigger of the configuration; stop tells that it ends the update.
    method Apply(name: Name, trigger: Trigger, faults: Faults) returns (stop: bool, panicked: bool)
      requires Agrees()
      modifies this
      ensures var changed := !(name in old(subscribers) && old(subscribers)[name] == trigger);
              && (panicked <==> changed && S.Panics(trigger))
              && (stop <==> changed && name in old(subscribers) && S.Unusable(trigger, faults.parses))
      ensures stop ==> Agrees() && View() == old(View())
      ensures !stop && !panicked ==>
                && Agrees()
                && ChangedOnly(old(View()), name, Applied(EntryOf(old(View()), name), name, trigger, faults), View())
    {
      if name !in subscribers {
        panicked := Create(name, trigger, faults);
        return false, panicked;
      }
      if subscribers[name] == trigger {
        return false, false;
      }
      if S.Panics(trigger) {
        return false, true;
      }
      if S.Unusable(trigger, faults.parses) {
        return true, false;
      }
      subscribers := subscribers[name := trigger];
      return false, false;
    }
  }

  lemma SameSubscriber(a: Books, b: Books, name: Name)
    requires EntryOf(a, name) == EntryOf(b, name)
    ensures (name in a.subs <==> name in b.subs) && (name in a.subs ==> a.subs[name] == b.subs[name])
  {
  }

  lemma OneMore(
    triggers: Triggers, faults: Faults, before: Books, done: set<Name>, was: Books, name: Name, after: Books)
    requires Progressed(triggers, faults, before, done, was) && name in triggers && name !in done
    requires !StopsAt(triggers, faults, before.subs, name)
    requires ChangedOnly(was, name, Applied(EntryOf(was, name), name, triggers[name], faults), after)
    ensures Progressed(triggers, faults, before, done + {name}, after)
  {
    hide StopsAt, EntryOf, Applied, Removed;
  }
}
