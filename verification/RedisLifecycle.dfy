/** The Redis backend's registry of subscriptions: Subscribe, Unsubscribe and the shutdown in Start.

    The mutex makes each of these one atomic operation, except that Start sets the disconnecting
    flag before it takes the lock. Concurrent callers are therefore sequences of the operations.
  */
module RedisLifecycle {
  import opened Options
  import opened StreamIds

  // no tells the loop that reads for it.
  datatype Sub = Sub(no: nat, group: string, bound: Option<string>)

  datatype Registry = Registry(
    prefix: string,               // configured consumer group prefix
    subs: map<string, Sub>,
    waiting: int,                 // the wait group's counter
    disconnecting: bool,
    started: nat,                 // loops started so far, numbered from 0
    cancelled: set<nat>,          // loops whose context is cancelled
    groups: map<string, string>   // groups at the server, with the ID each was created at
  )

  datatype Operation =
    | Subscribe(name: string, bounds: Option<TriggerBounds>, parse: string -> Option<int>, serverFails: bool)
    | Unsubscribe(name: string)
    | BeginDisconnect
    | ShutDown

  function New(prefix: string, groups: map<string, string>): Registry {
    Registry(prefix, map[], 0, false, 0, {}, groups)
  }

  function Loops(subs: map<string, Sub>): set<nat> {
    set n | n in subs :: subs[n].no
  }

  function SubscribeError(r: Registry, op: Operation): Option<string>
    requires op.Subscribe?
  {
    if r.disconnecting then Some("cannot create new subscriptions while disconnecting")
    else if op.name in r.subs then Some("subscription already exists")
    else if ResolveBounds(op.bounds, op.parse).Failure? then Some("subscription bounds could not be resolved")
    else if op.serverFails then Some("consumer group could not be created")
    else None
  }

  function Apply(r: Registry, op: Operation): Registry {
    match op
    case Subscribe(name, bounds, parse, _) =>
      if SubscribeError(r, op).Some? then r
      else
        var range := ResolveBounds(bounds, parse).value;
        var group := r.prefix + "." + name;
        r.(subs := r.subs[name := Sub(r.started, group, EndBound(range.1))],
           waiting := r.waiting + 1,
           started := r.started + 1,
           groups := if group in r.groups then r.groups else r.groups[group := range.0])
    case Unsubscribe(name) =>
      if name in r.subs
      then r.(subs := r.subs - {name}, waiting := r.waiting - 1, cancelled := r.cancelled + {r.subs[name].no})
      else r
    case BeginDisconnect => r.(disconnecting := true)
    case ShutDown =>
      r.(subs := map[], waiting := r.waiting - |r.subs|, cancelled := r.cancelled + Loops(r.subs))
  }

  // Start shuts down only after it set the flag.
  ghost predicate Possible(r: Registry, ops: seq<Operation>)
    decreases |ops|
  {
    ops == [] || ((ops[0] == ShutDown ==> r.disconnecting) && Possible(Apply(r, ops[0]), ops[1..]))
  }

  function ApplyAll(r: Registry, ops: seq<Operation>): Registry
    decreases |ops|
  {
    if ops == [] then r else ApplyAll(Apply(r, ops[0]), ops[1..])
  }

  // No loop is left alone: one that was started is either registered, under one name, or cancelled.
  ghost predicate NoneLost(subs: map<string, Sub>, started: nat, cancelled: set<nat>) {
    && (forall m, n :: m in subs && n in subs && subs[m].no == subs[n].no ==> m == n)
    && (forall k: nat :: k < started <==> k in cancelled || k in Loops(subs))
    && cancelled !! Loops(subs)
  }

  // The counter is the number of registered subscriptions, each of which has a loop and a group of
  // its own.
  ghost predicate Wired(r: Registry) {
    && r.waiting == |r.subs|
    && (forall n <- r.subs :: r.subs[n].group == r.prefix + "." + n && r.subs[n].group in r.groups)
    && NoneLost(r.subs, r.started, r.cancelled)
  }

  lemma OneLoopLess(subs: map<string, Sub>, name: string)
    requires name in subs
    ensures Loops(subs) == Loops(subs - {name}) + {subs[name].no}
  {
    var rest := subs - {name};
    forall n <- subs | n != name ensures subs[n].no in Loops(rest) {
      assert rest[n] == subs[n];
    }
  }

  lemma LoopAdded(subs: map<string, Sub>, started: nat, cancelled: set<nat>, name: string, sub: Sub)
    requires NoneLost(subs, started, cancelled) && name !in subs && sub.no == started
    ensures NoneLost(subs[name := sub], started + 1, cancelled)
  {
    var more := subs[name := sub];
    assert more - {name} == subs;
    OneLoopLess(more, name);
    assert forall n <- subs :: subs[n].no in Loops(subs);
  }

  lemma LoopRemoved(subs: map<string, Sub>, started: nat, cancelled: set<nat>, name: string)
    requires NoneLost(subs, started, cancelled) && name in subs
    ensures NoneLost(subs - {name}, started, cancelled + {subs[name].no})
  {
    OneLoopLess(subs, name);
  }

  lemma OneSubLess(subs: map<string, Sub>, name: string)
    requires name in subs
    ensures |subs - {name}| == |subs| - 1
  {
    assert (subs - {name}).Keys == subs.Keys - {name};
  }

  lemma CancelledOne(cancelled: set<nat>, subs: map<string, Sub>, name: string)
    requires name in subs
    ensures cancelled + {subs[name].no} + Loops(subs - {name}) == cancelled + Loops(subs)
  {
    OneLoopLess(subs, name);
  }

  lemma SubscribeKeepsWired(r: Registry, op: Operation)
    requires Wired(r) && op.Subscribe? && SubscribeError(r, op).None?
    ensures Wired(Apply(r, op))
  {
    LoopAdded(r.subs, r.started, r.cancelled, op.name, Apply(r, op).subs[op.name]);
    hide NoneLost, Loops, ResolveBounds;
  }

  lemma UnsubscribeKeepsWired(r: Registry, name: string)
    requires Wired(r) && name in r.subs
    ensures Wired(Apply(r, Unsubscribe(name)))
  {
    hide Loops;
    LoopRemoved(r.subs, r.started, r.cancelled, name);
    OneSubLess(r.subs, name);
  }

  lemma OperationKeepsWired(r: Registry, op: Operation)
    requires Wired(r)
    ensures Wired(Apply(r, op))
    ensures forall g <- r.groups :: g in Apply(r, op).groups && Apply(r, op).groups[g] == r.groups[g]
  {
    if op.Subscribe? && SubscribeError(r, op).None? {
      SubscribeKeepsWired(r, op);
    } else if op.Unsubscribe? && op.name in r.subs {
      UnsubscribeKeepsWired(r, op.name);
    } else if op.ShutDown? {
      AllRemoved(r);
    }
    hide NoneLost, Wired, ResolveBounds;
  }

  lemma AllRemoved(r: Registry)
    requires Wired(r)
    ensures Wired(Apply(r, ShutDown))
  {
    assert Loops(map[]) == {};
  }

  // Every interleaving keeps the registry wired, so no loop reads unknown to it; groups that exist
  // keep the ID they were created at, also when a trigger is subscribed again; and nothing is
  // registered once disconnecting.
  lemma {:induction false} RegistryAgrees(r: Registry, ops: seq<Operation>)
    requires Wired(r) && Possible(r, ops)
    ensures var r' := ApplyAll(r, ops);
            && Wired(r')
            && (forall g <- r.groups :: g in r'.groups && r'.groups[g] == r.groups[g])
            && (r.disconnecting ==> r'.disconnecting && r'.subs.Keys <= r.subs.Keys)
    decreases |ops|
  {
    if ops != [] {
      OperationKeepsWired(r, ops[0]);
      RegistryAgrees(Apply(r, ops[0]), ops[1..]);
    }
  }

  // Whatever is called before and after, once the shutdown held the lock no subscription remains, and
  // every loop that was ever started has been cancelled.
  lemma {:induction false} ShutdownIsFinal(r: Registry, before: seq<Operation>, after: seq<Operation>)
    requires Wired(r) && Possible(r, before + [ShutDown] + after)
    ensures var r' := ApplyAll(r, before + [ShutDown] + after);
            r'.subs == map[] && r'.waiting == 0 && forall k: nat :: k < r'.started ==> k in r'.cancelled
    decreases |before|
  {
    var ops := before + [ShutDown] + after;
    if before == [] {
      assert ops[0] == ShutDown && ops[1..] == after;
      RegistryAgrees(Apply(r, ShutDown), after);
    } else {
      assert ops[0] == before[0] && ops[1..] == before[1..] + [ShutDown] + after;
      RegistryAgrees(r, [before[0]]);
      assert ApplyAll(r, [before[0]]) == Apply(r, before[0]);
      ShutdownIsFinal(Apply(r, before[0]), before[1..], after);
    }
  }

  // When a subscription is accepted.
  lemma AcceptedExactly(r: Registry, op: Operation)
    requires op.Subscribe?
    ensures SubscribeError(r, op).None?
            <==> && !r.disconnecting && op.name !in r.subs && !op.serverFails
                 && !BadDate(if op.bounds.Some? then op.bounds.value.byDate else None, op.parse)
  {
    ResolvesAsAsked(op.bounds, op.parse, "");
    hide ResolveBounds;
  }

  // What an accepted subscription reads, with bounds or without. It stops at the trigger's end: a
  // canonical end ID, or else the end date, or never. A new group starts at the start ID, or else at
  // the start date, or at the end of the stream; a group that exists keeps its place, whatever the
  // trigger says. Nothing else in the registry changes.
  lemma SubscribedRange(r: Registry, op: Operation, id: Id, start: Id, end: Id, text: string)
    requires op.Subscribe? && SubscribeError(r, op).None?
    ensures var r', group := Apply(r, op), r.prefix + "." + op.name;
            && op.name in r'.subs && r'.subs == r.subs[op.name := r'.subs[op.name]]
            && var sub := r'.subs[op.name];
            && sub.group == group && group in r'.groups && sub.no == r.started && r'.started == r.started + 1
            && r'.waiting == r.waiting + 1 && r'.cancelled == r.cancelled && r'.disconnecting == r.disconnecting
            && StopsAsAsked(op.bounds, op.parse, sub.bound, id, end, text)
            && r'.groups == (if group in r.groups then r.groups else r.groups[group := r'.groups[group]])
            && (group !in r.groups ==> StartsAsAsked(op.bounds, op.parse, r'.groups[group], start, text))
  {
    ResolvesAsAsked(op.bounds, op.parse, text);
    ResolvesAsAsked(op.bounds, op.parse, end.Show());
    ResolvesAsAsked(op.bounds, op.parse, start.Show());
    DecimalNonEmpty(end.ms);
    DecimalNonEmpty(start.ms);
    StringOrderIsIdOrder(id, end);
    BareMillisIsFirstId(id, end.ms);
    IdRoundTrip(start);
    hide ResolveBounds, StrAtLeast, ParseId, Decimal, BadDate;
  }

  ghost predicate StopsAsAsked(
    bounds: Option<TriggerBounds>, parse: string -> Option<int>, bound: Option<string>, id: Id, end: Id, text: string)
  {
    var byId := if bounds.Some? then bounds.value.byId else None;
    var byDate := if bounds.Some? then bounds.value.byDate else None;
    && (HasEnd(byId, end.Show()) && IdsAgree(id, end) ==> (Exceeds(bound, id) <==> id.AtLeast(end)))
    && ((NoEnd(byId) && HasEnd(byDate, text) && parse(text) == Some(end.ms)
         && (id.ms == end.ms || NumbersAgree(id.ms, end.ms)))
        ==> (Exceeds(bound, id) <==> end.ms <= id.ms))
    && (NoEnd(byId) && NoEnd(byDate) ==> !Exceeds(bound, id))
  }

  ghost predicate StartsAsAsked(
    bounds: Option<TriggerBounds>, parse: string -> Option<int>, first: string, start: Id, text: string)
  {
    var byId := if bounds.Some? then bounds.value.byId else None;
    var byDate := if bounds.Some? then bounds.value.byDate else None;
    && (HasStart(byId, start.Show()) ==> ParseId(first) == Some(start))
    && (NoStart(byId) && HasStart(byDate, text) && parse(text) == Some(start.ms) ==>
          ParseId(first) == Some(Id(start.ms, 0)))
    && (NoStart(byId) && NoStart(byDate) ==> first == "$")
  }

  // Unsubscribing concerns one name only: its loop is cancelled, and all others stay registered.
  lemma UnsubscribedExactly(r: Registry, name: string)
    ensures var r' := Apply(r, Unsubscribe(name));
            && r'.subs.Keys == r.subs.Keys - {name} && (forall n <- r'.subs :: r'.subs[n] == r.subs[n])
            && (forall k :: k in r'.cancelled <==> k in r.cancelled || (name in r.subs && k == r.subs[name].no))
            && r'.waiting == r.waiting - (if name in r.subs then 1 else 0)
            && r'.groups == r.groups && r'.started == r.started && r'.disconnecting == r.disconnecting
  {
  }

  class Redis {
    const prefix: string
    var subs: map<string, Sub>
    var wgSubs: int
    var disconnecting: bool
    var started: nat
    var cancelled: set<nat>
    var groups: map<string, string>

    ghost function View(): Registry
      reads this
    {
      Registry(prefix, subs, wgSubs, disconnecting, started, cancelled, groups)
    }

    constructor (prefix: string, groups: map<string, string>)
      ensures View() == New(prefix, groups)
    {
      this.prefix := prefix;
      subs, wgSubs, disconnecting, started, cancelled, this.groups := map[], 0, false, 0, {}, groups;
    }

    method Subscribe(name: string, bounds: Option<TriggerBounds>, parse: string -> Option<int>, serverFails: bool)
      returns (error: Option<string>)
      modifies this
      ensures error == SubscribeError(old(View()), Operation.Subscribe(name, bounds, parse, serverFails))
      ensures View() == Apply(old(View()), Operation.Subscribe(name, bounds, parse, serverFails))
      ensures error.None? <==>
                && !old(disconnecting) && name !in old(subs) && !serverFails
                && !BadDate(if bounds.Some? then bounds.value.byDate else None, parse)
      ensures error.Some? ==> View() == old(View())
    {
      AcceptedExactly(View(), Operation.Subscribe(name, bounds, parse, serverFails));
      hide BadDate;
      if disconnecting {
        return Some("cannot create new subscriptions while disconnecting");
      }
      if name in subs {
        return Some("subscription already exists");
      }
      var range := ResolveBounds(bounds, parse);
      if range.Failure? {
        return Some("subscription bounds could not be resolved");
      }
      var group := prefix + "." + name;
      if serverFails {
        return Some("consumer group could not be created");
      }
      if group !in groups {
        groups := groups[group := range.value.0];
      }
      subs := subs[name := Sub(started, group, EndBound(range.value.1))];
      wgSubs := wgSubs + 1;
      started := started + 1;
      return None;
    }

    // Cancels the loop and waits for it, up to a timeout, before the entry goes.
    method Unsubscribe(name: string)
      modifies this
      ensures View() == Apply(old(View()), Operation.Unsubscribe(name))
    {
      if name !in subs {
        return;
      }
      cancelled := cancelled + {subs[name].no};
      subs := subs - {name};
      wgSubs := wgSubs - 1;
    }

    method BeginDisconnect()
      modifies this
      ensures View() == Apply(old(View()), Operation.BeginDisconnect)
      ensures disconnecting && subs == old(subs)
    {
      disconnecting := true;
    }

    // The part of Start that holds the lock; the subscriptions go in any order.
    method ShutDown()
      modifies this
      ensures View() == Apply(old(View()), Operation.ShutDown)
      ensures subs == map[]
    {
      hide Apply;
      while subs != map[]
        invariant Apply(View(), Operation.ShutDown) == Apply(old(View()), Operation.ShutDown)
        decreases |subs|
      {
        var name :| name in subs;
        OneDown(View(), name);
        Unsubscribe(name);
      }
      AllDown(View());
    }
  }

  // Unsubscribing one by one comes to the same as all at once.
  lemma OneDown(r: Registry, name: string)
    requires name in r.subs
    ensures var r' := Apply(r, Unsubscribe(name));
            Apply(r', ShutDown) == Apply(r, ShutDown) && |r'.subs| < |r.subs|
  {
    OneSubLess(r.subs, name);
    CancelledOne(r.cancelled, r.subs, name);
    hide Loops;
  }

  lemma AllDown(r: Registry)
    requires r.subs == map[]
    ensures Apply(r, ShutDown) == r
  {
    assert Loops(map[]) == {} && r.cancelled + {} == r.cancelled;
  }
}
