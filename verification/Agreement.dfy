/** Reconciliation interleaved with dispatches: when do the subscribers, the backend's callbacks and
    the cached status have the same names?

    UpdateFromConfig runs in small steps under the manager's lock. Dispatches run meanwhile, and
    each reports a status change when it ends. The memory backend dispatches under a read lock that
    Unsubscribe has to wait for; the Redis backend dispatches in goroutines nobody waits for.
  */
module Agreement {
  type Name = string

  datatype Point =
    | Idle
    | Removing(todo: set<Name>, config: set<Name>)
    | Removed(name: Name, todo: set<Name>, config: set<Name>)   // unsubscribed, status still there
    | Creating(todo: set<Name>)
    | Created(name: Name, todo: set<Name>)                      // subscribed, not recorded yet

  datatype System = System(
    locked: bool,           // dispatches hold the lock that Unsubscribe takes
    point: Point,
    subs: set<Name>,        // the manager's subscribers
    ccbs: set<Name>,        // callbacks at the backend
    status: set<Name>,      // names in the cached status
    running: set<Name>,     // dispatches that have not ended
    failed: set<Name>,      // history: names whose creation failed, since they were last created
    revived: set<Name>      // history: names whose dispatch ended after they were removed, likewise
  )

  datatype Step =
    | Begin(config: set<Name>)
    | Unsubscribe(name: Name)
    | ForgetStatus
    | EndRemovals
    | Subscribe(name: Name, ok: bool)
    | Record
    | Skip(name: Name)
    | End                    // all done, or ended early by a trigger that cannot be applied
    | DispatchStarts(name: Name)
    | DispatchEnds(name: Name)

  function New(locked: bool): System {
    System(locked, Idle, {}, {}, {}, {}, {}, {})
  }

  predicate Enabled(s: System, step: Step) {
    match step
    case Begin(_) => s.point.Idle?
    case Unsubscribe(name) => s.point.Removing? && name in s.point.todo && (s.locked ==> s.running == {})
    case ForgetStatus => s.point.Removed?
    case EndRemovals => s.point.Removing? && s.point.todo == {}
    case Subscribe(name, _) =>
      s.point.Creating? && name in s.point.todo && name !in s.subs && (s.locked ==> s.running == {})
    case Record => s.point.Created?
    case Skip(name) => s.point.Creating? && name in s.point.todo && name in s.subs
    case End => s.point.Creating?
    case DispatchStarts(name) => name in s.ccbs
    case DispatchEnds(name) => name in s.running
  }

  function Next(s: System, step: Step): System
    requires Enabled(s, step)
  {
    match step
    case Begin(config) => s.(point := Removing(s.subs - config, config))
    case Unsubscribe(name) =>
      s.(point := Removed(name, s.point.todo - {name}, s.point.config),
         ccbs := s.ccbs - {name}, subs := s.subs - {name})
    case ForgetStatus => s.(point := Removing(s.point.todo, s.point.config), status := s.status - {s.point.name})
    case EndRemovals => s.(point := Creating(s.point.config))
    case Subscribe(name, ok) =>
      if ok then s.(point := Created(name, s.point.todo - {name}), ccbs := s.ccbs + {name})
      else s.(point := Creating(s.point.todo - {name}), status := s.status + {name}, failed := s.failed + {name})
    case Record =>
      var name := s.point.name;
      s.(point := Creating(s.point.todo), status := s.status + {name}, subs := s.subs + {name},
         failed := s.failed - {name}, revived := s.revived - {name})
    case Skip(name) => s.(point := Creating(s.point.todo - {name}))
    case End => s.(point := Idle)
    case DispatchStarts(name) => s.(running := s.running + {name})
    case DispatchEnds(name) =>
      var goneForGood := name !in s.ccbs && !(s.point.Removed? && s.point.name == name);
      s.(running := s.running - {name}, status := s.status + {name},
         revived := if goneForGood then s.revived + {name} else s.revived)
  }

  predicate Valid(s: System, steps: seq<Step>)
    decreases |steps|
  {
    steps == [] || (Enabled(s, steps[0]) && Valid(Next(s, steps[0]), steps[1..]))
  }

  function Exec(s: System, steps: seq<Step>): System
    requires Valid(s, steps)
    decreases |steps|
  {
    if steps == [] then s else Exec(Next(s, steps[0]), steps[1..])
  }

  // The names an update has yet to get to.
  function Todo(point: Point): set<Name> {
    match point
    case Idle => {}
    case Removing(todo, _) => todo
    case Removed(_, todo, _) => todo
    case Creating(todo) => todo
    case Created(_, todo) => todo
  }

  // The name a half-done removal or creation is about.
  predicate About(point: Point, n: Name) {
    (point.Removed? || point.Created?) && point.name == n
  }

  // Exactly the steps that change what is known of a name.
  lemma NameMoves(s: System, step: Step, n: Name)
    requires Enabled(s, step)
    ensures var s' := Next(s, step);
            && (n in s'.subs <==> (n in s.subs && step != Unsubscribe(n)) || (step.Record? && About(s.point, n)))
            && (n in s'.ccbs <==> (n in s.ccbs && step != Unsubscribe(n)) || step == Subscribe(n, true))
            && (n in s'.status <==>
                  || (n in s.status && !(step.ForgetStatus? && About(s.point, n)))
                  || step == Subscribe(n, false) || (step.Record? && About(s.point, n)) || step == DispatchEnds(n))
            && (n in s'.running <==> (n in s.running && step != DispatchEnds(n)) || step == DispatchStarts(n))
            && (n in s'.failed <==>
                  (n in s.failed && !(step.Record? && About(s.point, n))) || step == Subscribe(n, false))
            && (n in s'.revived <==>
                  || (n in s.revived && !(step.Record? && About(s.point, n)))
                  || (step == DispatchEnds(n) && n !in s.ccbs && !(s.point.Removed? && About(s.point, n))))
            && (n in Todo(s'.point) <==>
                  match step
                  case Begin(config) => n in s.subs && n !in config
                  case EndRemovals => n in s.point.config
                  case End => false
                  case Unsubscribe(m) => n in Todo(s.point) && n != m
                  case Subscribe(m, _) => n in Todo(s.point) && n != m
                  case Skip(m) => n in Todo(s.point) && n != m
                  case _ => n in Todo(s.point))
  {
  }

  // Who waits for whom: dispatches for nobody, and an update only where the backend's lock makes it wait
  // for all dispatches, before it unsubscribes or subscribes.
  lemma WhoWaits(s: System, n: Name)
    ensures (Enabled(s, DispatchStarts(n)) <==> n in s.ccbs) && (Enabled(s, DispatchEnds(n)) <==> n in s.running)
    ensures var free := !s.locked || s.running == {};
            match s.point
            case Idle => forall config :: Enabled(s, Begin(config))
            case Removing(todo, _) =>
              (Enabled(s, Unsubscribe(n)) <==> n in todo && free) && (Enabled(s, EndRemovals) <==> todo == {})
            case Removed(_, _, _) => Enabled(s, ForgetStatus)
            case Creating(todo) =>
              && Enabled(s, End)
              && (forall ok :: Enabled(s, Subscribe(n, ok)) <==> n in todo && n !in s.subs && free)
              && (Enabled(s, Skip(n)) <==> n in todo && n in s.subs)
            case Created(_, _) => Enabled(s, Record)
  {
  }

  ghost predicate Inv(s: System) {
    && (match s.point
        case Removed(name, todo, _) =>
          && s.ccbs == s.subs && name !in s.subs && todo <= s.subs
          && s.status == s.subs + s.failed + s.revived + {name}
        case Created(name, _) =>
          && s.ccbs == s.subs + {name} && name !in s.subs
          && s.status + {name} == s.subs + s.failed + s.revived + {name}
        case Removing(todo, _) => s.ccbs == s.subs && todo <= s.subs && s.status == s.subs + s.failed + s.revived
        case _ => s.ccbs == s.subs && s.status == s.subs + s.failed + s.revived)
    && (s.failed + s.revived) !! s.subs
    && (s.point.Removed? ==> s.point.name !in s.failed + s.revived)
    && (s.locked ==> s.running <= s.ccbs && s.revived == {})
  }

  lemma StepKeepsInv(s: System, step: Step)
    requires Inv(s) && Enabled(s, step)
    ensures Inv(Next(s, step))
  {
  }

  lemma {:induction false} RunKeepsInv(s: System, steps: seq<Step>)
    requires Inv(s) && Valid(s, steps)
    ensures Inv(Exec(s, steps)) && Exec(s, steps).locked == s.locked
    decreases |steps|
  {
    if steps != [] {
      StepKeepsInv(s, steps[0]);
      RunKeepsInv(Next(s, steps[0]), steps[1..]);
    }
  }

  predicate NoCreationFails(steps: seq<Step>) {
    forall step <- steps :: step.Subscribe? ==> step.ok
  }

  lemma {:induction false} NothingFailed(s: System, steps: seq<Step>)
    requires Valid(s, steps) && NoCreationFails(steps) && s.failed == {}
    ensures Exec(s, steps).failed == {}
    decreases |steps|
  {
    if steps != [] {
      NothingFailed(Next(s, steps[0]), steps[1..]);
    }
  }

  // Between updates, for either kind of backend: subscribers and callbacks have the same names,
  // and the status has them too exactly when no failed creation and no late dispatch is left
  // over. Under the read lock there are no late dispatches: a callback runs only while it is
  // registered, so nothing brings a removed entry back.
  lemma ThreeWayAgreement(locked: bool, steps: seq<Step>)
    requires Valid(New(locked), steps) && Exec(New(locked), steps).point.Idle?
    ensures var s := Exec(New(locked), steps);
            && s.ccbs == s.subs && s.subs <= s.status
            && (s.status == s.subs <==> s.failed == {} && s.revived == {})
            && (locked ==> s.running <= s.ccbs && s.revived == {})
            && (locked && NoCreationFails(steps) ==> s.status == s.subs)
  {
    RunKeepsInv(New(locked), steps);
    if NoCreationFails(steps) {
      NothingFailed(New(locked), steps);
    }
  }

  lemma StepFirst(s: System, step: Step, rest: seq<Step>)
    requires Enabled(s, step) && Valid(Next(s, step), rest)
    ensures Valid(s, [step] + rest) && Exec(s, [step] + rest) == Exec(Next(s, step), rest)
  {
    assert ([step] + rest)[1..] == rest;
  }

  // A creation that fails leaves its status behind for good, also under the lock and without any
  // dispatch: from every state between updates, one configuration with a new name and the next one
  // without it.
  lemma FailureOutlivesTrigger(s: System, name: Name)
    requires Inv(s) && s.point.Idle? && name !in s.subs && (s.locked ==> s.running == {})
    ensures exists steps :: Valid(s, steps)
              && Exec(s, steps).point.Idle? && Exec(s, steps).subs == s.subs && Exec(s, steps).ccbs == s.ccbs
              && name in Exec(s, steps).status
  {
    var config := s.subs + {name};
    var s1 := Next(s, Begin(config));
    assert s.subs - config == {};
    var s2 := Next(s1, EndRemovals);
    var s3 := Next(s2, Subscribe(name, false));
    var s4 := Next(s3, End);
    var s5 := Next(s4, Begin(s.subs));
    assert s4.subs - s.subs == {};
    var s6 := Next(s5, EndRemovals);
    StepFirst(s6, End, []);
    var r6 := [End] + [];
    StepFirst(s5, EndRemovals, r6);
    var r5 := [EndRemovals] + r6;
    StepFirst(s4, Begin(s.subs), r5);
    var r4 := [Begin(s.subs)] + r5;
    StepFirst(s3, End, r4);
    var r3 := [End] + r4;
    StepFirst(s2, Subscribe(name, false), r3);
    var r2 := [Subscribe(name, false)] + r3;
    StepFirst(s1, EndRemovals, r2);
    var r1 := [EndRemovals] + r2;
    StepFirst(s, Begin(config), r1);
    assert Valid(s, [Begin(config)] + r1);
  }

  // A dispatch is under way when the update removes its trigger.
  lemma RemoveDuringDispatch(s: System, name: Name, rest: seq<Step>) returns (s': System, steps: seq<Step>)
    requires Inv(s) && !s.locked && s.point.Idle? && name in s.subs
    ensures s' == System(false, Removing({}, s.subs - {name}), s.subs - {name}, s.ccbs - {name}, s.status - {name},
                         s.running + {name}, s.failed, s.revived)
    ensures Valid(s', rest) ==> Valid(s, steps) && Exec(s, steps) == Exec(s', rest)
    ensures NoCreationFails(rest) ==> NoCreationFails(steps)
  {
    var s1 := Next(s, DispatchStarts(name));
    var s2 := Next(s1, Begin(s.subs - {name}));
    assert s.subs - (s.subs - {name}) == {name};
    var s3 := Next(s2, Unsubscribe(name));
    assert s2.point.todo - {name} == {};
    assert s3.point == Removed(name, {}, s.subs - {name}) && s3.status == s.status;
    s' := Next(s3, ForgetStatus);
    assert s'.point == Removing({}, s.subs - {name}) && s'.subs == s.subs - {name} && s'.ccbs == s.ccbs - {name};
    var r3 := [ForgetStatus] + rest;
    var r2 := [Unsubscribe(name)] + r3;
    var r1 := [Begin(s.subs - {name})] + r2;
    steps := [DispatchStarts(name)] + r1;
    if Valid(s', rest) {
      StepFirst(s3, ForgetStatus, rest);
      StepFirst(s2, Unsubscribe(name), r3);
      StepFirst(s1, Begin(s.subs - {name}), r2);
      StepFirst(s, DispatchStarts(name), r1);
    }
  }

  // The update ends, and then the dispatch does.
  lemma DispatchEndsLate(s: System, name: Name) returns (steps: seq<Step>)
    requires s.point.Removing? && s.point.todo == {} && name in s.running && name !in s.ccbs && name !in s.subs
    ensures Valid(s, steps) && NoCreationFails(steps)
    ensures var s' := Exec(s, steps); s'.point.Idle? && s'.subs == s.subs && s'.ccbs == s.ccbs && name in s'.status
  {
    var s1 := Next(s, EndRemovals);
    var s2 := Next(s1, End);
    StepFirst(s2, DispatchEnds(name), []);
    StepFirst(s1, End, [DispatchEnds(name)] + []);
    StepFirst(s, EndRemovals, [End] + ([DispatchEnds(name)] + []));
    steps := [EndRemovals] + ([End] + ([DispatchEnds(name)] + []));
  }

  // Without the lock one dispatch that outlives its subscription is enough, from any state
  // between updates: the trigger is gone from the manager and the backend, its status stays.
  lemma LateDispatchRevives(s: System, name: Name)
    requires Inv(s) && !s.locked && s.point.Idle? && name in s.subs
    ensures exists steps :: Valid(s, steps) && NoCreationFails(steps)
              && Exec(s, steps).point.Idle?
              && name !in Exec(s, steps).subs && name !in Exec(s, steps).ccbs && name in Exec(s, steps).status
  {
    var mid := System(false, Removing({}, s.subs - {name}), s.subs - {name}, s.ccbs - {name}, s.status - {name},
                      s.running + {name}, s.failed, s.revived);
    var rest := DispatchEndsLate(mid, name);
    var s', steps := RemoveDuringDispatch(s, name, rest);
    assert Valid(s, steps) && NoCreationFails(steps);
  }
}
