/** The in-memory backend: a bounded buffer, fan-out to the registered callbacks under a read lock,
    and the drain at shutdown. Replies of targets re-enter through Produce while fan-out runs.

    The state machine interleaves producers, registrations and the loop in Start. Produce is two
    steps, because it looks at the closing flag before it sends to the channel.
  */
module MemoryBroker {
  import opened Options

  type Name = string
  datatype Event = Event(id: string, data: string)

  datatype LoopPoint =
    | Selecting
    | FanningOut(event: Event, todo: set<Name>, called: set<Name>, reply: Option<Event>)
    | Stopped

  datatype Broker = Broker(
    capacity: nat,
    buffer: seq<Event>,
    closing: bool,               // the flag Produce looks at
    closed: bool,                // the channel is closed
    contextDone: bool,
    ccbs: set<Name>,             // registered callbacks
    producers: map<nat, Event>,  // calls of Produce that found the flag unset and have yet to send
    loop: LoopPoint,
    accepted: seq<Event>,        // history: events that entered the channel, in order
    fanned: seq<Event>,          // history: events whose fan-out finished, in order
    panicked: set<nat>           // history: producers that sent to the closed channel
  )

  datatype Step =
    | CancelContext
    | SetClosing
    | CheckClosing(p: nat, e: Event)
    | Send(p: nat)
    | HandOff(p: nat)            // to a receiver that waits; the only way when the capacity is 0
    | SendToClosed(p: nat)
    | SendTimesOut(p: nat)
    | Receive
    | Dispatch(name: Name, answer: Option<Event>)
    | SendReply
    | ReplyTimesOut(other: Option<Event>)  // then the dead-letter sink is asked, and may reply
    | FanOutDone
    | Close
    | Finish
    | Subscribe(name: Name)
    | Unsubscribe(name: Name)

  function New(capacity: nat): Broker {
    Broker(capacity, [], false, false, false, {}, map[], Selecting, [], [], {})
  }

  predicate Enabled(b: Broker, step: Step) {
    match step
    case CancelContext => true
    case SetClosing => b.contextDone
    case CheckClosing(p, _) => p !in b.producers
    case Send(p) => p in b.producers && !b.closed && |b.buffer| < b.capacity
    case HandOff(p) => p in b.producers && !b.closed && b.buffer == [] && b.loop.Selecting?
    case SendToClosed(p) => p in b.producers && b.closed
    case SendTimesOut(p) => p in b.producers
    case Receive => b.loop.Selecting? && b.buffer != []
    case Dispatch(name, _) => b.loop.FanningOut? && name in b.loop.todo && b.loop.reply.None?
    case SendReply => b.loop.FanningOut? && b.loop.reply.Some? && |b.buffer| < b.capacity
    case ReplyTimesOut(_) => b.loop.FanningOut? && b.loop.reply.Some?
    case FanOutDone => b.loop.FanningOut? && b.loop.reply.None? && b.loop.todo == {}
    case Close => b.loop.Selecting? && b.contextDone && !b.closed
    case Finish => b.loop.Selecting? && b.closed && b.buffer == []
    case Subscribe(_) => !b.loop.FanningOut?
    case Unsubscribe(_) => !b.loop.FanningOut?
  }

  function Next(b: Broker, step: Step): Broker
    requires Enabled(b, step)
  {
    match step
    case CancelContext => b.(contextDone := true)
    case SetClosing => b.(closing := true)
    case CheckClosing(p, e) => if b.closing then b else b.(producers := b.producers[p := e])
    case Send(p) =>
      b.(producers := b.producers - {p},
         buffer := b.buffer + [b.producers[p]], accepted := b.accepted + [b.producers[p]])
    case HandOff(p) =>
      b.(producers := b.producers - {p}, accepted := b.accepted + [b.producers[p]],
         loop := FanningOut(b.producers[p], b.ccbs, {}, None))
    case SendToClosed(p) => b.(producers := b.producers - {p}, panicked := b.panicked + {p})
    case SendTimesOut(p) => b.(producers := b.producers - {p})
    case Receive => b.(buffer := b.buffer[1..], loop := FanningOut(b.buffer[0], b.ccbs, {}, None))
    case Dispatch(name, answer) =>
      b.(loop := b.loop.(todo := b.loop.todo - {name}, called := b.loop.called + {name},
                         reply := if b.closing then None else answer))
    case SendReply =>
      b.(loop := b.loop.(reply := None),
         buffer := b.buffer + [b.loop.reply.value], accepted := b.accepted + [b.loop.reply.value])
    case ReplyTimesOut(other) => b.(loop := b.loop.(reply := if b.closing then None else other))
    case FanOutDone => b.(loop := Selecting, fanned := b.fanned + [b.loop.event])
    case Close => b.(closing := true, closed := true)
    case Finish => b.(loop := Stopped)
    case Subscribe(name) => b.(ccbs := b.ccbs + {name})
    case Unsubscribe(name) => b.(ccbs := b.ccbs - {name})
  }

  predicate Valid(b: Broker, steps: seq<Step>)
    decreases |steps|
  {
    steps == [] || (Enabled(b, steps[0]) && Valid(Next(b, steps[0]), steps[1..]))
  }

  function Exec(b: Broker, steps: seq<Step>): Broker
    requires Valid(b, steps)
    decreases |steps|
  {
    if steps == [] then b else Exec(Next(b, steps[0]), steps[1..])
  }

  ghost predicate Reaches(b: Broker, b': Broker) {
    exists steps :: Valid(b, steps) && Exec(b, steps) == b'
  }

  lemma OneStep(b: Broker, step: Step)
    requires Enabled(b, step)
    ensures Reaches(b, Next(b, step))
  {
    var b' := Next(b, step);
    assert [step][1..] == [] && Valid(b', []) && Exec(b', []) == b';
    assert Valid(b, [step]) && Exec(b, [step]) == Exec(b', [step][1..]);
  }

  lemma Stay(b: Broker)
    ensures Reaches(b, b)
  {
    assert Valid(b, []) && Exec(b, []) == b;
  }

  lemma {:induction false} ValidConcat(b: Broker, x: seq<Step>, y: seq<Step>)
    requires Valid(b, x) && Valid(Exec(b, x), y)
    ensures Valid(b, x + y) && Exec(b, x + y) == Exec(Exec(b, x), y)
    decreases |x|
  {
    if x == [] {
      assert x + y == y;
    } else {
      assert (x + y)[1..] == x[1..] + y;
      ValidConcat(Next(b, x[0]), x[1..], y);
    }
  }

  lemma Then(b: Broker, mid: Broker, b': Broker)
    requires Reaches(b, mid) && Reaches(mid, b')
    ensures Reaches(b, b')
  {
    var x :| Valid(b, x) && Exec(b, x) == mid;
    var y :| Valid(mid, y) && Exec(mid, y) == b';
    ValidConcat(b, x, y);
  }

  function InProgress(loop: LoopPoint): seq<Event> {
    if loop.FanningOut? then [loop.event] else []
  }

  ghost predicate Inv(b: Broker) {
    && b.accepted == b.fanned + InProgress(b.loop) + b.buffer
    && |b.buffer| <= b.capacity
    && (b.closed ==> b.closing)
    && (b.loop.Stopped? ==> b.closed && b.buffer == [])
    && (b.loop.FanningOut? ==>
          && b.loop.todo + b.loop.called == b.ccbs
          && (b.loop.reply.Some? ==> !b.closed))
  }

  // Accepting, handing over, taking and finishing: the other steps move no events.
  lemma StepConserves(b: Broker, step: Step)
    requires Enabled(b, step) && b.accepted == b.fanned + InProgress(b.loop) + b.buffer
    ensures var b' := Next(b, step); b'.accepted == b'.fanned + InProgress(b'.loop) + b'.buffer
  {
    var b', fanned, buffer := Next(b, step), b.fanned, b.buffer;
    match step
    case Send(p) => AcceptOne(fanned + InProgress(b.loop), buffer, b.producers[p]);
    case SendReply => AcceptOne(fanned + InProgress(b.loop), buffer, b.loop.reply.value);
    case HandOff(p) => HandOne(fanned, b.producers[p]);
    case Receive => TakeOne(fanned, buffer);
    case FanOutDone => FinishOne(fanned, b.loop.event, buffer);
    case _ => assert b'.accepted == b.accepted && b'.fanned == fanned && b'.buffer == buffer;
  }

  lemma AcceptOne(before: seq<Event>, buffer: seq<Event>, e: Event)
    ensures before + buffer + [e] == before + (buffer + [e])
  {
  }

  lemma HandOne(fanned: seq<Event>, e: Event)
    ensures fanned + [] + [] + [e] == fanned + [e] + []
  {
  }

  lemma TakeOne(fanned: seq<Event>, buffer: seq<Event>)
    requires buffer != []
    ensures fanned + [] + buffer == fanned + [buffer[0]] + buffer[1..]
  {
    assert buffer == [buffer[0]] + buffer[1..];
  }

  lemma FinishOne(fanned: seq<Event>, e: Event, buffer: seq<Event>)
    ensures fanned + [e] + buffer == (fanned + [e]) + [] + buffer
  {
  }

  lemma StepKeepsInv(b: Broker, step: Step)
    requires Inv(b) && Enabled(b, step)
    ensures Inv(Next(b, step))
  {
    StepConserves(b, step);
  }

  lemma {:induction false} RunKeepsInv(b: Broker, steps: seq<Step>)
    requires Inv(b) && Valid(b, steps)
    ensures Inv(Exec(b, steps))
    decreases |steps|
  {
    if steps != [] {
      StepKeepsInv(b, steps[0]);
      RunKeepsInv(Next(b, steps[0]), steps[1..]);
    }
  }

  // What each step takes in and gives out. Exactly the three ways of sending accept an event, exactly
  // the end of a fan-out finishes one, and callbacks change only outside of fan-outs.
  lemma EventMoves(b: Broker, step: Step)
    requires Inv(b) && Enabled(b, step)
    ensures var b' := Next(b, step);
            && b'.accepted == b.accepted + (match step
                                            case Send(p) => [b.producers[p]]
                                            case HandOff(p) => [b.producers[p]]
                                            case SendReply => [b.loop.reply.value]
                                            case _ => [])
            && b'.fanned == b.fanned + (if step.FanOutDone? then [b.loop.event] else [])
            && (b'.ccbs != b.ccbs ==> !b.loop.FanningOut? && (step.Subscribe? || step.Unsubscribe?))
            && (step.Subscribe? ==> b'.ccbs == b.ccbs + {step.name})
            && (step.Unsubscribe? ==> b'.ccbs == b.ccbs - {step.name})
            && b'.panicked == b.panicked + (if step.SendToClosed? then {step.p} else {})
            && (step.SetClosing? || step.Close? ==> b'.closing)
            && (step.ReplyTimesOut? && !b.closing ==> b'.loop.reply == step.other)
  {
    assert b.accepted + [] == b.accepted && b.fanned + [] == b.fanned;
  }

  // Who can go on, and who waits for whom. A producer past the check waits for room or for the loop, and
  // once the channel is closed it panics; it can time out at any moment. Registrations wait for a fan-out
  // just as it lasts. A fan-out waits for the reply of one callback before it calls the next.
  lemma WhoCanGoOn(b: Broker, p: nat, name: Name, answer: Option<Event>)
    ensures p in b.producers ==>
              && Enabled(b, SendTimesOut(p))
              && (Enabled(b, Send(p)) <==> !b.closed && |b.buffer| < b.capacity)
              && (Enabled(b, HandOff(p)) <==> !b.closed && b.loop.Selecting? && b.buffer == [])
              && (Enabled(b, SendToClosed(p)) <==> b.closed)
    ensures Enabled(b, Subscribe(name)) <==> !b.loop.FanningOut?
    ensures Enabled(b, Unsubscribe(name)) <==> !b.loop.FanningOut?
    ensures Enabled(b, CancelContext) && (b.contextDone ==> Enabled(b, SetClosing))
    ensures match b.loop
            case Selecting =>
              && (Enabled(b, Receive) <==> b.buffer != []) && (Enabled(b, Close) <==> b.contextDone && !b.closed)
              && (Enabled(b, Finish) <==> b.closed && b.buffer == [])
            case FanningOut(_, todo, _, None) =>
              && (Enabled(b, Dispatch(name, answer)) <==> name in todo) && (Enabled(b, FanOutDone) <==> todo == {})
            case FanningOut(_, _, _, Some(_)) =>
              && !Enabled(b, Dispatch(name, answer)) && !Enabled(b, FanOutDone) && Enabled(b, ReplyTimesOut(answer))
              && (Enabled(b, SendReply) <==> |b.buffer| < b.capacity)
            case Stopped => !Enabled(b, Receive) && !Enabled(b, Close)
  {
  }

  // A reply goes back in while the backend is open and has room; a closing one turns it away.
  lemma ReplyReenters(b: Broker, name: Name, e: Event)
    requires Inv(b) && Enabled(b, Dispatch(name, Some(e))) && |b.buffer| < b.capacity
    ensures !b.closing ==> exists b' :: Reaches(b, b') && b'.accepted == b.accepted + [e] && b'.buffer == b.buffer + [e]
    ensures b.closing ==> Next(b, Dispatch(name, Some(e))).loop.reply.None?
  {
    var b1 := Next(b, Dispatch(name, Some(e)));
    OneStep(b, Dispatch(name, Some(e)));
    if !b.closing {
      OneStep(b1, SendReply);
      Then(b, b1, Next(b1, SendReply));
    }
  }

  // In every reachable state the accepted events are, in order, those fanned out, the one being
  // fanned out and the buffer, which never exceeds its capacity; a stopped broker has fanned out
  // everything it accepted; a reply is never on its way to a closed channel; and an event whose
  // fan-out ends has been passed to exactly the registered callbacks.
  lemma ConservationAndOrder(capacity: nat, steps: seq<Step>)
    requires Valid(New(capacity), steps)
    ensures var b := Exec(New(capacity), steps);
            && b.accepted == b.fanned + InProgress(b.loop) + b.buffer
            && |b.buffer| <= capacity
            && (b.loop.Stopped? ==> b.accepted == b.fanned)
            && (b.loop.FanningOut? && b.loop.reply.Some? ==> !b.closed)
            && (Enabled(b, FanOutDone) ==> b.loop.called == b.ccbs)
  {
    RunKeepsInv(New(capacity), steps);
    CapacityIsFixed(New(capacity), steps);
    var b := Exec(New(capacity), steps);
    assert b.fanned + [] + [] == b.fanned;
  }

  lemma {:induction false} CapacityIsFixed(b: Broker, steps: seq<Step>)
    requires Valid(b, steps)
    ensures Exec(b, steps).capacity == b.capacity
    decreases |steps|
  {
    if steps != [] {
      CapacityIsFixed(Next(b, steps[0]), steps[1..]);
    }
  }

  function Receives(steps: seq<Step>): nat {
    if steps == [] then 0 else (if steps[0] == Receive then 1 else 0) + Receives(steps[1..])
  }

  // Once the channel is closed nothing is accepted any more, neither from producers nor from
  // replies, so each round of the drain takes one event off what was there: the drain ends.
  lemma {:induction false} DrainEnds(b: Broker, steps: seq<Step>)
    requires Inv(b) && b.closed && Valid(b, steps)
    ensures var b' := Exec(b, steps);
            && b'.closed && b'.accepted == b.accepted
            && Receives(steps) + |b'.buffer| == |b.buffer|
            && (b'.loop.Stopped? ==> b'.fanned == b.accepted)
    decreases |steps|
  {
    if steps == [] {
      assert b.fanned + [] + [] == b.fanned;
    } else {
      StepKeepsInv(b, steps[0]);
      DrainEnds(Next(b, steps[0]), steps[1..]);
    }
  }

  // While the loop is not stopped, the drain can always go on: nothing but the channel and the
  // callbacks of the present fan-out is waited for.
  lemma DrainIsNeverStuck(b: Broker)
    requires Inv(b) && b.closed && !b.loop.Stopped?
    ensures Enabled(b, Finish) || Enabled(b, Receive) || Enabled(b, FanOutDone)
            || exists name :: Enabled(b, Dispatch(name, None))
  {
    if b.loop.FanningOut? && b.loop.todo != {} {
      var name :| name in b.loop.todo;
      assert Enabled(b, Dispatch(name, None));
    }
  }

  // A producer that saw the flag unset can find the channel closed: from a state after the close,
  // producer p can come to panic if and only if it is one of these. Nothing stops the others, who
  // are turned away, and by DrainEnds no event of either is accepted.
  lemma LateProducersPanic(b: Broker, p: nat)
    requires Inv(b) && b.closed && p !in b.panicked
    ensures p in b.producers <==> exists steps :: Valid(b, steps) && p in Exec(b, steps).panicked
  {
    if p in b.producers {
      var steps := [SendToClosed(p)];
      var b' := Next(b, steps[0]);
      assert steps[1..] == [] && Exec(b', []) == b' && Valid(b', []);
      assert Exec(b, steps) == Exec(b', steps[1..]);
      assert Valid(b, steps) && p in Exec(b, steps).panicked;
    }
    if steps :| Valid(b, steps) && p in Exec(b, steps).panicked {
      OnlyPendingPanic(b, steps);
    }
  }

  // It does happen, with every capacity: a producer passes the check, and the shutdown overtakes it.
  lemma ShutdownOvertakesProducer(capacity: nat, p: nat, e: Event)
    ensures exists b :: Reaches(New(capacity), b) && b.closed && p in b.producers && p !in b.panicked
    ensures exists b :: Reaches(New(capacity), b) && p in b.panicked && b.accepted == []
  {
    var b0 := New(capacity);
    var b1 := Next(b0, CheckClosing(p, e));
    var b2 := Next(b1, CancelContext);
    var b3 := Next(b2, Close);
    OneStep(b0, CheckClosing(p, e));
    OneStep(b1, CancelContext);
    OneStep(b2, Close);
    OneStep(b3, SendToClosed(p));
    Then(b0, b1, b2);
    Then(b0, b2, b3);
    Then(b0, b3, Next(b3, SendToClosed(p)));
  }

  lemma {:induction false} OnlyPendingPanic(b: Broker, steps: seq<Step>)
    requires b.closed && b.closing && Valid(b, steps)
    ensures Exec(b, steps).panicked <= b.panicked + b.producers.Keys
    decreases |steps|
  {
    if steps != [] {
      OnlyPendingPanic(Next(b, steps[0]), steps[1..]);
    }
  }

  // ---------- The backend object ----------

  datatype Store = Store(
    buffer: seq<Event>, accepted: seq<Event>, fanned: seq<Event>, calls: seq<(Event, Name)>)

  // What is offered to Produce while call number k of a callback runs, in order: the reply of the
  // target, if it sends one, and whatever arrives from elsewhere at that time.
  type Offers = nat -> seq<Event>

  // How many events a buffer has room for; a closing backend takes none.
  function Room(s: Store, capacity: nat, closing: bool): nat {
    if closing || capacity <= |s.buffer| then 0 else capacity - |s.buffer|
  }

  function Prefix<T>(s: seq<T>, n: nat): seq<T> {
    if |s| <= n then s else s[..n]
  }

  function Add(s: Store, events: seq<Event>): Store {
    s.(buffer := s.buffer + events, accepted := s.accepted + events)
  }

  function OfferAll(s: Store, events: seq<Event>, capacity: nat, closing: bool): Store
    decreases |events|
  {
    if events == [] then s
    else OfferAll(Add(s, Prefix(events[..1], Room(s, capacity, closing))), events[1..], capacity, closing)
  }

  // The callbacks in order.
  function Called(s: Store, e: Event, order: seq<Name>, offers: Offers, capacity: nat, closing: bool): Store
    decreases |order|
  {
    if order == [] then s
    else
      var s' := s.(calls := s.calls + [(e, order[0])]);
      Called(OfferAll(s', offers(|s.calls|), capacity, closing), e, order[1..], offers, capacity, closing)
  }

  // All that is offered during n calls.
  function Offered(offers: Offers, from: nat, n: nat): seq<Event>
    decreases n
  {
    if n == 0 then [] else offers(from) + Offered(offers, from + 1, n - 1)
  }

  lemma {:induction false} OfferedFollow(offers: Offers, from: nat, n: nat, m: nat)
    ensures Offered(offers, from, n + m) == Offered(offers, from, n) + Offered(offers, from + n, m)
    ensures Offered(offers, from, 1) == offers(from)
    decreases n
  {
    assert offers(from) + Offered(offers, from + 1, 0) == offers(from);
    if n > 0 {
      OfferedFollow(offers, from + 1, n - 1, m);
      assert offers(from) + (Offered(offers, from + 1, n - 1) + Offered(offers, from + n, m))
             == offers(from) + Offered(offers, from + 1, n - 1) + Offered(offers, from + n, m);
    }
  }

  function CallsFor(e: Event, order: seq<Name>): seq<(Event, Name)> {
    seq(|order|, i requires 0 <= i < |order| => (e, order[i]))
  }

  function Served(s: Store, order: seq<Name>, offers: Offers, capacity: nat, closing: bool): Store
    requires s.buffer != []
  {
    var s' := Called(s.(buffer := s.buffer[1..]), s.buffer[0], order, offers, capacity, closing);
    s'.(fanned := s'.fanned + [s.buffer[0]])
  }

  // Offering one by one fills the buffer with the first events that fit.
  lemma {:induction false} OffersThatFit(s: Store, events: seq<Event>, capacity: nat, closing: bool)
    ensures OfferAll(s, events, capacity, closing) == Add(s, Prefix(events, Room(s, capacity, closing)))
    decreases |events|
  {
    if events == [] {
      assert s.buffer + [] == s.buffer && s.accepted + [] == s.accepted;
    } else {
      var first := Prefix(events[..1], Room(s, capacity, closing));
      OffersThatFit(Add(s, first), events[1..], capacity, closing);
      assert first + Prefix(events[1..], Room(Add(s, first), capacity, closing))
             == Prefix(events, Room(s, capacity, closing));
      AddTwice(s, first, Prefix(events[1..], Room(Add(s, first), capacity, closing)));
    }
  }

  lemma AddTwice(s: Store, a: seq<Event>, b: seq<Event>)
    ensures Add(Add(s, a), b) == Add(s, a + b)
  {
    assert (s.buffer + a) + b == s.buffer + (a + b);
    assert (s.accepted + a) + b == s.accepted + (a + b);
  }

  lemma PrefixSplit(first: seq<Event>, rest: seq<Event>, room: nat)
    ensures Prefix(first, room) + Prefix(rest, room - |Prefix(first, room)|) == Prefix(first + rest, room)
  {
  }

  lemma RoomLeft(s: Store, events: seq<Event>, capacity: nat, closing: bool)
    requires |events| <= Room(s, capacity, closing)
    ensures Room(Add(s, events), capacity, closing) == Room(s, capacity, closing) - |events|
  {
  }

  lemma CallsForFront(e: Event, order: seq<Name>)
    requires order != []
    ensures CallsFor(e, order) == [(e, order[0])] + CallsFor(e, order[1..])
  {
  }

  // A fan-out calls every callback once, and of the replies and arrivals it sees those get in that
  // fit.
  lemma {:induction false} ArrivalsThatFit(
    s: Store, e: Event, order: seq<Name>, offers: Offers, capacity: nat, closing: bool)
    ensures Called(s, e, order, offers, capacity, closing)
            == Add(s, Prefix(Offered(offers, |s.calls|, |order|), Room(s, capacity, closing)))
               .(calls := s.calls + CallsFor(e, order))
    decreases |order|
  {
    var room := Room(s, capacity, closing);
    if order == [] {
      assert s.buffer + [] == s.buffer && s.accepted + [] == s.accepted && s.calls + CallsFor(e, order) == s.calls;
    } else {
      var s1 := s.(calls := s.calls + [(e, order[0])]);
      var first, rest := offers(|s.calls|), Offered(offers, |s.calls| + 1, |order| - 1);
      OffersThatFit(s1, first, capacity, closing);
      var s2 := Add(s1, Prefix(first, room));
      ArrivalsThatFit(s2, e, order[1..], offers, capacity, closing);
      RoomLeft(s1, Prefix(first, room), capacity, closing);
      PrefixSplit(first, rest, room);
      AddTwice(s1, Prefix(first, room), Prefix(rest, Room(s2, capacity, closing)));
      CallsForFront(e, order);
      assert s1.calls + CallsFor(e, order[1..]) == s.calls + ([(e, order[0])] + CallsFor(e, order[1..]));
      hide Add, Room, Prefix, CallsFor;
    }
  }

  // Rounds of the loop in Start: the events of one batch arrive, then one event is taken. The
  // order of the callbacks is that of a map and can differ from event to event.
  function Rounds(s: Store, batches: seq<seq<Event>>, order: nat -> seq<Name>, offers: Offers, capacity: nat): Store
    decreases |batches|
  {
    if batches == [] then s
    else
      var offered := OfferAll(s, batches[0], capacity, false);
      Rounds(if offered.buffer == [] then offered
             else Served(offered, order(|offered.fanned|), offers, capacity, false),
             batches[1..], order, offers, capacity)
  }

  function Drained(s: Store, order: nat -> seq<Name>, offers: Offers, capacity: nat): Store
    decreases |s.buffer|
  {
    if s.buffer == [] then s
    else
      var served := Served(s, order(|s.fanned|), offers, capacity, true);
      ServedClosing(s, order(|s.fanned|), offers, capacity);
      Drained(served, order, offers, capacity)
  }

  lemma ServedClosing(s: Store, order: seq<Name>, offers: Offers, capacity: nat)
    requires s.buffer != []
    ensures Served(s, order, offers, capacity, true).buffer == s.buffer[1..]
  {
    ArrivalsThatFit(s.(buffer := s.buffer[1..]), s.buffer[0], order, offers, capacity, true);
  }

  // The calls that serving these events makes.
  function AllCalls(events: seq<Event>, order: nat -> seq<Name>): seq<(Event, Name)> {
    if events == [] then []
    else
      var n := |events| - 1;
      AllCalls(events[..n], order) + CallsFor(events[n], order(n))
  }

  ghost predicate Conserved(s: Store, order: nat -> seq<Name>, capacity: nat) {
    && s.accepted == s.fanned + s.buffer && |s.buffer| <= capacity
    && s.calls == AllCalls(s.fanned, order)
  }

  lemma Reassociate(fanned: seq<Event>, e: Event, rest: seq<Event>, added: seq<Event>)
    ensures fanned + ([e] + rest) + added == (fanned + [e]) + (rest + added)
  {
  }

  lemma ServedConserves(s: Store, order: nat -> seq<Name>, offers: Offers, capacity: nat, closing: bool)
    requires Conserved(s, order, capacity) && s.buffer != []
    ensures var s' := Served(s, order(|s.fanned|), offers, capacity, closing);
            && Conserved(s', order, capacity) && s.accepted <= s'.accepted
            && (closing ==> s'.accepted == s.accepted && s'.buffer == s.buffer[1..])
  {
    var e, rest, names := s.buffer[0], s.buffer[1..], order(|s.fanned|);
    var s' := Served(s, names, offers, capacity, closing);
    var taken := s.(buffer := rest);
    var added := Prefix(Offered(offers, |s.calls|, |names|), Room(taken, capacity, closing));
    ArrivalsThatFit(taken, e, names, offers, capacity, closing);
    Reassociate(s.fanned, e, rest, added);
    assert s.buffer == [e] + rest;
    assert s'.fanned[..|s.fanned|] == s.fanned;
    if closing {
      assert rest + [] == rest && s.accepted + [] == s.accepted;
    }
  }

  lemma {:induction false} RoundsConserve(
    s: Store, batches: seq<seq<Event>>, order: nat -> seq<Name>, offers: Offers, capacity: nat)
    requires Conserved(s, order, capacity)
    ensures var s' := Rounds(s, batches, order, offers, capacity);
            Conserved(s', order, capacity) && s.accepted <= s'.accepted
    decreases |batches|
  {
    if batches != [] {
      OffersThatFit(s, batches[0], capacity, false);
      var offered := OfferAll(s, batches[0], capacity, false);
      assert s.fanned + s.buffer + Prefix(batches[0], Room(s, capacity, false)) == offered.fanned + offered.buffer;
      if offered.buffer != [] {
        ServedConserves(offered, order, offers, capacity, false);
        var served := Served(offered, order(|offered.fanned|), offers, capacity, false);
        RoundsConserve(served, batches[1..], order, offers, capacity);
      } else {
        RoundsConserve(offered, batches[1..], order, offers, capacity);
      }
    }
  }

  lemma {:induction false} DrainConserves(s: Store, order: nat -> seq<Name>, offers: Offers, capacity: nat)
    requires Conserved(s, order, capacity)
    ensures var s' := Drained(s, order, offers, capacity);
            Conserved(s', order, capacity) && s'.buffer == [] && s'.accepted == s.accepted
    decreases |s.buffer|
  {
    if s.buffer != [] {
      ServedConserves(s, order, offers, capacity, true);
      DrainConserves(Served(s, order(|s.fanned|), offers, capacity, true), order, offers, capacity);
    }
  }

  // When Start returns, everything ever accepted has been fanned out, in the order of
  // acceptance and to every callback once, whatever arrived and whatever was replied; the drain
  // itself accepts nothing.
  lemma StartServesEverything(
    s: Store, batches: seq<seq<Event>>, order: nat -> seq<Name>, offers: Offers, capacity: nat)
    requires Conserved(s, order, capacity)
    ensures var open := Rounds(s, batches, order, offers, capacity);
            var s' := Drained(open, order, offers, capacity);
            && s'.buffer == [] && s'.fanned == s'.accepted == open.accepted
            && s.accepted <= s'.accepted
            && s'.calls == AllCalls(s'.accepted, order)
  {
    RoundsConserve(s, batches, order, offers, capacity);
    DrainConserves(Rounds(s, batches, order, offers, capacity), order, offers, capacity);
  }

  // ---------- What the buffer takes ----------

  function Min(a: nat, b: nat): nat {
    if a <= b then a else b
  }

  // s' holds what s held and the first of these events, as many as the capacity allows, and nothing
  // else was accepted.
  ghost predicate Filled(s: Store, events: seq<Event>, capacity: nat, s': Store) {
    && |s'.buffer| == Min(capacity, |s.buffer| + |events|)
    && s.buffer <= s'.buffer <= s.buffer + events
    && s'.accepted == s.accepted + s'.buffer[|s.buffer|..]
    && s'.fanned == s.fanned
  }

  // An open backend takes offers up to its capacity, to the last place; a closing one takes none.
  lemma OffersFill(s: Store, events: seq<Event>, capacity: nat)
    requires |s.buffer| <= capacity
    ensures Filled(s, events, capacity, OfferAll(s, events, capacity, false))
    ensures OfferAll(s, events, capacity, false).calls == s.calls
    ensures OfferAll(s, events, capacity, true) == s
  {
    OffersThatFit(s, events, capacity, false);
    OffersThatFit(s, events, capacity, true);
    assert s.buffer + [] == s.buffer && s.accepted + [] == s.accepted;
  }

  // So does a fan-out with what is offered meanwhile, besides calling every callback once.
  lemma ArrivalsFill(s: Store, e: Event, order: seq<Name>, offers: Offers, capacity: nat)
    requires |s.buffer| <= capacity
    ensures var s' := Called(s, e, order, offers, capacity, false);
            && Filled(s, Offered(offers, |s.calls|, |order|), capacity, s')
            && s'.calls == s.calls + CallsFor(e, order)
    ensures Called(s, e, order, offers, capacity, true) == s.(calls := s.calls + CallsFor(e, order))
  {
    ArrivalsThatFit(s, e, order, offers, capacity, false);
    ArrivalsThatFit(s, e, order, offers, capacity, true);
    assert s.buffer + [] == s.buffer && s.accepted + [] == s.accepted;
  }

  // One round before the shutdown: the batch is taken as far as it fits, and then the oldest event,
  // if there is one, is fanned out, in a round that does not wait for the drain.
  lemma RoundServes(s: Store, batch: seq<Event>, order: nat -> seq<Name>, offers: Offers, capacity: nat)
    requires |s.buffer| <= capacity
    ensures var held := s.buffer + batch[..Min(|batch|, capacity - |s.buffer|)];
            var r := Rounds(s, [batch], order, offers, capacity);
            if held == [] then r == s
            else
              && r.fanned == s.fanned + [held[0]]
              && r.calls == s.calls + CallsFor(held[0], order(|s.fanned|))
              && held[1..] <= r.buffer
              && s.accepted + held[|s.buffer|..] <= r.accepted
  {
    OffersFill(s, batch, capacity);
    var offered := OfferAll(s, batch, capacity, false);
    assert offered.buffer == s.buffer + batch[..Min(|batch|, capacity - |s.buffer|)];
    assert [batch][1..] == [];
    if offered.buffer == [] {
      assert s.accepted + [] == s.accepted;
      assert Rounds(s, [batch], order, offers, capacity) == Rounds(offered, [], order, offers, capacity);
    } else {
      var served := Served(offered, order(|offered.fanned|), offers, capacity, false);
      assert Rounds(s, [batch], order, offers, capacity) == Rounds(served, [], order, offers, capacity);
      var taken := offered.(buffer := offered.buffer[1..]);
      ArrivalsFill(taken, offered.buffer[0], order(|offered.fanned|), offers, capacity);
    }
  }

  // Rounds follow each other, so this holds of every batch.
  lemma {:induction false} RoundsFollow(
    s: Store, a: seq<seq<Event>>, b: seq<seq<Event>>, order: nat -> seq<Name>, offers: Offers, capacity: nat)
    ensures Rounds(s, a + b, order, offers, capacity)
            == Rounds(Rounds(s, a, order, offers, capacity), b, order, offers, capacity)
    decreases |a|
  {
    if a == [] {
      assert a + b == b;
    } else {
      assert (a + b)[0] == a[0] && (a + b)[1..] == a[1..] + b;
      var offered := OfferAll(s, a[0], capacity, false);
      var next := if offered.buffer == [] then offered
                  else Served(offered, order(|offered.fanned|), offers, capacity, false);
      RoundsFollow(next, a[1..], b, order, offers, capacity);
    }
  }

  // ---------- The object's runs are runs of the broker ----------

  ghost predicate Shows(b: Broker, s: Store) {
    && b.buffer == s.buffer && b.accepted == s.accepted && b.fanned == s.fanned
    && b.producers == map[] && (b.closed ==> b.closing)
  }

  function With(b: Broker, s: Store, loop: LoopPoint): Broker {
    b.(buffer := s.buffer, accepted := s.accepted, fanned := s.fanned, loop := loop)
  }

  lemma OfferIsRun(b: Broker, s: Store, e: Event)
    requires Shows(b, s)
    ensures Reaches(b, With(b, Add(s, Prefix([e], Room(s, b.capacity, b.closing))), b.loop))
  {
    var b1 := Next(b, CheckClosing(0, e));
    OneStep(b, CheckClosing(0, e));
    assert s.buffer + [] == s.buffer && s.accepted + [] == s.accepted;
    if !b.closing {
      assert b1.producers - {0} == map[];
      var step := if |b.buffer| < b.capacity then Send(0) else SendTimesOut(0);
      OneStep(b1, step);
      Then(b, b1, Next(b1, step));
    }
  }

  lemma {:induction false} OffersAreRun(b: Broker, s: Store, events: seq<Event>)
    requires Shows(b, s)
    ensures Reaches(b, With(b, OfferAll(s, events, b.capacity, b.closing), b.loop))
    decreases |events|
  {
    if events == [] {
      Stay(b);
    } else {
      var s1 := Add(s, Prefix(events[..1], Room(s, b.capacity, b.closing)));
      var b1 := With(b, s1, b.loop);
      assert events[..1] == [events[0]];
      OfferIsRun(b, s, events[0]);
      OffersAreRun(b1, s1, events[1..]);
      Then(b, b1, With(b1, OfferAll(s1, events[1..], b.capacity, b.closing), b.loop));
    }
  }

  lemma RestOfOrder(order: seq<Name>, todo: set<Name>)
    requires order != [] && multiset(order) == multiset(todo)
    ensures order[0] in todo && multiset(order[1..]) == multiset(todo - {order[0]})
  {
    var name := order[0];
    assert order == [name] + order[1..];
    assert multiset(order) == multiset{name} + multiset(order[1..]);
    assert name in multiset(todo);
    var tail, rest := multiset(order[1..]), multiset(todo - {name});
    forall n ensures tail[n] == rest[n] {
      assert multiset(order)[n] == (if n == name then 1 else 0) + tail[n];
      assert multiset(todo)[n] == if n in todo then 1 else 0;
      assert rest[n] == if n in todo - {name} then 1 else 0;
    }
  }

  lemma {:induction false} CallsAreRun(b: Broker, s: Store, order: seq<Name>, offers: Offers)
    requires Shows(b, s) && b.loop.FanningOut? && b.loop.reply.None? && multiset(order) == multiset(b.loop.todo)
    ensures var l := b.loop;
            Reaches(b, With(b, Called(s, l.event, order, offers, b.capacity, b.closing),
                            FanningOut(l.event, {}, l.called + l.todo, None)))
    decreases |order|
  {
    var l := b.loop;
    if order == [] {
      assert l.todo == {} by { assert forall n <- l.todo :: n in multiset(l.todo); }
      assert l.called + {} == l.called;
      Stay(b);
    } else {
      var name := order[0];
      RestOfOrder(order, l.todo);
      var s1 := s.(calls := s.calls + [(l.event, name)]);
      var s2 := OfferAll(s1, offers(|s.calls|), b.capacity, b.closing);
      var b1 := Next(b, Dispatch(name, None));
      var b2 := With(b1, s2, b1.loop);
      OneStep(b, Dispatch(name, None));
      OffersAreRun(b1, s1, offers(|s.calls|));
      Then(b, b1, b2);
      OffersThatFit(s1, offers(|s.calls|), b.capacity, b.closing);
      CallsAreRun(b2, s2, order[1..], offers);
      assert l.called + l.todo == (l.called + {name}) + (l.todo - {name});
      Then(b, b2, With(b2, Called(s2, l.event, order[1..], offers, b.capacity, b.closing),
                       FanningOut(l.event, {}, l.called + l.todo, None)));
    }
  }

  lemma ServingIsRun(b: Broker, s: Store, order: seq<Name>, offers: Offers)
    requires Shows(b, s) && b.loop.Selecting? && s.buffer != [] && multiset(order) == multiset(b.ccbs)
    ensures Reaches(b, With(b, Served(s, order, offers, b.capacity, b.closing), Selecting))
  {
    var e, s1 := s.buffer[0], s.(buffer := s.buffer[1..]);
    var b1 := Next(b, Receive);
    OneStep(b, Receive);
    CallsAreRun(b1, s1, order, offers);
    ArrivalsThatFit(s1, e, order, offers, b.capacity, b.closing);
    var b2 := With(b1, Called(s1, e, order, offers, b.capacity, b.closing), FanningOut(e, {}, {} + b.ccbs, None));
    Then(b, b1, b2);
    OneStep(b2, FanOutDone);
    Then(b, b2, Next(b2, FanOutDone));
  }

  lemma {:induction false} RoundsAreRun(
    b: Broker, s: Store, batches: seq<seq<Event>>, order: nat -> seq<Name>, offers: Offers)
    requires Shows(b, s) && b.loop.Selecting? && !b.closing && forall n :: multiset(order(n)) == multiset(b.ccbs)
    ensures Reaches(b, With(b, Rounds(s, batches, order, offers, b.capacity), Selecting))
    decreases |batches|
  {
    if batches == [] {
      Stay(b);
    } else {
      var s1 := OfferAll(s, batches[0], b.capacity, false);
      var b1 := With(b, s1, Selecting);
      OffersAreRun(b, s, batches[0]);
      var s2 := if s1.buffer == [] then s1 else Served(s1, order(|s1.fanned|), offers, b.capacity, false);
      var b2 := With(b, s2, Selecting);
      if s1.buffer == [] {
        Stay(b1);
      } else {
        ServingIsRun(b1, s1, order(|s1.fanned|), offers);
      }
      Then(b, b1, b2);
      RoundsAreRun(b2, s2, batches[1..], order, offers);
      Then(b, b2, With(b2, Rounds(s2, batches[1..], order, offers, b.capacity), Selecting));
    }
  }

  lemma {:induction false} DrainIsRun(b: Broker, s: Store, order: nat -> seq<Name>, offers: Offers)
    requires Shows(b, s) && b.loop.Selecting? && b.closed && forall n :: multiset(order(n)) == multiset(b.ccbs)
    ensures Reaches(b, With(b, Drained(s, order, offers, b.capacity), Selecting))
    decreases |s.buffer|
  {
    if s.buffer == [] {
      Stay(b);
    } else {
      var s1 := Served(s, order(|s.fanned|), offers, b.capacity, true);
      var b1 := With(b, s1, Selecting);
      ServingIsRun(b, s, order(|s.fanned|), offers);
      ServedClosing(s, order(|s.fanned|), offers, b.capacity);
      DrainIsRun(b1, s1, order, offers);
      Then(b, b1, With(b1, Drained(s1, order, offers, b.capacity), Selecting));
    }
  }

  // What the object's Start computes is reached by the steps of the broker, which end with the
  // loop stopped: all that is proved of every run above holds of it.
  lemma StartIsRun(b: Broker, s: Store, batches: seq<seq<Event>>, order: nat -> seq<Name>, offers: Offers)
    requires Shows(b, s) && b.loop.Selecting? && !b.closing && forall n :: multiset(order(n)) == multiset(b.ccbs)
    ensures var s' := Drained(Rounds(s, batches, order, offers, b.capacity), order, offers, b.capacity);
            Reaches(b, With(b, s', Stopped).(closing := true, closed := true, contextDone := true))
  {
    var open := Rounds(s, batches, order, offers, b.capacity);
    var s' := Drained(open, order, offers, b.capacity);
    var b1 := With(b, open, Selecting);
    RoundsAreRun(b, s, batches, order, offers);
    var b2 := Next(b1, CancelContext);
    OneStep(b1, CancelContext);
    Then(b, b1, b2);
    var b3 := Next(b2, Close);
    OneStep(b2, Close);
    Then(b, b2, b3);
    DrainIsRun(b3, open, order, offers);
    var b4 := With(b3, s', Selecting);
    Then(b, b3, b4);
    DrainedIsEmpty(open, order, offers, b.capacity);
    OneStep(b4, Finish);
    Then(b, b4, Next(b4, Finish));
  }

  lemma {:induction false} DrainedIsEmpty(s: Store, order: nat -> seq<Name>, offers: Offers, capacity: nat)
    ensures Drained(s, order, offers, capacity).buffer == []
    decreases |s.buffer|
  {
    if s.buffer != [] {
      ServedClosing(s, order(|s.fanned|), offers, capacity);
      DrainedIsEmpty(Served(s, order(|s.fanned|), offers, capacity, true), order, offers, capacity);
    }
  }

  class Memory {
    const capacity: nat
    var ccbs: set<Name>
    var closing: bool
    var buffer: seq<Event>
    var accepted: seq<Event>
    var fanned: seq<Event>
    var calls: seq<(Event, Name)>

    ghost function View(): Store
      reads this
    {
      Store(buffer, accepted, fanned, calls)
    }

    constructor (capacity: nat)
      ensures this.capacity == capacity && ccbs == {} && !closing && View() == Store([], [], [], [])
    {
      this.capacity := capacity;
      ccbs, closing, buffer, accepted, fanned, calls := {}, false, [], [], [], [];
    }

    // With no receiver at work, a full buffer makes the send time out.
    method Produce(event: Event) returns (error: Option<string>)
      modifies `buffer, `accepted
      ensures error.None? <==> !closing && |old(buffer)| < capacity
      ensures error.None? ==> buffer == old(buffer) + [event] && accepted == old(accepted) + [event]
      ensures error.Some? ==> buffer == old(buffer) && accepted == old(accepted)
      ensures View() == Add(old(View()), Prefix([event], Room(old(View()), capacity, closing)))
    {
      assert buffer + [] == buffer && accepted + [] == accepted;
      if closing {
        return Some("rejecting events due to backend closing");
      }
      if capacity <= |buffer| {
        return Some("failed to add the event to the buffer");
      }
      buffer := buffer + [event];
      accepted := accepted + [event];
      return None;
    }

    method Subscribe(name: Name, bounded: bool) returns (error: Option<string>)
      modifies `ccbs
      ensures error.Some? <==> bounded
      ensures ccbs == old(ccbs) + if bounded then {} else {name}
    {
      if bounded {
        return Some("bounds not supported for memory broker");
      }
      ccbs := ccbs + {name};
      return None;
    }

    method Unsubscribe(name: Name)
      modifies `ccbs
      ensures ccbs == old(ccbs) - {name}
    {
      ccbs := ccbs - {name};
    }

    method Arrive(events: seq<Event>)
      modifies `buffer, `accepted
      ensures View() == OfferAll(old(View()), events, capacity, closing)
    {
      ghost var goal := OfferAll(View(), events, capacity, closing);
      for i := 0 to |events|
        invariant OfferAll(View(), events[i..], capacity, closing) == goal
      {
        assert events[i..][..1] == [events[i]] && events[i..][1..] == events[i + 1..];
        var _ := Produce(events[i]);
      }
    }

    // order is the order in which the map yields the callbacks.
    method FanOut(event: Event, order: seq<Name>, offers: Offers)
      requires multiset(order) == multiset(ccbs)
      modifies `buffer, `accepted, `calls
      ensures View() == Called(old(View()), event, order, offers, capacity, closing)
    {
      ghost var goal := Called(View(), event, order, offers, capacity, closing);
      for i := 0 to |order|
        invariant Called(View(), event, order[i..], offers, capacity, closing) == goal
      {
        assert order[i..][0] == order[i] && order[i..][1..] == order[i + 1..];
        calls := calls + [(event, order[i])];
        Arrive(offers(|calls| - 1));
      }
    }

    method Take(order: seq<Name>, offers: Offers)
      requires buffer != [] && multiset(order) == multiset(ccbs)
      modifies `buffer, `accepted, `calls, `fanned
      ensures View() == Served(old(View()), order, offers, capacity, closing)
    {
      var event := buffer[0];
      buffer := buffer[1..];
      FanOut(event, order, offers);
      fanned := fanned + [event];
    }

    // The loop: rounds until the context is done, then the drain.
    method Start(batches: seq<seq<Event>>, order: nat -> seq<Name>, offers: Offers)
      requires !closing && forall n :: multiset(order(n)) == multiset(ccbs)
      modifies `buffer, `accepted, `calls, `fanned, `closing
      ensures closing
      ensures View() == Drained(Rounds(old(View()), batches, order, offers, capacity), order, offers, capacity)
    {
      ghost var open := Rounds(View(), batches, order, offers, capacity);
      for i := 0 to |batches|
        invariant !closing && Rounds(View(), batches[i..], order, offers, capacity) == open
      {
        assert batches[i..][0] == batches[i] && batches[i..][1..] == batches[i + 1..];
        Arrive(batches[i]);
        if buffer != [] {
          Take(order(|fanned|), offers);
        }
      }
      closing := true;
      while buffer != []
        invariant closing && Drained(View(), order, offers, capacity) == Drained(open, order, offers, capacity)
        decreases |buffer|
      {
        ServedClosing(View(), order(|fanned|), offers, capacity);
        Take(order(|fanned|), offers);
      }
    }
  }
}
