/** The read loop of one Redis subscription: replay of pending messages, then new ones,
    asynchronous dispatch, and the optional end bound.

    The value Loop and the functions on it say what one reply of the server does to the loop;
    the class runs the loop itself. What happens at the server is in RedisGroup.
  */
module SubscriptionLoop {
  import opened Options
  import opened StreamIds

  // The ID argument of the next read: a cursor into the pending entries, or ">" for new ones.
  datatype Position = Pending(after: Id) | New

  // valid: the entry holds a CloudEvent that validates. A trimmed entry has no contents.
  datatype Message = Message(id: Id, valid: bool)

  datatype Loop = Loop(
    bound: Option<string>,
    position: Position,
    exit: bool,
    handled: seq<Message>,    // every message taken from a reply, in order
    dispatched: seq<Id>,      // messages handed to a dispatch goroutine, in order
    removed: seq<Id>,         // messages acknowledged because they hold no CloudEvent
    stopped: seq<Id>          // messages for which Complete was reported
  )

  function Fresh(bound: Option<string>): Loop {
    Loop(bound, Pending(ZERO_ID), false, [], [], [], [])
  }

  predicate AtBound(bound: Option<string>, m: Message) {
    m.valid && Exceeds(bound, m.id)
  }

  // A message that a bounded loop dispatches takes the exit flag back.
  predicate Clears(bound: Option<string>, m: Message) {
    bound.Some? && m.valid && !Exceeds(bound, m.id)
  }

  // One message of a reply. A bounded loop assigns the exit flag, which may clear it.
  function Handle(l: Loop, m: Message): Loop {
    var l := l.(handled := l.handled + [m]);
    if !m.valid then l.(removed := l.removed + [m.id])
    else if Exceeds(l.bound, m.id) then l.(exit := true, stopped := l.stopped + [m.id])
    else l.(exit := l.exit && l.bound.None?,
            dispatched := l.dispatched + [m.id],
            position := if l.position.New? then New else Pending(m.id))
  }

  // The watcher of the context raises the exit flag at any moment; a later message may clear it.
  function Raise(l: Loop, now: bool): Loop {
    if now then l.(exit := true) else l
  }

  // The messages of one reply. The flag is raised before the message with number raised, if there
  // is one.
  function HandleAll(l: Loop, msgs: seq<Message>, raised: nat): Loop
    decreases |msgs|
  {
    if msgs == [] then l
    else
      var l := Raise(l, raised == 0);
      if AtBound(l.bound, msgs[0]) then Handle(l, msgs[0])
      else HandleAll(Handle(l, msgs[0]), msgs[1..], if raised == 0 then |msgs| else raised - 1)
  }

  function OnReply(l: Loop, msgs: seq<Message>, raised: nat): Loop {
    HandleAll(if msgs == [] then l.(position := New) else l, msgs, raised)
  }

  // Reads ask for one message. Handling such a reply in two steps, with the flag raised in between
  // or not, is the same: this is the step the model of the whole group takes.
  lemma ReplyOfOne(l: Loop, m: Message, raised: nat)
    ensures OnReply(l, [m], raised) == Handle(Raise(l, raised == 0), m)
  {
    var l' := Raise(l, raised == 0);
    assert [m][1..] == [];
    assert HandleAll(Handle(l', m), [m][1..], if raised == 0 then |[m]| else raised - 1) == Handle(l', m);
  }

  // What the environment does: raise the flag between two iterations, or answer one read.
  datatype LoopEvent = Raised | ReadFailed | Reply(msgs: seq<Message>, raised: nat)

  function OnEvent(l: Loop, e: LoopEvent): Loop {
    match e
    case Raised => Raise(l, true)
    case ReadFailed => l
    case Reply(msgs, raised) => OnReply(l, msgs, raised)
  }

  function RunLoop(l: Loop, events: seq<LoopEvent>): Loop
    decreases |events|
  {
    if events == [] || l.exit then l else RunLoop(OnEvent(l, events[0]), events[1..])
  }

  // The IDs of the messages that are valid, or of those that are not, in order.
  function IdsOf(ms: seq<Message>, valid: bool): seq<Id> {
    if ms == [] then []
    else
      var m := ms[|ms| - 1];
      IdsOf(ms[..|ms| - 1], valid) + if m.valid == valid then [m.id] else []
  }

  // What every loop keeps: nothing at or past the bound is dispatched, Complete is reported at
  // most once and only by a loop that is leaving, every other valid message was dispatched, and just
  // the invalid ones were removed.
  ghost predicate LoopOk(l: Loop) {
    && (forall i <- l.dispatched :: !Exceeds(l.bound, i))
    && (forall i <- l.stopped :: Exceeds(l.bound, i))
    && |l.stopped| <= 1
    && (l.stopped != [] ==> l.exit)
    && IdsOf(l.handled, true) == l.dispatched + l.stopped
    && IdsOf(l.handled, false) == l.removed
  }

  lemma HandleKeepsLoopOk(l: Loop, m: Message)
    requires LoopOk(l) && l.stopped == []
    ensures LoopOk(Handle(l, m))
    ensures !AtBound(l.bound, m) ==> Handle(l, m).stopped == []
  {
    assert (l.handled + [m])[..|l.handled|] == l.handled;
  }

  lemma {:induction false} ReplyKeepsLoopOk(l: Loop, msgs: seq<Message>, raised: nat)
    requires LoopOk(l) && l.stopped == []
    ensures LoopOk(HandleAll(l, msgs, raised)) && HandleAll(l, msgs, raised).bound == l.bound
    decreases |msgs|
  {
    if msgs != [] {
      var l := Raise(l, raised == 0);
      HandleKeepsLoopOk(l, msgs[0]);
      if !AtBound(l.bound, msgs[0]) {
        ReplyKeepsLoopOk(Handle(l, msgs[0]), msgs[1..], if raised == 0 then |msgs| else raised - 1);
      }
    }
  }

  // For every sequence of replies, failed reads and cancellations, wherever these fall.
  lemma {:induction false} LoopRespectsBound(l: Loop, events: seq<LoopEvent>)
    requires LoopOk(l) && (l.stopped == [] || l.exit)
    ensures LoopOk(RunLoop(l, events)) && RunLoop(l, events).bound == l.bound
    decreases |events|
  {
    if events != [] && !l.exit {
      if events[0].Reply? {
        ReplyKeepsLoopOk(if events[0].msgs == [] then l.(position := New) else l, events[0].msgs, events[0].raised);
      }
      LoopRespectsBound(OnEvent(l, events[0]), events[1..]);
    }
  }

  // ---------- What a run of the loop amounts to ----------

  predicate EndsAtBound(bound: Option<string>, ms: seq<Message>) {
    ms != [] && AtBound(bound, ms[|ms| - 1])
  }

  // The messages of a reply that are taken: up to and with the first one at the bound.
  ghost predicate TakenFrom(bound: Option<string>, msgs: seq<Message>, taken: seq<Message>) {
    && taken <= msgs
    && (forall k :: 0 <= k < |taken| - 1 ==> !AtBound(bound, taken[k]))
    && (taken == msgs || EndsAtBound(bound, taken))
  }

  ghost predicate NoneClears(bound: Option<string>, ms: seq<Message>, from: nat) {
    forall k :: from <= k < |ms| ==> !Clears(bound, ms[k])
  }

  // The flag is up after these messages: they end at the bound, or it was up before them or raised
  // at one of them, and none from there on took it back.
  ghost predicate FlagAfter(bound: Option<string>, up: bool, raised: nat, taken: seq<Message>) {
    || EndsAtBound(bound, taken)
    || (up && NoneClears(bound, taken, 0))
    || (raised < |taken| && NoneClears(bound, taken, raised))
  }

  function Dispatchable(bound: Option<string>, taken: seq<Message>): seq<Id> {
    IdsOf(if EndsAtBound(bound, taken) then taken[..|taken| - 1] else taken, true)
  }

  // The cursor after these dispatches.
  function CursorAfter(ids: seq<Id>, before: Position): Position {
    if ids == [] || before.New? then before else Pending(ids[|ids| - 1])
  }

  ghost predicate TakenEffect(l: Loop, raised: nat, taken: seq<Message>, l': Loop) {
    var ids := Dispatchable(l.bound, taken);
    && l'.bound == l.bound
    && l'.handled == l.handled + taken
    && l'.dispatched == l.dispatched + ids
    && l'.removed == l.removed + IdsOf(taken, false)
    && l'.stopped == l.stopped + (if EndsAtBound(l.bound, taken) then [taken[|taken| - 1].id] else [])
    && (l'.exit <==> FlagAfter(l.bound, l.exit, raised, taken))
    && l'.position == CursorAfter(ids, l.position)
  }

  // An empty reply makes the loop go over to new messages.
  ghost predicate ReplyEffect(l: Loop, msgs: seq<Message>, raised: nat, l': Loop) {
    exists taken :: TakenFrom(l.bound, msgs, taken)
                    && TakenEffect(if msgs == [] then l.(position := New) else l, raised, taken, l')
  }

  ghost predicate EventEffect(l: Loop, e: LoopEvent, l': Loop) {
    match e
    case Raised => l' == l.(exit := true)
    case ReadFailed => l' == l
    case Reply(msgs, raised) => ReplyEffect(l, msgs, raised, l')
  }

  ghost predicate TookEvent(events: seq<LoopEvent>, trace: seq<Loop>, k: nat)
    requires |trace| <= |events| + 1 && k + 1 < |trace|
  {
    !trace[k].exit && EventEffect(trace[k], events[k], trace[k + 1])
  }

  // The loop went through these states: it took an event in each but the last, while its flag was
  // down, and it ended because the flag was up or the events were over.
  ghost predicate Went(events: seq<LoopEvent>, trace: seq<Loop>) {
    && 1 <= |trace| <= |events| + 1
    && (forall k :: 0 <= k < |trace| - 1 ==> TookEvent(events, trace, k))
    && (trace[|trace| - 1].exit || |trace| == |events| + 1)
  }

  ghost predicate Ran(l: Loop, events: seq<LoopEvent>, l': Loop) {
    exists trace :: Went(events, trace) && trace[0] == l && trace[|trace| - 1] == l'
  }

  lemma {:induction false} IdsOfFront(m: Message, ms: seq<Message>, valid: bool)
    ensures IdsOf([m] + ms, valid) == (if m.valid == valid then [m.id] else []) + IdsOf(ms, valid)
    decreases |ms|
  {
    var all := [m] + ms;
    if ms == [] {
      assert all[..0] == [];
    } else {
      assert all[..|all| - 1] == [m] + ms[..|ms| - 1];
      IdsOfFront(m, ms[..|ms| - 1], valid);
    }
  }

  lemma ClearsFront(bound: Option<string>, m: Message, rest: seq<Message>, from: nat)
    ensures NoneClears(bound, [m] + rest, 0) <==> !Clears(bound, m) && NoneClears(bound, rest, 0)
    ensures NoneClears(bound, [m] + rest, from + 1) <==> NoneClears(bound, rest, from)
  {
    hide Clears;
    var all := [m] + rest;
    assert all[0] == m;
    assert forall k :: 0 < k < |all| ==> all[k] == rest[k - 1];
    assert forall k :: 0 <= k < |rest| ==> rest[k] == all[k + 1];
  }

  lemma FlagOneMore(bound: Option<string>, up: bool, raised: nat, m: Message, rest: seq<Message>, after: nat)
    requires !AtBound(bound, m) && after == if raised == 0 then |rest| + 1 else raised - 1
    ensures FlagAfter(bound, up, raised, [m] + rest)
            <==> FlagAfter(bound, (up || raised == 0) && !Clears(bound, m), after, rest)
  {
    ClearsFront(bound, m, rest, after);
    assert EndsAtBound(bound, [m] + rest) <==> EndsAtBound(bound, rest);
    hide AtBound, NoneClears, Clears, EndsAtBound;
  }

  lemma DispatchableFront(bound: Option<string>, m: Message, rest: seq<Message>)
    requires !AtBound(bound, m)
    ensures Dispatchable(bound, [m] + rest) == (if m.valid then [m.id] else []) + Dispatchable(bound, rest)
  {
    hide AtBound;
    var all := [m] + rest;
    if EndsAtBound(bound, rest) {
      assert all[..|all| - 1] == [m] + rest[..|rest| - 1];
      IdsOfFront(m, rest[..|rest| - 1], true);
    } else {
      IdsOfFront(m, rest, true);
    }
  }

  lemma OneTaken(l: Loop, raised: nat, m: Message)
    requires AtBound(l.bound, m)
    ensures TakenEffect(l, raised, [m], Handle(Raise(l, raised == 0), m))
  {
    assert [m][..0] == [];
  }

  lemma OneHandled(l: Loop, raised: nat, m: Message)
    requires !AtBound(l.bound, m)
    ensures var l1, ids := Handle(Raise(l, raised == 0), m), if m.valid then [m.id] else [];
            && l1.bound == l.bound && l1.handled == l.handled + [m] && l1.stopped == l.stopped
            && l1.dispatched == l.dispatched + ids
            && l1.removed == l.removed + (if m.valid then [] else [m.id])
            && (l1.exit <==> (l.exit || raised == 0) && !Clears(l.bound, m))
            && l1.position == CursorAfter(ids, l.position)
  {
  }

  lemma CursorMoves(before: Position, a: seq<Id>, b: seq<Id>)
    ensures CursorAfter(b, CursorAfter(a, before)) == CursorAfter(a + b, before)
  {
  }

  lemma Assoc<T>(a: seq<T>, b: seq<T>, c: seq<T>)
    ensures a + b + c == a + (b + c)
  {
  }

  lemma StoppedBy(bound: Option<string>, m: Message, rest: seq<Message>)
    requires !AtBound(bound, m)
    ensures EndsAtBound(bound, [m] + rest) <==> EndsAtBound(bound, rest)
    ensures EndsAtBound(bound, rest) ==> ([m] + rest)[|rest|] == rest[|rest| - 1]
  {
  }

  lemma TakenMore(l: Loop, raised: nat, m: Message, after: nat, rest: seq<Message>, l': Loop)
    requires !AtBound(l.bound, m) && after == if raised == 0 then |rest| + 1 else raised - 1
    requires TakenEffect(Handle(Raise(l, raised == 0), m), after, rest, l')
    ensures TakenEffect(l, raised, [m] + rest, l')
  {
    OneHandled(l, raised, m);
    StoppedBy(l.bound, m, rest);
    DispatchableFront(l.bound, m, rest);
    IdsOfFront(m, rest, false);
    FlagOneMore(l.bound, l.exit, raised, m, rest, after);
    hide Handle, Raise, FlagAfter, Dispatchable, AtBound, IdsOf, Clears, EndsAtBound, CursorAfter;
    var l1, all, ids := Handle(Raise(l, raised == 0), m), [m] + rest, Dispatchable(l.bound, rest);
    var first: seq<Id>, gone: seq<Id> := if m.valid then [m.id] else [], if m.valid then [] else [m.id];
    CursorMoves(l.position, first, ids);
    Assoc(l.handled, [m], rest);
    Assoc(l.dispatched, first, ids);
    Assoc(l.removed, gone, IdsOf(rest, false));
    assert Dispatchable(l.bound, all) == first + ids;
    assert IdsOf(all, false) == gone + IdsOf(rest, false);
  }

  lemma {:induction false} HandleAllTakes(l: Loop, msgs: seq<Message>, raised: nat) returns (taken: seq<Message>)
    ensures TakenFrom(l.bound, msgs, taken) && TakenEffect(l, raised, taken, HandleAll(l, msgs, raised))
    decreases |msgs|
  {
    if msgs == [] {
      taken := [];
    } else {
      var m := msgs[0];
      assert msgs == [m] + msgs[1..];
      if AtBound(l.bound, m) {
        taken := [m];
        OneTaken(l, raised, m);
      } else {
        var l1 := Handle(Raise(l, raised == 0), m);
        var after := if raised == 0 then |msgs| else raised - 1;
        var rest := HandleAllTakes(l1, msgs[1..], after);
        taken := [m] + rest;
        LateRaise(l1, rest, after, if raised == 0 then |rest| + 1 else raised - 1, HandleAll(l1, msgs[1..], after));
        TakenMore(l, raised, m, if raised == 0 then |rest| + 1 else raised - 1, rest, HandleAll(l1, msgs[1..], after));
        hide AtBound, TakenEffect;
      }
    }
  }

  // A flag raised after the messages that are taken does not matter for them.
  lemma LateRaise(l: Loop, taken: seq<Message>, a: nat, b: nat, l': Loop)
    requires TakenEffect(l, a, taken, l') && (a == b || (|taken| <= a && |taken| <= b))
    ensures TakenEffect(l, b, taken, l')
  {
  }

  lemma ReplyHasEffect(l: Loop, msgs: seq<Message>, raised: nat)
    ensures ReplyEffect(l, msgs, raised, OnReply(l, msgs, raised))
  {
    var taken := HandleAllTakes(if msgs == [] then l.(position := New) else l, msgs, raised);
  }

  lemma EventHasEffect(l: Loop, e: LoopEvent)
    ensures EventEffect(l, e, OnEvent(l, e))
  {
    hide ReplyEffect, OnReply;
    if e.Reply? {
      ReplyHasEffect(l, e.msgs, e.raised);
    }
  }

  lemma WentOneMore(l: Loop, events: seq<LoopEvent>, rest: seq<Loop>)
    requires events != [] && Went(events[1..], rest) && !l.exit && EventEffect(l, events[0], rest[0])
    ensures Went(events, [l] + rest)
  {
    hide EventEffect;
    var trace := [l] + rest;
    forall k | 0 <= k < |trace| - 1
      ensures TookEvent(events, trace, k)
    {
      assert trace[k + 1] == rest[k];
      if k > 0 {
        assert TookEvent(events[1..], rest, k - 1);
      }
    }
    assert trace[|trace| - 1] == rest[|rest| - 1] && |trace| == |rest| + 1;
  }

  lemma {:induction false} LoopRan(l: Loop, events: seq<LoopEvent>)
    ensures Ran(l, events, RunLoop(l, events))
    decreases |events|
  {
    hide EventEffect, OnEvent;
    if events == [] || l.exit {
      var trace := [l];
      assert Went(events, trace) && trace[0] == l && trace[|trace| - 1] == l;
    } else {
      var l1 := OnEvent(l, events[0]);
      EventHasEffect(l, events[0]);
      LoopRan(l1, events[1..]);
      var rest :| Went(events[1..], rest) && rest[0] == l1 && rest[|rest| - 1] == RunLoop(l1, events[1..]);
      WentOneMore(l, events, rest);
      hide Went;
      var trace := [l] + rest;
      assert Went(events, trace) && trace[0] == l && trace[|trace| - 1] == RunLoop(l, events);
    }
  }

  // The cursor along such a run: it follows the dispatched messages until the first empty reply,
  // and from then on the loop asks for new ones.
  lemma {:induction false} PositionFollows(events: seq<LoopEvent>, trace: seq<Loop>, n: nat)
    requires Went(events, trace) && n < |trace| && trace[0].position.Pending?
    ensures trace[0].dispatched <= trace[n].dispatched
    ensures trace[n].position ==
            if exists k :: 0 <= k < n && IsEmptyReply(events[k]) then New
            else CursorAfter(trace[n].dispatched[|trace[0].dispatched|..], trace[0].position)
    decreases n
  {
    if n > 0 {
      var p := n - 1;
      PositionFollows(events, trace, p);
      assert TookEvent(events, trace, p);
      DispatchesGrow(trace[p], events[p], trace[n]);
      var before, middle := |trace[0].dispatched|, |trace[p].dispatched|;
      var first, more := trace[p].dispatched[before..], trace[n].dispatched[middle..];
      assert trace[n].dispatched[before..] == first + more;
      CursorMoves(trace[0].position, first, more);
    }
  }

  predicate IsEmptyReply(e: LoopEvent) {
    e.Reply? && e.msgs == []
  }

  lemma DispatchesGrow(l: Loop, e: LoopEvent, l': Loop)
    requires EventEffect(l, e, l')
    ensures l.dispatched <= l'.dispatched
    ensures l'.position == if IsEmptyReply(e) then New else CursorAfter(l'.dispatched[|l.dispatched|..], l.position)
  {
    hide Dispatchable, FlagAfter;
    if e.Reply? {
      var taken :| TakenFrom(l.bound, e.msgs, taken)
                   && TakenEffect(if e.msgs == [] then l.(position := New) else l, e.raised, taken, l');
      assert l'.dispatched[|l.dispatched|..] == Dispatchable(l.bound, taken);
    } else {
      assert l'.dispatched[|l.dispatched|..] == [];
    }
  }

  class Subscription {
    const checkBounds: Option<string>
    var id: Position
    var exitLoop: bool
    var handled: seq<Message>
    var dispatched: seq<Id>
    var acked: seq<Id>
    var complete: seq<Id>

    ghost function View(): Loop
      reads this
    {
      Loop(checkBounds, id, exitLoop, handled, dispatched, acked, complete)
    }

    constructor (bound: Option<string>)
      ensures View() == Fresh(bound)
    {
      checkBounds := bound;
      id := Pending(ZERO_ID);
      exitLoop := false;
      handled, dispatched, acked, complete := [], [], [], [];
    }

    // One iteration after a read that returned.
    method Iterate(msgs: seq<Message>, raised: nat)
      modifies this
      ensures View() == OnReply(old(View()), msgs, raised)
      ensures ReplyEffect(old(View()), msgs, raised, View())
    {
      hide ReplyEffect, StrAtLeast;
      ReplyHasEffect(View(), msgs, raised);
      if |msgs| == 0 && id != New {
        id := New;
      }
      ghost var goal := HandleAll(View(), msgs, raised);
      for i := 0 to |msgs|
        invariant HandleAll(View(), msgs[i..], if i <= raised then raised - i else |msgs| - i + 1) == goal
      {
        var msg := msgs[i];
        assert msgs[i..][0] == msg && msgs[i..][1..] == msgs[i + 1..];
        if i == raised {
          exitLoop := true;
        }
        handled := handled + [msg];
        if !msg.valid {
          acked := acked + [msg.id];
          continue;
        }
        if checkBounds != None {
          exitLoop := Exceeds(checkBounds, msg.id);
          if exitLoop {
            complete := complete + [msg.id];
            break;
          }
        }
        dispatched := dispatched + [msg.id];
        if id != New {
          id := Pending(msg.id);
        }
      }
    }

    // The loop, for as long as the environment's events last.
    method Start(events: seq<LoopEvent>)
      modifies this
      ensures View() == RunLoop(old(View()), events)
      // From a raised flag nothing is read any more; otherwise it takes events until it is up.
      ensures old(exitLoop) ==> View() == old(View())
      ensures Ran(old(View()), events, View())
    {
      hide Ran;
      LoopRan(View(), events);
      ghost var goal := RunLoop(View(), events);
      var i := 0;
      while i < |events| && !exitLoop
        invariant i <= |events|
        invariant RunLoop(View(), events[i..]) == goal
      {
        assert events[i..][0] == events[i] && events[i..][1..] == events[i + 1..];
        match events[i] {
          case Raised => exitLoop := true;
          case ReadFailed =>
          case Reply(msgs, raised) => Iterate(msgs, raised);
        }
        i := i + 1;
      }
    }
  }
}
