/** One trigger's subscriber: applying a trigger's configuration and dispatching an event.
  */
module Subscriber {
  import opened Options
  import opened Filters
  import opened StreamIds
  import opened StatusTypes

  datatype DeliveryOptions = DeliveryOptions(
    retry: Option<int>, policy: Option<string>, delay: Option<string>, deadLetter: Option<string>)

  datatype Trigger = Trigger(
    filters: seq<Filter>,
    url: Option<string>,
    targetDelivery: Option<DeliveryOptions>,
    delivery: Option<DeliveryOptions>,
    bounds: Option<TriggerBounds>)
  {
    function DeliveryOptions(): Option<DeliveryOptions> {
      if delivery.Some? then delivery else targetDelivery
    }

    // A URL that is not informed or empty means that there is no target for now.
    function Target(): Option<string> {
      if url == Some("") then None else url
    }

    function DeadLetter(): Option<string> {
      var d := DeliveryOptions();
      if d.Some? && d.value.deadLetter.Some? && d.value.deadLetter.value != "" then d.value.deadLetter else None
    }
  }

  // Retries are set up only with a count and a policy, and then need a delay that parses. The
  // program dereferences the delay without a check.
  predicate Retries(t: Trigger) {
    var d := t.DeliveryOptions();
    d.Some? && d.value.retry.Some? && d.value.retry.value >= 1 && d.value.policy.Some?
  }

  predicate Panics(t: Trigger) {
    Retries(t) && t.DeliveryOptions().value.delay.None?
  }

  predicate Unusable(t: Trigger, parses: string -> bool) {
    Retries(t) && !Panics(t) && !parses(t.DeliveryOptions().value.delay.value)
  }

  datatype UpdateResult = Applied | BadDelay | Panicked

  // The same, read off the fields: these options hold for a trigger, those of its own before those of
  // its target.
  predicate Holds(t: Trigger, d: DeliveryOptions) {
    t.delivery == Some(d) || (t.delivery.None? && t.targetDelivery == Some(d))
  }

  predicate RetriesWith(d: DeliveryOptions) {
    d.policy.Some? && match d.retry case Some(n) => n >= 1 case None => false
  }

  lemma RetriesAsHeld(t: Trigger, parses: string -> bool)
    ensures Panics(t) <==> exists d :: Holds(t, d) && RetriesWith(d) && d.delay.None?
    ensures Unusable(t, parses) <==>
              exists d :: Holds(t, d) && RetriesWith(d) && d.delay.Some? && !parses(d.delay.value)
    ensures t.Target() == (if t.url.Some? && t.url.value != "" then t.url else None)
    ensures t.DeadLetter().Some? <==> exists d :: Holds(t, d) && d.deadLetter.Some? && d.deadLetter.value != ""
    ensures forall d :: Holds(t, d) && t.DeadLetter().Some? ==> t.DeadLetter() == d.deadLetter
  {
    if t.delivery.Some? {
      assert Holds(t, t.delivery.value);
    } else if t.targetDelivery.Some? {
      assert Holds(t, t.targetDelivery.value);
    }
  }

  // A target's answer to a request. The reply of an accepted event has to be ingested as well.
  datatype SendResult = Accepted(reply: Option<string>, ingested: bool) | Undelivered | Rejected | Unknown

  predicate Succeeded(r: SendResult) {
    r.Accepted? && (r.reply.None? || r.ingested)
  }

  datatype Outcome = Filtered | Sent | DeadLettered | Lost

  class Subscriber {
    const name: string
    var trigger: Trigger
    var sends: seq<string>                    // URLs requested, in order
    var reported: seq<SubscriptionValue>      // status changes, in order

    constructor (name: string, trigger: Trigger)
      ensures this.name == name && this.trigger == trigger && sends == [] && reported == []
    {
      this.name, this.trigger, sends, reported := name, trigger, [], [];
    }

    method UpdateTrigger(t: Trigger, parses: string -> bool) returns (result: UpdateResult)
      modifies `trigger
      ensures result.Panicked? <==> exists d :: Holds(t, d) && RetriesWith(d) && d.delay.None?
      ensures result.BadDelay? <==>
                exists d :: Holds(t, d) && RetriesWith(d) && d.delay.Some? && !parses(d.delay.value)
      ensures result.Panicked? <==> Panics(t)
      ensures result.BadDelay? <==> Unusable(t, parses)
      ensures trigger == if result.Applied? then t else old(trigger)
    {
      RetriesAsHeld(t, parses);
      var d := t.DeliveryOptions();
      if d != None && d.value.retry != None && d.value.retry.value >= 1 && d.value.policy != None {
        if d.value.delay == None {
          return Panicked;
        }
        if !parses(d.value.delay.value) {
          return BadDelay;
        }
      }
      trigger := t;
      return Applied;
    }

    method Send(url: string, answer: SendResult) returns (ok: bool)
      modifies `sends
      ensures ok <==> Succeeded(answer)
      ensures ok <==> answer.Accepted? && (answer.reply.Some? ==> answer.ingested)
      ensures sends == old(sends) + [url]
    {
      sends := sends + [url];
      match answer {
        case Accepted(reply, ingested) =>
          if reply != None && !ingested {
            return false;
          }
          return true;
        case Undelivered => return false;
        case Rejected => return false;
        case Unknown => return false;
      }
    }

    // An event ends in exactly one way. It is skipped exactly when a filter fails as read in the
    // configuration; the dead-letter sink is asked only after the target failed or when there is
    // none, and the event is lost only when every sink that is configured has failed. In every
    // case one status change reports the processing. The answers are those the target and the sink
    // give to this event, if they are asked.
    method DispatchCloudEvent(event: Attributes, now: Time, target: SendResult, sink: SendResult)
      returns (outcome: Outcome)
      modifies `sends, `reported
      ensures outcome.Filtered? <==> EvalAll(CompileList(trigger.filters), event).Fail?
      ensures AllSingleDialect(trigger.filters) ==> (outcome.Filtered? <==> SomeReadsFail(trigger.filters, event))
      ensures !outcome.Filtered? ==>
        && var sent := trigger.Target().Some? && Succeeded(target);
           var lettered := trigger.DeadLetter().Some? && Succeeded(sink);
        && (outcome.Sent? <==> sent)
        && (outcome.DeadLettered? <==> !sent && lettered)
        && (outcome.Lost? <==> !sent && !lettered)
      ensures sends == old(sends)
        + (if !outcome.Filtered? && trigger.Target().Some? then [trigger.Target().value] else [])
        + (if (outcome.DeadLettered? || outcome.Lost?) && trigger.DeadLetter().Some?
           then [trigger.DeadLetter().value] else [])
      ensures reported == old(reported) + [SubscriptionValue("Running", None, Some(now))]
    {
      reported := reported + [SubscriptionValue("Running", None, Some(now))];
      RootDecision(trigger.filters, event);
      var parts := MaterializeList(trigger.filters);
      if EvalAll(parts, event) == Fail {
        return Filtered;
      }
      if trigger.Target() != None {
        var ok := Send(trigger.Target().value, target);
        if ok {
          return Sent;
        }
      }
      if trigger.DeadLetter() != None {
        var ok := Send(trigger.DeadLetter().value, sink);
        if ok {
          return DeadLettered;
        }
      }
      return Lost;
    }
  }
}
