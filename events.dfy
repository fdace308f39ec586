/** Update events: the nine event types, the `UpdateEvent` record, and what
    delivering events to a listener list amounts to. */
module Events {
  import opened JsCore

  /** The frozen `EventType` table. */
  datatype EventType = Recalc | Redraw | Resize | Led | Lcd | Visibility | Interactivity | Finished | Section

  /** The string each event type stands for. */
  function EventName(t: EventType): string {
    match t
    case Recalc => "recalc"
    case Redraw => "redraw"
    case Resize => "resize"
    case Led => "led"
    case Lcd => "lcd"
    case Visibility => "visibility"
    case Interactivity => "interactivity"
    case Finished => "finished"
    case Section => "section"
  }

  /** No two event types share a name. */
  lemma EventNamesDistinct(a: EventType, b: EventType)
    ensures EventName(a) == EventName(b) ==> a == b
  {
  }

  /** `new UpdateEvent(source, type)`. A missing type is defaulted through
      `this.EventType.REDRAW`, but an `UpdateEvent` has no `EventType`
      property, so that default throws a TypeError instead. The source
      object is the gauge model and is not recorded here. */
  datatype UpdateEvent = UpdateEvent(eventType: EventType)

  function NewUpdateEvent(eventType: Option<EventType>): (r: Outcome<UpdateEvent>)
    ensures eventType.Some? <==> r.Ok?
    ensures r.Ok? ==> r.value.eventType == eventType.value
    ensures r.Throws? ==> r.error == TypeError
  {
    if eventType.Some? then Ok(UpdateEvent(eventType.value)) else Throws(TypeError)
  }

  /** A registered callback, known only by identity. */
  type ListenerId = nat

  /** One callback invocation: which listener was called with which event. */
  datatype Call = Call(listener: ListenerId, event: EventType)

  /** The calls one `fireUpdateEvent(e)` makes: every listener in the list,
      once each, in list order, duplicates included. */
  function Deliver(listeners: seq<ListenerId>, e: EventType): (calls: seq<Call>)
    ensures |calls| == |listeners|
    ensures forall i :: 0 <= i < |listeners| ==> calls[i] == Call(listeners[i], e)
  {
    if |listeners| == 0 then []
    else Deliver(listeners[..|listeners| - 1], e) + [Call(listeners[|listeners| - 1], e)]
  }

  /** The calls a sequence of `fireUpdateEvent` calls makes, one round per event. */
  function Broadcast(listeners: seq<ListenerId>, es: seq<EventType>): seq<Call> {
    if |es| == 0 then []
    else Deliver(listeners, es[0]) + Broadcast(listeners, es[1..])
  }

  /** Rounds compose: firing `a` and then `b` calls the listeners as firing
      `a + b` does. */
  lemma {:induction false} BroadcastAppend(listeners: seq<ListenerId>, a: seq<EventType>, b: seq<EventType>)
    ensures Broadcast(listeners, a + b) == Broadcast(listeners, a) + Broadcast(listeners, b)
    decreases |a|
  {
    if |a| == 0 {
      assert a + b == b;
    } else {
      assert (a + b)[1..] == a[1..] + b;
      BroadcastAppend(listeners, a[1..], b);
    }
  }

  /** Every round calls every listener once. */
  lemma {:induction false} BroadcastLength(listeners: seq<ListenerId>, es: seq<EventType>)
    ensures |Broadcast(listeners, es)| == |listeners| * |es|
  {
    if |es| > 0 {
      BroadcastLength(listeners, es[1..]);
      calc {
        |Broadcast(listeners, es)|;
        |listeners| + |listeners| * (|es| - 1);
        |listeners| * |es|;
      }
    }
  }

  /** The rounds of calls a sequence of `fireUpdateEvent` calls makes, one
      round per event. */
  function Rounds(listeners: seq<ListenerId>, es: seq<EventType>): seq<seq<Call>> {
    seq(|es|, i requires 0 <= i < |es| => Deliver(listeners, es[i]))
  }

  /** All calls of a log of rounds, in order. */
  function Flatten(rounds: seq<seq<Call>>): seq<Call> {
    if |rounds| == 0 then [] else rounds[0] + Flatten(rounds[1..])
  }

  /** The rounds, taken together, are exactly the calls of the recursive
      definition. */
  lemma {:induction false} FlattenRounds(listeners: seq<ListenerId>, es: seq<EventType>)
    ensures Flatten(Rounds(listeners, es)) == Broadcast(listeners, es)
  {
    if |es| > 0 {
      assert Rounds(listeners, es)[1..] == Rounds(listeners, es[1..]);
      FlattenRounds(listeners, es[1..]);
    }
  }

  /** Flattening distributes over concatenation. */
  lemma {:induction false} FlattenAppend(a: seq<seq<Call>>, b: seq<seq<Call>>)
    ensures Flatten(a + b) == Flatten(a) + Flatten(b)
    decreases |a|
  {
    if |a| == 0 {
      assert a + b == b;
    } else {
      assert (a + b)[1..] == a[1..] + b;
      FlattenAppend(a[1..], b);
    }
  }

  /** Logging the rounds of firing `es` extends the flat record of calls by
      exactly the broadcast of `es`. */
  lemma {:induction false} LoggedCalls(calls: seq<seq<Call>>, listeners: seq<ListenerId>, es: seq<EventType>)
    ensures Flatten(calls + Rounds(listeners, es)) == Flatten(calls) + Broadcast(listeners, es)
  {
    FlattenAppend(calls, Rounds(listeners, es));
    FlattenRounds(listeners, es);
  }

  /** Rounds compose as the events do. */
  lemma RoundsAppend(listeners: seq<ListenerId>, a: seq<EventType>, b: seq<EventType>)
    ensures Rounds(listeners, a + b) == Rounds(listeners, a) + Rounds(listeners, b)
  {
  }

  /** Two consecutive stretches of firing, with the logs after each, amount
      to firing the two event sequences in one go. */
  lemma LogTwo(events: seq<EventType>, calls: seq<seq<Call>>, listeners: seq<ListenerId>,
               a: seq<EventType>, b: seq<EventType>,
               events1: seq<EventType>, calls1: seq<seq<Call>>, events2: seq<EventType>, calls2: seq<seq<Call>>)
    requires events1 == events + a && calls1 == calls + Rounds(listeners, a)
    requires events2 == events1 + b && calls2 == calls1 + Rounds(listeners, b)
    ensures events2 == events + (a + b) && calls2 == calls + Rounds(listeners, a + b)
  {
    RoundsAppend(listeners, a, b);
  }

  lemma AppendAssoc<T>(a: seq<T>, b: seq<T>, c: seq<T>)
    ensures a + (b + c) == a + b + c
  {
  }
}
