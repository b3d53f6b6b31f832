/** The phone's event queue, which keeps only the latest text of a streaming reply. */
module PhoneQueue {
  import opened Text

  const MAX_QUEUED_EVENTS := 512

  datatype Bubble = Bubble(id: string, text: string, streaming: bool)

  datatype Event =
    | Assistant(id: string, text: string, done: bool)
    | Transcript(items: seq<Bubble>, sending: bool)
    | Error(message: string)
    | Note(kind: string, payload: string)

  // ----- the queue

  /** A delta replaces the one before it, if that is a delta of the same message. */
  predicate Supersedes(queue: seq<Event>, event: Event) {
    && event.Assistant? && !event.done
    && queue != []
    && var last := queue[|queue| - 1]; last.Assistant? && !last.done && last.id == event.id
  }

  function Coalesced(queue: seq<Event>, event: Event): seq<Event> {
    (if Supersedes(queue, event) then queue[..|queue| - 1] else queue) + [event]
  }

  function Capped(queue: seq<Event>): seq<Event> {
    if |queue| > MAX_QUEUED_EVENTS then queue[|queue| - MAX_QUEUED_EVENTS..] else queue
  }

  function Pushed(queue: seq<Event>, event: Event): seq<Event> {
    Capped(Coalesced(queue, event))
  }

  class EventQueue {
    var events: seq<Event>

    constructor ()
      ensures events == []
    {
      events := [];
    }

    method Push(event: Event)
      modifies this
      ensures events == Pushed(old(events), event)
    {
      if event.Assistant? && !event.done && events != [] {
        var last := events[|events| - 1];
        if last.Assistant? && !last.done && last.id == event.id {
          events := events[..|events| - 1];
        }
      }
      events := events + [event];
      if |events| > MAX_QUEUED_EVENTS {
        var overflow := |events| - MAX_QUEUED_EVENTS;
        events := events[overflow..];
      }
    }

    method Poll() returns (drained: seq<Event>)
      modifies this
      ensures drained == old(events) && events == []
    {
      drained := events;
      events := [];
    }
  }

  // ----- the frontend

  datatype View = View(messages: seq<Bubble>, sending: bool, error: Option<string>, notes: seq<(string, string)>)

  function WithText(ms: seq<Bubble>, id: string, text: string, done: bool): seq<Bubble> {
    if ms == [] then []
    else if ms[0].id == id then [ms[0].(text := text, streaming := ms[0].streaming && !done)] + ms[1..]
    else [ms[0]] + WithText(ms[1..], id, text, done)
  }

  predicate Has(ms: seq<Bubble>, id: string) {
    ms != [] && (ms[0].id == id || Has(ms[1..], id))
  }

  function Applied(v: View, event: Event): View {
    match event
    case Assistant(id, text, done) =>
      v.(messages := WithText(v.messages, id, text, done), sending := v.sending && !(done && Has(v.messages, id)))
    case Transcript(items, sending) => v.(messages := items, sending := sending)
    case Error(message) => v.(error := Some(message), sending := false)
    case Note(kind, payload) => v.(notes := v.notes + [(kind, payload)])
  }

  function AppliedAll(v: View, events: seq<Event>): View {
    if events == [] then v else Applied(AppliedAll(v, events[..|events| - 1]), events[|events| - 1])
  }

  lemma {:induction false} LaterTextWins(ms: seq<Bubble>, id: string, text: string, later: string)
    ensures WithText(WithText(ms, id, text, false), id, later, false) == WithText(ms, id, later, false)
  {
    if ms != [] && ms[0].id != id {
      LaterTextWins(ms[1..], id, text, later);
    }
  }

  /** Dropping a superseded delta cannot be seen. */
  lemma {:induction false} CoalescingIsInvisible(v: View, queue: seq<Event>, event: Event)
    ensures AppliedAll(v, Coalesced(queue, event)) == Applied(AppliedAll(v, queue), event)
  {
    var kept := if Supersedes(queue, event) then queue[..|queue| - 1] else queue;
    assert Coalesced(queue, event)[..|kept|] == kept;
    if Supersedes(queue, event) {
      LaterTextWins(AppliedAll(v, kept).messages, event.id, queue[|queue| - 1].text, event.text);
    }
  }

  // ----- runs

  datatype Op = Push(event: Event) | Poll

  /** The queue, and what the frontend has made of the events it took. */
  datatype Phone = Phone(queue: seq<Event>, view: View)

  function Next(p: Phone, op: Op): Phone {
    match op
    case Push(event) => p.(queue := Pushed(p.queue, event))
    case Poll => Phone([], AppliedAll(p.view, p.queue))
  }

  function Run(p: Phone, ops: seq<Op>): Phone {
    if ops == [] then p else Next(Run(p, ops[..|ops| - 1]), ops[|ops| - 1])
  }

  function EventsOf(ops: seq<Op>): seq<Event> {
    if ops == [] then []
    else
      var rest, last := EventsOf(ops[..|ops| - 1]), ops[|ops| - 1];
      if last.Push? then rest + [last.event] else rest
  }

  /** A push finds the queue full and makes it no shorter. */
  predicate Overflows(queue: seq<Event>, op: Op) {
    op.Push? && |Coalesced(queue, op.event)| > MAX_QUEUED_EVENTS
  }

  predicate NeverOverflows(p: Phone, ops: seq<Op>) {
    ops == []
    || (NeverOverflows(p, ops[..|ops| - 1]) && !Overflows(Run(p, ops[..|ops| - 1]).queue, ops[|ops| - 1]))
  }

  lemma {:induction false} QueueIsBounded(p: Phone, ops: seq<Op>)
    requires |p.queue| <= MAX_QUEUED_EVENTS
    ensures |Run(p, ops).queue| <= 512
  {
    if ops != [] {
      QueueIsBounded(p, ops[..|ops| - 1]);
    }
  }

  predicate IsDelta(event: Event) {
    event.Assistant? && !event.done
  }

  /** No delta waits right behind another one of its message. */
  predicate IsCoalesced(queue: seq<Event>) {
    forall i :: 0 < i < |queue| && IsDelta(queue[i - 1]) && IsDelta(queue[i]) ==> queue[i - 1].id != queue[i].id
  }

  lemma {:induction false} PushKeepsCoalesced(queue: seq<Event>, event: Event)
    requires IsCoalesced(queue)
    ensures IsCoalesced(Pushed(queue, event))
  {
  }

  /** A streaming reply takes one place in the queue, however many deltas it came in. */
  lemma {:induction false} StreamsTakeOnePlace(p: Phone, ops: seq<Op>)
    requires IsCoalesced(p.queue)
    ensures IsCoalesced(Run(p, ops).queue)
  {
    if ops != [] {
      var rest, op := ops[..|ops| - 1], ops[|ops| - 1];
      StreamsTakeOnePlace(p, rest);
      if op.Push? {
        hide IsCoalesced;
        PushKeepsCoalesced(Run(p, rest).queue, op.event);
      }
    }
  }

  function CoalescedAll(queue: seq<Event>, events: seq<Event>): seq<Event> {
    if events == [] then queue
    else Coalesced(CoalescedAll(queue, events[..|events| - 1]), events[|events| - 1])
  }

  function PushedAll(queue: seq<Event>, events: seq<Event>): seq<Event> {
    if events == [] then queue
    else Pushed(PushedAll(queue, events[..|events| - 1]), events[|events| - 1])
  }

  lemma {:induction false} CapFirstOrLast(queue: seq<Event>, event: Event)
    ensures Pushed(Capped(queue), event) == Capped(Coalesced(queue, event))
  {
    var capped, whole := Capped(queue), Coalesced(queue, event);
    assert Supersedes(capped, event) == Supersedes(queue, event);
    if |queue| > MAX_QUEUED_EVENTS {
      var dropped := |queue| - MAX_QUEUED_EVENTS;
      assert Coalesced(capped, event) == whole[dropped..];
    }
  }

  /** However many events are pushed between two polls, the queue holds the newest 512 of what
      it would hold without a cap: an overflow costs the oldest events and no others. */
  lemma {:induction false} OverflowCostsTheOldest(queue: seq<Event>, events: seq<Event>)
    requires |queue| <= MAX_QUEUED_EVENTS
    ensures PushedAll(queue, events) == Capped(CoalescedAll(queue, events))
  {
    if events != [] {
      var rest, last := events[..|events| - 1], events[|events| - 1];
      OverflowCostsTheOldest(queue, rest);
      CapFirstOrLast(CoalescedAll(queue, rest), last);
    }
  }

  /** While nothing overflows, what the frontend will see is what it would see if it folded
      every event, whenever it polls. */
  lemma {:induction false} CoalescedQueueShowsEverything(p: Phone, ops: seq<Op>)
    requires NeverOverflows(p, ops)
    ensures var after := Run(p, ops);
      AppliedAll(after.view, after.queue) == AppliedAll(AppliedAll(p.view, p.queue), EventsOf(ops))
  {
    if ops != [] {
      var rest, op := ops[..|ops| - 1], ops[|ops| - 1];
      CoalescedQueueShowsEverything(p, rest);
      var before, told := Run(p, rest), EventsOf(rest);
      if op.Push? {
        CoalescingIsInvisible(before.view, before.queue, op.event);
        assert (told + [op.event])[..|told|] == told;
      }
    }
  }
}
