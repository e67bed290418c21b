/** pygame's event queue: `pygame.event.post` and `pygame.event.get`. */
module EventQueue {
  import opened Events

  class Queue {
    /** Events posted and not yet taken, oldest first. */
    var pending: seq<RawEvent>

    constructor (initial: seq<RawEvent>)
      ensures pending == initial
    {
      pending := initial;
    }

    /** `pygame.event.post(e)`: appended behind everything already queued. */
    method Post(e: RawEvent)
      modifies this
      ensures pending == old(pending) + [e]
    {
      pending := pending + [e];
    }

    /** `pygame.event.get()`: every queued event, oldest first; the queue is emptied. */
    method Get() returns (events: seq<RawEvent>)
      modifies this
      ensures events == old(pending) && pending == []
    {
      events := pending;
      pending := [];
    }

    /** Events that arrive from outside (keys pressed, timer ticks). */
    method Arrive(events: seq<RawEvent>)
      modifies this
      ensures pending == old(pending) + events
    {
      pending := pending + events;
    }
  }
}
