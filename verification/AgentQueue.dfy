/** The queues of steering and follow-up messages. */
module AgentQueue {
  import opened AgentProtocol

  class PendingMessageQueue {
    var messages: seq<Message>
    var mode: QueueMode
    /** Everything that was enqueued and not cleared, and what was drained of it. */
    ghost var kept: seq<Message>
    ghost var taken: seq<Message>

    ghost predicate Valid()
      reads this
    {
      kept == taken + messages
    }

    ghost function Contents(): Queue
      reads this
    {
      Queue(messages, mode)
    }

    constructor (mode: QueueMode)
      ensures Valid() && messages == [] && kept == [] && this.mode == mode
    {
      this.mode := mode;
      messages, kept, taken := [], [], [];
    }

    method Enqueue(message: Message)
      requires Valid()
      modifies this
      ensures Valid() && messages == old(messages) + [message] && kept == old(kept) + [message]
      ensures taken == old(taken) && mode == old(mode)
    {
      messages := messages + [message];
      kept := kept + [message];
    }

    method SetMode(mode: QueueMode)
      requires Valid()
      modifies this`mode
      ensures Valid() && this.mode == mode && Contents() == Queue(old(messages), mode)
    {
      this.mode := mode;
    }

    method HasItems() returns (has: bool)
      ensures has <==> messages != []
    {
      has := |messages| > 0;
    }

    /** Takes everything, or the first message only: nothing only when there is nothing. */
    method Drain() returns (drained: seq<Message>)
      requires Valid()
      modifies this
      ensures Valid() && drained + messages == old(messages)
      ensures taken == old(taken) + drained && kept == old(kept) && mode == old(mode)
      ensures drained == [] <==> old(messages) == []
      ensures mode == All ==> messages == []
      ensures mode == OneAtATime ==> drained == if old(messages) == [] then [] else [old(messages)[0]]
    {
      if mode == All {
        drained := messages;
        messages := [];
      } else if messages == [] {
        drained := [];
      } else {
        drained := [messages[0]];
        messages := messages[1..];
      }
      taken := taken + drained;
    }

    method Clear()
      requires Valid()
      modifies this
      ensures Valid() && messages == [] && kept == taken == old(taken) && mode == old(mode)
    {
      messages := [];
      kept := taken;
    }
  }
}
