/** The unbounded channels between threads, and the handle events are raised through. */
module Channels {
  import opened Protocol

  /** The sending side of a channel: everything sent so far, in order. */
  class Channel<T> {
    var items: seq<T>

    constructor ()
      ensures items == []
    {
      items := [];
    }

    method Send(item: T)
      modifies this
      ensures items == old(items) + [item]
    {
      items := items + [item];
    }
  }

  class EventHandler {
    const dispatcher: Channel<ManagerCmd>

    constructor (dispatcher: Channel<ManagerCmd>)
      ensures this.dispatcher == dispatcher
    {
      this.dispatcher := dispatcher;
    }

    method RaiseEvent(serverId: UnitId, event: ServerEvent)
      modifies dispatcher
      ensures dispatcher.items == old(dispatcher.items) + [Raise(serverId, event)]
    {
      dispatcher.Send(DispatchEvent(serverId, event));
    }
  }
}
