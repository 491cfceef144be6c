/** A gRPC server stream: the messages the server sends, and how many the client has received. */
module Streams {
  import opened CoreTypes

  class Stream<T> {
    /** Everything the server sends, in order, before closing the stream. */
    const items: seq<Received<T>>
    /** The number of Recv calls made so far. */
    var received: nat

    constructor (items: seq<Received<T>>)
      ensures this.items == items && received == 0
    {
      this.items := items;
      received := 0;
    }

    /** Receives the next message; past the last one every Recv reports end of stream. */
    method Recv() returns (r: Received<T>)
      modifies this
      ensures r == RecvAt(items, old(received))
      ensures received == old(received) + 1
    {
      r := RecvAt(items, received);
      received := received + 1;
    }
  }
}
