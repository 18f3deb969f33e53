/** A GLib event source over an xcb connection (src/pd_xcb_source.c).

    The source owns a FIFO of events. The main loop drives it through four hooks:
    Prepare reports whether events are already queued, Check drains everything xcb has
    buffered onto the tail of the queue when the descriptor is readable, Dispatch pops
    one event and hands it to the registered callback, and Finalise releases what is
    left. Event records are opaque to the source, so the event type is a parameter. */
module XcbSource {
  import opened Wrappers

  /** The GIOCondition bit meaning "there is data to read". */
  const G_IO_IN: bv16 := 1

  /** A GPollFD: the descriptor, the conditions polled for, and the conditions the
      main loop found after polling. */
  datatype PollFD = PollFD(fd: int, events: bv16, revents: bv16)

  predicate Readable(p: PollFD)
  {
    p.revents & G_IO_IN != 0
  }

  /** The part of an xcb connection that the source relies on: the events xcb can hand
      out without blocking, and the connection's error status (0 means no error). */
  class Connection<Ev> {
    const fd: int
    var pending: seq<Ev>
    var error: int

    constructor (fd: int, pending: seq<Ev>, error: int)
      ensures this.fd == fd && this.pending == pending && this.error == error
    {
      this.fd := fd;
      this.pending := pending;
      this.error := error;
    }

    /** xcb_connection_has_error. */
    method HasError() returns (status: int)
      ensures status == error
    {
      status := error;
    }

    /** xcb_poll_for_event: the next buffered event, or None when nothing is buffered. */
    method PollForEvent() returns (event: Option<Ev>)
      modifies this`pending
      ensures old(pending) == [] ==> event == None && pending == []
      ensures old(pending) != [] ==> event == Some(old(pending)[0]) && pending == old(pending)[1..]
    {
      if pending == [] {
        event := None;
      } else {
        event := Some(pending[0]);
        pending := pending[1..];
      }
    }
  }

  /** The source. `queue` is the FIFO the C code keeps in a GQueue; `callback` and
      `userData` are what g_source_set_callback registered; `refCount` is the GSource
      reference count.

      The ghost histories give the delivery guarantees: `arrived` is every event ever
      moved from the connection onto the queue, in order; `delivered` is every event
      handed to the callback; `released` is every event whose memory has been freed. */
  class PDXcbSource<Ev, U> {
    const connection: Connection<Ev>
    const callback: (Option<Ev>, U) -> bool
    const userData: U
    var fd: PollFD  // revents is written by the main loop's poll step, see Poll
    var queue: seq<Ev>
    var refCount: nat

    ghost var arrived: seq<Ev>
    ghost var delivered: seq<Ev>
    ghost var released: seq<Ev>
    ghost var finalised: bool

    /** Every event that arrived is either still queued or released, never both and
        never twice, and in arrival order. Until the source is finalised the released
        events are exactly those delivered to the callback, so successive dispatches
        deliver events in exactly the order Check enqueued them, each exactly once;
        once finalised the queue is empty and the events never delivered were
        released with it. */
    ghost predicate Owned()
      reads this
    {
      arrived == released + queue &&
      if finalised then queue == [] && delivered <= released else delivered == released
    }

    /** The ownership invariant, and GLib's rule that a source is finalised exactly
        when its last reference has gone. */
    ghost predicate Valid()
      reads this
    {
      Owned() && (finalised <==> refCount == 0)
    }

    /** g_source_new plus the field initialisation of pd_xcb_source_new: an empty queue,
        polling the connection's descriptor for G_IO_IN. The reference count is 2: one
        reference for the caller and one held by the main context the source is
        attached to. */
    constructor (connection: Connection<Ev>, callback: (Option<Ev>, U) -> bool, userData: U)
      ensures Valid()
      ensures this.connection == connection && this.callback == callback && this.userData == userData
      ensures fd == PollFD(connection.fd, G_IO_IN, 0)
      ensures queue == [] && arrived == [] && delivered == [] && released == []
      ensures refCount == 2 && !finalised
    {
      this.connection := connection;
      this.callback := callback;
      this.userData := userData;
      fd := PollFD(connection.fd, G_IO_IN, 0);
      queue := [];
      refCount := 2;
      arrived, delivered, released := [], [], [];
      finalised := false;
    }

    /** The main loop's poll step: it records in `fd.revents` the conditions it found
        on the descriptor added with g_source_add_poll, before calling Check. */
    method Poll(revents: bv16)
      modifies this`fd
      ensures fd == old(fd).(revents := revents)
    {
      fd := fd.(revents := revents);
    }

    /** _pd_xcb_source_prepare: ready exactly when events are already queued; no
        timeout is requested. */
    method Prepare() returns (ready: bool, timeout: int)
      requires Valid() && !finalised
      ensures ready <==> queue != []
      ensures timeout == -1
    {
      timeout := -1;
      ready := queue != [];
    }

    /** _pd_xcb_source_check. When the descriptor is not readable nothing is read. When
        it is readable and the connection is healthy, every buffered event is moved, in
        arrival order, behind those already queued. When it is readable and the
        connection has failed, nothing is drained and the source reports ready anyway. */
    method Check() returns (ready: bool)
      requires Valid() && !finalised
      modifies this`queue, this`arrived, connection`pending
      ensures Valid()
      ensures !Readable(fd) ==>
        queue == old(queue) && connection.pending == old(connection.pending) &&
        (ready <==> queue != [])
      ensures Readable(fd) && connection.error != 0 ==>
        queue == old(queue) && connection.pending == old(connection.pending) && ready
      ensures Readable(fd) && connection.error == 0 ==>
        queue == old(queue) + old(connection.pending) && connection.pending == [] &&
        arrived == old(arrived) + old(connection.pending) &&
        (ready <==> queue != [])
    {
      if fd.revents & G_IO_IN != 0 {
        var status := connection.HasError();
        if status != 0 {
          // the check() macro logs and jumps to the error label
          return true;
        }
        ghost var q0, p0 := queue, connection.pending;
        ghost var k := 0;
        var event := connection.PollForEvent();
        while event.Some?
          invariant 0 <= k <= |p0|
          invariant queue == q0 + p0[..k] && arrived == old(arrived) + p0[..k]
          invariant event.Some? ==> k < |p0| && event.value == p0[k] && connection.pending == p0[k + 1..]
          invariant event.None? ==> k == |p0| && connection.pending == []
          decreases |p0| - k
        {
          assert p0[..k + 1] == p0[..k] + [event.value];
          queue := queue + [event.value];
          arrived := arrived + [event.value];
          k := k + 1;
          event := connection.PollForEvent();
        }
        assert p0[..k] == p0;
      }
      ready := queue != [];
    }

    /** _pd_xcb_source_dispatch: pops the head of the queue (None when the queue is
        empty, as g_queue_pop_head returns NULL), calls the callback once with it and
        the user data, frees the event and returns the callback's answer. */
    method Dispatch() returns (ret: bool, ghost event: Option<Ev>)
      requires Valid() && !finalised
      modifies this`queue, this`delivered, this`released
      ensures Valid()
      ensures old(queue) == [] ==>
        event == None && queue == [] && delivered == old(delivered) && released == old(released)
      ensures old(queue) != [] ==>
        event == Some(old(queue)[0]) && queue == old(queue)[1..] &&
        delivered == old(delivered) + [old(queue)[0]] && released == old(released) + [old(queue)[0]]
      ensures ret == callback(event, userData)
    {
      var popped: Option<Ev> := None;
      if queue != [] {
        popped := Some(queue[0]);
        queue := queue[1..];
      }
      ret := callback(popped, userData);
      if popped.Some? {
        delivered := delivered + [popped.value];
        released := released + [popped.value];
      }
      event := popped;
    }

    /** _pd_xcb_source_finalise: frees every event still queued, in queue order, and
        then the queue itself; afterwards the source owns no event. */
    method Finalise()
      requires Owned() && !finalised && refCount == 0
      modifies this`queue, this`released, this`finalised
      ensures Valid() && finalised
      ensures released == old(released) + old(queue)
      ensures queue == [] && released == arrived
    {
      var i := 0;
      while i < |queue|
        invariant 0 <= i <= |queue|
        invariant queue == old(queue)
        invariant released == old(released) + queue[..i]
      {
        released := released + [queue[i]];
        i := i + 1;
      }
      assert queue[..i] == queue;
      queue := [];
      finalised := true;
      assert released + queue == released;
    }
  }

  /** pd_xcb_source_new: no source without a callback; otherwise a fresh source with an
      empty queue, polling the connection's descriptor for G_IO_IN, whose callback and
      user data are those given. */
  method New<Ev, U>(connection: Connection<Ev>, callback: Option<(Option<Ev>, U) -> bool>, userData: U)
    returns (source: PDXcbSource?<Ev, U>)
    ensures callback.None? <==> source == null
    ensures source != null ==>
      fresh(source) && source.Valid() && source.queue == [] && source.delivered == [] &&
      source.arrived == [] && source.released == [] && source.refCount == 2 &&
      source.connection == connection && source.callback == callback.value &&
      source.userData == userData && source.fd == PollFD(connection.fd, G_IO_IN, 0) &&
      !source.finalised
  {
    if callback.None? {
      return null;
    }
    source := new PDXcbSource(connection, callback.value, userData);
  }

  /** pd_xcb_source_ref: takes one more reference; does nothing on NULL. */
  method Ref<Ev, U>(source: PDXcbSource?<Ev, U>)
    requires source != null ==> source.Valid() && !source.finalised
    modifies source
    ensures source != null ==>
      source.Valid() && !source.finalised && source.refCount == old(source.refCount) + 1 &&
      source.queue == old(source.queue) && source.released == old(source.released) &&
      source.delivered == old(source.delivered) && source.arrived == old(source.arrived) &&
      source.fd == old(source.fd)
  {
    if source == null {
      return;
    }
    source.refCount := source.refCount + 1;
  }

  /** pd_xcb_source_unref: drops one reference, finalising the source when the last one
      goes; does nothing on NULL. */
  method Unref<Ev, U>(source: PDXcbSource?<Ev, U>)
    requires source != null ==> source.Valid() && !source.finalised
    modifies source
    ensures source != null ==>
      source.Valid() && source.refCount == old(source.refCount) - 1 &&
      (source.finalised <==> source.refCount == 0) &&
      source.delivered == old(source.delivered) && source.arrived == old(source.arrived) &&
      source.fd == old(source.fd) &&
      if source.refCount == 0 then source.queue == [] && source.released == source.arrived
      else source.queue == old(source.queue) && source.released == old(source.released)
  {
    if source == null {
      return;
    }
    source.refCount := source.refCount - 1;
    if source.refCount == 0 {
      source.Finalise();
    }
  }
}
