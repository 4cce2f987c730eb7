/** The publisher of the relay: one confirming channel kept across publications, and the returns
    of unroutable messages it has buffered. */
module Publisher {
  import opened Common
  import Broker
  import Pipeline
  import PipelineTheorems

  datatype Confirm = Acked | Nacked | Never

  /** What the wire and the broker do to one publication: whether the body can be encoded, whether
      the channel kept from last time was closed meanwhile and a new one can be opened, whether the
      channel closes after that check but before the returns are drained, whether the send reports
      an error, whether the broker takes the message all the same, whether a queue matched it, and
      which confirm comes back in time. */
  datatype Wire = Wire(
    encodes: bool, closed: bool, opens: bool, closesLate: bool,
    sends: bool, takes: bool, routed: bool, confirm: Confirm)

  /** The broker acknowledges only what it took responsibility for. */
  predicate Honest(w: Wire) { w.confirm.Acked? ==> w.takes }

  /** `Hangs` stands for a call that never returns. */
  datatype Result = Published | Permanent | NoChannel | Hangs | NotSent | NotConfirmed | NotRouted(blamed: EventId)

  predicate HasChannel(w: Wire, kept: bool) { (kept && !w.closed) || w.opens }

  // ---- Draining the return channel --------------------------------------------------------------

  /** The channel of returns: what it buffers, and whether the client library closed it together
      with the AMQP channel. */
  datatype Returns = Returns(buffered: seq<EventId>, closed: bool)

  /** One turn of the draining loop: `None` when nothing can be received and the loop ends. A closed
      channel can always be received from. */
  function Receive(ch: Returns): Option<Returns> {
    if ch.buffered != [] then Some(ch.(buffered := ch.buffered[1..]))
    else if ch.closed then Some(ch)
    else None
  }

  /** The loop has ended within `n` turns. */
  predicate EndsWithin(ch: Returns, n: nat)
    decreases n
  {
    n > 0 && (Receive(ch).None? || EndsWithin(Receive(ch).value, n - 1))
  }

  lemma {:induction false} ClosedNeverEnds(ch: Returns, n: nat)
    requires ch.closed
    ensures !EndsWithin(ch, n)
    decreases n
  {
    if n > 0 { ClosedNeverEnds(Receive(ch).value, n - 1); }
  }

  lemma {:induction false} OpenEnds(ch: Returns)
    requires !ch.closed
    ensures EndsWithin(ch, |ch.buffered| + 1)
    decreases |ch.buffered|
  {
    if ch.buffered != [] { OpenEnds(Receive(ch).value); }
  }

  ghost predicate Ends(ch: Returns) { exists n :: EndsWithin(ch, n) }

  /** Draining comes to an end exactly when the channel has not been closed: on a closed one the
      loop never reaches its default branch. */
  lemma DrainEndsIff(ch: Returns)
    ensures Ends(ch) <==> !ch.closed
  {
    if ch.closed {
      forall n ensures !EndsWithin(ch, n) { ClosedNeverEnds(ch, n); }
    } else {
      OpenEnds(ch);
    }
  }

  class Publisher {
    var open: bool
    var returned: seq<EventId>
    var queue: multiset<EventId>  // the main queue, as the broker holds it

    /** The buffer of the return channel has room for a single return. */
    predicate Rep()
      reads this
    {
      |returned| <= 1 && (!open ==> returned == [])
    }

    constructor ()
      ensures Rep() && !open && queue == multiset{}
    {
      open, returned, queue := false, [], multiset{};
    }

    method EnsureChannel(w: Wire) returns (ok: bool)
      requires Rep()
      modifies this`open, this`returned
      ensures Rep() && (ok <==> HasChannel(w, old(open))) && open == ok
    {
      if open && !w.closed { return true; }
      open, returned, ok := w.opens, [], w.opens;
    }

    /** drainReturns on a channel that is still open; `DrainEndsIff` says why it has to be. */
    method DrainReturns()
      requires Rep()
      modifies this`returned
      ensures Rep() && returned == []
    {
      while returned != []
        invariant Rep()
        decreases |returned|
      {
        returned := returned[1..];
      }
    }

    /** The broker's side of a publication: the copy, and the return that precedes the confirm. */
    method Transmit(message: EventId, w: Wire)
      requires Rep() && open && returned == []
      modifies this`returned, this`queue
      ensures Rep()
      ensures queue == if w.takes && w.routed then old(queue) + multiset{message} else old(queue)
      ensures returned == if w.takes && !w.routed then [message] else []
    {
      if w.takes && w.routed { queue := queue + multiset{message}; }
      if w.takes && !w.routed { returned := [message]; }
    }

    /** Publish: succeeds exactly when the broker confirmed this message and did not return it; no
        return of an earlier message is ever blamed on it. */
    method Publish(message: EventId, w: Wire) returns (r: Result)
      requires Rep() && Honest(w)
      modifies this
      ensures Rep()
      ensures var sent := w.encodes && ((old(open) && !w.closed) || w.opens) && !w.closesLate;
              && queue == (if sent && w.takes && w.routed then old(queue) + multiset{message} else old(queue))
              && (r.Published? <==> sent && w.sends && w.routed && w.confirm.Acked?)
              && (r.NotRouted? <==> sent && w.sends && !w.routed && w.confirm.Acked?)
              && (r.NotConfirmed? <==> sent && w.sends && !w.confirm.Acked?)
              && (r.NotSent? <==> sent && !w.sends)
      ensures r.Permanent? <==> !w.encodes
      ensures r.NoChannel? <==> w.encodes && !w.opens && (w.closed || !old(open))
      ensures r.Hangs? <==> w.encodes && ((old(open) && !w.closed) || w.opens) && w.closesLate
      ensures r.NotRouted? ==> r.blamed == message
      // A channel whose confirms can no longer be matched is never used again, and any other is kept.
      ensures r.NoChannel? || r.NotSent? || (r.NotConfirmed? && w.confirm.Never?) ==> !open
      ensures r.Published? || r.NotRouted? || (r.NotConfirmed? && w.confirm.Nacked?) ==> open
      ensures r.Permanent? ==> open == old(open) && returned == old(returned)
    {
      if !w.encodes { return Permanent; }
      var ok := EnsureChannel(w);
      if !ok { return NoChannel; }
      if w.closesLate { return Hangs; }
      DrainReturns();
      Transmit(message, w);
      if !w.sends || w.confirm.Never? {
        open, returned := false, [];
        return if w.sends then NotConfirmed else NotSent;
      }
      if w.confirm.Nacked? { return NotConfirmed; }
      if returned != [] {
        r := NotRouted(returned[0]);
        returned := returned[1..];
        return;
      }
      return Published;
    }
  }

  /** A publication is a run of pipeline steps: the broker takes the copy when one reaches it, and
      the relay then holds a confirm exactly when `Publish` succeeded. A call that hangs leaves the
      relay where it was. */
  lemma PublishIsRun(c: Pipeline.Config, steps: seq<Pipeline.Step>, o: Owner, reaches: bool, r: Result)
    returns (longer: seq<Pipeline.Step>)
    requires Pipeline.Run(c, steps).Some?
    requires var relay := Pipeline.RelayOf(Pipeline.Run(c, steps).value, o);
             Pipeline.Publishing(relay) && relay.progress.Sending?
    requires (r.Published? ==> reaches) && (r.Permanent? || r.Hangs? ==> !reaches)
    ensures Pipeline.Run(c, longer).Some?
    ensures var s, after := Pipeline.Run(c, steps).value, Pipeline.Run(c, longer).value;
            && after.broker == (if reaches then Broker.Arrive(s.broker, s.relays[o].leases[0].event) else s.broker)
            && after.outbox == s.outbox && after.inbox == s.inbox
            && after.relays == (if r.Hangs? then s.relays else s.relays[o := s.relays[o].(progress :=
                 if r.Published? then Pipeline.Confirmed(s.now) else Pipeline.Refused(r.Permanent?, s.now))])
  {
    longer := steps;
    var s := Pipeline.Run(c, steps).value;
    if reaches {
      longer := PipelineTheorems.Extend(c, longer, Pipeline.Accept(o), s);
      s := Pipeline.Next(c, s, Pipeline.Accept(o));
    }
    if !r.Hangs? {
      var end := if r.Published? then Pipeline.Confirm(o) else Pipeline.Refuse(o, r.Permanent?);
      longer := PipelineTheorems.Extend(c, longer, end, s);
    }
  }
}
