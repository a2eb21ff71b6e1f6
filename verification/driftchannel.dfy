/** The bounded channel between coordinator and worker, under every interleaving of the
    coordinator's sends and the worker's receives. */
module DriftChannel {
  import opened Types

  // unsent: what the coordinator has still to send, in order. blocked: it has found the
  // buffer full and waits in the second select.
  datatype Channel = Channel(
    capacity: nat,
    unsent: seq<Uid>,
    blocked: bool,
    buffer: seq<Uid>,
    received: seq<Uid>,
    dropped: seq<Uid>,
    shutdown: bool,
    overflows: nat)

  datatype Move = Send | Overflow | Unblock | Drop | Receive | Shutdown

  predicate CanMove(c: Channel, m: Move) {
    match m
    case Send => c.unsent != [] && !c.blocked && |c.buffer| < c.capacity
    case Overflow => c.unsent != [] && !c.blocked && |c.buffer| >= c.capacity
    case Unblock => c.unsent != [] && c.blocked && |c.buffer| < c.capacity
    case Drop => c.unsent != [] && c.blocked && c.shutdown
    case Receive => c.buffer != []
    case Shutdown => !c.shutdown
  }

  function Make(c: Channel, m: Move): Channel
    requires CanMove(c, m)
  {
    match m
    case Send => c.(buffer := c.buffer + [c.unsent[0]], unsent := c.unsent[1..])
    case Overflow => c.(blocked := true, overflows := c.overflows + 1)
    case Unblock => c.(buffer := c.buffer + [c.unsent[0]], unsent := c.unsent[1..], blocked := false)
    case Drop => c.(dropped := c.dropped + [c.unsent[0]], unsent := c.unsent[1..], blocked := false)
    case Receive => c.(received := c.received + [c.buffer[0]], buffer := c.buffer[1..])
    case Shutdown => c.(shutdown := true)
  }

  function Open(capacity: nat, events: seq<Uid>): Channel {
    Channel(capacity, events, false, [], [], [], false, 0)
  }

  predicate CanRun(c: Channel, moves: seq<Move>)
    decreases moves
  {
    moves == [] || (CanMove(c, moves[0]) && CanRun(Make(c, moves[0]), moves[1..]))
  }

  function Run(c: Channel, moves: seq<Move>): Channel
    requires CanRun(c, moves)
    decreases moves
  {
    if moves == [] then c else Run(Make(c, moves[0]), moves[1..])
  }

  // Everything on its way, oldest first.
  function InOrder(c: Channel): seq<Uid> {
    c.received + c.buffer + c.unsent
  }

  // a is b with some elements left out.
  predicate Subsequence(a: seq<Uid>, b: seq<Uid>)
    decreases b
  {
    || a == []
    || (b != [] && ((a[0] == b[0] && Subsequence(a[1..], b[1..])) || Subsequence(a, b[1..])))
  }

  lemma {:induction false} SubsequenceReflexive(a: seq<Uid>)
    ensures Subsequence(a, a)
  {
    if a != [] {
      SubsequenceReflexive(a[1..]);
    }
  }

  lemma {:induction false} LeaveOneOut(a: seq<Uid>, e: Uid, b: seq<Uid>)
    ensures Subsequence(a + b, a + [e] + b)
  {
    var whole := a + [e] + b;
    if a == [] {
      SubsequenceReflexive(b);
      assert whole[1..] == b && a + b == b;
    } else {
      LeaveOneOut(a[1..], e, b);
      assert whole[1..] == a[1..] + [e] + b && (a + b)[1..] == a[1..] + b;
    }
  }

  lemma {:induction false} SubsequenceTransitive(a: seq<Uid>, b: seq<Uid>, c: seq<Uid>)
    requires Subsequence(a, b) && Subsequence(b, c)
    ensures Subsequence(a, c)
    decreases c
  {
    if a != [] {
      if b[0] == c[0] && Subsequence(b[1..], c[1..]) {
        if a[0] == b[0] && Subsequence(a[1..], b[1..]) {
          SubsequenceTransitive(a[1..], b[1..], c[1..]);
        } else {
          SubsequenceTransitive(a, b[1..], c[1..]);
        }
      } else {
        SubsequenceTransitive(a, b, c[1..]);
      }
    }
  }

  // What every move keeps, for the events the coordinator set out to send.
  ghost predicate Faithful(c: Channel, events: seq<Uid>) {
    && |c.buffer| <= c.capacity
    && (!c.shutdown ==> InOrder(c) == events && c.dropped == [])
    && Subsequence(InOrder(c), events)
    && multiset(InOrder(c)) + multiset(c.dropped) == multiset(events)
  }

  // Every move but a drop leaves the order as it is; a drop takes the next unsent event out.
  lemma MoveKeepsOrder(c: Channel, m: Move)
    requires CanMove(c, m)
    ensures m != Drop ==> InOrder(Make(c, m)) == InOrder(c)
    ensures m == Drop ==>
              var before, e, rest := c.received + c.buffer, c.unsent[0], c.unsent[1..];
              InOrder(c) == before + [e] + rest && InOrder(Make(c, m)) == before + rest
  {
  }

  lemma MoveKeepsFaithful(c: Channel, m: Move, events: seq<Uid>)
    requires Faithful(c, events) && CanMove(c, m)
    ensures Faithful(Make(c, m), events)
  {
    MoveKeepsOrder(c, m);
    if m == Drop {
      LeaveOneOut(c.received + c.buffer, c.unsent[0], c.unsent[1..]);
      SubsequenceTransitive(InOrder(Make(c, m)), InOrder(c), events);
    }
  }

  /** Under every interleaving the buffer stays within its capacity, and until shutdown the
      received events, then the buffered, then the unsent ones are exactly the events in
      order. After a shutdown events can be lost, but none is duplicated or overtaken. */
  lemma {:induction false} ChannelIsFaithful(c: Channel, moves: seq<Move>, events: seq<Uid>)
    requires Faithful(c, events) && CanRun(c, moves)
    ensures Faithful(Run(c, moves), events)
    decreases moves
  {
    if moves != [] {
      MoveKeepsFaithful(c, moves[0], events);
      ChannelIsFaithful(Make(c, moves[0]), moves[1..], events);
    }
  }

  lemma OpenIsFaithful(capacity: nat, events: seq<Uid>)
    ensures Faithful(Open(capacity, events), events)
  {
    SubsequenceReflexive(events);
    assert InOrder(Open(capacity, events)) == events;
  }

  // The moves that an event still needs: overflow, unblock or send, and receive.
  function Remaining(c: Channel): nat {
    3 * |c.unsent| + |c.buffer| - (if c.blocked && c.unsent != [] then 1 else 0) + (if c.shutdown then 0 else 1)
  }

  /** Coordinator and worker cannot keep each other waiting: every move uses up one of
      finitely many, and when neither can move all events have been received. */
  lemma NoStandstill(c: Channel, m: Move, events: seq<Uid>)
    requires Faithful(c, events) && c.capacity > 0
    ensures CanMove(c, m) ==> Remaining(Make(c, m)) < Remaining(c)
    ensures !c.shutdown && (forall n: Move :: CanMove(c, n) ==> n.Shutdown?) ==> c.received == events
  {
    if !c.shutdown && forall n: Move :: CanMove(c, n) ==> n.Shutdown? {
      assert !CanMove(c, Receive) && !CanMove(c, Send) && !CanMove(c, Overflow) && !CanMove(c, Unblock);
      assert c.buffer == [] && c.unsent == [];
      assert InOrder(c) == c.received;
    }
  }
}
