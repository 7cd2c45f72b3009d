/** The session coordinator: the roster of connected clients, the message
    history, and the three handlers that the event loop applies one at a time. */
module Coordinator {

  /** An opaque handle to a client's transport connection. */
  type ConnId = nat

  /** The notice the other members receive when `name` joins. */
  function JoinNotice(name: string): string {
    name + " has joined our chat...\n"
  }

  /** The notice the remaining members receive when `name` leaves. */
  function LeaveNotice(name: string): string {
    name + " has left our chat...\n"
  }

  /** A join notice can never be mistaken for a leave notice, whatever the names. */
  lemma NoticesDiffer(joiner: string, leaver: string)
    ensures JoinNotice(joiner) != LeaveNotice(leaver)
  {
    // both end in " our chat...\n" (13 characters), preceded by 'd' of "joined" or 't' of "left"
    var j, l := JoinNotice(joiner), LeaveNotice(leaver);
    assert j[|j| - 14] == 'd';
    assert l[|l| - 14] == 't';
  }

  /** A connected client: its connection, its display name, and its outbound
      queue, which stands in for the channel its writer drains. */
  class Client {
    const conn: ConnId
    const name: string
    var queue: seq<string>
    var closed: bool

    /** A client with a fresh, open, empty queue. */
    constructor (conn: ConnId, name: string)
      ensures this.conn == conn && this.name == name
      ensures queue == [] && !closed
    {
      this.conn := conn;
      this.name := name;
      queue := [];
      closed := false;
    }

    /** Enqueues one message; sending on a closed channel is not allowed. */
    method Send(msg: string)
      requires !closed
      modifies this
      ensures queue == old(queue) + [msg] && !closed
    {
      queue := queue + [msg];
    }

    /** Closes the queue; closing it twice is not allowed. */
    method Close()
      requires !closed
      modifies this
      ensures closed && queue == old(queue)
    {
      closed := true;
    }
  }

  /** The three kinds of event the coordinator consumes. */
  datatype Event = Join(client: Client) | Leave(client: Client) | Message(text: string)

  class Server {
    var clients: map<ConnId, Client>
    var history: seq<string>

    /** The roster is keyed by connection, and every member's queue is open. */
    ghost predicate Valid()
      reads this, clients.Values
    {
      forall k :: k in clients ==> clients[k].conn == k && !clients[k].closed
    }

    /** The state after handleJoin(c): `c` is filed under its connection, the
        history is unchanged and replayed in full onto `c`'s queue, and every
        other member's queue receives exactly one join notice. */
    twostate predicate Joined(c: Client)
      reads this, c, clients.Values
    {
      && clients == old(clients)[c.conn := c]
      && history == old(history)
      && c.queue == old(c.queue) + old(history)
      && forall k :: k in clients && k != c.conn ==>
           clients[k].queue == old(clients[k].queue) + [JoinNotice(c.name)]
    }

    /** The state after handleLeave(c). For an unknown connection nothing
        changes; otherwise the entry is removed, `c`'s queue is closed, and
        every remaining member's queue receives exactly one leave notice. */
    twostate predicate Left(c: Client)
      reads this, c, clients.Values
    {
      && history == old(history)
      && c.queue == old(c.queue)
      && if c.conn in old(clients) then
           && clients == old(clients) - {c.conn}
           && c.closed
           && forall k :: k in clients ==>
                clients[k].queue == old(clients[k].queue) + [LeaveNotice(c.name)]
         else
           && clients == old(clients)
           && c.closed == old(c.closed)
           && forall k :: k in clients ==> clients[k].queue == old(clients[k].queue)
    }

    /** The state after handleMessage(msg): the roster is unchanged, `msg` is
        appended once to the history and once to every member's queue. */
    twostate predicate Broadcast(msg: string)
      reads this, clients.Values
    {
      && clients == old(clients)
      && history == old(history) + [msg]
      && forall k :: k in clients ==> clients[k].queue == old(clients[k].queue) + [msg]
    }

    /** NewServer: an empty roster and an empty history. */
    constructor ()
      ensures Valid()
      ensures clients == map[] && history == []
    {
      clients := map[];
      history := [];
    }

    /** clientCount: the number of roster entries; nothing changes. */
    method ClientCount() returns (n: nat)
      ensures n == |clients.Keys|
    {
      n := |clients|;
    }

    /** Enqueues `msg` onto every member's queue except `skip`'s, visiting the
        members in an unspecified order as a Go map range does. */
    method Fanout(msg: string, skip: Client?)
      requires Valid()
      modifies clients.Values
      ensures Valid()
      ensures forall k :: k in clients ==>
        clients[k].queue == old(clients[k].queue) + (if clients[k] == skip then [] else [msg])
    {
      var todo := clients.Keys;
      while todo != {}
        invariant todo <= clients.Keys
        invariant Valid()
        invariant forall k :: k in clients ==>
          clients[k].queue == old(clients[k].queue) + (if k in todo || clients[k] == skip then [] else [msg])
        decreases todo
      {
        var k :| k in todo;
        var member := clients[k];
        if member != skip {
          member.Send(msg);
        }
        todo := todo - {k};
      }
    }

    /** handleJoin: file `c` under its connection, replay the history onto its
        queue in order, then send the join notice to everyone else. */
    method HandleJoin(c: Client)
      requires Valid()
      requires !c.closed
      modifies this, c, (clients - {c.conn}).Values
      ensures Valid()
      ensures Joined(c)
    {
      ghost var others := (clients - {c.conn}).Values;
      clients := clients[c.conn := c];
      forall cl | cl in clients.Values ensures cl in others || cl == c {
        var k :| k in clients && clients[k] == cl;
        if k != c.conn {
          assert k in old(clients) - {c.conn};
        }
      }
      var i := 0;
      while i < |history|
        invariant 0 <= i <= |history|
        invariant c.queue == old(c.queue) + history[..i]
        invariant !c.closed
        modifies c
      {
        c.Send(history[i]);
        i := i + 1;
      }
      assert history[..i] == history;
      Fanout(JoinNotice(c.name), c);
    }

    /** handleLeave: a no-op for an unknown connection; otherwise remove the
        entry, close `c`'s queue, and send the leave notice to the rest. */
    method HandleLeave(c: Client)
      requires Valid()
      requires c.conn in clients ==> !c.closed
      modifies this, c, (clients - {c.conn}).Values
      ensures Valid()
      ensures Left(c)
      ensures c !in clients.Values
    {
      if c.conn !in clients {
        return;
      }
      clients := clients - {c.conn};
      assert c !in clients.Values;
      c.Close();
      Fanout(LeaveNotice(c.name), null);
    }

    /** handleMessage: append `msg` to the history and send it to every
        member, the sender included. */
    method HandleMessage(msg: string)
      requires Valid()
      modifies this, clients.Values
      ensures Valid()
      ensures Broadcast(msg)
    {
      history := history + [msg];
      Fanout(msg, null);
    }

    /** What an event needs so that its handler neither sends on nor closes a
        closed queue. */
    predicate Ready(e: Event)
      reads this, if e.Message? then {} else {e.client}
    {
      match e
      case Join(c) => !c.closed
      case Leave(c) => c.conn in clients ==> !c.closed
      case Message(_) => true
    }

    /** One iteration of Run: exactly one event, dispatched to its handler. */
    method Run(e: Event)
      requires Valid() && Ready(e)
      modifies this, if e.Message? then clients.Values else (clients - {e.client.conn}).Values + {e.client}
      ensures Valid()
      ensures match e
        case Join(c) => Joined(c)
        case Leave(c) => Left(c)
        case Message(msg) => Broadcast(msg)
    {
      match e
      case Join(c) => HandleJoin(c);
      case Leave(c) => HandleLeave(c);
      case Message(msg) => HandleMessage(msg);
    }
  }
}
