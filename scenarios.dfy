/** Runs of several coordinator steps, stated as what the caller can rely on. */
module Scenarios {
  import opened Coordinator
  import Launch

  /** A join followed directly by its leave restores the roster and the
      history; each other member sees exactly the join notice, then the leave
      notice, and the two differ whatever the name; the visitor got the full
      history and ends up closed. */
  method JoinThenLeave(s: Server, c: Client)
    requires s.Valid()
    requires !c.closed && c.conn !in s.clients
    modifies s, c, s.clients.Values
    ensures s.Valid()
    ensures s.clients == old(s.clients) && s.history == old(s.history)
    ensures c.closed && c.queue == old(c.queue) + old(s.history)
    ensures forall k :: k in s.clients ==>
      s.clients[k].queue == old(s.clients[k].queue) + [JoinNotice(c.name), LeaveNotice(c.name)]
    ensures JoinNotice(c.name) != LeaveNotice(c.name)
  {
    NoticesDiffer(c.name, c.name);
    s.HandleJoin(c);
    assert s.clients - {c.conn} == old(s.clients);
    s.HandleLeave(c);
  }

  /** Reporting the same departure twice sends the leave notice at most once:
      the second report finds the connection gone and changes nothing. */
  method LeaveTwice(s: Server, c: Client)
    requires s.Valid()
    requires c.conn in s.clients ==> !c.closed
    modifies s, c, s.clients.Values
    ensures s.Valid()
    ensures s.clients == old(s.clients) - {c.conn} && s.history == old(s.history)
    ensures forall k :: k in s.clients ==>
      s.clients[k].queue == old(s.clients[k].queue) + (if c.conn in old(s.clients) then [LeaveNotice(c.name)] else [])
  {
    s.HandleLeave(c);
    s.HandleLeave(c);
  }

  /** A joins and says something; B joins afterwards. B receives A's message
      from the history and no notice about itself; A receives its own message,
      then B's join notice. */
  method LateJoinerSeesHistory(a: Client, b: Client, said: string)
    requires !a.closed && !b.closed && a.queue == [] && b.queue == []
    requires a.conn != b.conn
    modifies a, b
    ensures a.queue == [said, JoinNotice(b.name)]
    ensures b.queue == [said]
  {
    var s := new Server();
    s.HandleJoin(a);
    s.HandleMessage(said);
    s.HandleJoin(b);
  }

  /** A roster holding two clients under distinct connections has two entries. */
  lemma TwoEntries(m: map<ConnId, Client>, a: Client, b: Client)
    requires a.conn != b.conn && m == map[a.conn := a, b.conn := b]
    ensures |m| == 2
  {
  }

  /** With a limit of two and A and B connected, a third connection is refused
      with the fixed reply; a message from A reaches both A and B; when B
      leaves, A alone is told and B is gone from the roster. */
  method CapacityOfTwo(a: Client, b: Client, said: string) returns (third: Launch.Admission)
    requires !a.closed && !b.closed && a.queue == [] && b.queue == []
    requires a.conn != b.conn
    modifies a, b
    ensures third == Launch.Reject(Launch.ChatFullReply)
    ensures a.queue == [JoinNotice(b.name), said, LeaveNotice(b.name)]
    ensures b.queue == [said] && b.closed
  {
    var s := new Server();
    s.HandleJoin(a);
    assert s.history == [] && b.queue == [];
    s.HandleJoin(b);
    assert s.clients == map[a.conn := a, b.conn := b];
    TwoEntries(s.clients, a, b);
    third := Launch.AdmitConnection(s, 2);
    SayThenLeave(s, a, b, said);
  }

  /** The second half of CapacityOfTwo: A speaks, then B leaves. */
  method SayThenLeave(s: Server, a: Client, b: Client, said: string)
    requires s.Valid() && s.clients == map[a.conn := a, b.conn := b] && a.conn != b.conn
    modifies s, a, b
    ensures s.clients == map[a.conn := a]
    ensures a.queue == old(a.queue) + [said, LeaveNotice(b.name)]
    ensures b.queue == old(b.queue) + [said] && b.closed
  {
    s.HandleMessage(said);
    assert s.clients[a.conn] == a && s.clients[b.conn] == b;
    assert a.queue == old(a.queue) + [said] && b.queue == old(b.queue) + [said];
    s.HandleLeave(b);
    assert s.clients == map[a.conn := a];
    assert s.clients[a.conn] == a;
  }
}
