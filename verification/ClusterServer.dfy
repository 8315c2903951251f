/** A cluster node as an object: what it hands to its local hub, what it publishes, and which channels it listens on. */
module ClusterServer {
  import opened Core
  import opened Cluster
  import opened HubServer
  import Hub
  import Connection

  datatype Local = Local(doc: DocId, op: Op)

  /** What the receive loop hands to the hub: of the messages that decode, those another node sent. */
  function Admitted(name: NodeName, messages: seq<Option<Wire>>): seq<Local> {
    if messages == [] then []
    else
      var m := messages[|messages| - 1];
      Admitted(name, messages[..|messages| - 1])
      + if m.Some? && m.value.origin != name then [Local(m.value.doc, m.value.op)] else []
  }

  class NodeObject {
    const id: NodeName
    var handed: seq<Local>
    var published: seq<Wire>
    var channels: set<DocId>

    constructor (id: NodeName)
      ensures this.id == id && handed == [] && published == [] && channels == {}
    {
      this.id := id;
      handed, published, channels := [], [], {};
    }

    /** Local delivery first, then one publish under the node's own id; a failing bus loses only the publish. */
    method Broadcast(d: DocId, op: Op, busFails: bool)
      modifies this`handed, this`published
      ensures handed == old(handed) + [Local(d, op)]
      ensures published == old(published) + if busFails then [] else [Wire(id, d, op)]
    {
      handed := handed + [Local(d, op)];
      if busFails { return; }
      published := published + [Wire(id, d, op)];
    }

    /** Consumes a stretch of the bus's messages; None is one that does not decode. Nothing is published. */
    method ReceiveLoop(messages: seq<Option<Wire>>)
      modifies this`handed
      ensures handed == old(handed) + Admitted(id, messages)
    {
      for i := 0 to |messages|
        invariant handed == old(handed) + Admitted(id, messages[..i])
      {
        assert messages[..i + 1][..i] == messages[..i];
        if messages[i].None? { continue; }
        var w := messages[i].value;
        if w.origin == id { continue; }
        handed := handed + [Local(w.doc, w.op)];
      }
      assert messages[..|messages|] == messages;
    }

    method OnDocActive(d: DocId, busFails: bool)
      modifies this`channels
      ensures channels == if busFails then old(channels) else old(channels) + {d}
    {
      if !busFails { channels := channels + {d}; }
    }

    method OnDocInactive(d: DocId, busFails: bool)
      modifies this`channels
      ensures channels == if busFails then old(channels) else old(channels) - {d}
    {
      if !busFails { channels := channels - {d}; }
    }
  }

  // ----- the loop against the protocol ----------------------------------------------------------------------------

  /** The protocol's receive step, until the inbox is empty. */
  function Drained(name: NodeName, node: Node): Node
    requires |node.inbox| == |node.inboxPlaces|
    decreases |node.inbox|
  {
    if node.inbox == [] then node else Drained(name, Taken(name, node))
  }

  function Locals(ws: seq<Wire>): seq<Local> {
    seq(|ws|, i requires 0 <= i < |ws| => Local(ws[i].doc, ws[i].op))
  }

  function AsMessages(ws: seq<Wire>): seq<Option<Wire>> {
    seq(|ws|, i requires 0 <= i < |ws| => Some(ws[i]))
  }

  lemma {:induction false} AdmittedConcat(name: NodeName, a: seq<Option<Wire>>, b: seq<Option<Wire>>)
    ensures Admitted(name, a + b) == Admitted(name, a) + Admitted(name, b)
    decreases |b|
  {
    if b == [] {
      assert a + b == a;
    } else {
      AdmittedConcat(name, a, b[..|b| - 1]);
      assert (a + b)[..|a + b| - 1] == a + b[..|b| - 1];
    }
  }

  /** One receive step hands the hub its message, or nothing. */
  lemma TakenHands(name: NodeName, node: Node)
    requires |node.inbox| == |node.inboxPlaces| && node.inbox != []
    ensures Locals(Taken(name, node).remote) == Locals(node.remote) + Admitted(name, [Some(node.inbox[0])])
  {
    var m: Option<Wire> := Some(node.inbox[0]);
    assert [m][..0] == [];
    assert Admitted(name, [m]) == if m.value.origin != name then [Local(m.value.doc, m.value.op)] else [];
  }

  /** The loop hands the hub what repeating the protocol's step hands it, in the same order. */
  lemma {:induction false} LoopIsRepeatedReceive(name: NodeName, node: Node)
    requires |node.inbox| == |node.inboxPlaces|
    ensures Locals(Drained(name, node).remote) == Locals(node.remote) + Admitted(name, AsMessages(node.inbox))
    decreases |node.inbox|
  {
    if node.inbox == [] {
      assert AsMessages(node.inbox) == [];
    } else {
      var next, first := Taken(name, node), [Some(node.inbox[0])];
      var rest := AsMessages(next.inbox);
      LoopIsRepeatedReceive(name, next);
      TakenHands(name, node);
      AdmittedConcat(name, first, rest);
      MessagesSplit(node.inbox);
      assert Drained(name, node) == Drained(name, next) && next.inbox == node.inbox[1..];
      Associative(Locals(node.remote), Admitted(name, first), Admitted(name, rest));
    }
  }

  lemma MessagesSplit(ws: seq<Wire>)
    requires ws != []
    ensures AsMessages(ws) == [Some(ws[0])] + AsMessages(ws[1..])
  {
  }

  lemma Associative(a: seq<Local>, b: seq<Local>, c: seq<Local>)
    ensures a + (b + c) == a + b + c
  {
  }

  // ----- from the bus to the subscribers --------------------------------------------------------------------------

  /** The messages that concern a connection: those of documents whose subscriber it is, not authored under the session
      it has recorded for the document. */
  ghost function Reaching(docs: map<DocId, set<Conn>>, c: Conn, subs: map<DocId, SessionId>,
                          ms: seq<Local>): seq<Message> {
    if ms == [] then []
    else
      var m := ms[|ms| - 1];
      Reaching(docs, c, subs, ms[..|ms| - 1])
      + if c in Hub.Subscribers(docs, m.doc) && Recorded(subs, m.doc) != m.op.session then [ServerSync(m.doc, m.op)]
        else []
  }

  ghost function Recorded(subs: map<DocId, SessionId>, d: DocId): SessionId {
    if d in subs then subs[d] else ""
  }

  lemma ReachingConcat(docs: map<DocId, set<Conn>>, c: Conn, subs: map<DocId, SessionId>, a: seq<Local>, b: seq<Local>)
    requires |b| <= 1
    ensures Reaching(docs, c, subs, a + b) == Reaching(docs, c, subs, a) + Reaching(docs, c, subs, b)
  {
    if b == [] {
      assert a + b == a;
    } else {
      assert (a + b)[..|a|] == a && b[..0] == [];
      assert Reaching(docs, c, subs, []) == [];
    }
  }

  lemma AdmittedOneMore(name: NodeName, messages: seq<Option<Wire>>, i: nat)
    requires i < |messages|
    ensures var m := messages[i];
            Admitted(name, messages[..i + 1])
            == Admitted(name, messages[..i])
               + if m.Some? && m.value.origin != name then [Local(m.value.doc, m.value.op)] else []
  {
    assert messages[..i + 1][..i] == messages[..i];
  }

  lemma ReachingOne(docs: map<DocId, set<Conn>>, c: Conn, subs: map<DocId, SessionId>, m: Local)
    ensures Reaching(docs, c, subs, [m])
            == if c in Hub.Subscribers(docs, m.doc) && Recorded(subs, m.doc) != m.op.session
              then [ServerSync(m.doc, m.op)] else []
  {
    assert [m][..0] == [];
  }

  ghost predicate Bounded(hub: HubObject)
    reads hub, hub.serving
  {
    forall c :: c in hub.serving ==> |c.send| <= Connection.SEND_QUEUE_SIZE
  }

  /** One message, handed to the hub. */
  method Deliver(hub: HubObject, m: Local, take: Conn -> bool)
    requires hub.Valid() && Bounded(hub)
    modifies hub.serving
    ensures hub.Valid() && Bounded(hub) && forall c :: c in hub.serving ==> c.subs == old(c.subs)
    ensures forall c :: c in hub.serving && c.open ==>
              old(c.open) && c.send == old(c.send) + Reaching(hub.docs, c, c.subs, [m])
  {
    assert Hub.Subscribers(hub.docs, m.doc) <= hub.serving;
    hub.Broadcast(m.doc, m.op.session, ServerSync(m.doc, m.op), take);
    forall c | c in hub.serving && c.open
      ensures old(c.open) && c.send == old(c.send) + Reaching(hub.docs, c, c.subs, [m])
    {
      ReachingOne(hub.docs, c, c.subs, m);
    }
  }

  /** What is still open has been queued, after what it had in `start`, the messages that concern it. */
  ghost predicate Queued(hub: HubObject, start: map<Conn, seq<Message>>, ms: seq<Local>)
    reads hub, hub.serving
  {
    forall c :: c in hub.serving && c.open ==> c in start && c.send == start[c] + Reaching(hub.docs, c, c.subs, ms)
  }

  /** One more message. */
  method DeliverNext(hub: HubObject, m: Local, take: Conn -> bool,
                     ghost start: map<Conn, seq<Message>>, ghost ms: seq<Local>)
    requires hub.Valid() && Bounded(hub) && Queued(hub, start, ms)
    modifies hub.serving
    ensures hub.Valid() && Bounded(hub) && forall c :: c in hub.serving ==> c.subs == old(c.subs)
    ensures Queued(hub, start, ms + [m])
  {
    Deliver(hub, m, take);
    forall c | c in hub.serving && c.open
      ensures c in start && c.send == start[c] + Reaching(hub.docs, c, c.subs, ms + [m])
    {
      var r1, r2 := Reaching(hub.docs, c, c.subs, ms), Reaching(hub.docs, c, c.subs, [m]);
      ReachingConcat(hub.docs, c, c.subs, ms, [m]);
      assert start[c] + r1 + r2 == start[c] + (r1 + r2);
    }
  }

  /** The receive loop feeding the node's hub, over a stretch of the bus's messages during which nobody subscribes or
      leaves: every connection that is still open at the end has been queued, in order and once each, exactly the
      messages of other nodes that concern it. */
  method ReceiveInto(hub: HubObject, name: NodeName, messages: seq<Option<Wire>>, take: Conn -> bool)
    requires hub.Valid() && Bounded(hub)
    modifies hub.serving
    ensures hub.Valid() && Bounded(hub) && forall c :: c in hub.serving ==> c.subs == old(c.subs)
    ensures forall c :: c in hub.serving && c.open ==>
              old(c.open) && c.send == old(c.send) + Reaching(hub.docs, c, c.subs, Admitted(name, messages))
  {
    ghost var start := map c | c in hub.serving && c.open :: c.send;
    for i := 0 to |messages|
      invariant hub.Valid() && Bounded(hub) && forall c :: c in hub.serving ==> c.subs == old(c.subs)
      invariant Queued(hub, start, Admitted(name, messages[..i]))
    {
      AdmittedOneMore(name, messages, i);
      ghost var sofar := Admitted(name, messages[..i]);
      if messages[i].Some? && messages[i].value.origin != name {
        DeliverNext(hub, Local(messages[i].value.doc, messages[i].value.op), take, start, sofar);
      } else {
        assert sofar + [] == sofar;
      }
    }
    assert messages[..|messages|] == messages;
  }
}
