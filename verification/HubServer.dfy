/** The hub and its connections as the objects the server shares: each method is one lock-protected region, proved
    against the value functions the hub protocol and the connection protocol are built from. */
module HubServer {
  import opened Core
  import Hub
  import Connection

  datatype Message = ServerSync(doc: DocId, op: Op) | Reply

  class Conn {
    var subs: map<DocId, SessionId>
    var send: seq<Message>
    var open: bool

    constructor ()
      ensures subs == map[] && send == [] && open
    {
      subs, send, open := map[], [], true;
    }

    method Close()
      modifies this`open
      ensures !open
    {
      open := false;
    }

    /** Queues a message without ever blocking; reports the error of a full queue, which closes the connection. */
    method EnqueueErr(m: Message, take: bool) returns (err: bool)
      requires |send| <= Connection.SEND_QUEUE_SIZE
      modifies this`send, this`open
      ensures (send, open) == Connection.Offer(old(send), old(open), m, take)
      ensures err <==> old(open) && !open
      ensures old(open) ==> if |old(send)| < Connection.SEND_QUEUE_SIZE then send == old(send) + [m] && open
                            else send == old(send) && !open
      ensures !old(open) ==> !open && (send == old(send) || (take && send == old(send) + [m]))
      ensures |send| <= Connection.SEND_QUEUE_SIZE
    {
      if |send| < Connection.SEND_QUEUE_SIZE && (open || take) {
        send := send + [m];
        return false;
      }
      err := open;
      Close();
    }

    function SessionFor(d: DocId): SessionId
      reads this
    {
      if d in subs then subs[d] else ""
    }

    /** The first region of a subscribe. */
    method RecordSubscribe(d: DocId, session: SessionId)
      modifies this`subs
      ensures subs == old(subs)[d := session]
    {
      subs := subs[d := session];
    }

    /** The first region of a sync: the session is recorded only where none is. */
    method RecordSync(d: DocId, session: SessionId)
      modifies this`subs
      ensures subs == if d in old(subs) then old(subs) else old(subs)[d := session]
    {
      if d !in subs { subs := subs[d := session]; }
    }
  }

  class HubObject {
    var docs: map<DocId, set<Conn>>
    var active: int

    /** The requests that hold a slot and are not served yet, and the connections being served. */
    ghost var reserved: nat
    ghost var serving: set<Conn>

    /** Every slot is held by a request or a connection, no stored set is empty, and a subscriber is being served and
        has the document recorded. */
    ghost predicate Valid()
      reads this, serving
    {
      && active == reserved + |serving|
      && (forall d :: d in docs ==> docs[d] != {})
      && (forall d, c :: d in docs && c in docs[d] ==> c in serving && d in c.subs)
    }

    constructor ()
      ensures Valid() && docs == map[] && reserved == 0 && serving == {}
    {
      docs, active := map[], 0;
      reserved, serving := 0, {};
    }

    /** Reserves a slot below the maximum; without a maximum, always. */
    method TryRegister(max: int) returns (granted: bool)
      requires Valid()
      modifies this`active, this`reserved
      ensures Valid()
      ensures granted <==> max <= 0 || old(reserved) + |serving| < max
      ensures reserved == old(reserved) + if granted then 1 else 0
    {
      if max > 0 && active >= max { return false; }
      active := active + 1;
      reserved := reserved + 1;
      return true;
    }

    /** A request that failed before it was served returns its own slot, so the guard never matters. */
    method Release()
      requires Valid() && reserved > 0
      modifies this`active, this`reserved
      ensures Valid() && reserved == old(reserved) - 1
    {
      if active > 0 { active := active - 1; }
      reserved := reserved - 1;
    }

    /** The request's slot passes to its new connection. */
    method Serve(c: Conn)
      requires Valid() && reserved > 0 && c !in serving
      modifies this`reserved, this`serving
      ensures Valid() && reserved == old(reserved) - 1 && serving == old(serving) + {c}
    {
      reserved, serving := reserved - 1, serving + {c};
    }

    /** Enters the connection into the document's set; reports whether it is the first. */
    method Subscribe(d: DocId, c: Conn) returns (first: bool)
      requires Valid() && c in serving && d in c.subs
      modifies this`docs
      ensures Valid() && docs == Hub.Added(old(docs), d, c)
      ensures first <==> d !in old(docs)
    {
      first := d !in docs;
      if first { docs := docs[d := {}]; }
      docs := docs[d := docs[d] + {c}];
      assert docs == Hub.Added(old(docs), d, c);
    }

    /** The first two regions of a subscribe: the session is recorded before the set is entered. */
    method HandleSubscribe(c: Conn, d: DocId, session: SessionId) returns (first: bool)
      requires Valid() && c in serving
      modifies this`docs, c`subs
      ensures Valid() && docs == Hub.Added(old(docs), d, c) && c.subs == old(c.subs)[d := session]
      ensures c in Hub.Subscribers(docs, d) && c.SessionFor(d) == session
      ensures first <==> d !in old(docs)
    {
      c.RecordSubscribe(d, session);
      first := Subscribe(d, c);
    }

    /** The first region of a sync records a session where none is, and enters no set. */
    method HandleSync(c: Conn, d: DocId, session: SessionId)
      requires Valid() && c in serving
      modifies c`subs
      ensures Valid() && d in c.subs
      ensures c.SessionFor(d) == if d in old(c.subs) then old(c.SessionFor(d)) else session
    {
      c.RecordSync(d, session);
    }

    /** Removes the connection from every document it has recorded, drops the sets that become empty, and reports the
        emptied documents. */
    method LeaveAll(c: Conn) returns (emptied: set<DocId>)
      modifies this`docs
      ensures docs == Hub.Removed(old(docs), c.subs.Keys, c)
      ensures emptied == Hub.Emptied(old(docs), c.subs.Keys, c)
    {
      emptied := {};
      ghost var done: set<DocId> := {};
      var todo := c.subs.Keys;
      while todo != {}
        invariant done !! todo && done + todo == c.subs.Keys
        invariant docs == Hub.Removed(old(docs), done, c)
        invariant emptied == Hub.Emptied(old(docs), done, c)
        decreases todo
      {
        var d :| d in todo;
        LeaveOne(old(docs), done, c, d);
        if d in docs {
          docs := docs[d := docs[d] - {c}];
          if docs[d] == {} {
            docs := docs - {d};
            emptied := emptied + {d};
          }
        }
        todo, done := todo - {d}, done + {d};
      }
      assert done == c.subs.Keys;
    }

    /** Takes the connection out of the hub and gives its slot back. Afterwards it is in no set. */
    method Deregister(c: Conn) returns (emptied: set<DocId>)
      requires Valid() && c in serving
      modifies this
      ensures Valid() && serving == old(serving) - {c} && reserved == old(reserved)
      ensures forall d :: c !in Hub.Subscribers(docs, d)
      ensures docs == Hub.Removed(old(docs), c.subs.Keys, c)
      ensures emptied == Hub.Emptied(old(docs), c.subs.Keys, c)
    {
      emptied := LeaveAll(c);
      if active > 0 { active := active - 1; }
      serving := serving - {c};
      forall d, x | x in Hub.Subscribers(docs, d)
        ensures x != c && d in old(docs) && x in old(docs)[d]
      {
        Hub.RemovedMembers(old(docs), c.subs.Keys, c, d, x);
      }
      assert forall d, x :: d in docs && x in docs[d] ==> x in Hub.Subscribers(docs, d);
    }

    /** Hands a committed op to every subscriber of the document except the session that authored it. `take` decides
        for each closed connection. Nobody else is touched. */
    method Broadcast(d: DocId, except: SessionId, m: Message, take: Conn -> bool)
      requires Valid() && forall c :: c in Hub.Subscribers(docs, d) ==> |c.send| <= Connection.SEND_QUEUE_SIZE
      modifies Hub.Subscribers(docs, d)
      ensures Valid() && docs == old(docs)
      ensures forall c :: c in Hub.Subscribers(docs, d) ==>
                c.subs == old(c.subs) &&
                (c.send, c.open) == if old(c.SessionFor(d)) == except then old((c.send, c.open))
                                    else Connection.Offer(old(c.send), old(c.open), m, take(c))
      ensures forall c :: c in Hub.Subscribers(docs, d) ==> |c.send| <= Connection.SEND_QUEUE_SIZE
    {
      var targets := Hub.Subscribers(docs, d);
      var todo := targets;
      while todo != {}
        invariant todo <= targets
        invariant docs == old(docs) && active == old(active)
        invariant forall c :: c in todo ==> c.subs == old(c.subs) && c.send == old(c.send) && c.open == old(c.open)
        invariant forall c :: c in targets - todo ==>
                    c.subs == old(c.subs) &&
                    (c.send, c.open) == if old(c.SessionFor(d)) == except then old((c.send, c.open))
                                        else Connection.Offer(old(c.send), old(c.open), m, take(c))
        decreases todo
      {
        var c :| c in todo;
        if c.SessionFor(d) != except {
          var _ := c.EnqueueErr(m, take(c));
        }
        todo := todo - {c};
      }
    }
  }

  /** Leaving one more document. */
  lemma LeaveOne<C>(docs: map<DocId, set<C>>, done: set<DocId>, c: C, d: DocId)
    requires d !in done
    ensures var now := Hub.Removed(docs, done, c);
            && (d in now <==> d in docs)
            && (d in docs ==> now[d] == docs[d])
            && Hub.Removed(docs, done + {d}, c) ==
               (if d !in now then now else if now[d] - {c} == {} then now - {d} else now[d := now[d] - {c}])
            && Hub.Emptied(docs, done + {d}, c) ==
               Hub.Emptied(docs, done, c) + if d in now && now[d] - {c} == {} then {d} else {}
  {
  }
}
