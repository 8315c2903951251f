/** Fan-out between nodes. A committing node hands the op to its own hub and then publishes it on the document's
    channel; the bus delivers a published message at most once to each subscribed node, in publish order; a receiving
    node drops what carries its own id and hands the rest to its hub. A node that dies takes no further step, and a
    restarted one is a new node. */
module Cluster {
  import opened Core
  import opened Runs

  type NodeName = string

  datatype Wire = Wire(origin: NodeName, doc: DocId, op: Op)

  /** A broadcast in progress, under the document lock: committed, or handed to the local hub. */
  datatype Stage = Committed(op: Op) | HandedLocally(op: Op)

  /** An op and the node that committed it. */
  datatype Entry = Entry(op: Op, node: NodeId)

  /** A document is deleted and written again any number of times; each life numbers its ops from 1. */
  datatype Life = Life(doc: DocId, number: nat)

  /** A publish: which node, which life of which document, which op. What travels does not name the life. */
  datatype Posted = Posted(node: NodeId, life: Life, op: Op)

  /** An op a node handed to its own hub. */
  datatype Owned = Owned(life: Life, op: Op)

  /** `channels`: the documents it is subscribed to. `busy`: the broadcasts in progress. `inbox`: messages the bus has
      delivered. `own` and `remote`: what the node's hub was handed from this node and from the bus. The `places` say
      where a message stands in the bus's publish order. */
  datatype Node = Node(channels: set<DocId>, busy: map<Life, Stage>,
                       inbox: seq<Wire>, inboxPlaces: seq<nat>,
                       own: seq<Owned>, remote: seq<Wire>, remotePlaces: seq<nat>)

  /** `lives` counts how often each document was deleted. */
  datatype State = State(lives: map<DocId, nat>, logs: Logs, nodes: map<NodeId, Node>, published: seq<Posted>)

  const INIT := State(map[], map[], map[], [])

  datatype Action =
    | Start(n: NodeId)
    | Activate(n: NodeId, d: DocId)
    | Deactivate(n: NodeId, d: DocId)
    | Commit(n: NodeId, d: DocId, session: SessionId, payload: Bytes)
    | HandLocal(n: NodeId, l: Life)
    | Publish(n: NodeId, l: Life, reached: set<NodeId>)
    | Delete(d: DocId)
    | Receive(n: NodeId)

  type Logs = map<Life, seq<Entry>>

  function LogOf(logs: Logs, l: Life): seq<Entry> {
    if l in logs then logs[l] else []
  }

  /** The document's present life. */
  function Now(s: State, d: DocId): Life {
    Life(d, if d in s.lives then s.lives[d] else 0)
  }

  function Put(s: State, n: NodeId, node: Node): State {
    s.(nodes := s.nodes[n := node])
  }

  function CommitOp(s: State, n: NodeId, l: Life, session: SessionId, payload: Bytes): Option<State> {
    if n !in s.nodes || l in s.nodes[n].busy then None
    else
      var op := Op(|LogOf(s.logs, l)| + 1, session, payload);
      Some(Put(s, n, s.nodes[n].(busy := s.nodes[n].busy[l := Committed(op)])).(
             logs := s.logs[l := LogOf(s.logs, l) + [Entry(op, n)]]))
  }

  function HandOwn(s: State, n: NodeId, l: Life): Option<State> {
    if n !in s.nodes || l !in s.nodes[n].busy || !s.nodes[n].busy[l].Committed? then None
    else
      var node := s.nodes[n];
      var op := node.busy[l].op;
      Some(Put(s, n, node.(busy := node.busy[l := HandedLocally(op)], own := node.own + [Owned(l, op)])))
  }

  function Delivered(node: Node, w: Wire, place: nat): Node {
    node.(inbox := node.inbox + [w], inboxPlaces := node.inboxPlaces + [place])
  }

  function WireOf(ids: NodeId -> NodeName, p: Posted): Wire {
    Wire(ids(p.node), p.life.doc, p.op)
  }

  /** `reached` are the subscribed nodes the bus delivers to; a failed publish reaches nobody. */
  function PublishOp(ids: NodeId -> NodeName, s: State, n: NodeId, l: Life, reached: set<NodeId>): Option<State> {
    if n !in s.nodes || l !in s.nodes[n].busy || !s.nodes[n].busy[l].HandedLocally? then None
    else if !(forall m :: m in reached ==> m in s.nodes && l.doc in s.nodes[m].channels) then None
    else
      var p := Posted(n, l, s.nodes[n].busy[l].op);
      var done := s.nodes[n := s.nodes[n].(busy := s.nodes[n].busy - {l})];
      Some(s.(published := s.published + [p],
              nodes := map m | m in done ::
                         if m in reached then Delivered(done[m], WireOf(ids, p), |s.published|) else done[m]))
  }

  /** The receive loop takes a message; one with the node's own id is the echo of its own publish. */
  function Taken(name: NodeName, node: Node): Node
    requires |node.inbox| > 0 && |node.inboxPlaces| > 0
  {
    var rest := node.(inbox := node.inbox[1..], inboxPlaces := node.inboxPlaces[1..]);
    if node.inbox[0].origin == name then rest
    else rest.(remote := node.remote + [node.inbox[0]], remotePlaces := node.remotePlaces + [node.inboxPlaces[0]])
  }

  function ReceiveNext(ids: NodeId -> NodeName, s: State, n: NodeId): Option<State> {
    if n !in s.nodes || |s.nodes[n].inbox| == 0 || |s.nodes[n].inboxPlaces| == 0 then None
    else Some(Put(s, n, Taken(ids(n), s.nodes[n])))
  }

  function Step(ids: NodeId -> NodeName, s: State, a: Action): Option<State> {
    match a
    case Start(n) => if n in s.nodes then None else Some(Put(s, n, Node({}, map[], [], [], [], [], [])))
    case Activate(n, d) =>
      if n in s.nodes then Some(Put(s, n, s.nodes[n].(channels := s.nodes[n].channels + {d}))) else None
    case Deactivate(n, d) =>
      if n in s.nodes then Some(Put(s, n, s.nodes[n].(channels := s.nodes[n].channels - {d}))) else None
    case Commit(n, d, session, payload) => CommitOp(s, n, Now(s, d), session, payload)
    case HandLocal(n, l) => HandOwn(s, n, l)
    case Publish(n, l, reached) => PublishOp(ids, s, n, l, reached)
    case Delete(d) => Some(s.(lives := s.lives[d := Now(s, d).number + 1]))
    case Receive(n) => ReceiveNext(ids, s, n)
  }

  function Steps(ids: NodeId -> NodeName): (State, Action) -> Option<State> {
    (s, a) => Step(ids, s, a)
  }

  // ----- the invariant -------------------------------------------------------------------------------------------

  /** The entry at the op's number is this op, committed by node n. */
  ghost predicate LoggedBy(logs: Logs, l: Life, op: Op, n: NodeId) {
    1 <= op.seqNo <= |LogOf(logs, l)| && LogOf(logs, l)[op.seqNo - 1] == Entry(op, n)
  }

  /** Every publish is of a logged op by its committer, and one node's publishes of one document ascend. */
  ghost predicate PublishedOk(logs: Logs, pub: seq<Posted>) {
    && (forall i :: 0 <= i < |pub| ==> LoggedBy(logs, pub[i].life, pub[i].op, pub[i].node))
    && (forall i, j :: 0 <= i < j < |pub| && pub[i].life == pub[j].life && pub[i].node == pub[j].node
                       ==> pub[i].op.seqNo < pub[j].op.seqNo)
  }

  /** A broadcast in progress is of this node's op, above everything it has published for the document. */
  ghost predicate BusyOk(logs: Logs, pub: seq<Posted>, n: NodeId, node: Node) {
    && (forall l :: l in node.busy ==> LoggedBy(logs, l, node.busy[l].op, n))
    && (forall l, i :: l in node.busy && 0 <= i < |pub| && pub[i].life == l && pub[i].node == n
                       ==> pub[i].op.seqNo < node.busy[l].op.seqNo)
  }

  /** What came over the bus is a subsequence of what was published: increasing places, the hub's before the inbox's. */
  ghost predicate BusOk(ids: NodeId -> NodeName, pub: seq<Posted>, node: Node) {
    && |node.inbox| == |node.inboxPlaces| && |node.remote| == |node.remotePlaces|
    && (forall i :: 0 <= i < |node.inbox| ==>
                      node.inboxPlaces[i] < |pub| && node.inbox[i] == WireOf(ids, pub[node.inboxPlaces[i]]))
    && (forall i :: 0 <= i < |node.remote| ==>
                      node.remotePlaces[i] < |pub| && node.remote[i] == WireOf(ids, pub[node.remotePlaces[i]]))
    && (forall i, j :: 0 <= i < j < |node.inbox| ==> node.inboxPlaces[i] < node.inboxPlaces[j])
    && (forall i, j :: 0 <= i < j < |node.remote| ==> node.remotePlaces[i] < node.remotePlaces[j])
    && (forall i, j :: 0 <= i < |node.remote| && 0 <= j < |node.inbox| ==> node.remotePlaces[i] < node.inboxPlaces[j])
  }

  ghost predicate Foreign(ids: NodeId -> NodeName, n: NodeId, node: Node) {
    forall i :: 0 <= i < |node.remote| ==> node.remote[i].origin != ids(n)
  }

  /** What the node handed its own hub: its own entries, ascending per document. */
  ghost predicate OwnOk(logs: Logs, n: NodeId, node: Node) {
    && (forall i :: 0 <= i < |node.own| ==> LoggedBy(logs, node.own[i].life, node.own[i].op, n))
    && (forall i, j :: 0 <= i < j < |node.own| && node.own[i].life == node.own[j].life
                       ==> node.own[i].op.seqNo < node.own[j].op.seqNo)
    && (forall i, l :: 0 <= i < |node.own| && l in node.busy && node.busy[l].Committed? && node.own[i].life == l
                       ==> node.own[i].op.seqNo < node.busy[l].op.seqNo)
  }

  ghost predicate AtHub(node: Node, l: Life, op: Op) {
    Owned(l, op) in node.own || (l in node.busy && node.busy[l] == Committed(op))
  }

  /** None of the node's entries is missing at its hub, except one it is about to hand over. */
  ghost predicate AllOwn(logs: Logs, n: NodeId, node: Node) {
    forall l, op :: LoggedBy(logs, l, op, n) ==> AtHub(node, l, op)
  }

  ghost predicate NodeOk(ids: NodeId -> NodeName, logs: Logs, pub: seq<Posted>, n: NodeId, node: Node) {
    BusyOk(logs, pub, n, node) && BusOk(ids, pub, node) && Foreign(ids, n, node) && OwnOk(logs, n, node)
      && AllOwn(logs, n, node)
  }

  ghost predicate LogsOk(s: State) {
    forall l, i :: 0 <= i < |LogOf(s.logs, l)| ==>
                     LogOf(s.logs, l)[i].op.seqNo == i + 1 && LogOf(s.logs, l)[i].node in s.nodes
  }

  ghost predicate Ok(ids: NodeId -> NodeName, s: State) {
    && LogsOk(s) && PublishedOk(s.logs, s.published)
    && forall n :: n in s.nodes ==> NodeOk(ids, s.logs, s.published, n, s.nodes[n])
  }

  /** A step that changes one node and neither logs nor publishes. */
  lemma PutKeepsOk(ids: NodeId -> NodeName, s: State, n: NodeId, node: Node)
    requires Ok(ids, s) && NodeOk(ids, s.logs, s.published, n, node)
    ensures Ok(ids, Put(s, n, node))
  {
  }

  lemma StartKeepsOk(ids: NodeId -> NodeName, s: State, n: NodeId)
    requires Ok(ids, s) && n !in s.nodes
    ensures Ok(ids, Put(s, n, Node({}, map[], [], [], [], [], [])))
  {
    PutKeepsOk(ids, s, n, Node({}, map[], [], [], [], [], []));
  }

  lemma TakenKeepsBus(ids: NodeId -> NodeName, pub: seq<Posted>, n: NodeId, node: Node)
    requires BusOk(ids, pub, node) && Foreign(ids, n, node) && |node.inbox| > 0
    ensures BusOk(ids, pub, Taken(ids(n), node)) && Foreign(ids, n, Taken(ids(n), node))
  {
  }

  lemma ReceiveKeepsOk(ids: NodeId -> NodeName, s: State, n: NodeId)
    requires Ok(ids, s) && ReceiveNext(ids, s, n).Some?
    ensures Ok(ids, ReceiveNext(ids, s, n).value)
  {
    TakenKeepsNode(ids, s.logs, s.published, n, s.nodes[n]);
    PutKeepsOk(ids, s, n, Taken(ids(n), s.nodes[n]));
  }

  lemma TakenKeepsNode(ids: NodeId -> NodeName, logs: Logs, pub: seq<Posted>, n: NodeId, node: Node)
    requires NodeOk(ids, logs, pub, n, node) && |node.inbox| > 0
    ensures NodeOk(ids, logs, pub, n, Taken(ids(n), node))
  {
    var node' := Taken(ids(n), node);
    TakenKeepsBus(ids, pub, n, node);
    assert node'.busy == node.busy && node'.own == node.own;
    forall l, op | LoggedBy(logs, l, op, n) ensures AtHub(node', l, op) { assert AtHub(node, l, op); }
  }

  lemma HandedKeepsOwn(logs: Logs, n: NodeId, node: Node, l: Life, node': Node)
    requires OwnOk(logs, n, node) && AllOwn(logs, n, node)
    requires l in node.busy && node.busy[l].Committed? && LoggedBy(logs, l, node.busy[l].op, n)
    requires node'
             == node.(busy := node.busy[l := HandedLocally(node.busy[l].op)],
                      own := node.own + [Owned(l, node.busy[l].op)])
    ensures OwnOk(logs, n, node') && AllOwn(logs, n, node')
  {
    forall e, op | LoggedBy(logs, e, op, n) ensures AtHub(node', e, op) {
      assert AtHub(node, e, op);
      if Owned(e, op) in node.own {
        var i :| 0 <= i < |node.own| && node.own[i] == Owned(e, op);
        assert node'.own[i] == Owned(e, op);
      } else if e == l {
        assert node'.own[|node.own|] == Owned(e, op);
      }
    }
  }

  lemma HandOwnKeepsOk(ids: NodeId -> NodeName, s: State, n: NodeId, l: Life)
    requires Ok(ids, s) && HandOwn(s, n, l).Some?
    ensures Ok(ids, HandOwn(s, n, l).value)
  {
    var node, node' := s.nodes[n], HandOwn(s, n, l).value.nodes[n];
    assert NodeOk(ids, s.logs, s.published, n, node);
    HandedKeepsBusy(s.logs, s.published, n, node, l, node');
    HandedKeepsOwn(s.logs, n, node, l, node');
    assert BusOk(ids, s.published, node') && Foreign(ids, n, node');
    PutKeepsOk(ids, s, n, node');
  }

  lemma HandedKeepsBusy(logs: Logs, pub: seq<Posted>, n: NodeId, node: Node, l: Life, node': Node)
    requires BusyOk(logs, pub, n, node) && l in node.busy
    requires node'
             == node.(busy := node.busy[l := HandedLocally(node.busy[l].op)],
                      own := node.own + [Owned(l, node.busy[l].op)])
    ensures BusyOk(logs, pub, n, node')
  {
  }

  /** A new entry at the end of a log leaves what was logged before. */
  lemma LoggedKept(logs: Logs, l: Life, e: Entry, x: Life, op: Op, n: NodeId)
    requires e.op.seqNo == |LogOf(logs, l)| + 1
    ensures LoggedBy(logs[l := LogOf(logs, l) + [e]], x, op, n)
            <==> LoggedBy(logs, x, op, n) || (x == l && e == Entry(op, n))
  {
  }

  /** The other nodes when a log grows by an entry of node n. */
  lemma CommitKeepsNode(ids: NodeId -> NodeName, logs: Logs, pub: seq<Posted>, l: Life, e: Entry, m: NodeId, node: Node)
    requires NodeOk(ids, logs, pub, m, node) && m != e.node && e.op.seqNo == |LogOf(logs, l)| + 1
    ensures NodeOk(ids, logs[l := LogOf(logs, l) + [e]], pub, m, node)
  {
    forall x, op ensures LoggedBy(logs[l := LogOf(logs, l) + [e]], x, op, m) <==> LoggedBy(logs, x, op, m) {
      LoggedKept(logs, l, e, x, op, m);
    }
  }

  /** The committing node itself. */
  lemma CommitKeepsSelf(logs: Logs, pub: seq<Posted>, n: NodeId, node: Node, l: Life, e: Entry, node': Node)
    requires BusyOk(logs, pub, n, node) && OwnOk(logs, n, node) && PublishedOk(logs, pub)
    requires l !in node.busy && e.node == n && e.op.seqNo == |LogOf(logs, l)| + 1
    requires node' == node.(busy := node.busy[l := Committed(e.op)])
    ensures BusyOk(logs[l := LogOf(logs, l) + [e]], pub, n, node') && OwnOk(logs[l := LogOf(logs, l) + [e]], n, node')
  {
    var logs' := logs[l := LogOf(logs, l) + [e]];
    forall x, op ensures LoggedBy(logs', x, op, n) <==> LoggedBy(logs, x, op, n) || (x == l && op == e.op) {
      LoggedKept(logs, l, e, x, op, n);
    }
  }

  lemma CommitKeepsAllOwn(logs: Logs, n: NodeId, node: Node, l: Life, e: Entry, node': Node)
    requires AllOwn(logs, n, node) && l !in node.busy && e.node == n && e.op.seqNo == |LogOf(logs, l)| + 1
    requires node' == node.(busy := node.busy[l := Committed(e.op)])
    ensures AllOwn(logs[l := LogOf(logs, l) + [e]], n, node')
  {
    forall x, op | LoggedBy(logs[l := LogOf(logs, l) + [e]], x, op, n) ensures AtHub(node', x, op) {
      LoggedKept(logs, l, e, x, op, n);
      if LoggedBy(logs, x, op, n) { assert AtHub(node, x, op); }
    }
  }

  lemma CommitKeepsPublished(logs: Logs, pub: seq<Posted>, l: Life, e: Entry)
    requires PublishedOk(logs, pub) && e.op.seqNo == |LogOf(logs, l)| + 1
    ensures PublishedOk(logs[l := LogOf(logs, l) + [e]], pub)
  {
    forall i | 0 <= i < |pub|
      ensures LoggedBy(logs[l := LogOf(logs, l) + [e]], pub[i].life, pub[i].op, pub[i].node)
    {
      LoggedKept(logs, l, e, pub[i].life, pub[i].op, pub[i].node);
    }
  }

  lemma CommitKeepsLogs(s: State, s': State, l: Life, e: Entry)
    requires LogsOk(s) && e.op.seqNo == |LogOf(s.logs, l)| + 1 && e.node in s.nodes
    requires s'.logs == s.logs[l := LogOf(s.logs, l) + [e]] && s'.nodes.Keys == s.nodes.Keys
    ensures LogsOk(s')
  {
    forall x, i | 0 <= i < |LogOf(s'.logs, x)|
      ensures LogOf(s'.logs, x)[i].op.seqNo == i + 1 && LogOf(s'.logs, x)[i].node in s'.nodes
    {
      assert i < |LogOf(s.logs, x)| ==> LogOf(s'.logs, x)[i] == LogOf(s.logs, x)[i];
    }
  }

  lemma CommitKeepsCommitter(ids: NodeId -> NodeName, logs: Logs, pub: seq<Posted>, n: NodeId, node: Node, l: Life,
                             e: Entry, node': Node)
    requires NodeOk(ids, logs, pub, n, node) && PublishedOk(logs, pub) && l !in node.busy
    requires e.node == n && e.op.seqNo == |LogOf(logs, l)| + 1
             && node' == node.(busy := node.busy[l := Committed(e.op)])
    ensures NodeOk(ids, logs[l := LogOf(logs, l) + [e]], pub, n, node')
  {
    CommitKeepsSelf(logs, pub, n, node, l, e, node');
    CommitKeepsAllOwn(logs, n, node, l, e, node');
    assert BusOk(ids, pub, node') && Foreign(ids, n, node');
  }

  lemma CommitKeepsOk(ids: NodeId -> NodeName, s: State, n: NodeId, l: Life, session: SessionId, payload: Bytes)
    requires Ok(ids, s) && CommitOp(s, n, l, session, payload).Some?
    ensures Ok(ids, CommitOp(s, n, l, session, payload).value)
  {
    var s' := CommitOp(s, n, l, session, payload).value;
    var e := Entry(Op(|LogOf(s.logs, l)| + 1, session, payload), n);
    CommitKeepsLogs(s, s', l, e);
    CommitKeepsPublished(s.logs, s.published, l, e);
    forall m | m in s'.nodes ensures NodeOk(ids, s'.logs, s'.published, m, s'.nodes[m]) {
      if m == n {
        CommitKeepsCommitter(ids, s.logs, s.published, n, s.nodes[n], l, e, s'.nodes[n]);
      } else {
        CommitKeepsNode(ids, s.logs, s.published, l, e, m, s.nodes[m]);
      }
    }
  }

  /** A node when another message p has been published and, if it was reached, delivered to it. */
  lemma PublishKeepsBus(ids: NodeId -> NodeName, pub: seq<Posted>, node: Node, p: Posted, reached: bool)
    requires BusOk(ids, pub, node)
    ensures BusOk(ids, pub + [p], if reached then Delivered(node, WireOf(ids, p), |pub|) else node)
  {
  }

  /** What does not concern the bus, on a node that has ended its broadcast on l or had none to end. */
  lemma PublishKeepsOwn(logs: Logs, pub: seq<Posted>, m: NodeId, node: Node, p: Posted, done: Node)
    requires BusyOk(logs, pub, m, node) && OwnOk(logs, m, node) && AllOwn(logs, m, node)
    requires if m == p.node
             then p.life in node.busy && node.busy[p.life].HandedLocally? && done == node.(busy := node.busy - {p.life})
             else done == node
    ensures BusyOk(logs, pub + [p], m, done) && OwnOk(logs, m, done) && AllOwn(logs, m, done)
  {
    forall x, op | LoggedBy(logs, x, op, m) ensures AtHub(done, x, op) {
      assert AtHub(node, x, op);
    }
  }

  lemma DeliveredKeepsOwn(logs: Logs, pub: seq<Posted>, m: NodeId, node: Node, w: Wire, place: nat)
    requires BusyOk(logs, pub, m, node) && OwnOk(logs, m, node) && AllOwn(logs, m, node)
    ensures BusyOk(logs, pub, m, Delivered(node, w, place)) && OwnOk(logs, m, Delivered(node, w, place))
    ensures AllOwn(logs, m, Delivered(node, w, place))
  {
    forall x, op | LoggedBy(logs, x, op, m) ensures AtHub(Delivered(node, w, place), x, op) {
      assert AtHub(node, x, op);
    }
  }

  lemma PublishKeepsNode(ids: NodeId -> NodeName, logs: Logs, pub: seq<Posted>, m: NodeId, node: Node, p: Posted,
                         done: Node, reached: bool)
    requires NodeOk(ids, logs, pub, m, node)
    requires if m == p.node
             then p.life in node.busy && node.busy[p.life].HandedLocally? && done == node.(busy := node.busy - {p.life})
             else done == node
    ensures NodeOk(ids, logs, pub + [p], m, if reached then Delivered(done, WireOf(ids, p), |pub|) else done)
  {
    PublishKeepsOwn(logs, pub, m, node, p, done);
    assert BusOk(ids, pub, done);
    PublishKeepsBus(ids, pub, done, p, reached);
    if reached { DeliveredKeepsOwn(logs, pub + [p], m, done, WireOf(ids, p), |pub|); }
  }

  lemma PublishKeepsOrder(logs: Logs, pub: seq<Posted>, n: NodeId, node: Node, l: Life)
    requires PublishedOk(logs, pub) && BusyOk(logs, pub, n, node) && l in node.busy
    ensures PublishedOk(logs, pub + [Posted(n, l, node.busy[l].op)])
  {
  }

  /** What publishing leaves on each node. */
  lemma PublishedNode(ids: NodeId -> NodeName, s: State, n: NodeId, l: Life, reached: set<NodeId>, s': State, m: NodeId)
    requires PublishOp(ids, s, n, l, reached) == Some(s') && m in s.nodes
    ensures var p := Posted(n, l, s.nodes[n].busy[l].op);
            var done := if m == n then s.nodes[n].(busy := s.nodes[n].busy - {l}) else s.nodes[m];
            && m in s'.nodes && s'.published == s.published + [p]
            && s'.nodes[m] == if m in reached then Delivered(done, WireOf(ids, p), |s.published|) else done
  {
  }

  lemma PublishKeepsEach(ids: NodeId -> NodeName, s: State, n: NodeId, l: Life, reached: set<NodeId>, s': State,
                         m: NodeId)
    requires PublishOp(ids, s, n, l, reached) == Some(s') && m in s.nodes
             && NodeOk(ids, s.logs, s.published, m, s.nodes[m])
    ensures m in s'.nodes && NodeOk(ids, s.logs, s'.published, m, s'.nodes[m])
  {
    PublishedNode(ids, s, n, l, reached, s', m);
    var done := if m == n then s.nodes[n].(busy := s.nodes[n].busy - {l}) else s.nodes[m];
    PublishKeepsNode(ids, s.logs, s.published, m, s.nodes[m], Posted(n, l, s.nodes[n].busy[l].op), done, m in reached);
  }

  lemma PublishKeepsOk(ids: NodeId -> NodeName, s: State, n: NodeId, l: Life, reached: set<NodeId>)
    requires Ok(ids, s) && PublishOp(ids, s, n, l, reached).Some?
    ensures Ok(ids, PublishOp(ids, s, n, l, reached).value)
  {
    var s' := PublishOp(ids, s, n, l, reached).value;
    assert s'.logs == s.logs && s'.nodes.Keys == s.nodes.Keys;
    assert LogsOk(s');
    assert BusyOk(s.logs, s.published, n, s.nodes[n]) by { assert NodeOk(ids, s.logs, s.published, n, s.nodes[n]); }
    PublishKeepsOrder(s.logs, s.published, n, s.nodes[n], l);
    forall m | m in s.nodes ensures NodeOk(ids, s.logs, s'.published, m, s'.nodes[m]) {
      PublishKeepsEach(ids, s, n, l, reached, s', m);
    }
  }

  lemma StepKeepsOk(ids: NodeId -> NodeName, s: State, a: Action)
    requires Ok(ids, s) && Step(ids, s, a).Some?
    ensures Ok(ids, Step(ids, s, a).value)
  {
    match a
    case Start(n) => StartKeepsOk(ids, s, n);
    case Activate(n, d) => ChannelKeepsOk(ids, s, n, s.nodes[n].channels + {d});
    case Deactivate(n, d) => ChannelKeepsOk(ids, s, n, s.nodes[n].channels - {d});
    case Commit(n, d, session, payload) => CommitKeepsOk(ids, s, n, Now(s, d), session, payload);
    case Delete(_) =>
    case HandLocal(n, l) => HandOwnKeepsOk(ids, s, n, l);
    case Publish(n, l, reached) => PublishKeepsOk(ids, s, n, l, reached);
    case Receive(n) => ReceiveKeepsOk(ids, s, n);
  }

  lemma ChannelKeepsOk(ids: NodeId -> NodeName, s: State, n: NodeId, channels: set<DocId>)
    requires Ok(ids, s) && n in s.nodes
    ensures Ok(ids, Put(s, n, s.nodes[n].(channels := channels)))
  {
    var node' := s.nodes[n].(channels := channels);
    forall l, op | LoggedBy(s.logs, l, op, n) ensures AtHub(node', l, op) { assert AtHub(s.nodes[n], l, op); }
    PutKeepsOk(ids, s, n, node');
  }

  lemma ReachableOk(ids: NodeId -> NodeName, acts: seq<Action>)
    ensures Exec(Steps(ids), INIT, acts).Some? ==> Ok(ids, Exec(Steps(ids), INIT, acts).value)
  {
    forall m: State, a: Action | Ok(ids, m) && Steps(ids)(m, a).Some?
      ensures Ok(ids, Steps(ids)(m, a).value)
    {
      StepKeepsOk(ids, m, a);
    }
    Invariance(Steps(ids), (s: State) => Ok(ids, s), INIT, acts);
  }

  // ----- what every run guarantees -------------------------------------------------------------------------------

  /** Each committed op is published at most once, by the node that committed it and as it was committed; nothing else
      is ever published. One node's publishes of one life of a document ascend. A number that is used again in a later
      life is another op. */
  lemma PublishedAtMostOnce(ids: NodeId -> NodeName, acts: seq<Action>, s: State)
    requires Exec(Steps(ids), INIT, acts) == Some(s)
    ensures PublishedOk(s.logs, s.published)
    ensures forall i, j :: 0 <= i < j < |s.published| && s.published[i].life == s.published[j].life
                           ==> s.published[i].op.seqNo != s.published[j].op.seqNo
  {
    ReachableOk(ids, acts);
    forall i, j | 0 <= i < j < |s.published| && s.published[i].life == s.published[j].life
      ensures s.published[i].op.seqNo != s.published[j].op.seqNo
    {
      PublishedDistinct(s.logs, s.published, i, j);
    }
  }

  /** One number has one committer, and one committer's publishes ascend. */
  lemma PublishedDistinct(logs: Logs, pub: seq<Posted>, i: nat, j: nat)
    requires PublishedOk(logs, pub) && i < j < |pub| && pub[i].life == pub[j].life
    ensures pub[i].op.seqNo != pub[j].op.seqNo
  {
    assert LoggedBy(logs, pub[i].life, pub[i].op, pub[i].node) && LoggedBy(logs, pub[j].life, pub[j].op, pub[j].node);
  }

  /** The committing node hands every op to its hub exactly once: in ascending order per life, and none is missing but
      one it is about to hand over. */
  lemma OwnOpsHandedExactlyOnce(ids: NodeId -> NodeName, acts: seq<Action>, s: State, n: NodeId)
    requires Exec(Steps(ids), INIT, acts) == Some(s) && n in s.nodes
    ensures OwnOk(s.logs, n, s.nodes[n]) && AllOwn(s.logs, n, s.nodes[n])
  {
    ReachableOk(ids, acts);
  }

  /** The publish behind the i-th message the hub of a node was handed from the bus. */
  function Source(s: State, node: Node, i: nat): Posted
    requires i < |node.remotePlaces| && node.remotePlaces[i] < |s.published|
  {
    s.published[node.remotePlaces[i]]
  }

  ghost predicate SameEntry(p: Posted, q: Posted) {
    p.life == q.life && p.op.seqNo == q.op.seqNo
  }

  lemma RemoteFromOthers(ids: NodeId -> NodeName, s: State, n: NodeId, node: Node, i: nat)
    requires PublishedOk(s.logs, s.published) && BusOk(ids, s.published, node) && Foreign(ids, n, node)
    requires i < |node.remote|
    ensures var p := Source(s, node, i);
            node.remote[i] == WireOf(ids, p) && p.node != n && LoggedBy(s.logs, p.life, p.op, p.node)
  {
  }

  lemma RemoteAscends(ids: NodeId -> NodeName, s: State, node: Node, i: nat, j: nat)
    requires PublishedOk(s.logs, s.published) && BusOk(ids, s.published, node) && i < j < |node.remote|
    ensures var p, q := Source(s, node, i), Source(s, node, j);
            && !SameEntry(p, q)
            && (p.life == q.life && p.node == q.node ==> p.op.seqNo < q.op.seqNo)
  {
    var p, q := Source(s, node, i), Source(s, node, j);
    assert node.remotePlaces[i] < node.remotePlaces[j];
    assert LoggedBy(s.logs, p.life, p.op, p.node) && LoggedBy(s.logs, q.life, q.op, q.node);
  }

  /** Every other node hands an op to its hub at most once, with the document, session, number and payload that were
      committed, never one of its own, and the ops of one committer in one life of a document in ascending order. */
  lemma RemoteOpsHandedAtMostOnce(ids: NodeId -> NodeName, acts: seq<Action>, s: State, n: NodeId)
    requires Exec(Steps(ids), INIT, acts) == Some(s) && n in s.nodes
    ensures BusOk(ids, s.published, s.nodes[n])
    ensures forall i :: 0 <= i < |s.nodes[n].remote| ==>
                          var p := Source(s, s.nodes[n], i);
                          && s.nodes[n].remote[i] == WireOf(ids, p)
                          && p.node != n && LoggedBy(s.logs, p.life, p.op, p.node)
    ensures forall i, j :: 0 <= i < j < |s.nodes[n].remote| ==>
                             var p, q := Source(s, s.nodes[n], i), Source(s, s.nodes[n], j);
                             && !SameEntry(p, q)
                             && (p.life == q.life && p.node == q.node ==> p.op.seqNo < q.op.seqNo)
  {
    ReachableOk(ids, acts);
    var node := s.nodes[n];
    assert NodeOk(ids, s.logs, s.published, n, node);
    forall i | 0 <= i < |node.remote|
      ensures var p := Source(s, node, i);
              node.remote[i] == WireOf(ids, p) && p.node != n && LoggedBy(s.logs, p.life, p.op, p.node)
    {
      RemoteFromOthers(ids, s, n, node, i);
    }
    forall i, j | 0 <= i < j < |node.remote|
      ensures var p, q := Source(s, node, i), Source(s, node, j);
              !SameEntry(p, q) && (p.life == q.life && p.node == q.node ==> p.op.seqNo < q.op.seqNo)
    {
      RemoteAscends(ids, s, node, i, j);
    }
  }

  /** The origin filter decides by id: a delivered message reaches the hub if and only if the ids of its committer and
      of the receiver differ. So it lets through exactly the other nodes' ops if and only if no other committer shares
      the receiver's id; with distinct ids that is always so. */
  lemma FilterIsExact(ids: NodeId -> NodeName, acts: seq<Action>, s: State, n: NodeId, s': State)
    requires Exec(Steps(ids), INIT, acts) == Some(s) && ReceiveNext(ids, s, n) == Some(s')
    ensures s.nodes[n].inboxPlaces[0] < |s.published|
    ensures var from, w := s.published[s.nodes[n].inboxPlaces[0]].node, s.nodes[n].inbox[0];
            && from in s.nodes
            && s'.nodes[n].remote == s.nodes[n].remote + (if ids(from) != ids(n) then [w] else [])
            && ((forall m :: m in s.nodes && ids(m) == ids(n) ==> m == n) ==>
                  s'.nodes[n].remote == s.nodes[n].remote + if from != n then [w] else [])
  {
    ReachableOk(ids, acts);
    assert NodeOk(ids, s.logs, s.published, n, s.nodes[n]);
    var p := s.published[s.nodes[n].inboxPlaces[0]];
    assert LoggedBy(s.logs, p.life, p.op, p.node);
  }

  /** A publish reaches a node exactly while it listens on the document's channel: after it has stopped, no publish of
      any life of the document can reach it; after it has started, the bus may deliver to it. */
  lemma ReachedOnlyWhileListening(ids: NodeId -> NodeName, s: State, n: NodeId, m: NodeId, l: Life)
    requires n in s.nodes && m in s.nodes && l in s.nodes[n].busy && s.nodes[n].busy[l].HandedLocally?
    ensures var quiet := Step(ids, s, Deactivate(m, l.doc)).value;
            forall reached :: m in reached ==> Step(ids, quiet, Publish(n, l, reached)).None?
    ensures var listening := Step(ids, s, Activate(m, l.doc)).value; Step(ids, listening, Publish(n, l, {m})).Some?
  {
  }

  // ----- an op can always travel ----------------------------------------------------------------------------------

  lemma Go(ids: NodeId -> NodeName, acts: seq<Action>, s: State, a: Action) returns (more: seq<Action>, s': State)
    requires Exec(Steps(ids), INIT, acts) == Some(s) && Step(ids, s, a).Some?
    ensures Exec(Steps(ids), INIT, more) == Some(s') && Step(ids, s, a) == Some(s') && acts <= more
  {
    s' := Step(ids, s, a).value;
    more := acts + [a];
    Then(Steps(ids), INIT, acts, s, a, s');
  }

  /** A node that goes on receiving hands everything in its inbox to its hub, except what carries its own id. */
  lemma {:induction false} InboxDrains(ids: NodeId -> NodeName, acts: seq<Action>, s: State, m: NodeId)
    returns (more: seq<Action>, s': State)
    requires Exec(Steps(ids), INIT, acts) == Some(s) && m in s.nodes
    ensures Exec(Steps(ids), INIT, more) == Some(s') && acts <= more && m in s'.nodes && s'.logs == s.logs
    ensures forall w :: w in s.nodes[m].remote || (w in s.nodes[m].inbox && w.origin != ids(m)) ==>
                          w in s'.nodes[m].remote
    decreases |s.nodes[m].inbox|
  {
    if s.nodes[m].inbox == [] {
      more, s' := acts, s;
    } else {
      ReachableOk(ids, acts);
      assert NodeOk(ids, s.logs, s.published, m, s.nodes[m]);
      var acts1, s1 := Go(ids, acts, s, Receive(m));
      TakenMembers(ids(m), s.nodes[m]);
      more, s' := InboxDrains(ids, acts1, s1, m);
    }
  }

  lemma TakenMembers(name: NodeName, node: Node)
    requires |node.inbox| > 0 && |node.inboxPlaces| > 0
    ensures var node' := Taken(name, node);
            forall w :: w in node.remote || (w in node.inbox && w.origin != name) ==>
                          w in node'.remote || (w in node'.inbox && w.origin != name)
  {
    assert node.inbox == [node.inbox[0]] + node.inbox[1..];
  }

  /** Committed and handed to the node's own hub. */
  lemma CommitRuns(ids: NodeId -> NodeName, acts: seq<Action>, s: State, n: NodeId, d: DocId, session: SessionId,
                   payload: Bytes) returns (more: seq<Action>, s': State, op: Op)
    requires Exec(Steps(ids), INIT, acts) == Some(s) && n in s.nodes && Now(s, d) !in s.nodes[n].busy
    ensures Exec(Steps(ids), INIT, more) == Some(s') && acts <= more && s'.nodes.Keys == s.nodes.Keys
    ensures op.session == session && op.payload == payload && LoggedBy(s'.logs, Now(s, d), op, n)
    ensures Now(s, d) in s'.nodes[n].busy && s'.nodes[n].busy[Now(s, d)] == HandedLocally(op)
    ensures Owned(Now(s, d), op) in s'.nodes[n].own
    ensures forall m :: m in s.nodes ==> s'.nodes[m].channels == s.nodes[m].channels
  {
    var l := Now(s, d);
    op := Op(|LogOf(s.logs, l)| + 1, session, payload);
    var acts1, s1 := Go(ids, acts, s, Commit(n, d, session, payload));
    more, s' := Go(ids, acts1, s1, HandLocal(n, l));
    assert s'.nodes[n].own[|s'.nodes[n].own| - 1] == Owned(l, op);
  }

  /** Published and delivered to m: the op is in m's inbox. */
  lemma PublishRuns(ids: NodeId -> NodeName, acts: seq<Action>, s: State, n: NodeId, m: NodeId, l: Life, op: Op)
    returns (more: seq<Action>, s': State)
    requires Exec(Steps(ids), INIT, acts) == Some(s) && n in s.nodes && m in s.nodes && l.doc in s.nodes[m].channels
    requires l in s.nodes[n].busy && s.nodes[n].busy[l] == HandedLocally(op)
    ensures Exec(Steps(ids), INIT, more) == Some(s') && acts <= more && m in s'.nodes && s'.logs == s.logs
    ensures Wire(ids(n), l.doc, op) in s'.nodes[m].inbox
  {
    more, s' := Go(ids, acts, s, Publish(n, l, {m}));
    PublishedNode(ids, s, n, l, {m}, s', m);
    assert s'.nodes[m].inbox[|s'.nodes[m].inbox| - 1] == Wire(ids(n), l.doc, op);
  }

  /** From every reachable state, an op committed on one node can reach the hub of any other node whose id is another,
      as it was committed. */
  lemma OpTravels(ids: NodeId -> NodeName, acts: seq<Action>, s: State, n: NodeId, m: NodeId, d: DocId,
                  session: SessionId, payload: Bytes) returns (more: seq<Action>, s': State, op: Op)
    requires Exec(Steps(ids), INIT, acts) == Some(s) && n in s.nodes && m in s.nodes && ids(n) != ids(m)
    requires Now(s, d) !in s.nodes[n].busy
    ensures Exec(Steps(ids), INIT, more) == Some(s') && acts <= more && m in s'.nodes
    ensures op.session == session && op.payload == payload && LoggedBy(s'.logs, Now(s, d), op, n)
    ensures Wire(ids(n), d, op) in s'.nodes[m].remote
  {
    var acts1, s1 := Go(ids, acts, s, Activate(m, d));
    var acts2, s2, op2 := CommitRuns(ids, acts1, s1, n, d, session, payload);
    op := op2;
    var acts3, s3 := PublishRuns(ids, acts2, s2, n, m, Now(s, d), op);
    more, s' := InboxDrains(ids, acts3, s3, m);
  }
}
