/** The hub: subscriber sets, connection slots, and the order in which they change under every interleaving of accepts,
    authentication failures, subscribes and teardowns. */
module Hub {
  import opened Core
  import opened Runs

  // ----- subscriber sets as values -------------------------------------------------------------------------------

  function Subscribers<C>(docs: map<DocId, set<C>>, d: DocId): set<C> {
    if d in docs then docs[d] else {}
  }

  function Added<C>(docs: map<DocId, set<C>>, d: DocId, c: C): map<DocId, set<C>> {
    docs[d := Subscribers(docs, d) + {c}]
  }

  /** The documents that lose their last subscriber when c leaves those in `ids`. */
  function Emptied<C>(docs: map<DocId, set<C>>, ids: set<DocId>, c: C): set<DocId> {
    set d | d in docs && d in ids && docs[d] - {c} == {}
  }

  function Removed<C>(docs: map<DocId, set<C>>, ids: set<DocId>, c: C): map<DocId, set<C>> {
    map d | d in docs && d !in Emptied(docs, ids, c) :: if d in ids then docs[d] - {c} else docs[d]
  }

  /** Who is subscribed to what after a subscribe. */
  lemma AddedMembers<C>(docs: map<DocId, set<C>>, d: DocId, c: C, e: DocId, x: C)
    ensures x in Subscribers(Added(docs, d, c), e) <==> x in Subscribers(docs, e) || (e == d && x == c)
  {
  }

  /** Who is subscribed to what after a teardown. */
  lemma RemovedMembers<C>(docs: map<DocId, set<C>>, ids: set<DocId>, c: C, e: DocId, x: C)
    ensures x in Subscribers(Removed(docs, ids, c), e) <==> x in Subscribers(docs, e) && !(e in ids && x == c)
  {
    assert e in docs && x in docs[e] && x != c ==> x in docs[e] - {c};
  }

  // ----- the protocol --------------------------------------------------------------------------------------------

  /** A request to /sync: it holds a slot from its reservation until it is released or deregistered. While it is
      served, `joining` is the document of a subscribe that has been recorded but not yet entered into the set. */
  datatype Stage = Reserved | Serving(subs: map<DocId, SessionId>, joining: Option<DocId>) | Returned

  /** `firsts` and `lasts` count how often a document was reported as gaining its first or losing its last
      subscriber. */
  datatype State = State(docs: map<DocId, set<ConnId>>, active: int, conns: map<ConnId, Stage>,
                         firsts: multiset<DocId>, lasts: multiset<DocId>)

  const INIT := State(map[], 0, map[], multiset{}, multiset{})

  datatype Action =
    | Reserve(c: ConnId)
    | FailEarly(c: ConnId)
    | Serve(c: ConnId)
    | RecordSubscribe(c: ConnId, d: DocId, session: SessionId)
    | RecordSync(c: ConnId, d: DocId, session: SessionId)
    | Join(c: ConnId)
    | Deregister(c: ConnId)

  predicate Served(s: State, c: ConnId) {
    c in s.conns && s.conns[c].Serving?
  }

  predicate Reading(s: State, c: ConnId) {
    Served(s, c) && s.conns[c].joining.None?
  }

  function Down(active: int): int {
    if active > 0 then active - 1 else active
  }

  function TryRegister(max: int, s: State, c: ConnId): Option<State> {
    if c in s.conns || (max > 0 && s.active >= max) then None
    else Some(s.(active := s.active + 1, conns := s.conns[c := Reserved]))
  }

  function Release(s: State, c: ConnId): Option<State> {
    if c !in s.conns || !s.conns[c].Reserved? then None
    else Some(s.(active := Down(s.active), conns := s.conns[c := Returned]))
  }

  function Record(s: State, c: ConnId, d: DocId, session: SessionId, joining: Option<DocId>): State
    requires Reading(s, c)
  {
    s.(conns := s.conns[c := Serving(s.conns[c].subs[d := session], joining)])
  }

  function JoinSet(s: State, c: ConnId): Option<State> {
    if !Served(s, c) || s.conns[c].joining.None? then None
    else
      var d := s.conns[c].joining.value;
      Some(s.(docs := Added(s.docs, d, c),
              conns := s.conns[c := s.conns[c].(joining := None)],
              firsts := if d in s.docs then s.firsts else s.firsts + multiset{d}))
  }

  function Teardown(s: State, c: ConnId): Option<State> {
    if !Reading(s, c) then None
    else
      var ids := s.conns[c].subs.Keys;
      Some(s.(docs := Removed(s.docs, ids, c), active := Down(s.active), conns := s.conns[c := Returned],
              lasts := s.lasts + multiset(Emptied(s.docs, ids, c))))
  }

  function Step(max: int, s: State, a: Action): Option<State> {
    match a
    case Reserve(c) => TryRegister(max, s, c)
    case FailEarly(c) => Release(s, c)
    case Serve(c) =>
      if c !in s.conns || !s.conns[c].Reserved? then None else Some(s.(conns := s.conns[c := Serving(map[], None)]))
    case RecordSubscribe(c, d, session) => if Reading(s, c) then Some(Record(s, c, d, session, Some(d))) else None
    case RecordSync(c, d, session) =>
      if Reading(s, c) && d !in s.conns[c].subs then Some(Record(s, c, d, session, None)) else None
    case Join(c) => JoinSet(s, c)
    case Deregister(c) => Teardown(s, c)
  }

  function Steps(max: int): (State, Action) -> Option<State> {
    (s, a) => Step(max, s, a)
  }

  // ----- the invariant -------------------------------------------------------------------------------------------

  function Held(s: State): set<ConnId> {
    set c | c in s.conns && !s.conns[c].Returned?
  }

  ghost predicate SlotsOk(max: int, s: State) {
    s.active == |Held(s)| && (max > 0 ==> s.active <= max)
  }

  /** A subscriber is being served and has the document recorded; no stored set is empty. */
  ghost predicate Agree(s: State) {
    && (forall d, c :: c in Subscribers(s.docs, d) ==> Served(s, c) && d in s.conns[c].subs)
    && (forall d :: d in s.docs ==> s.docs[d] != {})
    && (forall c :: Served(s, c) && s.conns[c].joining.Some? ==> s.conns[c].joining.value in s.conns[c].subs)
  }

  ghost predicate Balanced(s: State) {
    forall d :: s.firsts[d] == s.lasts[d] + if d in s.docs then 1 else 0
  }

  ghost predicate Ok(max: int, s: State) {
    SlotsOk(max, s) && Agree(s) && Balanced(s)
  }

  lemma ReserveKeepsOk(max: int, s: State, c: ConnId)
    requires Ok(max, s) && TryRegister(max, s, c).Some?
    ensures Ok(max, TryRegister(max, s, c).value)
  {
    assert Held(TryRegister(max, s, c).value) == Held(s) + {c};
  }

  lemma ReleaseKeepsOk(max: int, s: State, c: ConnId)
    requires Ok(max, s) && Release(s, c).Some?
    ensures Ok(max, Release(s, c).value) && s.active > 0
  {
    assert c in Held(s);
    assert Held(Release(s, c).value) == Held(s) - {c};
  }

  lemma ServeKeepsOk(max: int, s: State, c: ConnId)
    requires Ok(max, s) && c in s.conns && s.conns[c].Reserved?
    ensures Ok(max, s.(conns := s.conns[c := Serving(map[], None)]))
  {
    assert Held(s.(conns := s.conns[c := Serving(map[], None)])) == Held(s);
  }

  lemma RecordKeepsOk(max: int, s: State, c: ConnId, d: DocId, session: SessionId, joining: Option<DocId>)
    requires Ok(max, s) && Reading(s, c) && (joining.Some? ==> joining.value == d)
    ensures Ok(max, Record(s, c, d, session, joining))
  {
    assert Held(Record(s, c, d, session, joining)) == Held(s);
  }

  lemma JoinKeepsBalanced(s: State, c: ConnId)
    requires Balanced(s) && JoinSet(s, c).Some?
    ensures Balanced(JoinSet(s, c).value)
  {
  }

  lemma JoinKeepsAgree(s: State, c: ConnId)
    requires Agree(s) && JoinSet(s, c).Some?
    ensures Agree(JoinSet(s, c).value)
  {
    var s' := JoinSet(s, c).value;
    forall d, x | x in Subscribers(s'.docs, d)
      ensures Served(s', x) && d in s'.conns[x].subs
    {
      AddedMembers(s.docs, s.conns[c].joining.value, c, d, x);
    }
  }

  lemma JoinKeepsOk(max: int, s: State, c: ConnId)
    requires Ok(max, s) && JoinSet(s, c).Some?
    ensures Ok(max, JoinSet(s, c).value)
  {
    assert Held(JoinSet(s, c).value) == Held(s);
    JoinKeepsBalanced(s, c);
    JoinKeepsAgree(s, c);
  }

  lemma TeardownKeepsOk(max: int, s: State, c: ConnId)
    requires Ok(max, s) && Teardown(s, c).Some?
    ensures Ok(max, Teardown(s, c).value) && s.active > 0
    ensures forall d :: c !in Subscribers(Teardown(s, c).value.docs, d)
  {
    var s' := Teardown(s, c).value;
    assert c in Held(s);
    assert Held(s') == Held(s) - {c};
    var ids := s.conns[c].subs.Keys;
    forall d
      ensures c !in Subscribers(s'.docs, d)
    {
      RemovedMembers(s.docs, ids, c, d, c);
      assert c in Subscribers(s.docs, d) ==> d in s.conns[c].subs;
    }
    forall d, x | x in Subscribers(s'.docs, d)
      ensures Served(s', x) && d in s'.conns[x].subs
    {
      RemovedMembers(s.docs, ids, c, d, x);
    }
  }

  lemma StepKeepsOk(max: int, s: State, a: Action)
    requires Ok(max, s) && Step(max, s, a).Some?
    ensures Ok(max, Step(max, s, a).value)
    ensures a.FailEarly? || a.Deregister? ==> s.active > 0
  {
    match a
    case Reserve(c) => ReserveKeepsOk(max, s, c);
    case FailEarly(c) => ReleaseKeepsOk(max, s, c);
    case Serve(c) => ServeKeepsOk(max, s, c);
    case RecordSubscribe(c, d, session) => RecordKeepsOk(max, s, c, d, session, Some(d));
    case RecordSync(c, d, session) => RecordKeepsOk(max, s, c, d, session, None);
    case Join(c) => JoinKeepsOk(max, s, c);
    case Deregister(c) => TeardownKeepsOk(max, s, c);
  }

  lemma ReachableOk(max: int, acts: seq<Action>)
    ensures Exec(Steps(max), INIT, acts).Some? ==> Ok(max, Exec(Steps(max), INIT, acts).value)
  {
    forall m: State, a: Action | Ok(max, m) && Steps(max)(m, a).Some?
      ensures Ok(max, Steps(max)(m, a).value)
    {
      StepKeepsOk(max, m, a);
    }
    Invariance(Steps(max), (s: State) => Ok(max, s), INIT, acts);
  }

  // ----- what every run guarantees -------------------------------------------------------------------------------

  /** Slots are conserved: the active count is the number of reservations held, within the maximum; whenever a slot is
      given back the count is positive, so the guard that keeps it from going negative never decides anything. */
  lemma SlotsAreConserved(max: int, acts: seq<Action>, s: State)
    requires Exec(Steps(max), INIT, acts) == Some(s)
    ensures s.active == |Held(s)| && (max > 0 ==> s.active <= max)
    ensures forall a :: Step(max, s, a).Some? && (a.FailEarly? || a.Deregister?) ==> s.active > 0
  {
    ReachableOk(max, acts);
    forall a | Step(max, s, a).Some? && (a.FailEarly? || a.Deregister?)
      ensures s.active > 0
    {
      StepKeepsOk(max, s, a);
    }
  }

  /** A slot is refused only for want of one: in every reachable state a new connection gets it exactly when there is no
      maximum or fewer are held. */
  lemma ReservesExactlyWhen(max: int, acts: seq<Action>, s: State, c: ConnId)
    requires Exec(Steps(max), INIT, acts) == Some(s)
    ensures Step(max, s, Reserve(c)).Some? <==> c !in s.conns && (max <= 0 || |Held(s)| < max)
  {
    ReachableOk(max, acts);
  }

  lemma Go(max: int, acts: seq<Action>, s: State, a: Action) returns (more: seq<Action>, s': State)
    requires Exec(Steps(max), INIT, acts) == Some(s) && Step(max, s, a).Some?
    ensures Exec(Steps(max), INIT, more) == Some(s') && Step(max, s, a) == Some(s') && more == acts + [a]
  {
    s' := Step(max, s, a).value;
    more := acts + [a];
    Then(Steps(max), INIT, acts, s, a, s');
  }

  /** A new connection is served. */
  lemma ServeRuns(max: int, acts: seq<Action>, s: State, c: ConnId) returns (more: seq<Action>, s': State)
    requires Exec(Steps(max), INIT, acts) == Some(s) && c !in s.conns && (max <= 0 || |Held(s)| < max)
    ensures Exec(Steps(max), INIT, more) == Some(s') && acts <= more && Reading(s', c) && s'.active == s.active + 1
  {
    ReservesExactlyWhen(max, acts, s, c);
    var acts1, s1 := Go(max, acts, s, Reserve(c));
    more, s' := Go(max, acts1, s1, Serve(c));
  }

  /** It subscribes. */
  lemma SubscribeRuns(max: int, acts: seq<Action>, s: State, c: ConnId, d: DocId, session: SessionId)
    returns (more: seq<Action>, s': State)
    requires Exec(Steps(max), INIT, acts) == Some(s) && Reading(s, c)
    ensures Exec(Steps(max), INIT, more) == Some(s') && acts <= more && Reading(s', c) && s'.active == s.active
    ensures c in Subscribers(s'.docs, d)
  {
    var acts1, s1 := Go(max, acts, s, RecordSubscribe(c, d, session));
    more, s' := Go(max, acts1, s1, Join(c));
    AddedMembers(s1.docs, d, c, d, c);
  }

  /** Whenever there is a slot, a new connection can be served, subscribe to any document, and leave; while it is
      subscribed it is in the set, and its slot comes back when it leaves. */
  lemma ConnectionRuns(max: int, acts: seq<Action>, s: State, c: ConnId, d: DocId, session: SessionId)
    returns (more: seq<Action>, joined: State, left: State)
    requires Exec(Steps(max), INIT, acts) == Some(s) && c !in s.conns && (max <= 0 || |Held(s)| < max)
    ensures Exec(Steps(max), INIT, more) == Some(joined) && acts <= more
    ensures c in Subscribers(joined.docs, d) && joined.active == s.active + 1
    ensures Step(max, joined, Deregister(c)) == Some(left) && c !in Subscribers(left.docs, d) && left.active == s.active
  {
    var acts1, s1 := ServeRuns(max, acts, s, c);
    more, joined := SubscribeRuns(max, acts1, s1, c, d, session);
    ReachableOk(max, more);
    left := Step(max, joined, Deregister(c)).value;
    TeardownKeepsOk(max, joined, c);
  }

  /** How often connection c's slot was reserved and given back in a run. */
  function Reservations(acts: seq<Action>, c: ConnId): nat {
    multiset(acts)[Reserve(c)]
  }

  function GivenBack(acts: seq<Action>, c: ConnId): nat {
    multiset(acts)[FailEarly(c)] + multiset(acts)[Deregister(c)]
  }

  predicate Back(s: State, c: ConnId) {
    c in s.conns && s.conns[c].Returned?
  }

  /** One step reserves or gives back at most one slot, in that order. */
  lemma StepCounts(max: int, s: State, a: Action, s': State, c: ConnId)
    requires Step(max, s, a) == Some(s')
    ensures c in s'.conns <==> c in s.conns || a == Reserve(c)
    ensures a == Reserve(c) ==> c !in s.conns
    ensures Back(s', c) <==> Back(s, c) || a == FailEarly(c) || a == Deregister(c)
    ensures a == FailEarly(c) || a == Deregister(c) ==> !Back(s, c)
  {
  }

  lemma CountSnoc(acts: seq<Action>, a: Action, b: Action)
    ensures multiset(acts + [a])[b] == multiset(acts)[b] + if a == b then 1 else 0
  {
    assert multiset(acts + [a]) == multiset(acts) + multiset{a};
  }

  /** Each reservation is returned exactly once: either by the early failure or by the teardown, never by both. */
  lemma {:induction false} EachReservationIsReturnedOnce(max: int, acts: seq<Action>, s: State, c: ConnId)
    requires Exec(Steps(max), INIT, acts) == Some(s)
    ensures Reservations(acts, c) == if c in s.conns then 1 else 0
    ensures GivenBack(acts, c) == if Back(s, c) then 1 else 0
    decreases |acts|
  {
    if acts != [] {
      var before, a := acts[..|acts| - 1], acts[|acts| - 1];
      var m := Exec(Steps(max), INIT, before).value;
      EachReservationIsReturnedOnce(max, before, m, c);
      StepCounts(max, m, a, s, c);
      assert acts == before + [a];
      CountSnoc(before, a, Reserve(c));
      CountSnoc(before, a, FailEarly(c));
      CountSnoc(before, a, Deregister(c));
    }
  }

  /** Hub and connections agree in every reachable state, and per document the first-subscriber reports exceed the
      last-subscriber reports by one exactly while it is present. */
  lemma HubAndConnectionsAgree(max: int, acts: seq<Action>, s: State)
    requires Exec(Steps(max), INIT, acts) == Some(s)
    ensures Agree(s) && Balanced(s)
  {
    ReachableOk(max, acts);
  }

  /** The i-th action enters connection c into document d's set. */
  ghost predicate JoinsAt(max: int, acts: seq<Action>, i: nat, c: ConnId, d: DocId)
    requires i < |acts|
  {
    var m := Exec(Steps(max), INIT, acts[..i]);
    acts[i] == Join(c) && m.Some? && Served(m.value, c) && m.value.conns[c].joining == Some(d)
  }

  /** Connection c has entered document d's set at some point of the run. */
  ghost predicate HasJoined(max: int, acts: seq<Action>, c: ConnId, d: DocId) {
    exists i: nat :: i < |acts| && JoinsAt(max, acts, i, c, d)
  }

  lemma HasJoinedSnoc(max: int, acts: seq<Action>, c: ConnId, d: DocId)
    requires acts != [] && Exec(Steps(max), INIT, acts[..|acts| - 1]).Some?
    ensures HasJoined(max, acts, c, d) <==>
            HasJoined(max, acts[..|acts| - 1], c, d) || JoinsAt(max, acts, |acts| - 1, c, d)
  {
    var before := acts[..|acts| - 1];
    forall i: nat | i < |before| ensures JoinsAt(max, acts, i, c, d) <==> JoinsAt(max, before, i, c, d) {
      assert acts[..i] == before[..i];
    }
  }

  /** A connection is in a document's set exactly when a subscribe to that document has entered it there and the
      connection has not been deregistered since. A sync never puts it there, and after deregistering it never
      comes back. */
  lemma {:induction false} SubscribedExactlyWhileJoined(max: int, acts: seq<Action>, s: State, c: ConnId, d: DocId)
    requires Exec(Steps(max), INIT, acts) == Some(s)
    ensures c in Subscribers(s.docs, d) <==> HasJoined(max, acts, c, d) && Deregister(c) !in acts
    ensures Deregister(c) in acts ==> c in s.conns && s.conns[c].Returned?
    decreases |acts|
  {
    if acts != [] {
      var before, a := acts[..|acts| - 1], acts[|acts| - 1];
      var m := Exec(Steps(max), INIT, before).value;
      SubscribedExactlyWhileJoined(max, before, m, c, d);
      ReachableOk(max, before);
      HasJoinedSnoc(max, acts, c, d);
      assert acts == before + [a];
      if a == Deregister(c) {
        TeardownKeepsOk(max, m, c);
      } else {
        assert Deregister(c) in acts <==> Deregister(c) in before;
        MembershipStep(max, m, a, s, c, d);
      }
    }
  }

  /** One step changes c's membership of d's set only by entering it, unless c is deregistered. */
  lemma MembershipStep(max: int, m: State, a: Action, s: State, c: ConnId, d: DocId)
    requires Ok(max, m) && Step(max, m, a) == Some(s) && a != Deregister(c)
    ensures c in Subscribers(s.docs, d) <==>
            c in Subscribers(m.docs, d) || (a == Join(c) && m.conns[c].joining == Some(d))
    ensures c in m.conns && m.conns[c].Returned? ==> c in s.conns && s.conns[c].Returned? && a != Join(c)
  {
    match a
    case Join(x) => AddedMembers(m.docs, m.conns[x].joining.value, x, d, c);
    case Deregister(x) => RemovedMembers(m.docs, m.conns[x].subs.Keys, x, d, c);
    case _ =>
  }
}
