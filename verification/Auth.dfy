/** Webhook authorization with its time-limited decision cache, under any number of concurrent requests. */
module Auth {
  import opened Core
  import opened Runs

  datatype Identity = Identity(userId: string, metadata: map<string, string>)

  /** What the endpoint did: no answer, or a status with a body that may not decode. */
  datatype Reply = TransportError | Status(code: int, body: Option<Verdict>)
  datatype Verdict = Verdict(allowed: bool, identity: Identity)

  datatype Decision = Allow(identity: Identity) | Deny | Fault

  datatype CacheEntry = CacheEntry(identity: Identity, allowed: bool, expires: int)

  type Cache = map<string, CacheEntry>

  const NO_IDENTITY := Identity("", map[])

  function DecisionOf(r: Reply): Decision {
    match r
    case TransportError => Deny
    case Status(code, body) =>
      if code != 200 then Deny
      else match body
           case None => Fault
           case Some(v) => if v.allowed then Allow(v.identity) else Deny
  }

  /** The decisions that are kept: a refusal by status or verdict, and a grant. Neither a transport error nor an
      undecodable body is. */
  function Kept(r: Reply): Option<Decision> {
    if r.TransportError? || DecisionOf(r).Fault? then None else Some(DecisionOf(r))
  }

  function Reading(e: CacheEntry): Decision {
    if e.allowed then Allow(e.identity) else Deny
  }

  function EntryFor(d: Decision, expires: int): CacheEntry
    requires !d.Fault?
  {
    if d.Allow? then CacheEntry(d.identity, true, expires) else CacheEntry(NO_IDENTITY, false, expires)
  }

  // ----- keys ----------------------------------------------------------------------------------------------------

  const NUL: char := 0 as char

  function KeyOf(token: string, docId: string): string {
    token + [NUL] + docId
  }

  /** Two requests share a cache key only when they are the same request, provided the tokens hold no NUL. */
  lemma KeyIsInjective(t1: string, d1: string, t2: string, d2: string)
    requires NUL !in t1 && NUL !in t2 && KeyOf(t1, d1) == KeyOf(t2, d2)
    ensures t1 == t2 && d1 == d2
  {
    var k := KeyOf(t1, d1);
    assert k[|t1|] == NUL && k[|t2|] == NUL;
    assert t1 == k[..|t1|] && t2 == k[..|t2|];
    assert d1 == k[|t1| + 1..] && d2 == k[|t2| + 1..];
  }

  /** Exactly which tokens can collide: different tokens share a key for some pair of documents if and only if one of
      them followed by a NUL is a prefix of the other. */
  lemma KeysCollideExactlyWhen(t1: string, t2: string)
    requires t1 != t2
    ensures (exists d1, d2 :: KeyOf(t1, d1) == KeyOf(t2, d2)) <==> t1 + [NUL] <= t2 || t2 + [NUL] <= t1
  {
    if t1 + [NUL] <= t2 {
      var d1 := t2[|t1| + 1..] + [NUL];
      assert KeyOf(t1, d1) == KeyOf(t2, "");
    }
    if t2 + [NUL] <= t1 {
      var d2 := t1[|t2| + 1..] + [NUL];
      assert KeyOf(t1, "") == KeyOf(t2, d2);
    }
    if d1, d2 :| KeyOf(t1, d1) == KeyOf(t2, d2) {
      var k := KeyOf(t1, d1);
      assert k[..|t1|] == t1 && k[..|t2|] == t2;
      assert k[|t1|] == NUL && k[|t2|] == NUL;
      if |t1| < |t2| {
        assert t2[..|t1| + 1] == t1 + [NUL];
      } else if |t2| < |t1| {
        assert t1[..|t2| + 1] == t2 + [NUL];
      }
    }
  }

  // ----- the cache as an object ----------------------------------------------------------------------------------

  predicate Fresh(ttl: int, cache: Cache, key: string, now: int) {
    ttl > 0 && key in cache && !(now > cache[key].expires)
  }

  /** The cache after a lookup: an expired entry is dropped. */
  function AfterLookup(ttl: int, cache: Cache, key: string, now: int): Cache {
    if ttl > 0 && key in cache && now > cache[key].expires then cache - {key} else cache
  }

  function AfterStore(ttl: int, cache: Cache, key: string, d: Decision, now: int): Cache
    requires !d.Fault?
  {
    if ttl > 0 then cache[key := EntryFor(d, now + ttl)] else cache
  }

  class WebhookAuth {
    const ttl: int
    var cache: Cache

    constructor (ttl: int)
      ensures this.ttl == ttl && cache == map[]
    {
      this.ttl := ttl;
      cache := map[];
    }

    method Lookup(key: string, now: int) returns (hit: Option<Decision>)
      modifies this`cache
      ensures cache == AfterLookup(ttl, old(cache), key, now)
      ensures hit == if Fresh(ttl, old(cache), key, now) then Some(Reading(old(cache)[key])) else None
      ensures hit.Some? <==> ttl > 0 && key in old(cache) && now <= old(cache)[key].expires
      ensures hit.Some? ==> var e := old(cache)[key]; hit.value == if e.allowed then Allow(e.identity) else Deny
      ensures cache == if ttl > 0 && key in old(cache) && now > old(cache)[key].expires then old(cache) - {key}
                       else old(cache)
    {
      if ttl <= 0 { return None; }
      if key !in cache || now > cache[key].expires {
        if key in cache { cache := cache - {key}; }
        return None;
      }
      return Some(Reading(cache[key]));
    }

    method Store(key: string, d: Decision, now: int)
      requires !d.Fault?
      modifies this`cache
      ensures cache == AfterStore(ttl, old(cache), key, d, now)
      ensures if ttl <= 0 then cache == old(cache)
              else key in cache && cache == old(cache)[key := cache[key]] && cache[key].expires == now + ttl
                   && (cache[key].allowed <==> d.Allow?) && (d.Allow? ==> cache[key].identity == d.identity)
    {
      if ttl <= 0 { return; }
      cache := cache[key := EntryFor(d, now + ttl)];
    }

    /** One request without interference: `asked` is the endpoint's reply, consulted only on a miss. */
    method Authenticate(token: string, docId: string, lookedAt: int, asked: Reply, storedAt: int)
      returns (d: Decision, consulted: bool)
      modifies this`cache
      ensures consulted <==> !Fresh(ttl, old(cache), KeyOf(token, docId), lookedAt)
      ensures d == if consulted then DecisionOf(asked) else Reading(old(cache)[KeyOf(token, docId)])
      ensures cache == var c := AfterLookup(ttl, old(cache), KeyOf(token, docId), lookedAt);
                       if consulted && Kept(asked).Some?
                         then AfterStore(ttl, c, KeyOf(token, docId), Kept(asked).value, storedAt) else c
      ensures consulted ==>
                (d.Allow? <==> asked.Status? && asked.code == 200 && asked.body.Some? && asked.body.value.allowed)
      ensures consulted && d.Allow? ==> d.identity == asked.body.value.identity
      ensures consulted ==> (d.Fault? <==> asked.Status? && asked.code == 200 && asked.body.None?)
      ensures !consulted ==> var e := old(cache)[KeyOf(token, docId)];
                             d == if e.allowed then Allow(e.identity) else Deny
      ensures consulted && ttl > 0 && asked.Status? && (asked.code != 200 || asked.body.Some?) ==>
                KeyOf(token, docId) in cache && cache[KeyOf(token, docId)].expires == storedAt + ttl
                && (cache[KeyOf(token, docId)].allowed <==> d.Allow?)
                && (d.Allow? ==> cache[KeyOf(token, docId)].identity == d.identity)
    {
      var key := KeyOf(token, docId);
      var hit := Lookup(key, lookedAt);
      if hit.Some? { return hit.value, false; }
      consulted := true;
      match asked {
        case TransportError => d := Deny;
        case Status(code, body) =>
          if code != 200 {
            Store(key, Deny, storedAt);
            d := Deny;
          } else if body.None? {
            d := Fault;
          } else if !body.value.allowed {
            Store(key, Deny, storedAt);
            d := Deny;
          } else {
            d := Allow(body.value.identity);
            Store(key, d, storedAt);
          }
      }
    }
  }

  // ----- concurrent requests -------------------------------------------------------------------------------------

  /** Where a request is. The lookup and the store are separate regions; the endpoint answers in between. */
  datatype Stage =
    | Arrived
    | Asking
    | Answered(reply: Reply, answeredAt: int)
    | DecidedByEndpoint(reply: Reply, answeredAt: int, storedAt: int)
    | DecidedByCache(decision: Decision, decidedAt: int)

  datatype Request = Request(token: string, docId: string, stage: Stage)

  datatype State = State(now: int, cache: Cache, reqs: map<nat, Request>)

  datatype Action =
    | Tick(to: int)
    | Arrive(g: nat, token: string, docId: string)
    | Look(g: nat)
    | Answer(g: nat, reply: Reply)
    | Finish(g: nat)

  function Put(s: State, g: nat, stage: Stage): State
    requires g in s.reqs
  {
    s.(reqs := s.reqs[g := s.reqs[g].(stage := stage)])
  }

  function LookStep(ttl: int, s: State, g: nat): Option<State> {
    if g !in s.reqs || !s.reqs[g].stage.Arrived? then None
    else
      var key := KeyOf(s.reqs[g].token, s.reqs[g].docId);
      var hit := Fresh(ttl, s.cache, key, s.now);
      Some(Put(s, g,
               if hit then DecidedByCache(Reading(s.cache[key]), s.now)
                 else Asking).(cache := AfterLookup(ttl, s.cache, key, s.now)))
  }

  function FinishStep(ttl: int, s: State, g: nat): Option<State> {
    if g !in s.reqs || !s.reqs[g].stage.Answered? then None
    else
      var r := s.reqs[g].stage.reply;
      var key := KeyOf(s.reqs[g].token, s.reqs[g].docId);
      Some(Put(s, g, DecidedByEndpoint(r, s.reqs[g].stage.answeredAt, s.now)).(
             cache := if Kept(r).Some? then AfterStore(ttl, s.cache, key, Kept(r).value, s.now) else s.cache))
  }

  function Step(ttl: int, s: State, a: Action): Option<State> {
    match a
    case Tick(to) => if to >= s.now then Some(s.(now := to)) else None
    case Arrive(g, token, docId) =>
      if g in s.reqs then None else Some(s.(reqs := s.reqs[g := Request(token, docId, Arrived)]))
    case Look(g) => LookStep(ttl, s, g)
    case Answer(g, reply) =>
      if g in s.reqs && s.reqs[g].stage.Asking? then Some(Put(s, g, Answered(reply, s.now))) else None
    case Finish(g) => FinishStep(ttl, s, g)
  }

  function Steps(ttl: int): (State, Action) -> Option<State> {
    (s, a) => Step(ttl, s, a)
  }

  /** Request g got decision d from the endpoint for this key, and it was stored at `at`. */
  ghost predicate GaveAt(s: State, g: nat, key: string, d: Decision, at: int) {
    && g in s.reqs && s.reqs[g].stage.DecidedByEndpoint?
    && KeyOf(s.reqs[g].token, s.reqs[g].docId) == key
    && Kept(s.reqs[g].stage.reply) == Some(d)
    && s.reqs[g].stage.storedAt == at && s.reqs[g].stage.answeredAt <= at <= s.now
  }

  ghost predicate Backed(s: State, key: string, d: Decision, at: int) {
    exists g :: GaveAt(s, g, key, d, at)
  }

  /** Every cached decision is one the endpoint gave, and expires one TTL after it was stored. */
  ghost predicate CacheOk(ttl: int, s: State) {
    forall key :: key in s.cache ==> Backed(s, key, Reading(s.cache[key]), s.cache[key].expires - ttl)
  }

  ghost predicate ServedOk(ttl: int, s: State, g: nat) {
    g in s.reqs && s.reqs[g].stage.DecidedByCache? ==>
      exists at :: && Backed(s, KeyOf(s.reqs[g].token, s.reqs[g].docId), s.reqs[g].stage.decision, at)
                   && at <= s.reqs[g].stage.decidedAt <= at + ttl
  }

  ghost predicate Ok(ttl: int, s: State) {
    && CacheOk(ttl, s)
    && (ttl <= 0 ==> s.cache == map[])
    && (forall g :: ServedOk(ttl, s, g))
    && (forall g :: g in s.reqs && s.reqs[g].stage.Answered? ==> s.reqs[g].stage.answeredAt <= s.now)
  }

  /** Steps move requests forward and time on; what the endpoint gave stays given. */
  lemma BackedKept(s: State, s': State, key: string, d: Decision, at: int)
    requires Backed(s, key, d, at) && s.now <= s'.now
    requires forall g :: g in s.reqs && s.reqs[g].stage.DecidedByEndpoint? ==> g in s'.reqs && s'.reqs[g] == s.reqs[g]
    ensures Backed(s', key, d, at)
  {
    var g :| GaveAt(s, g, key, d, at);
    assert GaveAt(s', g, key, d, at);
  }

  lemma ServedKept(ttl: int, s: State, s': State, g: nat)
    requires ServedOk(ttl, s, g) && s.now <= s'.now
    requires forall x :: x in s.reqs && s.reqs[x].stage.DecidedByEndpoint? ==> x in s'.reqs && s'.reqs[x] == s.reqs[x]
    requires g in s'.reqs && s'.reqs[g].stage.DecidedByCache? ==> g in s.reqs && s'.reqs[g] == s.reqs[g]
    ensures ServedOk(ttl, s', g)
  {
    if g in s'.reqs && s'.reqs[g].stage.DecidedByCache? {
      var key, d := KeyOf(s.reqs[g].token, s.reqs[g].docId), s.reqs[g].stage.decision;
      var at :| Backed(s, key, d, at) && at <= s.reqs[g].stage.decidedAt <= at + ttl;
      BackedKept(s, s', key, d, at);
    }
  }

  lemma CacheKept(ttl: int, s: State, s': State)
    requires CacheOk(ttl, s) && s.now <= s'.now
    requires forall g :: g in s.reqs && s.reqs[g].stage.DecidedByEndpoint? ==> g in s'.reqs && s'.reqs[g] == s.reqs[g]
    requires forall key :: key in s'.cache ==> key in s.cache && s'.cache[key] == s.cache[key]
    ensures CacheOk(ttl, s')
  {
    forall key | key in s'.cache
      ensures Backed(s', key, Reading(s'.cache[key]), s'.cache[key].expires - ttl)
    {
      BackedKept(s, s', key, Reading(s.cache[key]), s.cache[key].expires - ttl);
    }
  }

  lemma LookKeepsOk(ttl: int, s: State, g: nat)
    requires Ok(ttl, s) && LookStep(ttl, s, g).Some?
    ensures Ok(ttl, LookStep(ttl, s, g).value)
  {
    var s' := LookStep(ttl, s, g).value;
    var key := KeyOf(s.reqs[g].token, s.reqs[g].docId);
    CacheKept(ttl, s, s');
    forall x ensures ServedOk(ttl, s', x) {
      assert ServedOk(ttl, s, x);
      if x == g && Fresh(ttl, s.cache, key, s.now) {
        var at := s.cache[key].expires - ttl;
        assert Backed(s, key, Reading(s.cache[key]), at);
        BackedKept(s, s', key, Reading(s.cache[key]), at);
        var giver :| GaveAt(s, giver, key, Reading(s.cache[key]), at);
        assert at <= s'.reqs[g].stage.decidedAt <= at + ttl;
      } else {
        ServedKept(ttl, s, s', x);
      }
    }
  }

  lemma FinishKeepsOk(ttl: int, s: State, g: nat)
    requires Ok(ttl, s) && FinishStep(ttl, s, g).Some?
    ensures Ok(ttl, FinishStep(ttl, s, g).value)
  {
    var s' := FinishStep(ttl, s, g).value;
    var key, r := KeyOf(s.reqs[g].token, s.reqs[g].docId), s.reqs[g].stage.reply;
    forall k | k in s'.cache
      ensures Backed(s', k, Reading(s'.cache[k]), s'.cache[k].expires - ttl)
    {
      if k == key && Kept(r).Some? && ttl > 0 {
        assert GaveAt(s', g, key, Reading(s'.cache[k]), s.now);
      } else {
        BackedKept(s, s', k, Reading(s.cache[k]), s.cache[k].expires - ttl);
      }
    }
    forall x ensures ServedOk(ttl, s', x) {
      assert ServedOk(ttl, s, x);
      ServedKept(ttl, s, s', x);
    }
  }

  lemma StepKeepsOk(ttl: int, s: State, a: Action)
    requires Ok(ttl, s) && Step(ttl, s, a).Some?
    ensures Ok(ttl, Step(ttl, s, a).value)
  {
    var s' := Step(ttl, s, a).value;
    match a
    case Look(g) => LookKeepsOk(ttl, s, g);
    case Finish(g) => FinishKeepsOk(ttl, s, g);
    case _ =>
      CacheKept(ttl, s, s');
      forall x ensures ServedOk(ttl, s', x) {
        assert ServedOk(ttl, s, x);
        ServedKept(ttl, s, s', x);
      }
  }

  lemma ReachableOk(ttl: int, start: int, acts: seq<Action>)
    ensures Exec(Steps(ttl), State(start, map[], map[]), acts).Some? ==>
              Ok(ttl, Exec(Steps(ttl), State(start, map[], map[]), acts).value)
  {
    forall m: State, a: Action | Ok(ttl, m) && Steps(ttl)(m, a).Some?
      ensures Ok(ttl, Steps(ttl)(m, a).value)
    {
      StepKeepsOk(ttl, m, a);
    }
    Invariance(Steps(ttl), (s: State) => Ok(ttl, s), State(start, map[], map[]), acts);
  }

  /** The cache refines the direct call: in every run with a clock that does not go back, a decision served from the
      cache is one the endpoint gave for the same token and document, kept since at most one TTL. Transport errors and
      undecodable replies are never served again, and without a positive TTL every request reaches the endpoint. */
  lemma CachedDecisionWasGiven(ttl: int, start: int, acts: seq<Action>, s: State, g: nat)
    requires Exec(Steps(ttl), State(start, map[], map[]), acts) == Some(s)
    requires forall x :: x in s.reqs ==> NUL !in s.reqs[x].token
    requires g in s.reqs && s.reqs[g].stage.DecidedByCache?
    ensures ttl > 0
    ensures exists x :: && x in s.reqs && s.reqs[x].stage.DecidedByEndpoint?
                        && s.reqs[x].token == s.reqs[g].token && s.reqs[x].docId == s.reqs[g].docId
                        && !s.reqs[x].stage.reply.TransportError?
                        && DecisionOf(s.reqs[x].stage.reply) == s.reqs[g].stage.decision
                        && s.reqs[x].stage.answeredAt <= s.reqs[x].stage.storedAt
                        && s.reqs[x].stage.storedAt <= s.reqs[g].stage.decidedAt <= s.reqs[x].stage.storedAt + ttl
  {
    ReachableOk(ttl, start, acts);
    assert ServedOk(ttl, s, g);
    var key, d := KeyOf(s.reqs[g].token, s.reqs[g].docId), s.reqs[g].stage.decision;
    var at :| Backed(s, key, d, at) && at <= s.reqs[g].stage.decidedAt <= at + ttl;
    var x :| GaveAt(s, x, key, d, at);
    KeyIsInjective(s.reqs[x].token, s.reqs[x].docId, s.reqs[g].token, s.reqs[g].docId);
    CacheNeedsTtl(ttl, start, acts, s);
  }

  /** The endpoint let the token in, as this identity. */
  predicate Granted(r: Reply, id: Identity) {
    r.Status? && r.code == 200 && r.body.Some? && r.body.value.allowed && r.body.value.identity == id
  }

  /** The endpoint refused the token, by its status or in its verdict. */
  predicate Refused(r: Reply) {
    r.Status? && (r.code != 200 || (r.body.Some? && !r.body.value.allowed))
  }

  /** Request x was for the same token and document as g. */
  ghost predicate SameRequest(s: State, g: nat, x: nat) {
    && g in s.reqs && x in s.reqs && s.reqs[x].stage.DecidedByEndpoint?
    && s.reqs[x].token == s.reqs[g].token && s.reqs[x].docId == s.reqs[g].docId
  }

  /** Nobody gets in from the cache who was not let in by the endpoint, under that identity and for that document; and
      nobody is turned away who was not refused. */
  lemma CacheLetsInOnlyTheGranted(ttl: int, start: int, acts: seq<Action>, s: State, g: nat)
    requires Exec(Steps(ttl), State(start, map[], map[]), acts) == Some(s)
    requires forall x :: x in s.reqs ==> NUL !in s.reqs[x].token
    requires g in s.reqs && s.reqs[g].stage.DecidedByCache?
    ensures var d := s.reqs[g].stage.decision;
            && !d.Fault?
            && (d.Allow? ==> exists x :: SameRequest(s, g, x) && Granted(s.reqs[x].stage.reply, d.identity))
            && (d.Deny? ==> exists x :: SameRequest(s, g, x) && Refused(s.reqs[x].stage.reply))
  {
    ReachableOk(ttl, start, acts);
    assert ServedOk(ttl, s, g);
    var key, d := KeyOf(s.reqs[g].token, s.reqs[g].docId), s.reqs[g].stage.decision;
    var at :| Backed(s, key, d, at) && at <= s.reqs[g].stage.decidedAt <= at + ttl;
    var x :| GaveAt(s, x, key, d, at);
    KeyIsInjective(s.reqs[x].token, s.reqs[x].docId, s.reqs[g].token, s.reqs[g].docId);
    assert SameRequest(s, g, x);
  }

  /** Which replies are kept, and which decision each reply is. */
  lemma RepliesDecide(r: Reply)
    ensures forall id :: DecisionOf(r) == Allow(id) <==> Granted(r, id)
    ensures DecisionOf(r) == Deny <==> r.TransportError? || Refused(r)
    ensures Kept(r).Some? <==> Refused(r) || exists id :: Granted(r, id)
  {
    if DecisionOf(r).Allow? { assert Granted(r, DecisionOf(r).identity); }
  }

  /** The TTL runs from the store, not from the endpoint's answer: a run in which a decision is served five ticks after
      it was given, under a TTL of one. */
  lemma ServedLaterThanTtl() returns (acts: seq<Action>, s: State)
    ensures Exec(Steps(1), State(0, map[], map[]), acts) == Some(s)
    ensures 0 in s.reqs && s.reqs[0].stage.DecidedByEndpoint? && s.reqs[0].stage.answeredAt == 0
    ensures 1 in s.reqs && s.reqs[1].stage.DecidedByCache? && s.reqs[1].stage.decidedAt == 5
    ensures s.reqs[0].token == s.reqs[1].token && s.reqs[0].docId == s.reqs[1].docId
  {
    acts, s := [], State(0, map[], map[]);
    acts, s := Continue(Steps(1), Empty(0), acts, s, Arrive(0, "t", "d"));
    acts, s := Continue(Steps(1), Empty(0), acts, s, Look(0));
    acts, s := Continue(Steps(1), Empty(0), acts, s, Answer(0, Status(403, None)));
    acts, s := Continue(Steps(1), Empty(0), acts, s, Tick(5));
    acts, s := Continue(Steps(1), Empty(0), acts, s, Finish(0));
    acts, s := Continue(Steps(1), Empty(0), acts, s, Arrive(1, "t", "d"));
    acts, s := Continue(Steps(1), Empty(0), acts, s, Look(1));
  }

  function Empty(start: int): State {
    State(start, map[], map[])
  }

  lemma Continue(step: (State, Action) -> Option<State>, s0: State, acts: seq<Action>, s: State, a: Action)
    returns (more: seq<Action>, s': State)
    requires Exec(step, s0, acts) == Some(s) && step(s, a).Some?
    ensures Exec(step, s0, more) == Some(s') && step(s, a) == Some(s') && more == acts + [a]
  {
    s' := step(s, a).value;
    more := acts + [a];
    Then(step, s0, acts, s, a, s');
  }

  /** In every run whose decisions are stored at the instant the endpoint gives them, whatever is served was given for
      the same token and document at most one TTL before. */
  lemma PromptStoresKeepTheTtl(ttl: int, start: int, acts: seq<Action>, s: State, g: nat)
    requires Exec(Steps(ttl), State(start, map[], map[]), acts) == Some(s)
    requires forall x :: x in s.reqs ==> NUL !in s.reqs[x].token
    requires forall x :: x in s.reqs && s.reqs[x].stage.DecidedByEndpoint? ==>
                           s.reqs[x].stage.answeredAt == s.reqs[x].stage.storedAt
    requires g in s.reqs && s.reqs[g].stage.DecidedByCache?
    ensures exists x :: && x in s.reqs && s.reqs[x].stage.DecidedByEndpoint?
                        && s.reqs[x].token == s.reqs[g].token && s.reqs[x].docId == s.reqs[g].docId
                        && DecisionOf(s.reqs[x].stage.reply) == s.reqs[g].stage.decision
                        && s.reqs[x].stage.answeredAt <= s.reqs[g].stage.decidedAt <= s.reqs[x].stage.answeredAt + ttl
  {
    CachedDecisionWasGiven(ttl, start, acts, s, g);
    var x :| && x in s.reqs && s.reqs[x].stage.DecidedByEndpoint?
             && s.reqs[x].token == s.reqs[g].token && s.reqs[x].docId == s.reqs[g].docId
             && DecisionOf(s.reqs[x].stage.reply) == s.reqs[g].stage.decision
             && s.reqs[x].stage.storedAt <= s.reqs[g].stage.decidedAt <= s.reqs[x].stage.storedAt + ttl;
  }

  /** A decision stored later than it was given can be served late: some continuation of the run answers a new request
      for the same token and document from the cache more than one TTL after the endpoint's answer. */
  lemma LateStoreIsServedLate(ttl: int, start: int, before: seq<Action>, m: State, x: nat, g: nat)
    returns (acts: seq<Action>, s: State)
    requires ttl > 0 && Exec(Steps(ttl), State(start, map[], map[]), before) == Some(m)
    requires x in m.reqs && m.reqs[x].stage.Answered? && Kept(m.reqs[x].stage.reply).Some? && g !in m.reqs
    requires m.reqs[x].stage.answeredAt < m.now
    ensures before + [Finish(x)] <= acts && Exec(Steps(ttl), State(start, map[], map[]), acts) == Some(s)
    ensures g in s.reqs && s.reqs[g].token == m.reqs[x].token && s.reqs[g].docId == m.reqs[x].docId
    ensures s.reqs[g].stage.DecidedByCache? && s.reqs[g].stage.decidedAt > m.reqs[x].stage.answeredAt + ttl
  {
    var token, docId := m.reqs[x].token, m.reqs[x].docId;
    var acts1, s1 := Continue(Steps(ttl), Empty(start), before, m, Finish(x));
    var acts2, s2 := Continue(Steps(ttl), Empty(start), acts1, s1, Tick(m.now + ttl));
    var acts3, s3 := Continue(Steps(ttl), Empty(start), acts2, s2, Arrive(g, token, docId));
    acts, s := Continue(Steps(ttl), Empty(start), acts3, s3, Look(g));
  }

  // ----- how old a served decision can be -------------------------------------------------------------------------

  /** Runs with tokens without NUL in which a decision is stored at most `lag` after the endpoint gave it. */
  function LagSteps(ttl: int, lag: nat): (State, Action) -> Option<State> {
    (s: State, a: Action) =>
      if a.Arrive? && NUL in a.token then None
      else if a.Finish? && a.g in s.reqs && s.reqs[a.g].stage.Answered? && s.now > s.reqs[a.g].stage.answeredAt + lag
           then None
      else Step(ttl, s, a)
  }

  ghost predicate LagOk(ttl: int, lag: nat, s: State) {
    && Ok(ttl, s)
    && (forall x :: x in s.reqs ==> NUL !in s.reqs[x].token)
    && (forall x :: x in s.reqs && s.reqs[x].stage.DecidedByEndpoint? ==>
                      s.reqs[x].stage.storedAt <= s.reqs[x].stage.answeredAt + lag)
  }

  /** Request x got from the endpoint, for the same token and document, what g was served at most `bound` later. */
  ghost predicate GivenWithin(s: State, g: nat, x: nat, bound: int) {
    && g in s.reqs && s.reqs[g].stage.DecidedByCache? && x in s.reqs && s.reqs[x].stage.DecidedByEndpoint?
    && s.reqs[x].token == s.reqs[g].token && s.reqs[x].docId == s.reqs[g].docId
    && DecisionOf(s.reqs[x].stage.reply) == s.reqs[g].stage.decision
    && s.reqs[x].stage.answeredAt <= s.reqs[g].stage.decidedAt <= s.reqs[x].stage.answeredAt + bound
  }

  ghost predicate AllWithin(s: State, bound: int) {
    forall g :: g in s.reqs && s.reqs[g].stage.DecidedByCache? ==> exists x :: GivenWithin(s, g, x, bound)
  }

  lemma StepKeepsLagOk(ttl: int, lag: nat, s: State, a: Action)
    requires LagOk(ttl, lag, s) && LagSteps(ttl, lag)(s, a).Some?
    ensures LagOk(ttl, lag, LagSteps(ttl, lag)(s, a).value)
  {
    StepKeepsOk(ttl, s, a);
  }

  lemma ReachableLagOk(ttl: int, lag: nat, start: int, acts: seq<Action>)
    ensures var end := Exec(LagSteps(ttl, lag), Empty(start), acts); end.Some? ==> LagOk(ttl, lag, end.value)
  {
    forall m: State, a: Action | LagOk(ttl, lag, m) && LagSteps(ttl, lag)(m, a).Some?
      ensures LagOk(ttl, lag, LagSteps(ttl, lag)(m, a).value)
    {
      StepKeepsLagOk(ttl, lag, m, a);
    }
    Invariance(LagSteps(ttl, lag), (s: State) => LagOk(ttl, lag, s), Empty(start), acts);
  }

  lemma LagBoundsAge(ttl: int, lag: nat, bound: int, s: State)
    requires LagOk(ttl, lag, s) && ttl + lag <= bound
    ensures AllWithin(s, bound)
  {
    forall g | g in s.reqs && s.reqs[g].stage.DecidedByCache?
      ensures exists x :: GivenWithin(s, g, x, bound)
    {
      assert ServedOk(ttl, s, g);
      var key, d := KeyOf(s.reqs[g].token, s.reqs[g].docId), s.reqs[g].stage.decision;
      var at :| Backed(s, key, d, at) && at <= s.reqs[g].stage.decidedAt <= at + ttl;
      var x :| GaveAt(s, x, key, d, at);
      KeyIsInjective(s.reqs[x].token, s.reqs[x].docId, s.reqs[g].token, s.reqs[g].docId);
      assert GivenWithin(s, g, x, bound);
    }
  }

  /** A run that makes full use of the lag and of the TTL. */
  lemma OldestServed(ttl: int, lag: nat) returns (acts: seq<Action>, s: State)
    requires ttl > 0
    ensures Exec(LagSteps(ttl, lag), Empty(0), acts) == Some(s)
    ensures forall bound :: bound < ttl + lag ==> !AllWithin(s, bound)
  {
    var step := LagSteps(ttl, lag);
    acts, s := [], Empty(0);
    acts, s := Continue(step, Empty(0), acts, s, Arrive(0, "t", "d"));
    acts, s := Continue(step, Empty(0), acts, s, Look(0));
    acts, s := Continue(step, Empty(0), acts, s, Answer(0, Status(403, None)));
    acts, s := Continue(step, Empty(0), acts, s, Tick(lag));
    acts, s := Continue(step, Empty(0), acts, s, Finish(0));
    acts, s := Continue(step, Empty(0), acts, s, Arrive(1, "t", "d"));
    acts, s := Continue(step, Empty(0), acts, s, Tick(lag + ttl));
    acts, s := Continue(step, Empty(0), acts, s, Look(1));
    assert 1 in s.reqs && s.reqs[1].stage.DecidedByCache? && s.reqs[1].stage.decidedAt == lag + ttl;
    assert forall x, bound :: GivenWithin(s, 1, x, bound) ==> x == 0 && lag + ttl <= bound;
  }

  /** How old a served decision can be: in all runs whose stores lag at most `lag` behind the answers, everything served
      was given at most `bound` before if and only if the bound is at least the TTL and the lag together. So one TTL is
      enough if and only if every decision is stored at the instant it is given. */
  lemma AgeIsWithinExactlyWhen(ttl: int, lag: nat, bound: int)
    requires ttl > 0
    ensures (forall start, acts, s :: Exec(LagSteps(ttl, lag), Empty(start), acts) == Some(s) ==> AllWithin(s, bound))
            <==> ttl + lag <= bound
  {
    if ttl + lag <= bound {
      forall start, acts, s | Exec(LagSteps(ttl, lag), Empty(start), acts) == Some(s)
        ensures AllWithin(s, bound)
      {
        ReachableLagOk(ttl, lag, start, acts);
        LagBoundsAge(ttl, lag, bound, s);
      }
    } else {
      var acts, s := OldestServed(ttl, lag);
      assert !AllWithin(s, bound);
    }
  }

  ghost predicate NoneFromCache(s: State) {
    s.cache == map[] && forall g :: g in s.reqs ==> !s.reqs[g].stage.DecidedByCache?
  }

  lemma CacheNeedsTtl(ttl: int, start: int, acts: seq<Action>, s: State)
    requires Exec(Steps(ttl), State(start, map[], map[]), acts) == Some(s)
    ensures ttl <= 0 ==> NoneFromCache(s)
  {
    if ttl <= 0 {
      Invariance(Steps(ttl), (m: State) => NoneFromCache(m), State(start, map[], map[]), acts);
    }
  }
}
