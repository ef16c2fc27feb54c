/**
 The admission manager of cmd/api/http/limiter.go as a sequential state
 machine: each event is modelled as one atomic transition on an immutable
 record. Goroutine hops (the asynchronous sends on inChan, outChan and
 releaseChan, and the regrant spawned by a release) are collapsed into the
 transition that triggers them. In the Go code the regrant and ReleaseAll
 run outside the arbiter goroutine, so the invariant proved here holds for
 this serialised model, not for every Go execution.
 */
module Limiter {
  import opened Wrappers

  /** Token ids. The Go code draws a fresh uuid per grant; here the manager
      hands out ids from a counter, which gives the same freshness. */
  type TokenId = nat

  /** One unit of granted admission. The creation time is informational only
      and is not modelled. */
  datatype Token = Token(id: TokenId)

  /** The only construction error: a limit that is not positive. */
  datatype ConfigError = InvalidRateLimit

  /** Manager state: the ids of outstanding tokens (the keys of activeTokens),
      the pending-demand counter, the limit, and the next fresh id. */
  datatype Manager = Manager(active: set<TokenId>, needToken: int, limit: int, nextId: TokenId)

  /** The invariant every reachable manager keeps. */
  predicate Valid(m: Manager)
  {
    && m.limit > 0
    && m.needToken >= 0
    && |m.active| <= m.limit
    && (forall id :: id in m.active ==> id < m.nextId)
  }

  /** An id that was handed out once and is no longer outstanding. */
  predicate Retired(m: Manager, id: TokenId)
  {
    id < m.nextId && id !in m.active
  }

  /** Outstanding admissions plus pending demand: the load the manager carries. */
  function Load(m: Manager): int
  {
    |m.active| + m.needToken
  }

  /** The state change of one arbiter event, and the token it hands out (the
      value the Go code sends on outChan), if any. */
  datatype Step = Step(m: Manager, granted: Option<Token>)

  /** A transition never reuses an id: whatever is outstanding afterwards was
      outstanding before or is fresher than every id handed out so far. */
  predicate NoReuse(m: Manager, m': Manager)
  {
    && m.nextId <= m'.nextId
    && (forall id :: id in m'.active ==> id in m.active || m.nextId <= id)
  }

  /** Construction of an empty manager, without the limit check. */
  function NewManager(limit: int): (m: Manager)
    ensures Valid(m) <==> limit > 0
    ensures m.active == {} && m.needToken == 0 && m.limit == limit
  {
    Manager({}, 0, limit, 0)
  }

  /** Construction with the limit check: fails exactly on a non-positive
      limit, and otherwise yields a valid, empty manager. */
  function NewMaxConcurrencyRateLimiter(limit: int): (r: Result<Manager, ConfigError>)
    ensures r.Success? <==> limit > 0
    ensures r.Failure? ==> r.error == InvalidRateLimit
    ensures r.Success? ==> Valid(r.value) && r.value.limit == limit
    ensures r.Success? ==> r.value.active == {} && r.value.needToken == 0
  {
    if limit <= 0 then Failure(InvalidRateLimit) else Success(NewManager(limit))
  }

  /** True when no further token may be granted. Under the invariant the
      manager can never hold more than `limit`, so "exceeded" means "full". */
  function IsLimitExceeded(m: Manager): (full: bool)
    ensures Valid(m) ==> (full <==> |m.active| == m.limit)
    ensures !full ==> |m.active| < m.limit
  {
    |m.active| >= m.limit
  }

  /** True when some acquire is waiting for a release, which is exactly when
      the overload ratio is positive. */
  function AwaitingToken(m: Manager): (waiting: bool)
    ensures waiting ==> DecNeedToken(m).needToken >= 0
    ensures m.limit > 0 ==> (waiting <==> LimitExceededPerc(m) > 0.0)
  {
    m.needToken > 0
  }

  /** One more unit of pending demand; nothing else changes. */
  function IncNeedToken(m: Manager): (r: Manager)
    ensures r.active == m.active && r.limit == m.limit && r.nextId == m.nextId
    ensures r.needToken == m.needToken + 1
    ensures Valid(m) ==> Valid(r) && Load(r) == Load(m) + 1
  {
    m.(needToken := m.needToken + 1)
  }

  /** One unit of pending demand fewer; guarded by AwaitingToken it keeps the
      invariant, and IncNeedToken undoes it. */
  function DecNeedToken(m: Manager): (r: Manager)
    ensures r.active == m.active && r.limit == m.limit && r.nextId == m.nextId
    ensures r.needToken == m.needToken - 1
    ensures Valid(m) && m.needToken > 0 ==> Valid(r)
    ensures IncNeedToken(r) == m
  {
    m.(needToken := m.needToken - 1)
  }

  /** A request event: grant a fresh token if the limit allows, otherwise
      record one unit of pending demand. */
  function TryGenerateToken(m: Manager): (s: Step)
    requires Valid(m)
    ensures Valid(s.m) && s.m.limit == m.limit && NoReuse(m, s.m)
    ensures s.granted.Some? <==> !IsLimitExceeded(m)
    ensures s.granted.None? ==> s.m.active == m.active && s.m.needToken == m.needToken + 1
    ensures s.granted.Some? ==>
              && s.granted.value.id !in m.active
              && m.nextId <= s.granted.value.id < s.m.nextId
              && s.m.active == m.active + {s.granted.value.id}
              && s.m.needToken == m.needToken
    ensures Load(s.m) == Load(m) + 1
  {
    if IsLimitExceeded(m) then
      Step(IncNeedToken(m), None)
    else
      var t := Token(m.nextId);
      Step(m.(active := m.active + {t.id}, nextId := m.nextId + 1), Some(t))
  }

  /** A release event. A nil token, or one whose id is not outstanding, is a
      no-op (logged in the Go code). Otherwise the id is dropped and, if
      demand is pending, one unit of demand is converted into a fresh grant. */
  function ReleaseToken(m: Manager, t: Option<Token>): (s: Step)
    requires Valid(m)
    ensures Valid(s.m) && s.m.limit == m.limit && NoReuse(m, s.m)
    ensures t.None? || t.value.id !in m.active ==> s == Step(m, None)
    ensures t.Some? ==> t.value.id !in s.m.active
    ensures t.Some? && t.value.id in m.active && !AwaitingToken(m) ==>
              && s.granted.None?
              && s.m.active == m.active - {t.value.id}
              && s.m.needToken == m.needToken
              && |s.m.active| == |m.active| - 1
    ensures t.Some? && t.value.id in m.active && AwaitingToken(m) ==>
              && s.granted.Some?
              && s.granted.value.id !in m.active
              && m.nextId <= s.granted.value.id < s.m.nextId
              && s.m.active == (m.active - {t.value.id}) + {s.granted.value.id}
              && s.m.needToken == m.needToken - 1
              && |s.m.active| == |m.active|
    ensures s.granted.Some? ==> m.nextId <= s.granted.value.id < s.m.nextId
    ensures Load(s.m) == if t.Some? && t.value.id in m.active then Load(m) - 1 else Load(m)
  {
    match t
    case None => Step(m, None)
    case Some(tok) =>
      if tok.id !in m.active then
        Step(m, None)
      else
        var freed := m.(active := m.active - {tok.id});
        if AwaitingToken(freed) then
          TryGenerateToken(DecNeedToken(freed))
        else
          Step(freed, None)
  }

  /** The outcome of ReleaseAll: the cleared manager and the ids whose
      release it queued for the arbiter. */
  datatype Reset = Reset(m: Manager, queued: set<TokenId>)

  /** Clears every outstanding token and queues a release for each. The
      queued releases are delivered only after the map has been cleared, so
      every queued id is already retired when its release arrives. */
  function ReleaseAll(m: Manager): (r: Reset)
    requires Valid(m)
    ensures Valid(r.m) && r.m.limit == m.limit && NoReuse(m, r.m)
    ensures r.m.active == {} && r.m.needToken == m.needToken
    ensures r.queued == m.active
    ensures forall id :: id in r.queued ==> Retired(r.m, id)
  {
    Reset(m.(active := {}), m.active)
  }

  /** The overload ratio, pending demand over the limit, as an exact rational. */
  function LimitExceededPerc(m: Manager): (r: real)
    requires m.limit > 0
    ensures r * (m.limit as real) == m.needToken as real
    ensures m.needToken >= 0 ==> r >= 0.0
    ensures r == 0.0 <==> m.needToken == 0
    ensures r >= 1.0 <==> m.needToken >= m.limit
  {
    (m.needToken as real) / (m.limit as real)
  }
}
