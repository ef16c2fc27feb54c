/**
 The arbiter loop of cmd/api/http/limiter.go: one task that takes events off
 the request and release channels one at a time. Each event is one atomic
 step here, and the properties below are stated over arbitrary sequences of
 such steps: the history the arbiter loop would produce if every mutation
 went through it. The Go code does not quite do that (the regrant a release
 spawns and ReleaseAll mutate outside the loop), so the bounds hold for this
 serialised model, not for every Go execution.
 */
module Arbiter {
  import opened Wrappers
  import opened Limiter

  /** What can change the manager: an acquire (a send on inChan) or a release
      (a send on releaseChan, possibly of a nil token), both handled by the
      arbiter, or a ReleaseAll, which runs on the caller's goroutine under the
      manager's mutex and is therefore also one atomic step. */
  datatype Event = AcquireRequest | ReleaseRequest(token: Option<Token>) | ReleaseAllRequest

  /** One event applied to the manager: the arbiter's two handlers, or the
      mutex-guarded ReleaseAll. */
  function Apply(m: Manager, e: Event): (s: Step)
    requires Valid(m)
    ensures Valid(s.m) && s.m.limit == m.limit && NoReuse(m, s.m)
    ensures s.granted.Some? ==> m.nextId <= s.granted.value.id < s.m.nextId
  {
    match e
    case AcquireRequest => TryGenerateToken(m)
    case ReleaseRequest(t) => ReleaseToken(m, t)
    case ReleaseAllRequest => Step(ReleaseAll(m).m, None)
  }

  /** The manager after a whole sequence of events. */
  function Run(m: Manager, events: seq<Event>): (r: Manager)
    requires Valid(m)
    ensures Valid(r) && r.limit == m.limit && NoReuse(m, r)
    decreases |events|
  {
    if events == [] then m else Run(Apply(m, events[0]).m, events[1..])
  }

  /** The tokens a sequence of events hands out, in order: one per acquire
      that finds room and one per release that converts pending demand. */
  function Grants(m: Manager, events: seq<Event>): (gs: seq<Token>)
    requires Valid(m)
    ensures |gs| <= |events|
    decreases |events|
  {
    if events == [] then []
    else
      var s := Apply(m, events[0]);
      Emitted(s) + Grants(s.m, events[1..])
  }

  /** The token one step sends to a waiting acquirer, as a sequence of at
      most one. */
  function Emitted(s: Step): (out: seq<Token>)
    ensures s.granted.None? <==> out == []
    ensures s.granted.Some? ==> out == [s.granted.value]
  {
    if s.granted.Some? then [s.granted.value] else []
  }

  /** Every token a sequence of events hands out is fresher than the ids
      handed out before it, and they come out in increasing order, so no two
      are alike and none was ever outstanding before. */
  lemma {:induction false} GrantsAreFreshInOrder(m: Manager, events: seq<Event>)
    requires Valid(m)
    ensures FreshInOrder(Grants(m, events), m.nextId, Run(m, events).nextId)
    decreases |events|
  {
    if events != [] {
      var s := Apply(m, events[0]);
      var rest := Grants(s.m, events[1..]);
      GrantsAreFreshInOrder(s.m, events[1..]);
      if s.granted.Some? {
        PrependFreshInOrder(s.granted.value, rest, m.nextId, s.m.nextId, Run(m, events).nextId);
      } else {
        WidenFreshInOrder(rest, m.nextId, s.m.nextId, Run(m, events).nextId);
        assert Emitted(s) + rest == rest;
      }
    }
  }

  /** Tokens whose ids lie in [lo, hi) and strictly increase along the sequence. */
  predicate FreshInOrder(grants: seq<Token>, lo: nat, hi: nat)
  {
    && (forall i :: 0 <= i < |grants| ==> lo <= grants[i].id < hi)
    && (forall i, j :: 0 <= i < j < |grants| ==> grants[i].id < grants[j].id)
  }

  /** Such a sequence stays one when its lower bound is lowered. */
  lemma WidenFreshInOrder(gs: seq<Token>, lo: nat, mid: nat, hi: nat)
    requires lo <= mid && FreshInOrder(gs, mid, hi)
    ensures FreshInOrder(gs, lo, hi)
  {
  }

  /** A token below the old bound prepends to such a sequence. */
  lemma PrependFreshInOrder(g: Token, rest: seq<Token>, lo: nat, mid: nat, hi: nat)
    requires lo <= g.id < mid <= hi && FreshInOrder(rest, mid, hi)
    ensures FreshInOrder([g] + rest, lo, hi)
  {
  }

  /** The arbiter loop itself: drains the events in order and collects the
      tokens it sends to waiting acquirers. Every token it hands out is fresh
      and no two are alike. */
  method Serve(m0: Manager, events: seq<Event>) returns (m: Manager, grants: seq<Token>)
    requires Valid(m0)
    ensures m == Run(m0, events)
    ensures grants == Grants(m0, events)
    ensures |grants| <= |events|
    ensures FreshInOrder(grants, m0.nextId, m.nextId)
  {
    m := m0;
    grants := [];
    var k := 0;
    while k < |events|
      invariant 0 <= k <= |events|
      invariant Valid(m)
      invariant Run(m0, events) == Run(m, events[k..])
      invariant Grants(m0, events) == grants + Grants(m, events[k..])
    {
      var s := Apply(m, events[k]);
      RunFrom(m, events, k);
      grants := grants + Emitted(s);
      m := s.m;
      k := k + 1;
    }
    assert events[k..] == [];
    assert grants + [] == grants;
    GrantsAreFreshInOrder(m0, events);
  }

  /** Running the events from position k is one event followed by the rest. */
  lemma RunFrom(m: Manager, events: seq<Event>, k: nat)
    requires Valid(m) && k < |events|
    ensures Run(m, events[k..]) == Run(Apply(m, events[k]).m, events[k + 1..])
    ensures Grants(m, events[k..]) == Emitted(Apply(m, events[k])) + Grants(Apply(m, events[k]).m, events[k + 1..])
  {
  }

  /** The releases ReleaseAll queues are no-ops wherever the arbiter delivers
      them: whatever events are processed first, each queued id takes the
      "not in use" branch and changes neither the active set nor the demand. */
  lemma QueuedReleasesAreNoOps(m: Manager, before: seq<Event>, t: Token)
    requires Valid(m) && t.id in ReleaseAll(m).queued
    ensures var later := Run(ReleaseAll(m).m, before);
            ReleaseToken(later, Some(t)) == Step(later, None)
  {
  }

  /** Pending demand exists only while every slot is taken. */
  predicate WorkConserving(m: Manager)
  {
    m.needToken > 0 ==> |m.active| == m.limit
  }

  /** Acquire and release keep the manager work conserving. */
  lemma ApplyKeepsWorkConserving(m: Manager, e: Event)
    requires Valid(m) && WorkConserving(m) && e != ReleaseAllRequest
    ensures WorkConserving(Apply(m, e).m)
  {
  }

  /** Without ReleaseAll, demand is only ever pending while the manager is
      full: a release with demand pending always hands its slot on. */
  lemma {:induction false} RunIsWorkConserving(m: Manager, events: seq<Event>)
    requires Valid(m) && WorkConserving(m)
    requires forall i :: 0 <= i < |events| ==> events[i] != ReleaseAllRequest
    ensures WorkConserving(Run(m, events))
    decreases |events|
  {
    if events != [] {
      ApplyKeepsWorkConserving(m, events[0]);
      RunIsWorkConserving(Apply(m, events[0]).m, events[1..]);
    }
  }

  /** ReleaseAll breaks that: it frees every slot but leaves the pending
      demand in place, and the releases it queues cannot hand slots on. */
  lemma ReleaseAllStrandsDemand(m: Manager, before: seq<Event>, t: Token)
    requires Valid(m) && AwaitingToken(m) && t.id in m.active
    ensures var cleared := ReleaseAll(m).m;
            && !WorkConserving(cleared)
            && ReleaseToken(Run(cleared, before), Some(t)).granted.None?
  {
    QueuedReleasesAreNoOps(m, before, t);
  }

  /** Every state reachable from construction keeps the limit and a
      non-negative demand, and, without ReleaseAll, is work conserving. */
  lemma ReachableStatesAreBounded(limit: int, events: seq<Event>)
    requires limit > 0
    ensures var m := Run(NewMaxConcurrencyRateLimiter(limit).value, events);
            |m.active| <= limit && m.needToken >= 0
    ensures (forall i :: 0 <= i < |events| ==> events[i] != ReleaseAllRequest) ==>
              WorkConserving(Run(NewMaxConcurrencyRateLimiter(limit).value, events))
  {
    if forall i :: 0 <= i < |events| ==> events[i] != ReleaseAllRequest {
      RunIsWorkConserving(NewMaxConcurrencyRateLimiter(limit).value, events);
    }
  }

  /** Without ReleaseAll, load is conserved: every acquire adds one unit
      (a grant or pending demand) and every effective release removes one. */
  lemma {:induction false} LoadCountsUnfinishedAcquires(m: Manager, events: seq<Event>)
    requires Valid(m)
    requires forall i :: 0 <= i < |events| ==> events[i] != ReleaseAllRequest
    ensures Load(Run(m, events)) == Load(m) + Acquires(events) - EffectiveReleases(m, events)
    decreases |events|
  {
    if events != [] {
      LoadCountsUnfinishedAcquires(Apply(m, events[0]).m, events[1..]);
    }
  }

  /** How many acquires a sequence of events holds. */
  function Acquires(events: seq<Event>): nat
  {
    if events == [] then 0
    else (if events[0] == AcquireRequest then 1 else 0) + Acquires(events[1..])
  }

  /** How many releases in a sequence of events find their token outstanding. */
  function EffectiveReleases(m: Manager, events: seq<Event>): nat
    requires Valid(m)
    decreases |events|
  {
    if events == [] then 0
    else
      var e := events[0];
      var hit := e.ReleaseRequest? && e.token.Some? && e.token.value.id in m.active;
      (if hit then 1 else 0) + EffectiveReleases(Apply(m, e).m, events[1..])
  }

  /** An acquire followed by the release of the token it was granted, with
      nothing pending and room to spare, restores the active set and the
      demand. */
  lemma AcquireReleaseRoundTrip(m: Manager)
    requires Valid(m) && m.needToken == 0 && |m.active| < m.limit
    ensures var s := Apply(m, AcquireRequest);
            && s.granted.Some?
            && var back := Apply(s.m, ReleaseRequest(s.granted)).m;
               back.active == m.active && back.needToken == m.needToken
  {
  }

  /** Limit 2: two acquires are granted, a third waits, and releasing the
      first token hands its slot to the waiter; the ratio goes 0, 0.5, 0. */
  lemma TwoSlotScenario()
    ensures var m0 := NewMaxConcurrencyRateLimiter(2).value;
            var s1 := Apply(m0, AcquireRequest);
            var s2 := Apply(s1.m, AcquireRequest);
            var s3 := Apply(s2.m, AcquireRequest);
            var s4 := Apply(s3.m, ReleaseRequest(s1.granted));
            && s1.granted.Some? && s2.granted.Some? && s3.granted.None?
            && |s2.m.active| == 2 && LimitExceededPerc(s2.m) == 0.0
            && s3.m.needToken == 1 && LimitExceededPerc(s3.m) == 0.5
            && s4.granted.Some? && s4.m.needToken == 0 && |s4.m.active| == 2
            && LimitExceededPerc(s4.m) == 0.0
  {
  }
}
