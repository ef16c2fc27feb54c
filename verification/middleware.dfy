/**
 The request pipeline of the guarded route (cmd/api/http/router.go:17-20):
 rateLimiter acquires one token and attaches it to the request, faulty sheds
 the request in proportion to the overload ratio, and the handler does its
 work and releases the token. The random draw of the gate is a parameter.
 */
module Middleware {
  import opened Wrappers
  import opened Limiter
  import opened Arbiter

  /** What the acquire protocol can deliver to the caller: a token (outChan),
      nothing yet (the caller stays blocked), or an error (errorChan). */
  datatype AcquireReply = Granted(token: Token) | Waiting | AcquireError

  /** The manager after an acquire, and the reply the caller sees. */
  datatype Acquired = Acquired(m: Manager, reply: AcquireReply)

  /** Acquire as seen from the caller: exactly one request event. Nothing in
      the manager ever sends on the error channel. */
  function Acquire(m: Manager): (a: Acquired)
    requires Valid(m)
    ensures a.m == Apply(m, AcquireRequest).m
    ensures !a.reply.AcquireError?
    ensures a.reply.Granted? <==> !IsLimitExceeded(m)
    ensures a.reply.Granted? ==> a.reply.token.id !in m.active && a.reply.token.id in a.m.active
  {
    var s := TryGenerateToken(m);
    match s.granted
    case Some(t) => Acquired(s.m, Granted(t))
    case None => Acquired(s.m, Waiting)
  }

  /** The outcome of the rateLimiter middleware: the request proceeds with a
      token in its context, stays blocked in Acquire, or panics on an
      acquire error. */
  datatype Admission = Admitted(m: Manager, ctxToken: Token) | Blocked(m: Manager) | Panicked

  /** rateLimiter: one acquire per request, its token attached to the
      request, and the panic branch never taken. */
  function RateLimiter(m: Manager): (a: Admission)
    requires Valid(m)
    ensures !a.Panicked?
    ensures a.m == Apply(m, AcquireRequest).m
    ensures a.Admitted? <==> !IsLimitExceeded(m)
    ensures a.Admitted? ==> Some(a.ctxToken) == Apply(m, AcquireRequest).granted
  {
    var acq := Acquire(m);
    match acq.reply
    case AcquireError => Panicked
    case Waiting => Blocked(acq.m)
    case Granted(t) => Admitted(acq.m, t)
  }

  /** The shed decision of faulty for overload ratio `ratio` and draw
      `check`. No ratio at or below 0 sheds, and for a draw in [0, 1)
      shedding is exactly "the ratio beats the draw". */
  function Shed(ratio: real, check: real): (shed: bool)
    ensures ratio <= 0.0 ==> !shed
    ensures 0.0 <= check < 1.0 ==> (shed <==> ratio > check)
  {
    ratio > 0.0 && ratio > check
  }

  /** No pending demand means the ratio is 0 and no request is shed. */
  lemma NoDemandNeverSheds(m: Manager, check: real)
    requires Valid(m) && m.needToken == 0
    ensures !Shed(LimitExceededPerc(m), check)
  {
  }

  /** Once pending demand reaches the limit (twice the admitted volume), every
      draw in [0, 1) sheds the request. */
  lemma OverloadShedsEveryDraw(m: Manager, check: real)
    requires Valid(m) && m.needToken >= m.limit
    requires 0.0 <= check < 1.0
    ensures Shed(LimitExceededPerc(m), check)
  {
  }

  /** Below that, any pending demand sheds some draws and spares others: the
      draw 0 is shed and a draw equal to the ratio is not. */
  lemma PartialOverloadShedsSome(m: Manager)
    requires Valid(m) && 0 < m.needToken < m.limit
    ensures var r := LimitExceededPerc(m);
            && 0.0 < r < 1.0
            && Shed(r, 0.0)
            && !Shed(r, r)
  {
  }

  /** What the faulty middleware did: the manager afterwards, whether `next`
      ran, and the token it released, if any. */
  datatype Gate = Gate(m: Manager, callsNext: bool, released: Option<Token>)

  /** faulty: read the ratio; a shed request gets a 500, its own token is
      released, and `next` is not called; otherwise the request passes on
      untouched. */
  function Faulty(m: Manager, ctxToken: Token, check: real): (g: Gate)
    requires Valid(m)
    ensures Valid(g.m)
    ensures g.callsNext <==> !Shed(LimitExceededPerc(m), check)
    ensures g.callsNext ==> g.m == m && g.released.None?
    ensures !g.callsNext ==>
              && g.released == Some(ctxToken)
              && g.m == Apply(m, ReleaseRequest(Some(ctxToken))).m
              && ctxToken.id !in g.m.active
  {
    var ratio := LimitExceededPerc(m);
    if ratio > 0.0 && ratio > check then
      Gate(ReleaseToken(m, Some(ctxToken)).m, false, Some(ctxToken))
    else
      Gate(m, true, None)
  }

  /** The response the client sees; a blocked request has not answered yet. */
  datatype Response = Pending | Ok | InternalServerError

  /** One request through the guarded route, with the releases it issued. */
  datatype Handled = Handled(m: Manager, response: Response, released: seq<Token>)

  /** The route after admission, for a request that holds token `t`: the
      events `beforeGate` of other requests reach the manager, faulty decides
      on draw `check`, and a request that passes does its work while the
      events `duringWork` are processed, then getData releases `t`. This
      serves a request admitted at once and a waiter that a release's regrant
      woke up alike. */
  function Resume(m: Manager, t: Token, beforeGate: seq<Event>, check: real, duringWork: seq<Event>): (h: Handled)
    requires Valid(m)
    ensures Valid(h.m)
    ensures h.response != Pending
    ensures h.released == [t]
    ensures t.id !in h.m.active
    ensures h.response == InternalServerError <==> Shed(LimitExceededPerc(Run(m, beforeGate)), check)
    ensures h.response == InternalServerError ==>
              h.m == Apply(Run(m, beforeGate), ReleaseRequest(Some(t))).m
    ensures h.response == Ok ==>
              h.m == Apply(Run(Run(m, beforeGate), duringWork), ReleaseRequest(Some(t))).m
  {
    var g := Faulty(Run(m, beforeGate), t, check);
    if !g.callsNext then
      Handled(g.m, InternalServerError, [t])
    else
      Handled(ReleaseToken(Run(g.m, duringWork), Some(t)).m, Ok, [t])
  }

  /** One request through rateLimiter, faulty and getData. A request that
      finds the manager full stays Pending in Acquire; one admitted at once
      goes on through Resume. */
  function HandleData(m: Manager, beforeGate: seq<Event>, check: real, duringWork: seq<Event>): (h: Handled)
    requires Valid(m)
    ensures Valid(h.m)
    ensures h.response == Pending <==> IsLimitExceeded(m)
    ensures h.response == Pending ==> h.released == [] && h.m == Apply(m, AcquireRequest).m
    ensures h.response != Pending ==>
              && Apply(m, AcquireRequest).granted.Some?
              && h.released == [Apply(m, AcquireRequest).granted.value]
              && h.released[0].id !in h.m.active
    ensures h.response == InternalServerError <==>
              !IsLimitExceeded(m)
              && Shed(LimitExceededPerc(Run(Apply(m, AcquireRequest).m, beforeGate)), check)
    ensures h.response == InternalServerError ==>
              h.m == Apply(Run(Apply(m, AcquireRequest).m, beforeGate), ReleaseRequest(Apply(m, AcquireRequest).granted)).m
    ensures h.response == Ok ==>
              h.m == Apply(Run(Run(Apply(m, AcquireRequest).m, beforeGate), duringWork),
                           ReleaseRequest(Apply(m, AcquireRequest).granted)).m
  {
    match RateLimiter(m)
    case Panicked => Handled(m, InternalServerError, [])
    case Blocked(m1) => Handled(m1, Pending, [])
    case Admitted(m1, t) => Resume(m1, t, beforeGate, check, duringWork)
  }

  /** A request that found the manager full is not refused. When a holder
      releases its token, the regrant turns the waiter's unit of demand into
      a fresh token, and the waiter then runs the rest of the route and
      releases exactly that token. */
  lemma WaiterResumesOnRegrant(m: Manager, held: Token, beforeGate: seq<Event>, check: real, duringWork: seq<Event>)
    requires Valid(m) && IsLimitExceeded(m) && held.id in m.active
    ensures var waiting := HandleData(m, beforeGate, check, duringWork);
            var s := Apply(waiting.m, ReleaseRequest(Some(held)));
            && waiting.response == Pending
            && waiting.m.needToken == m.needToken + 1
            && s.granted.Some?
            && s.granted.value.id !in m.active
            && s.m.needToken == m.needToken
            && s.m.active == (m.active - {held.id}) + {s.granted.value.id}
            && var h := Resume(s.m, s.granted.value, beforeGate, check, duringWork);
               h.released == [s.granted.value] && s.granted.value.id !in h.m.active
  {
  }

  /** An uncontended request on a work-conserving manager with room is never
      shed, and leaves the active set and the demand as it found them. */
  lemma UncontendedRequestRoundTrip(m: Manager, check: real)
    requires Valid(m) && WorkConserving(m) && !IsLimitExceeded(m)
    ensures var h := HandleData(m, [], check, []);
            && h.response == Ok
            && h.m.active == m.active
            && h.m.needToken == m.needToken
  {
  }
}
