# Admission manager of faulty-api, in Dafny

This project models the token-based concurrency limiter of faulty-api and the
fault-injection middleware that reads its overload signal.

The manager tracks three things:

- the set of outstanding token ids (`activeTokens` in the Go code);
- a pending-demand counter (`needToken`);
- a positive `limit`.

One arbiter goroutine handles every request and release event. `ReleaseAll`
runs on the caller's goroutine under the manager's mutex. So the manager is
modelled as a sequential state machine over an immutable `Manager` record:

- `TryGenerateToken` is a request: it grants a fresh token, or records one unit of demand when full.
- `ReleaseToken` is a release: it drops a tracked token and, when demand is pending, hands the slot to a fresh grant.
- `ReleaseAll` clears the map and queues a release for each cleared token.
- `LimitExceededPerc` is the overload ratio `needToken / limit`.

The `Arbiter` module runs arbitrary event sequences through these transitions.
Each transition is one atomic step, so a sequence is the history the arbiter
loop would produce if every mutation went through it. The Go code also has goroutines that act outside the
arbiter: the regrant at limiter.go:155 is one. Those histories are not all
such sequences, and the bound below holds for the model, not for every Go
execution (see "## Left out"). The properties proved over all sequences are:

- the limit is never exceeded and demand never goes negative;
- token ids are never reused;
- releases queued by `ReleaseAll` are no-ops wherever they are delivered;
- without `ReleaseAll`, demand is pending only while every slot is taken;
- without `ReleaseAll`, load (outstanding tokens plus pending demand) changes by the number of acquires minus the number of effective releases.

The `Middleware` module models one request on the guarded route:

1. `rateLimiter` acquires a token.
2. A request that finds the manager full waits until a release's regrant hands it a token.
3. Other requests' events may interleave.
4. `faulty` sheds the request iff `ratio > 0` and `ratio > check`.
5. `getData` works while other events interleave, then releases the token.

Every request that holds a token, whether admitted at once or woken by a
regrant, releases exactly that token exactly once.

Modelling choices:

- Token ids come from a counter (`nextId`) in place of uuids.
- The ratio is an exact `real`.
- The gate's random draw `check` is a parameter.

Files:

- `wrappers.dfy`: `Option` and `Result`.
- `limiter.dfy`: the manager's state and transitions.
- `arbiter.dfy`: the event loop and the properties over event sequences.
- `middleware.dfy`: the request pipeline.

## Model

| member | source | states |
|---|---|---|
| `Limiter.NewManager` | cmd/api/http/limiter.go:48-64 | A fresh manager has no active tokens and no demand. It satisfies the manager invariant exactly when its limit is positive. |
| `Limiter.NewMaxConcurrencyRateLimiter` | cmd/api/http/limiter.go:25-30 | Construction succeeds iff `limit > 0`. A failure is the invalid-rate-limit error. A success is a valid empty manager with that limit and zero demand. |
| `Limiter.IsLimitExceeded` | cmd/api/http/limiter.go:128-136 | Under the invariant, "exceeded" means exactly that the manager is full. When it is not exceeded there is room for one more token. |
| `Limiter.AwaitingToken` | cmd/api/http/limiter.go:118-120 | Demand is awaited exactly when the overload ratio is positive. When it holds, one decrement keeps demand non-negative. |
| `Limiter.IncNeedToken` | cmd/api/http/limiter.go:110-112 | Demand grows by exactly 1 and nothing else changes. The invariant is kept and load grows by 1. |
| `Limiter.DecNeedToken` | cmd/api/http/limiter.go:114-116 | Demand drops by exactly 1 and nothing else changes. Applied to a valid manager with demand pending, it keeps the invariant. IncNeedToken undoes it. |
| `Limiter.TryGenerateToken` | cmd/api/http/limiter.go:159-174 | A grant happens iff the manager is below its limit. A grant adds exactly one id, fresh and never outstanding, and leaves demand alone. Otherwise the active set is unchanged and demand grows by exactly 1. Either way the invariant holds and load grows by 1. |
| `Limiter.ReleaseToken` | cmd/api/http/limiter.go:138-157 | A nil or untracked token changes nothing and grants nothing. A tracked token's id is removed. With demand pending, demand drops by 1 and a fresh id takes the slot, so the size is unchanged. Otherwise the size drops by 1. Afterwards the released id is never active, the invariant holds, and load drops by exactly 1 on an effective release. |
| `Limiter.ReleaseAll` | cmd/api/http/limiter.go:97-104 | The active set becomes empty and demand is untouched. The queued releases are exactly the previously active ids, and each is already retired when the arbiter can see it. |
| `Limiter.LimitExceededPerc` | cmd/api/http/limiter.go:122-126 | The ratio times the limit equals the demand. The ratio is non-negative, is 0 iff nothing is pending, and is at least 1 iff demand reaches the limit. |
| `Arbiter.Apply` | cmd/api/http/limiter.go:33-44 | Each atomic step keeps the invariant and the limit, and never reuses an id. The step is one of the arbiter's two handlers or the mutex-guarded ReleaseAll. A grant is always fresher than every earlier id. |
| `Arbiter.Run` | cmd/api/http/limiter.go:33-44 | Any sequence of events keeps the number of active tokens within the limit, the demand non-negative and the limit positive, and never reuses an id. |
| `Arbiter.Serve` | cmd/api/http/limiter.go:33-44 | The arbiter loop reaches the same state as the event sequence. It returns exactly the tokens the events grant, in order. There are at most one per event, and they are fresh and pairwise distinct, in increasing order. |
| `Arbiter.GrantsAreFreshInOrder` | cmd/api/http/limiter.go:153-173 | Every token a sequence of events sends to an acquirer has an id above all ids handed out before the sequence. The ids increase along the sequence, so no two grants share an id. |
| `Arbiter.QueuedReleasesAreNoOps` | cmd/api/http/limiter.go:97-104 | Each release queued by ReleaseAll takes the "not in use" branch, whatever is processed before it, and changes neither the active set nor the demand. This holds because an id that was handed out and then dropped never becomes outstanding again. |
| `Arbiter.ApplyKeepsWorkConserving` | cmd/api/http/limiter.go:150-156 | A request or release keeps the rule that demand is pending only while every slot is taken. |
| `Arbiter.RunIsWorkConserving` | cmd/api/http/limiter.go:153-155 | Over any sequence without ReleaseAll, demand is pending only while the manager is full. |
| `Arbiter.ReleaseAllStrandsDemand` | cmd/api/http/limiter.go:97-104 | After ReleaseAll with demand pending, slots are free while demand waits. None of the queued releases grants a waiter a token. |
| `Arbiter.ReachableStatesAreBounded` | cmd/api/http/limiter.go:25-56 | Every state reachable from construction is within the limit and has non-negative demand. Without ReleaseAll it is also work conserving. |
| `Arbiter.LoadCountsUnfinishedAcquires` | cmd/api/http/limiter.go:138-174 | Without ReleaseAll, outstanding tokens plus pending demand grow by the number of acquires and shrink by the number of releases that found their token outstanding. |
| `Arbiter.AcquireReleaseRoundTrip` | cmd/api/http/limiter.go:150-169 | With no demand and room to spare, an acquire is granted. Releasing the granted token restores the original active set and demand. |
| `Arbiter.TwoSlotScenario` | cmd/api/http/limiter.go:122-174 | With limit 2, two acquires are granted and a third waits. Releasing the first token grants the waiter and keeps two tokens active. The ratio goes 0, 0.5, 0. |
| `Middleware.Acquire` | cmd/api/http/limiter.go:78-89 | An acquire is exactly one request event and never yields the error reply, since nothing sends on the error channel. It is granted iff the manager is below its limit, and the granted token is fresh and outstanding afterwards. |
| `Middleware.RateLimiter` | cmd/api/http/middleware.go:10-18 | Each request makes exactly one acquire and never panics. It proceeds at once iff the manager had room, carrying exactly the granted token in its context. Otherwise it is blocked in Acquire, with its demand recorded, until a regrant (see `Middleware.WaiterResumesOnRegrant`). |
| `Middleware.Shed` | cmd/api/http/middleware.go:26-28 | A non-positive ratio never sheds. For a draw in [0, 1), a request is shed iff the ratio exceeds the draw. |
| `Middleware.NoDemandNeverSheds` | cmd/api/http/middleware.go:26-35 | With no pending demand, no draw sheds the request. |
| `Middleware.OverloadShedsEveryDraw` | cmd/api/http/middleware.go:24-28 | Once demand reaches the limit, every draw in [0, 1) sheds the request. |
| `Middleware.PartialOverloadShedsSome` | cmd/api/http/middleware.go:24-28 | With demand strictly between 0 and the limit, the ratio lies in (0, 1). Some draws shed the request and others do not. |
| `Middleware.Faulty` | cmd/api/http/middleware.go:21-37 | `next` is called iff the request is not shed, and then the manager is untouched. A shed request releases exactly its context token through the normal release path, and that id is no longer active. |
| `Middleware.Resume` | cmd/api/http/middleware.go:21-37 | A request holding a token always answers. It releases exactly that token once, whether shed or served, and the id is inactive at the end. It gets a 500 iff the gate sheds on the ratio seen after the events before the gate. A shed request releases at once, through the normal release path. A served request ends in exactly the state of the events before the gate, then the events during its work, then one release of its token: the release comes after the work and happens once. |
| `Middleware.HandleData` | cmd/api/http/router.go:17-20 | A request is blocked iff the manager was full when it acquired, and then it has released nothing. A request admitted at once releases exactly its own token, once, and that id is inactive at the end. It gets a 500 iff it was admitted and the gate sheds. Its end state is the acquire, the events before the gate, and then either the release of its own token (shed) or the events during the work followed by that release (served). |
| `Middleware.WaiterResumesOnRegrant` | cmd/api/http/limiter.go:150-173 | A request that finds the manager full is blocked with one more unit of demand. When a holder releases a tracked token, the regrant gives a fresh token and restores the demand. The active set swaps the released id for the new one. The woken request then releases exactly that token. |
| `Middleware.UncontendedRequestRoundTrip` | cmd/api/http/handlers.go:61-62 | On a work-conserving manager with room and no interleaving, a request is served, not shed. It leaves the active set and the demand as it found them. |

## Left out

- Goroutines, channels and the RW mutex are not modelled (limiter.go:33-44, 78-95). Only the serialised transitions are kept. The regrant that releaseToken spawns (limiter.go:155) and the deferred send on outChan (limiter.go:171-173) are folded into the transition that triggers them.
- The regrant at limiter.go:155 runs outside the arbiter in the Go code. A sequential model cannot show the two races this opens. First, another request can take the freed slot first, and the regrant then records demand again instead of granting. Second, the regrant and the arbiter's own handling of a new request (limiter.go:38) can both pass the check at limiter.go:160, since its read lock is dropped at line 130. Both then insert at limiter.go:168, leaving `limit + 1` tokens active. So the bound proved by `Arbiter.Run` and `Arbiter.ReachableStatesAreBounded` holds for the serialised model, not for every execution of the Go code.
- The release at limiter.go:144-147 has a "not in use" branch that returns while still holding the mutex. Every later lock then blocks forever. Releases queued by ReleaseAll always take that branch, so in the Go code a ReleaseAll with tokens outstanding locks up the manager. The model keeps only the state-level no-op of that branch.
- Token ids: uuids and `time.Now()` (limiter.go:57-62) are replaced by a counter. `CreatedAt` is informational and is dropped.
- Limiter.LimitExceededPerc: computes the exact rational, not the `float32` quotient of limiter.go:125, so float rounding is not modelled.
- Middleware.Faulty: takes the draw `check` as a parameter in place of `rand.Float32()`. The `float32` comparison is modelled as a comparison of reals.
- Limiter.TryGenerateToken: `needToken` is an unbounded integer, so the `int64` counter's overflow is not modelled. The limit is likewise an unbounded integer, not Go's `int`.
- Construction does not start a goroutine here. The arbiter loop is `Arbiter.Serve` over an explicit event sequence.
- handlers.go is HTTP and JSON plumbing and is not modelled, apart from the token release of getData (handlers.go:61-62). This leaves out three behaviours. `setLimit` swaps in a new limiter and panics on a non-positive limit (handlers.go:28-34). It carries on after an unmarshal error (handlers.go:24-26). `getData` does not release its token on the marshal-error path (handlers.go:50-53). A fourth behaviour is also left out. `getData` and `faulty` release through the server's limiter as it is at release time (handlers.go:61-62, middleware.go:31). A token acquired before a `setLimit` swap is therefore released to the new manager. There it takes the "not in use" branch that keeps the lock (limiter.go:144-147).
- main.go, http.go and router.go are process signals, server start-up and shutdown, and routing. router.go is cited only for the middleware order.
- Middleware.HandleData: ends a blocked request at the point where it waits in Acquire. What happens after it wakes is stated by `Middleware.Resume` and `Middleware.WaiterResumesOnRegrant`, not by HandleData itself. getData's sleep (handlers.go:57) is represented only by the events that may interleave during the work.
- A grant is not tied to a particular caller. In the Go code every acquirer blocks on the shared outChan (limiter.go:84) right after spawning its send on inChan. So any grant sent at limiter.go:171-173 can reach any blocked acquirer: a waiter, one whose own request found room, or one whose request has not been processed yet. The manager keeps only a counter of waiters, and the model proves facts about the grant, not about who receives it. `Middleware.RateLimiter`'s "proceeds at once iff the manager had room" is a fact about the acquire event, not about a particular Go caller.
- Limiter.ReleaseToken: the log lines for a nil release (limiter.go:140) and an untracked release (limiter.go:146) are not modelled. Both no-op releases return the manager unchanged and grant nothing, so the model does not tell them apart.
