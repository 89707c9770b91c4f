# hookpeek webhook store, in Dafny

hookpeek captures HTTP requests ("webhooks") sent to generated endpoint URLs
and lets clients read them back. Its state is the in-memory `Store`
(`internal/webhook/store.go`). The store maps each endpoint id to two things:
an `Endpoint` record (id, creation time, expiry time) and that endpoint's
capture history. A history is kept in arrival order and holds at most 100
captures. When a capture would push it past 100, the oldest is dropped.

Files:

- `models.dfy` (module `Models`): the `Webhook` and `Endpoint` records from
  `internal/webhook/models.go`, the `EndpointNotFound` error, a `Result` type
  for the Go `(value, error)` returns, and the constants: 100 captures, and a
  24-hour TTL in nanoseconds.
- `store.dfy` (module `WebhookStore`): the retention policy as specification
  functions with lemmas about them, and the class `Store`. The class has the
  two map fields of the Go struct, and its invariant `Valid()` says three
  things. Both maps have the same key set. Every endpoint is filed under its
  own id. No history is longer than 100.
- `scenarios.dfy` (module `Scenarios`): client methods that drive a fresh
  store through the operations, using only their contracts.

The Go methods read `time.Now()`. In the model, `CreateEndpoint` instead
takes the two clock readings as parameters `now1` and `now2`. The Go code
reads the clock twice, once for `CreatedAt` and once for `ExpiresAt`, so
`ExpiresAt` is the second reading plus 24h, although the `// 24h expiry`
comment at `internal/webhook/store.go:30` suggests exactly `CreatedAt` plus
24h. The model follows the code.
It proves `ExpiresAt >= CreatedAt + 24h` only when the clock does not go
backwards (`now1 <= now2`).

The read-only operations `GetEndpoint` and `GetWebhooks` have no `modifies`
clause. Dafny therefore guarantees that they leave both maps unchanged.
`StoreWebhook` may modify only the `webhooks` field, so `endpoints` is
unchanged by construction.

## Model

| member | source | states |
|---|---|---|
| WebhookStore.Window | internal/webhook/store.go:59-62 | The retention policy, defined on its own terms. The result is the last min(\|s\|, 100) elements of `s`, in their original order. |
| WebhookStore.Capped | internal/webhook/store.go:57-62 | One capture appended under the cap. The new capture is last. The length grows by one until it reaches 100, then stays the same. What precedes the new capture is the old history with at most its oldest element dropped. A history within the cap stays within it. |
| WebhookStore.StoreAll | internal/webhook/store.go:57-62 | Captures appended one at a time. The result stays within the cap and ends with the last capture appended. |
| WebhookStore.CappedIsWindow | internal/webhook/store.go:57-62 | On a history of at most 100 captures, one append-and-trim gives exactly `Window(h + [w])`. |
| WebhookStore.WindowAbsorbs | internal/webhook/store.go:59-62 | Trimming a history early loses nothing that a later window keeps: `Window(Window(s) + t) == Window(s + t)`. |
| WebhookStore.StoreAllIsWindow | internal/webhook/store.go:57-62 | Any run of captures on a history within the cap keeps exactly `Window(h + ws)`, the most recent 100 of all captures in arrival order. |
| WebhookStore.WindowStep | internal/webhook/store.go:57-62 | One more capture stored into the window of the captures before it gives the window of the run one longer. This is the single-call step behind `Scenarios.StoreMany`. |
| WebhookStore.StoreAllFromEmpty | internal/webhook/store.go:57-62 | Captures stored one at a time into an empty history, the state `CreateEndpoint` leaves, keep exactly `Window(ws)`. |
| WebhookStore.KeepsMostRecent | internal/webhook/store.go:57-62 | Captures stored into an empty history. At most 100 are all kept. Beyond that, exactly the last 100 are kept, in order (for 150 captures, captures 51 to 150). |
| WebhookStore.Store.constructor | internal/webhook/store.go:16-21 | A new store has no endpoints and no histories, and satisfies `Valid()`. |
| WebhookStore.Store.CreateEndpoint | internal/webhook/store.go:23-36 | Always succeeds. It returns an endpoint with the given id, `CreatedAt` set to the first clock reading and `ExpiresAt` set to the second reading plus 24h. `ExpiresAt >= CreatedAt + 24h` when the clock does not go backwards. It writes both maps under the id, overwriting any existing endpoint and resetting its history to empty. It changes no other key and keeps `Valid()`. |
| WebhookStore.Store.GetEndpoint | internal/webhook/store.go:38-47 | Succeeds exactly when the id has an endpoint. It then returns that endpoint, whose id is the id asked for. Otherwise it fails with `EndpointNotFound`. It changes nothing. |
| WebhookStore.Store.StoreWebhook | internal/webhook/store.go:49-65 | Succeeds exactly when the id has an endpoint. On failure both maps are unchanged. On success only that endpoint's history changes, and it becomes `Capped(old, w)`. `endpoints` and every other history are untouched, and `Valid()` holds again. |
| WebhookStore.Store.GetWebhooks | internal/webhook/store.go:67-76 | Succeeds exactly when the id has an endpoint. It then returns that endpoint's history, oldest first, with at most 100 captures. Otherwise it fails with `EndpointNotFound`. It changes nothing. |
| Scenarios.CaptureOnce | tests/integration_test.go:35-58 | The flow the integration test drives. On a new store, create an endpoint and read its history: the result is an empty sequence, not an error. Store one capture and read again: the result is exactly that one capture, with its method and body. |
| Scenarios.StoreMany | internal/webhook/store.go:49-76 | Create an endpoint on a new store, then call `StoreWebhook` once per capture in order. Every call succeeds, and `GetWebhooks` then returns exactly `Window(ws)`, the most recent 100 captures in arrival order. For 150 captures that is captures 51 to 150. |
| Scenarios.NeverCreated | internal/webhook/store.go:38-76 | On a store where an id was never created, `GetEndpoint`, `StoreWebhook` and `GetWebhooks` on that id each fail with `EndpointNotFound`. |
| Scenarios.Recreate | internal/webhook/store.go:32-35 | Creating an endpoint again under an id that already has captures succeeds. The lookup then returns the new endpoint, and the history is empty. |

## Left out

- Locking. `sync.RWMutex` guards every Go method (`internal/webhook/store.go:13`). Each operation is modelled as one atomic sequential step, so nothing about concurrent interleavings is stated.
- The clock. `time.Now()` becomes integer parameters. `time.Time` values become integer nanosecond counts, and `Add(24 * time.Hour)` becomes integer addition, with no overflow or monotonic-clock detail.
- Expiry. The TTL is never enforced in the code, so endpoints are never evicted. The model adds no eviction either.
- Aliasing. The Go maps hold pointers, `GetWebhooks` returns the live slice, and trimming re-slices with `[1:]`. The model uses immutable values (`Endpoint`, `Webhook`, `seq`), so it does not capture that a caller holding a returned slice could observe or cause later changes.
- Error text. Go errors are strings (`"endpoint not found"`). Here they are the single value `EndpointNotFound`.
- The HTTP layer. `internal/api/handlers.go` is not part of this model. It handles route slicing, JSON encoding, reading the body, random id generation, the first-value-wins flattening of headers and query parameters, and mapping errors to status codes. The model takes a finished `Webhook` value as input.
