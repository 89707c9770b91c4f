/** Clients of the store that use only the contracts of its operations. */
module Scenarios {
  import opened Models
  import opened WebhookStore

  /** A capture sent to a freshly created endpoint: the history reads as
      empty (not as an error) before it and holds exactly that capture after. */
  method CaptureOnce(id: string, w: Webhook, now1: int, now2: int)
    returns (before: Result<seq<Webhook>>, after: Result<seq<Webhook>>)
    ensures before == Ok([])
    ensures after == Ok([w]) && after.value[0].httpMethod == w.httpMethod && after.value[0].body == w.body
  {
    var store := new Store();
    var created := store.CreateEndpoint(id, now1, now2);
    before := store.GetWebhooks(id);
    var stored := store.StoreWebhook(id, w);
    after := store.GetWebhooks(id);
  }

  /** Captures `ws` stored one by one into a freshly created endpoint: every
      store succeeds, and the history read back is the most recent
      MaxWebhooks of them in arrival order. */
  method StoreMany(id: string, ws: seq<Webhook>, now1: int, now2: int)
    returns (history: Result<seq<Webhook>>)
    ensures history == Ok(Window(ws))
    ensures |ws| == 150 ==> history.value == ws[50..]
  {
    var store := new Store();
    var created := store.CreateEndpoint(id, now1, now2);
    var i := 0;
    while i < |ws|
      invariant 0 <= i <= |ws|
      invariant store.Valid() && id in store.endpoints
      invariant store.webhooks[id] == Window(ws[..i])
    {
      var stored := store.StoreWebhook(id, ws[i]);
      WindowStep(ws, i);
      i := i + 1;
    }
    assert ws[..i] == ws;
    history := store.GetWebhooks(id);
  }

  /** On a store where `id` was never created, every lookup and every
      capture for it fails with EndpointNotFound. */
  method NeverCreated(id: string, w: Webhook)
    returns (endpoint: Result<Endpoint>, stored: Result<()>, history: Result<seq<Webhook>>)
    ensures endpoint == Err(EndpointNotFound)
    ensures stored == Err(EndpointNotFound)
    ensures history == Err(EndpointNotFound)
  {
    var store := new Store();
    endpoint := store.GetEndpoint(id);
    stored := store.StoreWebhook(id, w);
    history := store.GetWebhooks(id);
  }

  /** Creating an endpoint under an id already in use succeeds, replaces the
      endpoint and discards the captures stored for the old one. */
  method Recreate(id: string, w: Webhook, now1: int, now2: int, later1: int, later2: int)
    returns (endpoint: Result<Endpoint>, history: Result<seq<Webhook>>)
    ensures endpoint == Ok(Endpoint(id, later1, later2 + EndpointTTL))
    ensures history == Ok([])
  {
    var store := new Store();
    var first := store.CreateEndpoint(id, now1, now2);
    var stored := store.StoreWebhook(id, w);
    var second := store.CreateEndpoint(id, later1, later2);
    endpoint := store.GetEndpoint(id);
    history := store.GetWebhooks(id);
  }
}
