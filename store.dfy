/** The in-memory webhook store: a registry from endpoint id to its
    Endpoint record and to its capture history, each history kept in
    arrival order and capped at MaxWebhooks, oldest dropped first. */
module WebhookStore {
  import opened Models

  // ---------------------------------------------------------------------
  // Specification of one history

  /** The most recent MaxWebhooks elements of `s`, in their original order:
      the retention policy stated independently of how appends are done. */
  function Window(s: seq<Webhook>): (r: seq<Webhook>)
    ensures |r| == if |s| <= MaxWebhooks then |s| else MaxWebhooks
    ensures r == s[|s| - |r|..]
  {
    if |s| <= MaxWebhooks then s else s[|s| - MaxWebhooks..]
  }

  /** The history after one capture `w` is appended to history `h`:
      append, then drop the first element if the result is over the cap. */
  function Capped(h: seq<Webhook>, w: Webhook): (r: seq<Webhook>)
    // the new capture is the most recent one
    ensures |r| > 0 && r[|r| - 1] == w
    // the length grows by one until the cap is reached, then stays put
    ensures |r| == if |h| < MaxWebhooks then |h| + 1 else |h|
    // what precedes `w` is `h` with at most its oldest element dropped
    ensures r[..|r| - 1] == h[|h| + 1 - |r|..]
    ensures |h| <= MaxWebhooks ==> |r| <= MaxWebhooks
  {
    var appended := h + [w];
    if |appended| > MaxWebhooks then appended[1..] else appended
  }

  /** The history after the captures `ws` are appended one by one. */
  function StoreAll(h: seq<Webhook>, ws: seq<Webhook>): (r: seq<Webhook>)
    ensures |h| <= MaxWebhooks ==> |r| <= MaxWebhooks
    ensures ws != [] ==> |r| > 0 && r[|r| - 1] == ws[|ws| - 1]
    ensures ws == [] ==> r == h
    decreases |ws|
  {
    if ws == [] then h else StoreAll(Capped(h, ws[0]), ws[1..])
  }

  /** On a history within the cap, one capture yields exactly the window
      of the history with that capture appended. */
  lemma CappedIsWindow(h: seq<Webhook>, w: Webhook)
    requires |h| <= MaxWebhooks
    ensures Capped(h, w) == Window(h + [w])
  {
  }

  /** Trimming early loses nothing that a later window would keep. */
  lemma WindowAbsorbs(s: seq<Webhook>, t: seq<Webhook>)
    ensures Window(Window(s) + t) == Window(s + t)
  {
    var u := Window(s);
    var a, b := Window(u + t), Window(s + t);
    assert |a| == |b|;
    forall i | 0 <= i < |a| ensures a[i] == b[i] {
      var k := |u + t| - |a| + i;
      if k < |u| {
        assert a[i] == u[k] == s[|s| - |u| + k];
      } else {
        assert a[i] == t[k - |u|];
      }
    }
  }

  /** Any run of captures on a history within the cap keeps exactly the
      most recent MaxWebhooks of all captures, in arrival order. */
  lemma {:induction false} StoreAllIsWindow(h: seq<Webhook>, ws: seq<Webhook>)
    requires |h| <= MaxWebhooks
    ensures StoreAll(h, ws) == Window(h + ws)
    decreases |ws|
  {
    if ws == [] {
      assert h + ws == h;
    } else {
      var w, rest := ws[0], ws[1..];
      CappedIsWindow(h, w);
      assert h + ws == (h + [w]) + rest;
      calc {
        StoreAll(h, ws);
        StoreAll(Capped(h, w), rest);
        { StoreAllIsWindow(Capped(h, w), rest); }
        Window(Capped(h, w) + rest);
        Window(Window(h + [w]) + rest);
        { WindowAbsorbs(h + [w], rest); }
        Window(h + ws);
      }
    }
  }

  /** Storing the next capture of a run into the window of the captures
      before it gives the window of the run one longer. */
  lemma WindowStep(ws: seq<Webhook>, i: nat)
    requires i < |ws|
    ensures Capped(Window(ws[..i]), ws[i]) == Window(ws[..i + 1])
  {
    var prefix, w := ws[..i], ws[i];
    assert ws[..i + 1] == prefix + [w];
    CappedIsWindow(Window(prefix), w);
    WindowAbsorbs(prefix, [w]);
  }

  /** Captures stored into a fresh, empty history keep their window. */
  lemma {:induction false} StoreAllFromEmpty(ws: seq<Webhook>)
    ensures StoreAll([], ws) == Window(ws)
  {
    var empty: seq<Webhook> := [];
    assert empty + ws == ws;
    StoreAllIsWindow(empty, ws);
  }

  /** Captures stored into a fresh, empty history: all of them while there
      are at most MaxWebhooks, otherwise exactly the last MaxWebhooks. */
  lemma {:induction false} KeepsMostRecent(ws: seq<Webhook>)
    ensures |ws| <= MaxWebhooks ==> StoreAll([], ws) == ws
    ensures |ws| > MaxWebhooks ==> StoreAll([], ws) == ws[|ws| - MaxWebhooks..]
  {
    StoreAllFromEmpty(ws);
  }

  // ---------------------------------------------------------------------
  // The store

  class Store {
    var endpoints: map<string, Endpoint>
    var webhooks: map<string, seq<Webhook>>

    /** Every endpoint has a history and every history an endpoint; each
        endpoint is filed under its own id; no history is over the cap. */
    ghost predicate Valid()
      reads this
    {
      && endpoints.Keys == webhooks.Keys
      && (forall id :: id in endpoints ==> endpoints[id].id == id)
      && (forall id :: id in webhooks ==> |webhooks[id]| <= MaxWebhooks)
    }

    /** An empty store. */
    constructor ()
      ensures Valid()
      ensures endpoints == map[] && webhooks == map[]
    {
      endpoints := map[];
      webhooks := map[];
    }

    /** Files a new endpoint under `id`, overwriting any endpoint already
        there and resetting its history to empty. `now1` and `now2` are the
        two clock readings taken for its creation and expiry times. */
    method CreateEndpoint(id: string, now1: int, now2: int) returns (r: Result<Endpoint>)
      requires Valid()
      modifies this
      ensures Valid()
      ensures r == Ok(Endpoint(id, now1, now2 + EndpointTTL))
      ensures now1 <= now2 ==> r.value.createdAt + EndpointTTL <= r.value.expiresAt
      ensures endpoints == old(endpoints)[id := r.value]
      ensures webhooks == old(webhooks)[id := []]
    {
      var endpoint := Endpoint(id, now1, now2 + EndpointTTL);
      endpoints := endpoints[id := endpoint];
      webhooks := webhooks[id := []];
      r := Ok(endpoint);
    }

    /** Looks up the endpoint filed under `id`. */
    method GetEndpoint(id: string) returns (r: Result<Endpoint>)
      requires Valid()
      ensures r.Ok? <==> id in endpoints
      ensures r.Ok? ==> r.value == endpoints[id] && r.value.id == id
    {
      if id !in endpoints {
        return Err(EndpointNotFound);
      }
      r := Ok(endpoints[id]);
    }

    /** Appends `w` to the history of endpoint `endpointID`, dropping the
        oldest capture once the history would exceed MaxWebhooks. */
    method StoreWebhook(endpointID: string, w: Webhook) returns (r: Result<()>)
      requires Valid()
      modifies this`webhooks
      ensures Valid()
      ensures r.Ok? <==> endpointID in endpoints
      ensures r.Err? ==> webhooks == old(webhooks)
      ensures r.Ok? ==> webhooks == old(webhooks)[endpointID := Capped(old(webhooks)[endpointID], w)]
      // implied by the two clauses above; spelled out as the frame on other endpoints
      ensures forall id :: id in old(webhooks) && id != endpointID ==> id in webhooks && webhooks[id] == old(webhooks)[id]
    {
      if endpointID !in endpoints {
        return Err(EndpointNotFound);
      }
      var history := webhooks[endpointID] + [w];
      if |history| > MaxWebhooks {
        history := history[1..];
      }
      webhooks := webhooks[endpointID := history];
      r := Ok(());
    }

    /** The history of endpoint `endpointID`, oldest capture first. */
    method GetWebhooks(endpointID: string) returns (r: Result<seq<Webhook>>)
      requires Valid()
      ensures r.Ok? <==> endpointID in endpoints
      ensures r.Ok? ==> r.value == webhooks[endpointID] && |r.value| <= MaxWebhooks
    {
      if endpointID !in webhooks {
        return Err(EndpointNotFound);
      }
      r := Ok(webhooks[endpointID]);
    }
  }
}
