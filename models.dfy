/** Record types of the webhook store, and the error it reports.
    Timestamps are integers counting nanoseconds, the unit of Go's
    time.Duration; header and query maps hold one value per name. */
module Models {

  /** One captured inbound HTTP request. */
  datatype Webhook = Webhook(
    id: string,
    httpMethod: string,
    path: string,
    headers: map<string, string>,
    body: string,
    query: map<string, string>,
    ip: string,
    timestamp: int)

  /** A capture target. Never mutated once created. */
  datatype Endpoint = Endpoint(id: string, createdAt: int, expiresAt: int)

  /** The one error the store originates: the id names no endpoint. */
  datatype StoreError = EndpointNotFound

  datatype Result<+T> = Ok(value: T) | Err(error: StoreError)

  /** One hour in nanoseconds. */
  const Hour: int := 3_600_000_000_000

  /** Lifetime of an endpoint, added to the clock when it is created. */
  const EndpointTTL: int := 24 * Hour

  /** Most captures an endpoint keeps; older ones are dropped first. */
  const MaxWebhooks: nat := 100
}
