/** The test merchant's `/webhook` handler (test-merchant/webhook-receiver.js):
    format the body's timestamp for the log, re-serialise the parsed body,
    sign it with the shared secret and compare the result with the
    `x-webhook-signature` header.

    HMAC-SHA256 with hex output, the JSON serialiser and the reading of the
    body's `timestamp` field are not modelled; every member takes them as
    function parameters, so nothing below depends on what they compute. */
module WebhookReceiver {
  import opened Wrappers

  /** The secret the receiver shares with the gateway. */
  const WebhookSecret: string := "whsec_test_abc123"

  /** Largest distance from the epoch, in milliseconds, that a JavaScript
      `Date` can hold (100 000 000 days). */
  const MaxTimeMs: int := 8_640_000_000_000_000

  /** The replies the handler can send. */
  datatype Reply = Reply(status: int, body: string)

  const Accepted: Reply := Reply(200, "OK")
  const Rejected: Reply := Reply(401, "Invalid signature")
  /** The framework's reply to an exception thrown by the handler. */
  const ServerFault: Reply := Reply(500, "Internal Server Error")

  /** Whether `new Date(timestamp * 1000).toISOString()` succeeds. `timestamp`
      is the number `body.timestamp` coerces to, `None` when that is NaN
      (missing, non-numeric); `toISOString` throws for NaN and for a time
      outside the `Date` range. */
  predicate TimestampFormats(timestamp: Option<int>): (ok: bool)
    ensures timestamp.None? ==> !ok
    ensures timestamp.Some? ==> (ok <==> -8_640_000_000_000 <= timestamp.value <= 8_640_000_000_000)
  {
    match timestamp
    case Some(t) => -MaxTimeMs <= t * 1000 <= MaxTimeMs
    case None => false
  }

  /** The sending side: the hex HMAC of the serialised body under `secret`. */
  function Sign<B>(hmacHex: (string, string) -> string, serialize: B -> string,
                   secret: string, body: B): string {
    hmacHex(secret, serialize(body))
  }

  /** Strict comparison of the header with the expected digest. A missing
      header is `undefined`, which is never equal to a string. */
  predicate SignatureMatches(header: Option<string>, expected: string) {
    match header
    case Some(h) => h == expected
    case None => false
  }

  /** `POST /webhook`. `header` is the `x-webhook-signature` header, `None`
      when the request carries none; `timestampOf` reads the body's
      `timestamp` as a number. The timestamp is formatted for the log before
      the signature is checked, so a body whose timestamp cannot be formatted
      fails with 500 whatever its signature. */
  function HandleWebhook<B>(hmacHex: (string, string) -> string, serialize: B -> string,
                            timestampOf: B -> Option<int>,
                            header: Option<string>, body: B): (r: Reply)
    ensures r == Accepted || r == Rejected || r == ServerFault
    ensures r == ServerFault <==> !TimestampFormats(timestampOf(body))
    ensures r == Accepted <==>
      TimestampFormats(timestampOf(body)) && header == Some(hmacHex(WebhookSecret, serialize(body)))
    ensures header.None? ==> r != Accepted
  {
    if !TimestampFormats(timestampOf(body)) then ServerFault
    else
      var expected := Sign(hmacHex, serialize, WebhookSecret, body);
      if SignatureMatches(header, expected) then Accepted else Rejected
  }

  /** A body whose timestamp cannot be formatted gets 500, signed or not. */
  lemma UnformattableTimestampFails<B>(hmacHex: (string, string) -> string, serialize: B -> string,
                                       timestampOf: B -> Option<int>, header: Option<string>, body: B)
    requires !TimestampFormats(timestampOf(body))
    ensures HandleWebhook(hmacHex, serialize, timestampOf, header, body) == ServerFault
  {
  }

  /** Sign-then-verify: a request with a formattable timestamp, signed with
      the shared secret over the same serialisation of the body, is always
      accepted. */
  lemma SignThenVerify<B>(hmacHex: (string, string) -> string, serialize: B -> string,
                          timestampOf: B -> Option<int>, body: B)
    requires TimestampFormats(timestampOf(body))
    ensures HandleWebhook(hmacHex, serialize, timestampOf, Some(Sign(hmacHex, serialize, WebhookSecret, body)), body) == Accepted
  {
  }

  /** With a formattable timestamp, any header other than the expected
      digest, or none, is rejected with 401. */
  lemma WrongSignatureRejected<B>(hmacHex: (string, string) -> string, serialize: B -> string,
                                  timestampOf: B -> Option<int>, header: Option<string>, body: B)
    requires TimestampFormats(timestampOf(body))
    requires header != Some(Sign(hmacHex, serialize, WebhookSecret, body))
    ensures HandleWebhook(hmacHex, serialize, timestampOf, header, body) == Rejected
  {
  }

  /** With a formattable timestamp, a request signed under another secret is
      rejected whenever the two secrets give different digests for the body. */
  lemma OtherSecretRejected<B>(hmacHex: (string, string) -> string, serialize: B -> string,
                               timestampOf: B -> Option<int>, secret: string, body: B)
    requires TimestampFormats(timestampOf(body))
    requires Sign(hmacHex, serialize, secret, body) != Sign(hmacHex, serialize, WebhookSecret, body)
    ensures HandleWebhook(hmacHex, serialize, timestampOf, Some(Sign(hmacHex, serialize, secret, body)), body) == Rejected
  {
  }

  /** The reply depends on the body only through its serialisation and its
      timestamp: two bodies alike in both get the same reply to the same
      header. (A JSON body's serialisation fixes its timestamp field; with
      both readers left abstract, that is stated separately.) */
  lemma VerdictDependsOnSerialisation<B>(hmacHex: (string, string) -> string, serialize: B -> string,
                                         timestampOf: B -> Option<int>, header: Option<string>, b1: B, b2: B)
    requires serialize(b1) == serialize(b2)
    requires timestampOf(b1) == timestampOf(b2)
    ensures HandleWebhook(hmacHex, serialize, timestampOf, header, b1)
         == HandleWebhook(hmacHex, serialize, timestampOf, header, b2)
  {
  }
}
