/** The `webhook_logs` row and the two things the API does to a row: project
    it for listing and reset it for a manual retry. */
module WebhookLog {
  import opened Wrappers

  /** Delivery status of a log; the source stores it as one of three strings. */
  datatype Status = Pending | Delivered | Failed

  /** One row of `webhook_logs`. Timestamps are opaque integers. */
  datatype LogEntry = LogEntry(
    id: string,
    merchantId: string,
    event: string,
    payload: string,
    status: Status,
    attempts: nat,
    lastAttemptAt: Option<int>,
    nextRetryAt: Option<int>,
    responseCode: Option<int>,
    createdAt: int)

  /** The fields a listed row exposes. There is no field for the payload or
      the owning merchant, so neither can appear in a listing. */
  datatype LogView = LogView(
    id: string,
    event: string,
    status: Status,
    attempts: nat,
    createdAt: int,
    lastAttemptAt: Option<int>,
    responseCode: Option<int>)

  /** The projection applied to every listed row. */
  function View(l: LogEntry): (v: LogView)
    ensures v.id == l.id && v.event == l.event && v.status == l.status
    ensures v.attempts == l.attempts && v.createdAt == l.createdAt
    ensures v.lastAttemptAt == l.lastAttemptAt && v.responseCode == l.responseCode
  {
    LogView(l.id, l.event, l.status, l.attempts, l.createdAt, l.lastAttemptAt, l.responseCode)
  }

  /** Nothing outside the seven listed columns reaches a listed row: changing
      a log's payload, owner or next retry time does not change its view. */
  lemma ViewHidesUnlistedColumns(l: LogEntry, payload: string, merchantId: string, nextRetryAt: Option<int>)
    ensures View(l.(payload := payload, merchantId := merchantId, nextRetryAt := nextRetryAt)) == View(l)
  {
  }

  /** A log that has never been tried or has been reset for a retry. */
  predicate IsFresh(l: LogEntry) {
    l.attempts == 0 && l.status == Pending && l.nextRetryAt == None
  }

  /** The manual-retry update: attempts back to zero, status pending, no
      scheduled retry; every other column is left as it was. */
  function Reset(l: LogEntry): (r: LogEntry)
    ensures IsFresh(r)
    ensures r.id == l.id && r.merchantId == l.merchantId
    ensures r.event == l.event && r.payload == l.payload
    ensures r.lastAttemptAt == l.lastAttemptAt && r.responseCode == l.responseCode
    ensures r.createdAt == l.createdAt
  {
    l.(attempts := 0, status := Pending, nextRetryAt := None)
  }

  /** Resetting twice is resetting once. */
  lemma ResetIdempotent(l: LogEntry)
    ensures Reset(Reset(l)) == Reset(l)
  {
  }

  /** Resetting a log that is already pending, untried and unscheduled leaves
      it exactly as it was; conversely a reset that changes nothing means the
      log was fresh. */
  lemma ResetFixesExactlyFresh(l: LogEntry)
    ensures Reset(l) == l <==> IsFresh(l)
  {
  }

  /** Primary-key discipline: no two rows share an id. */
  ghost predicate UniqueIds(store: seq<LogEntry>) {
    forall i, j :: 0 <= i < |store| && 0 <= j < |store| && store[i].id == store[j].id ==> i == j
  }
}
