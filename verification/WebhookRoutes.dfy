/** The two webhook-log endpoints (backend/src/routes/webhooks.js) as pure
    state transitions over an in-memory log store and the delivery queue's
    job list. The authenticated merchant's id is a parameter; the query and
    path parameters arrive already parsed. */
module WebhookRoutes {
  import opened Wrappers
  import opened WebhookLog
  import opened LogOrdering
  import opened QueueConfig

  const DefaultLimit: int := 10
  const DefaultOffset: int := 0

  // ---------------------------------------------------------------- list

  /** `parseInt(x) || d`. A value that does not parse (NaN) is `None`; NaN and
      0 are both falsy, so both give the default. Every other parsed value,
      negative ones included, is used as it is. */
  function ParamOr(p: Option<int>, d: int): (r: int)
    ensures p.None? || p == Some(0) ==> r == d
    ensures p.Some? && p.value != 0 ==> r == p.value
  {
    match p
    case Some(v) => if v != 0 then v else d
    case None => d
  }

  /** The parameter resolves to its default exactly when it is absent, zero
      or equal to the default itself; otherwise it resolves to the parsed
      value. */
  lemma ParamOrDefaulting(p: Option<int>, d: int)
    ensures ParamOr(p, d) == d <==> p.None? || p == Some(0) || p == Some(d)
    ensures ParamOr(p, d) != d ==> p == Some(ParamOr(p, d))
  {
  }

  /** `WHERE merchant_id = $1`: the rows of `store` owned by `m`, in store
      order. */
  function Owned(store: seq<LogEntry>, m: string): (r: seq<LogEntry>)
    ensures |r| <= |store|
  {
    if store == [] then []
    else
      var n := |store| - 1;
      assert store == store[..n] + [store[n]];
      Owned(store[..n], m) + (if store[n].merchantId == m then [store[n]] else [])
  }

  /** Exactly the caller's rows survive the filter, each as often as it
      occurs in the store. */
  lemma {:induction false} OwnedMultiplicity(store: seq<LogEntry>, m: string, x: LogEntry)
    ensures multiset(Owned(store, m))[x] == if x.merchantId == m then multiset(store)[x] else 0
  {
    if store != [] {
      var n := |store| - 1;
      assert store == store[..n] + [store[n]];
      OwnedMultiplicity(store[..n], m, x);
    }
  }

  /** Every filtered row is a row of the store owned by `m`. */
  lemma OwnedMember(store: seq<LogEntry>, m: string, x: LogEntry)
    requires x in Owned(store, m)
    ensures x in store && x.merchantId == m
  {
  }

  /** Positions of the rows owned by `m`; an independent description of what
      `SELECT COUNT(*) ... WHERE merchant_id = $1` counts. */
  ghost function OwnedPositions(store: seq<LogEntry>, m: string): set<int> {
    set i | 0 <= i < |store| && store[i].merchantId == m
  }

  /** `o` is an order the list query may return the caller's rows in:
      all of them, each as often as stored, newest first. Rows with equal
      `created_at` may come in any order, and each query may pick its own. */
  predicate ListingOrder(store: seq<LogEntry>, m: string, o: seq<LogEntry>) {
    NewestFirst(o) && multiset(o) == multiset(Owned(store, m))
  }

  /** One listing order exists for every store: the caller's rows sorted
      newest first. */
  function Ordered(store: seq<LogEntry>, m: string): (r: seq<LogEntry>)
    ensures ListingOrder(store, m, r)
    ensures |r| == |Owned(store, m)|
  {
    SortNewestFirst(Owned(store, m))
  }

  function Min(a: int, b: int): int {
    if a <= b then a else b
  }

  /** The list endpoint's reply: a page of rows, or the 500 reply its catch
      block sends. */
  datatype ListReply =
    | Listed(data: seq<LogView>, total: nat, limit: int, offset: int)
    | ServerError(code: string, description: string)

  /** The projection of every row of `s`, in order. */
  function Views(s: seq<LogEntry>): (r: seq<LogView>)
    ensures |r| == |s|
    ensures forall i :: 0 <= i < |s| ==> r[i] == View(s[i])
  {
    seq(|s|, i requires 0 <= i < |s| => View(s[i]))
  }

  /** `LIMIT limit OFFSET offset` over `ordered`, projected. */
  function Page(ordered: seq<LogEntry>, limit: nat, offset: nat): (r: seq<LogView>)
    requires NewestFirst(ordered)
    ensures |r| == (if offset >= |ordered| then 0 else Min(limit, |ordered| - offset))
    ensures forall i :: 0 <= i < |r| ==> r[i] == View(ordered[offset + i])
    ensures forall i, j :: 0 <= i < j < |r| ==> r[i].createdAt >= r[j].createdAt
  {
    var lo := Min(offset, |ordered|);
    var hi := Min(offset + limit, |ordered|);
    var page := ordered[lo..hi];
    SliceNewestFirst(ordered, lo, hi);
    Views(page)
  }

  /** `GET /api/v1/webhooks`. `ordering` is the order in which the database
      returns the caller's rows for this query; it is any listing order.
      PostgreSQL rejects a negative LIMIT or OFFSET, so such a parameter ends
      in the handler's catch block. */
  function List(store: seq<LogEntry>, m: string, ordering: seq<LogEntry>,
                limitParam: Option<int>, offsetParam: Option<int>): (r: ListReply)
    requires ListingOrder(store, m, ordering)
    ensures r.Listed? <==> ParamOr(limitParam, DefaultLimit) >= 0 && ParamOr(offsetParam, DefaultOffset) >= 0
    ensures r.ServerError? ==> r == ServerError("SERVER_ERROR", "Internal server error")
    ensures r.Listed? ==>
      && r.limit == ParamOr(limitParam, DefaultLimit)
      && r.offset == ParamOr(offsetParam, DefaultOffset)
      && r.total == |Owned(store, m)|
      && |r.data| == (if r.offset >= r.total then 0 else Min(r.limit, r.total - r.offset))
      && (forall i, j :: 0 <= i < j < |r.data| ==> r.data[i].createdAt >= r.data[j].createdAt)
      && (forall i :: 0 <= i < |r.data| ==>
            r.offset + i < |ordering| && r.data[i] == View(ordering[r.offset + i]))
  {
    var limit := ParamOr(limitParam, DefaultLimit);
    var offset := ParamOr(offsetParam, DefaultOffset);
    if limit < 0 || offset < 0 then
      ServerError("SERVER_ERROR", "Internal server error")
    else
      var total := |Owned(store, m)|;
      assert total == |multiset(ordering)| == |ordering|;
      var data := Page(ordering, limit, offset);
      assert |data| == (if offset >= total then 0 else Min(limit, total - offset));
      Listed(data, total, limit, offset)
  }

  /** The reported total counts the positions holding the caller's rows. */
  lemma {:induction false} TotalCountsOwnedRows(store: seq<LogEntry>, m: string)
    ensures |Owned(store, m)| == |OwnedPositions(store, m)|
  {
    if store == [] {
      assert OwnedPositions(store, m) == {};
    } else {
      var n := |store| - 1;
      var front := store[..n];
      TotalCountsOwnedRows(front, m);
      assert OwnedPositions(front, m) <= OwnedPositions(store, m);
      if store[n].merchantId == m {
        assert OwnedPositions(store, m) == OwnedPositions(front, m) + {n};
        assert n !in OwnedPositions(front, m);
      } else {
        assert OwnedPositions(store, m) == OwnedPositions(front, m);
      }
    }
  }

  /** `total` does not depend on `limit` or `offset`, and always counts the
      caller's rows. */
  lemma TotalIndependentOfPaging(store: seq<LogEntry>, m: string,
                                 ord1: seq<LogEntry>, l1: Option<int>, o1: Option<int>,
                                 ord2: seq<LogEntry>, l2: Option<int>, o2: Option<int>)
    requires ListingOrder(store, m, ord1) && ListingOrder(store, m, ord2)
    requires List(store, m, ord1, l1, o1).Listed? && List(store, m, ord2, l2, o2).Listed?
    ensures List(store, m, ord1, l1, o1).total == List(store, m, ord2, l2, o2).total == |OwnedPositions(store, m)|
  {
    TotalCountsOwnedRows(store, m);
  }

  /** Every listed row is the projection of a row of the store that the
      caller owns: no other merchant's log is listed. */
  lemma ListedRowsAreOwned(store: seq<LogEntry>, m: string, ordering: seq<LogEntry>,
                            lp: Option<int>, op: Option<int>, i: int)
    requires ListingOrder(store, m, ordering)
    requires List(store, m, ordering, lp, op).Listed?
    requires 0 <= i < |List(store, m, ordering, lp, op).data|
    ensures exists k :: 0 <= k < |store| && store[k].merchantId == m
                        && List(store, m, ordering, lp, op).data[i] == View(store[k])
  {
    var r := List(store, m, ordering, lp, op);
    var x := ordering[r.offset + i];
    assert x in multiset(ordering);
    assert x in Owned(store, m);
    OwnedMember(store, m, x);
    var k :| 0 <= k < |store| && store[k] == x;
  }

  /** With neither parameter given, the first ten of the caller's rows are
      listed, newest first, and `total` still counts all of them. */
  lemma DefaultFirstPage(store: seq<LogEntry>, m: string, ordering: seq<LogEntry>)
    requires ListingOrder(store, m, ordering)
    ensures List(store, m, ordering, None, None).Listed?
    ensures List(store, m, ordering, None, None).limit == 10 && List(store, m, ordering, None, None).offset == 0
    ensures |List(store, m, ordering, None, None).data| == Min(10, |OwnedPositions(store, m)|)
  {
    TotalCountsOwnedRows(store, m);
  }

  // --------------------------------------------------------------- retry

  /** Row `i` is the log `id` and belongs to `m`. */
  predicate Owns(store: seq<LogEntry>, m: string, id: string, i: int) {
    0 <= i < |store| && store[i].id == id && store[i].merchantId == m
  }

  /** `SELECT * FROM webhook_logs WHERE id = $1 AND merchant_id = $2`,
      taking the first matching row. */
  function FindOwned(store: seq<LogEntry>, m: string, id: string): (r: Option<nat>)
    ensures r.None? <==> forall i :: 0 <= i < |store| ==> !Owns(store, m, id, i)
    ensures r.Some? ==> Owns(store, m, id, r.value)
  {
    if store == [] then None
    else if store[0].id == id && store[0].merchantId == m then
      assert Owns(store, m, id, 0);
      Some(0)
    else
      assert forall i :: 1 <= i < |store| ==> Owns(store, m, id, i) == Owns(store[1..], m, id, i - 1);
      match FindOwned(store[1..], m, id)
      case Some(k) =>
        assert Owns(store, m, id, k + 1);
        Some(k + 1)
      case None => None
  }

  /** `UPDATE webhook_logs SET ... WHERE id = $1`: resets every row with
      that id. The update is keyed by id alone. */
  function ResetById(store: seq<LogEntry>, id: string): (r: seq<LogEntry>)
    ensures |r| == |store|
    ensures forall i :: 0 <= i < |store| && store[i].id == id ==> r[i] == Reset(store[i])
    ensures forall i :: 0 <= i < |store| && store[i].id != id ==> r[i] == store[i]
  {
    seq(|store|, i requires 0 <= i < |store| => if store[i].id == id then Reset(store[i]) else store[i])
  }

  /** The job `webhookQueue.add('deliver-webhook', ...)` enqueues for a log:
      on the delivery queue, under the delivery name, with the queue's
      default options, carrying the log's id, owner, event and payload. */
  function DeliveryJob(l: LogEntry): (j: Job)
    ensures j.queue == "webhook-delivery" && j.name == "deliver-webhook"
    ensures j.data == DeliveryData(l.id, l.merchantId, l.event, l.payload)
    ensures j.opts.attempts == 3 && j.opts.backoff == Backoff("exponential", 2000)
  {
    Job(WebhookQueueName, DeliverWebhook, DeliveryData(l.id, l.merchantId, l.event, l.payload), DefaultJobOptions)
  }

  /** The job does not read the columns a retry resets, so the job built
      after a reset equals the one built before it. */
  lemma DeliveryJobIgnoresReset(l: LogEntry)
    ensures DeliveryJob(Reset(l)) == DeliveryJob(l)
  {
  }

  /** A retry replies 200 with the scheduled log, 404 when the caller owns
      no log with that id, or 500 from the handler's catch block. */
  datatype RetryReply =
    | Scheduled(id: string, status: Status, message: string)
    | NotFound(code: string, description: string)
    | RetryFailed(code: string, description: string)

  /** The reply, the log store after the update and the queue after the
      enqueue. */
  datatype RetryOutcome = RetryOutcome(reply: RetryReply, store: seq<LogEntry>, jobs: seq<Job>)

  /** `POST /api/v1/webhooks/:id/retry`. The path text is passed to the
      database unconverted, and the database casts it to the type of the
      `id` column; `admits` says which texts that cast accepts (a NUL
      character never is). A rejected text makes the first query throw, so
      the handler's catch block replies 500 before anything changes. */
  function Retry(store: seq<LogEntry>, jobs: seq<Job>, m: string, id: string,
                 admits: string -> bool): (o: RetryOutcome)
    ensures o.reply.RetryFailed? <==> !admits(id)
    ensures o.reply.RetryFailed? ==>
      && o.reply == RetryFailed("SERVER_ERROR", "Internal server error")
      && o.store == store
      && o.jobs == jobs
    ensures o.reply.NotFound? <==> admits(id) && forall i :: 0 <= i < |store| ==> !Owns(store, m, id, i)
    ensures o.reply.NotFound? ==>
      && o.reply == NotFound("NOT_FOUND_ERROR", "Webhook log not found")
      && o.store == store
      && o.jobs == jobs
    ensures o.reply.Scheduled? ==>
      && o.reply == Scheduled(id, Pending, "Webhook retry scheduled")
      && |o.store| == |store|
      && (forall i :: 0 <= i < |store| && store[i].id == id ==> o.store[i] == Reset(store[i]))
      && (forall i :: 0 <= i < |store| && store[i].id != id ==> o.store[i] == store[i])
      && (exists k :: Owns(store, m, id, k) && o.jobs == jobs + [DeliveryJob(store[k])])
  {
    if !admits(id) then
      RetryOutcome(RetryFailed("SERVER_ERROR", "Internal server error"), store, jobs)
    else
      match FindOwned(store, m, id)
      case None =>
        RetryOutcome(NotFound("NOT_FOUND_ERROR", "Webhook log not found"), store, jobs)
      case Some(k) =>
        var log := store[k];
        RetryOutcome(Scheduled(log.id, Pending, "Webhook retry scheduled"),
                     ResetById(store, id),
                     jobs + [DeliveryJob(log)])
  }

  /** When ids are unique, a successful retry rewrites exactly the caller's
      row; rows of other merchants, and every other row, are untouched. */
  lemma RetryTouchesOnlyTarget(store: seq<LogEntry>, jobs: seq<Job>, m: string, id: string, admits: string -> bool)
    requires UniqueIds(store)
    requires Retry(store, jobs, m, id, admits).reply.Scheduled?
    ensures exists k :: Owns(store, m, id, k) && Retry(store, jobs, m, id, admits).store == store[k := Reset(store[k])]
    ensures forall i :: 0 <= i < |store| && store[i].merchantId != m ==> Retry(store, jobs, m, id, admits).store[i] == store[i]
  {
  }

  /** A retry never changes ids, so unique ids stay unique. */
  lemma RetryKeepsUniqueIds(store: seq<LogEntry>, jobs: seq<Job>, m: string, id: string, admits: string -> bool)
    requires UniqueIds(store)
    ensures UniqueIds(Retry(store, jobs, m, id, admits).store)
  {
  }

  /** A log that exists but belongs to another merchant is reported as not
      found, and nothing changes. Its id is stored, so the id column
      accepts it. */
  lemma RetryOfForeignLogNotFound(store: seq<LogEntry>, jobs: seq<Job>, m: string, k: int, admits: string -> bool)
    requires UniqueIds(store)
    requires 0 <= k < |store| && store[k].merchantId != m
    requires admits(store[k].id)
    ensures Retry(store, jobs, m, store[k].id, admits) == RetryOutcome(NotFound("NOT_FOUND_ERROR", "Webhook log not found"), store, jobs)
  {
  }

  /** On a store whose ids are unique (the primary key), retrying twice
      leaves the log store as retrying once, replies the same, and enqueues
      a second, identical job. Without unique ids the lookup, which has no
      ORDER BY, need not read the same row twice. */
  lemma {:induction false} RetryIdempotent(store: seq<LogEntry>, jobs: seq<Job>, m: string, id: string,
                                           admits: string -> bool, once: RetryOutcome, twice: RetryOutcome)
    requires UniqueIds(store)
    requires once == Retry(store, jobs, m, id, admits)
    requires twice == Retry(once.store, once.jobs, m, id, admits)
    ensures twice.reply == once.reply
    ensures twice.store == once.store
    ensures once.reply.Scheduled? ==> twice.jobs == once.jobs + [once.jobs[|jobs|]]
  {
    if admits(id) {
      match FindOwned(store, m, id)
      case None =>
      case Some(k) =>
        var s1 := once.store;
        FindOwnedStable(store, s1, m, id);
        forall i | 0 <= i < |s1|
          ensures ResetById(s1, id)[i] == s1[i]
        {
          if store[i].id == id { ResetIdempotent(store[i]); }
        }
        assert ResetById(s1, id) == s1;
    }
  }

  /** The lookup only reads ids and owners, which a reset keeps. */
  lemma {:induction false} FindOwnedStable(store: seq<LogEntry>, s1: seq<LogEntry>, m: string, id: string)
    requires |s1| == |store|
    requires forall i :: 0 <= i < |store| ==> s1[i].id == store[i].id && s1[i].merchantId == store[i].merchantId
    ensures FindOwned(s1, m, id) == FindOwned(store, m, id)
  {
    if store != [] {
      FindOwnedStable(store[1..], s1[1..], m, id);
    }
  }

  /** Retrying a log that is already pending, untried and unscheduled is a
      no-op on the log store, yet still enqueues exactly one job. */
  lemma RetryOfFreshLogKeepsStore(store: seq<LogEntry>, jobs: seq<Job>, m: string, id: string, admits: string -> bool)
    requires forall i :: 0 <= i < |store| && store[i].id == id ==> IsFresh(store[i])
    ensures Retry(store, jobs, m, id, admits).store == store
    ensures Retry(store, jobs, m, id, admits).reply.Scheduled? ==> |Retry(store, jobs, m, id, admits).jobs| == |jobs| + 1
  {
  }
}
