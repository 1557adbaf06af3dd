/**
 The statements that change the tables, as one type: properties of the tables are proved once
 per statement and hold of every protocol step, since a step runs at most one of them.
 */
module Statements {
  import opened Basics
  import opened Model
  import opened Statuses
  import opened Tables

  datatype Statement =
    | Nothing
    | Reserve(idempotency: string, hash: string, cmd: CreateCommand)
    | Complete(idempotency: string, payment: Payment)
    | Fail(idempotency: string, message: string)
    | Write(key: PaymentKey, status: Status, raw: string, at: Time)
    | TakeBatch(keys: seq<PaymentKey>)
    | PostponeRetry(key: PaymentKey, message: string)
    | FillSchedule
    | RecordProviderEvent(event: Event, evidence: Evidence)
    | Publish(id: string)
    | Postpone(id: string, message: string)

  function Execute(db: Db, now: Time, q: Statement): Db {
    match q
    case Nothing => db
    case Reserve(key, hash, cmd) => InsertOperation(db, key, hash, cmd)
    case Complete(key, p) => CompleteCreate(db, now, key, p)
    case Fail(key, message) => FailCreate(db, key, message)
    case Write(k, status, raw, at) => WriteOrder(db, now, k, status, raw, at)
    case TakeBatch(keys) => Claim(db, now, keys)
    case PostponeRetry(k, message) => RetryReconciliation(db, now, k, message)
    case FillSchedule => Backfill(db, now)
    case RecordProviderEvent(e, evidence) => RecordEvent(db, now, e, evidence)
    case Publish(id) => MarkPublished(db, now, id)
    case Postpone(id, message) => MarkFailed(db, now, id, message)
  }

  // ---- Rows ------------------------------------------------------------------------

  /** What a statement does to one existing order row. */
  datatype RowChange =
    | Keep
    | Rewrite(status: Status, raw: string, at: Time)
    | Take
    | Delay(message: string)
    | Fill

  function ChangeOf(db: Db, q: Statement, k: PaymentKey): RowChange {
    match q
    case Write(j, status, raw, at) => if j == k then Rewrite(status, raw, at) else Keep
    case RecordProviderEvent(e, _) =>
      if CanRecord(db, e) && e.key == k then Rewrite(e.status, e.raw, e.observedAt) else Keep
    case TakeBatch(keys) => if k in keys then Take else Keep
    case PostponeRetry(j, message) => if j == k then Delay(message) else Keep
    case FillSchedule => Fill
    case _ => Keep
  }

  function Changed(o: Order, now: Time, c: RowChange): Order {
    match c
    case Keep => o
    case Rewrite(status, raw, at) => Written(o, now, status, raw, at)
    case Take => Claimed(o, now)
    case Delay(message) => Retried(o, now, message)
    case Fill => Backfilled(o, now)
  }

  lemma RowChanges(db: Db, now: Time, q: Statement, k: PaymentKey)
    requires k in db.orders
    ensures k in Execute(db, now, q).orders
    ensures Execute(db, now, q).orders[k] == Changed(db.orders[k], now, ChangeOf(db, q, k))
  {
  }

  lemma RowAppears(db: Db, now: Time, q: Statement, k: PaymentKey)
    requires k in Execute(db, now, q).orders && k !in db.orders
    ensures q.Complete? && k == q.payment.key && Execute(db, now, q).orders[k] == NewOrder(q.payment, now)
  {
  }

  /** Rows are never deleted, change only as their statement says, and appear only by creation. */
  lemma RowsChange(db: Db, now: Time, q: Statement)
    ensures forall k :: k in db.orders ==>
              k in Execute(db, now, q).orders &&
                  Execute(db, now, q).orders[k] == Changed(db.orders[k], now, ChangeOf(db, q, k))
    ensures forall k :: k in Execute(db, now, q).orders && k !in db.orders ==>
              q.Complete? && k == q.payment.key && Execute(db, now, q).orders[k] == NewOrder(q.payment, now)
  {
    var t := Execute(db, now, q);
    forall k | k in db.orders ensures k in t.orders && t.orders[k] == Changed(db.orders[k], now, ChangeOf(db, q, k)) {
      RowChanges(db, now, q, k);
    }
    forall k | k in t.orders && k !in db.orders
      ensures q.Complete? && k == q.payment.key && t.orders[k] == NewOrder(q.payment, now)
    {
      RowAppears(db, now, q, k);
    }
  }

  // ---- Outbox ----------------------------------------------------------------------

  predicate Emits(db: Db, q: Statement) {
    q.RecordProviderEvent? && CanRecord(db, q.event)
  }

  lemma BoxesChange(db: Db, now: Time, q: Statement)
    ensures var t := Execute(db, now, q);
      && t.outbox.Keys == db.outbox.Keys + (if Emits(db, q) then {q.event.id} else {})
      && t.inbound == if Emits(db, q) then db.inbound[InboundOf(q.event) := q.evidence] else db.inbound
  {
  }

  /** An outbox row keeps its event; a new one holds the event that was recorded. */
  lemma OutboxChanges(db: Db, now: Time, q: Statement, id: string)
    requires id in Execute(db, now, q).outbox
    ensures Execute(db, now, q).outbox[id].event ==
              if id in db.outbox then db.outbox[id].event else q.event
    ensures id !in db.outbox ==> Emits(db, q) && id == q.event.id
  {
  }
}
