/**
 The statements of internal/adapters/postgres/store.go as functions of the five tables.
 Each is one atomic step; the constraints of migration.sql decide what an insert does.
 */
module Tables {
  import opened Basics
  import opened Model
  import opened Statuses
  import opened Text

  const BATCH: nat := 50

  // ---- Orders --------------------------------------------------------------------

  function Snapshot(k: PaymentKey, o: Order): Payment {
    Payment(k, o.terms, o.status, o.raw, o.observedAt)
  }

  /** The one UPDATE shared by UpdateStatus, UpdatePaymentObservation and RecordProviderEvent. */
  function Written(o: Order, now: Time, status: Status, raw: string, observedAt: Time): Order {
    o.(status := status, raw := raw, observedAt := observedAt,
       next := if Open(status) then Some(now + Seconds(60)) else None, lastError := None)
  }

  function Claimed(o: Order, now: Time): Order {
    o.(next := Some(now + Seconds(60)), attempts := o.attempts + 1)
  }

  function RetryDelay(attempts: nat): int {
    Seconds(Min(3600, 10 * Pow2(Min(attempts, 8))))
  }

  function Truncate(message: string, limit: nat): string {
    if |message| <= limit then message else message[..limit]
  }

  function Retried(o: Order, now: Time, message: string): Order {
    if Open(o.status) then o.(next := Some(now + RetryDelay(o.attempts)), lastError := Some(Truncate(message, 1000)))
    else o
  }

  function Backfilled(o: Order, now: Time): Order {
    if Open(o.status) && o.next.None? then o.(next := Some(now)) else o
  }

  function SetOrder(db: Db, k: PaymentKey, o: Order): Db {
    db.(orders := db.orders[k := o])
  }

  /** An UPDATE by primary key: no row, no change. */
  function WriteOrder(db: Db, now: Time, k: PaymentKey, status: Status, raw: string, observedAt: Time): Db {
    if k in db.orders then SetOrder(db, k, Written(db.orders[k], now, status, raw, observedAt)) else db
  }

  function UpdateStatus(db: Db, now: Time, k: PaymentKey, status: Status, raw: string): Db {
    WriteOrder(db, now, k, status, raw, now)
  }

  function UpdateObservation(db: Db, now: Time, p: Payment): Db {
    WriteOrder(db, now, p.key, p.status, p.raw, p.observedAt)
  }

  function RetryReconciliation(db: Db, now: Time, k: PaymentKey, message: string): Db {
    if k in db.orders then SetOrder(db, k, Retried(db.orders[k], now, message)) else db
  }

  function Backfill(db: Db, now: Time): Db {
    db.(orders := map k | k in db.orders :: Backfilled(db.orders[k], now))
  }

  predicate Due(o: Order, now: Time) {
    Open(o.status) && o.next.Some? && o.next.value <= now
  }

  predicate Distinct<T(==)>(s: seq<T>) {
    forall i, j :: 0 <= i < j < |s| ==> s[i] != s[j]
  }

  /**
   The rows a claim may take: due, not locked by another transaction, the earliest first with
   ties broken any way, and as many as the limit allows.
   */
  ghost predicate IsClaim(orders: map<PaymentKey, Order>, now: Time, limit: nat, locked: set<PaymentKey>,
                          keys: seq<PaymentKey>) {
    && Distinct(keys)
    && |keys| <= limit
    && (forall k :: k in keys ==> k in orders && Due(orders[k], now) && k !in locked)
    && (forall j :: j in orders && Due(orders[j], now) && j !in locked && j !in keys ==>
          |keys| == limit && forall k :: k in keys ==> orders[k].next.value <= orders[j].next.value)
  }

  function Claim(db: Db, now: Time, keys: seq<PaymentKey>): Db {
    db.(orders := map k | k in db.orders :: if k in keys then Claimed(db.orders[k], now) else db.orders[k])
  }

  // ---- Create operations ---------------------------------------------------------

  datatype Lookup<+T> = Proceed | Replay(value: T) | Refused(error: Error)

  /** INSERT ... ON CONFLICT DO NOTHING; it takes effect when the key is new. */
  function InsertOperation(db: Db, key: string, hash: string, cmd: CreateCommand): Db {
    if key in db.operations then db
    else db.(operations := db.operations[key := Operation(hash, cmd, Processing, None, None)])
  }

  /** The SELECT after an insert that took no effect. */
  function LookupOperation(db: Db, key: string, hash: string): Lookup<Payment> {
    if key !in db.operations then Refused(NotFound)
    else
      var op := db.operations[key];
      if op.hash != hash || op.status != Completed then Refused(Conflict)
      else if op.response.None? then Refused(Invalid("unreadable response"))
      else Replay(op.response.value)
  }

  function ReserveCreate(db: Db, key: string, hash: string): Lookup<Payment> {
    if key !in db.operations then Proceed else LookupOperation(db, key, hash)
  }

  /** An existing row that a new payment would duplicate in one of the two unique indexes. */
  predicate Clashes(k: PaymentKey, o: Order, p: Payment) {
    || o.terms.transaction == p.terms.transaction
    || (k.connection == p.key.connection && o.terms.reference == p.terms.reference)
  }

  /** Primary key and the two unique constraints of the orders table. */
  predicate CanInsertOrder(db: Db, p: Payment) {
    p.key !in db.orders && forall k :: k in db.orders ==> !Clashes(k, db.orders[k], p)
  }

  function NewOrder(p: Payment, now: Time): Order {
    Order(p.terms, p.status, p.raw, p.observedAt, 0, if Open(p.status) then Some(now + Seconds(10)) else None, None)
  }

  function FinishOperation(db: Db, key: string, p: Payment): Db {
    if key in db.operations then
      db.(operations := db.operations[key := db.operations[key].(status := Completed, response := Some(Serialized(p)))])
    else db
  }

  /** One transaction: the order row and the completed operation, or nothing. */
  function CompleteCreate(db: Db, now: Time, key: string, p: Payment): Db {
    if CanInsertOrder(db, p) then FinishOperation(SetOrder(db, p.key, NewOrder(p, now)), key, p) else db
  }

  function FailCreate(db: Db, key: string, message: string): Db {
    if key in db.operations then
      db.(operations := db.operations[key := db.operations[key].(status := Aborted, message := Some(message))])
    else db
  }

  // ---- Inbox and outbox ----------------------------------------------------------

  function InboundOf(e: Event): InboundKey {
    InboundKey(e.key.connection, e.id)
  }

  predicate EventRecorded(db: Db, e: Event) {
    InboundOf(e) in db.inbound
  }

  /** The transaction goes through when neither the inbox nor the outbox knows the id. */
  predicate CanRecord(db: Db, e: Event) {
    !EventRecorded(db, e) && e.id !in db.outbox
  }

  /** Inbox row, outbox row and order update in one transaction, or nothing. */
  function RecordEvent(db: Db, now: Time, e: Event, evidence: Evidence): Db {
    if CanRecord(db, e) then
      WriteOrder(db.(inbound := db.inbound[InboundOf(e) := evidence],
                     outbox := db.outbox[e.id := Delivery(e, 0, now, None, None, now)]),
                 now, e.key, e.status, e.raw, e.observedAt)
    else db
  }

  function PublishDelay(attempts: nat): int {
    Seconds(Min(300, 2 * Pow2(Min(attempts, 8))))
  }

  predicate Sendable(d: Delivery, now: Time) {
    d.published.None? && d.nextAttempt <= now
  }

  /** The page PendingEvents may return: unpublished, due, oldest first. */
  ghost predicate IsPage(outbox: map<string, Delivery>, now: Time, limit: nat, ids: seq<string>) {
    && Distinct(ids)
    && |ids| <= limit
    && (forall e :: e in ids ==> e in outbox && Sendable(outbox[e], now))
    && (forall i, j :: 0 <= i < j < |ids| ==> outbox[ids[i]].createdAt <= outbox[ids[j]].createdAt)
    && (forall e :: e in outbox && Sendable(outbox[e], now) && e !in ids ==>
          |ids| == limit && forall d :: d in ids ==> outbox[d].createdAt <= outbox[e].createdAt)
  }

  function MarkPublished(db: Db, now: Time, id: string): Db {
    if id in db.outbox then db.(outbox := db.outbox[id := db.outbox[id].(published := Some(now))]) else db
  }

  function Failure(d: Delivery, now: Time, message: string): Delivery {
    d.(attempts := d.attempts + 1, lastError := Some(message), nextAttempt := now + PublishDelay(d.attempts))
  }

  function MarkFailed(db: Db, now: Time, id: string, message: string): Db {
    if id in db.outbox then db.(outbox := db.outbox[id := Failure(db.outbox[id], now, message)]) else db
  }

  // ---- Refunds -------------------------------------------------------------------

  /** Primary key on the refund id, unique request id, unique idempotency key. */
  predicate CanInsertRefund(db: Db, key: string, cmd: RefundCommand) {
    && cmd.refund !in db.refunds
    && forall r :: r in db.refunds ==>
         db.refunds[r].request != RemoveDashes(cmd.refund) && db.refunds[r].key != key
  }

  function InsertRefund(db: Db, now: Time, key: string, hash: string, cmd: RefundCommand): Db {
    if CanInsertRefund(db, key, cmd) then
      db.(refunds := db.refunds[cmd.refund :=
            RefundRow(cmd, RemoveDashes(cmd.refund), key, hash, "", RefundProcessing, "", None, None, now)])
    else db
  }

  predicate HoldsKey(db: Db, r: string, key: string) {
    r in db.refunds && db.refunds[r].key == key
  }

  predicate KeyHasRow(db: Db, key: string) {
    exists r :: r in db.refunds && HoldsKey(db, r, key)
  }

  function LookupRow(row: RefundRow, hash: string): Lookup<Refund> {
    if row.hash != hash || row.status == RefundProcessing || row.response.None? then Refused(Conflict)
    else Replay(row.response.value)
  }

  /** What the SELECT by idempotency key may answer; without a row the caller proceeds. */
  ghost predicate LooksUp(db: Db, key: string, hash: string, answer: Lookup<Refund>) {
    if KeyHasRow(db, key) then exists r :: HoldsKey(db, r, key) && answer == LookupRow(db.refunds[r], hash)
    else answer == Proceed
  }

  function CompletedRow(row: RefundRow, r: Refund): RefundRow {
    row.(providerRefund := r.providerRefund, status := r.status, raw := r.raw, response := Some(r),
        observedAt := r.observedAt)
  }

  function FailedRow(row: RefundRow, message: string): RefundRow {
    row.(status := RefundFailed, message := Some(message))
  }

  function CompleteRefund(db: Db, key: string, refund: Refund): Db {
    db.(refunds := map r | r in db.refunds ::
          if db.refunds[r].key == key then CompletedRow(db.refunds[r], refund) else db.refunds[r])
  }

  function FailRefund(db: Db, key: string, message: string): Db {
    db.(refunds := map r | r in db.refunds ::
          if db.refunds[r].key == key then FailedRow(db.refunds[r], message) else db.refunds[r])
  }
}
