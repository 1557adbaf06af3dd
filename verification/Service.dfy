/**
 The service's calls (internal/app/service.go, webhook.go, reconciler.go) as methods over the
 store. Provider replies and clock readings are parameters; `now` is the database's clock. Each
 method runs without interruption; ServiceSteps shows that this is one schedule of the protocol.
 */
module Services {
  import opened Basics
  import opened Model
  import opened Statuses
  import opened Text
  import opened Tables
  import opened Decisions
  import opened EventIds
  import Amounts
  import Refunds
  import Stores

  datatype Reply<+T> = Failure(message: string) | Answer(value: T)

  datatype NewOrderReply = NewOrderReply(id: string, expireTime: Option<Time>, completion: string)

  datatype RefundReply = RefundReply(id: string, raw: string)

  // ---- What a call leaves in the tables -----------------------------------------------------

  function AfterCreate(config: Config, db: Db, now: Time, key: string, cmd: CreateCommand,
                       reply: Reply<NewOrderReply>, at: Time): Db
  {
    if !ValidCreate(config, key, cmd) || key in db.operations then db
    else
      var reserved := InsertOperation(db, key, config.fingerprint(cmd), cmd);
      match reply
      case Failure(message) => FailCreate(reserved, key, message)
      case Answer(o) => CompleteCreate(reserved, now, key, CreatedPayment(cmd, o.id, o.expireTime, o.completion, at))
  }

  function AfterGet(config: Config, db: Db, now: Time, k: PaymentKey, reply: Reply<string>): Db {
    if k.connection in config.connections && reply.Answer?
    then UpdateStatus(db, now, k, NormalizeStatus(reply.value), reply.value) else db
  }

  function AfterCancel(config: Config, db: Db, now: Time, k: PaymentKey, reply: Reply<()>): Db {
    if k.connection in config.connections && reply.Answer?
    then UpdateStatus(db, now, k, Cancelled, "PAY_CLOSED") else db
  }

  function AfterHook(db: Db, now: Time, p: Payment, h: Hook, at: Time, stamp: Time): Db {
    match DecideHook(p, h, at, stamp)
    case Record(event) => RecordEvent(db, now, event, Evidence(h.amount))
    case _ => db
  }

  /** The database's text for a violated constraint. */
  const VIOLATION := "duplicate key value violates unique constraint"

  function AfterReconcile(sha: Hash, db: Db, now: Time, p: Payment, reply: Reply<Model.Answer>, at: Time,
                          stamp: Time): Db {
    match reply
    case Failure(message) => RetryReconciliation(db, now, p.key, message)
    case Answer(a) =>
      match DecidePoll(sha, p, a, at, stamp)
      case Retry(message) => RetryReconciliation(db, now, p.key, message)
      case Observe(seen) => UpdateObservation(db, now, seen)
      case Emit(e) => RecordedOrRetried(db, now, e, Evidence(a.amount))
  }

  /** A poll event that collides in the outbox postpones its order instead. */
  function RecordedOrRetried(db: Db, now: Time, e: Event, evidence: Evidence): Db {
    if EventRecorded(db, e) || CanRecord(db, e) then RecordEvent(db, now, e, evidence)
    else RetryReconciliation(db, now, e.key, VIOLATION)
  }

  function AfterRefund(config: Config, db: Db, now: Time, key: string, payment: PaymentKey, cmd: RefundCommand,
                       reply: Reply<RefundReply>, at: Time): Db
  {
    if !Refunds.ValidRefund(config, db, key, payment, cmd) || KeyHasRow(db, key) then db
    else
      var reserved := InsertRefund(db, now, key, config.refundFingerprint(cmd), cmd);
      match reply
      case Failure(message) => FailRefund(reserved, key, message)
      case Answer(a) => CompleteRefund(reserved, key, Refunds.NewRefund(cmd, a.id, a.raw, at))
  }

  /** The raw statuses a webhook is recorded for. */
  predicate Reportable(raw: string) {
    || EqualFold(raw, "INITIAL") || EqualFold(raw, "PAID") || EqualFold(raw, "PAY_SUCCESS")
    || EqualFold(raw, "PAY_CLOSED") || EqualFold(raw, "PAY_FAIL")
  }

  /** The refund id, or its form without dashes, belongs to a stored refund. */
  predicate RefundBlocked(db: Db, cmd: RefundCommand) {
    cmd.refund in db.refunds || exists x :: x in db.refunds && db.refunds[x].request == RemoveDashes(cmd.refund)
  }

  // ---- The calls -------------------------------------------------------------------------------

  class Service {
    const config: Config
    const store: Stores.Store

    constructor (config: Config, store: Stores.Store)
      ensures this.config == config && this.store == store
    {
      this.config, this.store := config, store;
    }

    method Validate(cmd: CreateCommand, key: string) returns (r: Result<()>)
      ensures r.Ok? <==> ValidCreate(config, key, cmd)
      ensures if "" in {key, cmd.transaction, cmd.connection, cmd.amount, cmd.currency}
              then r == Err(Invalid("missing required field"))
              else if cmd.provider !in {"", "binancepay"} then r == Err(Invalid("unsupported provider"))
              else if cmd.merchant == "" then r == Err(Invalid("merchant provider binding is required"))
              else if cmd.connection !in config.connections then r == Err(Invalid("unknown provider connection"))
              else r == Ok(())
    {
      if key == "" || cmd.transaction == "" || cmd.connection == "" || cmd.amount == "" || cmd.currency == "" {
        return Err(Invalid("missing required field"));
      }
      if cmd.provider != "" && cmd.provider != "binancepay" {
        return Err(Invalid("unsupported provider"));
      }
      if cmd.merchant == "" {
        return Err(Invalid("merchant provider binding is required"));
      }
      if cmd.connection !in config.connections {
        return Err(Invalid("unknown provider connection"));
      }
      r := Ok(());
    }

    method Create(now: Time, cmd: CreateCommand, key: string, reply: Reply<NewOrderReply>, at: Time)
      returns (r: Result<Payment>)
      modifies store
      ensures store.Contents() == AfterCreate(config, old(store.Contents()), now, key, cmd, reply, at)
      ensures !ValidCreate(config, key, cmd) || key in old(store.operations) ==>
          store.Contents() == old(store.Contents())
      ensures !ValidCreate(config, key, cmd) ==> r.Err? && r.error.Invalid?
      ensures ValidCreate(config, key, cmd) && key in old(store.operations) ==>
                var row := old(store.operations)[key];
                if row.hash == config.fingerprint(cmd) && row.status == Completed && row.response.Some?
                then r == Ok(row.response.value)
                else r == Err(if row.hash == config.fingerprint(cmd) && row.status == Completed
                              then Invalid("unreadable response") else Conflict)
      ensures ValidCreate(config, key, cmd) && key !in old(store.operations) && reply.Failure? ==>
                && r == Err(Invalid(reply.message))
                && store.orders == old(store.orders)
                && store.operations == old(store.operations)[key :=
                     Operation(config.fingerprint(cmd), cmd, Aborted, None, Some(reply.message))]
      ensures ValidCreate(config, key, cmd) && key !in old(store.operations) && reply.Answer? ==>
                && (r.Ok? <==>
                    && PaymentKey(cmd.connection, reply.value.id) !in old(store.orders)
                    && forall k :: k in old(store.orders) ==>
                         && old(store.orders)[k].terms.transaction != cmd.transaction
                         && !(k.connection == cmd.connection
                              && old(store.orders)[k].terms.reference == RemoveDashes(cmd.transaction)))
                && (r.Err? ==>
                    && r.error == Constraint
                    && store.orders == old(store.orders)
                    && store.operations == old(store.operations)[key :=
                         Operation(config.fingerprint(cmd), cmd, Processing, None, None)])
      ensures r.Ok? && key !in old(store.operations) ==>
                && reply.Answer?
                && var k := PaymentKey(cmd.connection, reply.value.id);
                   var expiresAt := if reply.value.expireTime.Some? then reply.value.expireTime else cmd.expiresAt;
                   var terms := Terms(RemoveDashes(cmd.transaction), cmd.transaction, cmd.amount, ToUpper(cmd.currency),
                                      expiresAt, reply.value.completion, RemoveDashes(cmd.transaction));
                   && r.value == Payment(k, terms, Created, "INITIAL", at)
                   && store.orders == old(store.orders)[k :=
                        Order(terms, Created, "INITIAL", at, 0, Some(now + 10_000_000), None)]
                   && store.operations == old(store.operations)[key :=
                        Operation(config.fingerprint(cmd), cmd, Completed,
                                  Some(Payment(k, terms.(amount := "", currency := ""), Created, "INITIAL", at)), None)]
      ensures store.inbound == old(store.inbound) && store.outbox == old(store.outbox)
      ensures store.refunds == old(store.refunds)
    {
      var valid := Validate(cmd, key);
      if valid.Err? {
        return Err(valid.error);
      }
      var previous := store.ReserveCreate(key, config.fingerprint(cmd), cmd);
      if previous.Refused? {
        return Err(previous.error);
      }
      if previous.Replay? {
        return Ok(previous.value);
      }
      var tradeNo := RemoveDashes(cmd.transaction);
      if reply.Failure? {
        store.FailCreate(key, reply.message);
        return Err(Invalid(reply.message));
      }
      var expiresAt := cmd.expiresAt;
      if reply.value.expireTime.Some? {
        expiresAt := reply.value.expireTime;
      }
      var payment := Payment(PaymentKey(cmd.connection, reply.value.id),
                             Terms(tradeNo, cmd.transaction, cmd.amount, ToUpper(cmd.currency), expiresAt,
                                   reply.value.completion, tradeNo),
                             Created, "INITIAL", at);
      var done := store.CompleteCreate(now, key, payment);
      if done.Err? {
        return Err(done.error);
      }
      r := Ok(payment);
    }

    /** The stored payment comes back beside the error of a failed query. */
    method Get(now: Time, k: PaymentKey, reply: Reply<string>, at: Time)
      returns (payment: Option<Payment>, error: Option<Error>)
      modifies store
      ensures payment.Some? <==> k.connection in config.connections && k in old(store.orders)
      ensures store.Contents() == AfterGet(config, old(store.Contents()), now, k, reply)
      ensures payment.Some? && reply.Answer? ==>
                var o := old(store.orders)[k];
                store.orders == old(store.orders)[k :=
                  Order(o.terms, NormalizeStatus(reply.value), reply.value, now, o.attempts,
                        if Final(reply.value) then None else Some(now + 60_000_000), None)]
      ensures payment.None? || reply.Failure? ==> store.orders == old(store.orders)
      ensures store.operations == old(store.operations) && store.refunds == old(store.refunds)
      ensures store.inbound == old(store.inbound) && store.outbox == old(store.outbox)
      ensures payment.Some? ==>
                var stored := Snapshot(k, old(store.orders)[k]);
                if reply.Answer?
                then error.None? && payment.value ==
                    stored.(raw := reply.value, status := NormalizeStatus(reply.value), observedAt := at)
                else error == Some(Invalid(reply.message)) && payment.value == stored
      ensures payment.None? ==>
                error == Some(if k.connection in config.connections then NotFound
                    else Invalid("unknown provider connection"))
    {
      if k.connection !in config.connections {
        return None, Some(Invalid("unknown provider connection"));
      }
      var found := store.FindPayment(k);
      if found.Err? {
        return None, Some(NotFound);
      }
      payment := Some(found.value);
      if reply.Failure? {
        return payment, Some(Invalid(reply.message));
      }
      payment := Some(found.value.(raw := reply.value, status := NormalizeStatus(reply.value), observedAt := at));
      var _ := store.UpdateStatus(now, k, payment.value.status, payment.value.raw);
      error := None;
    }

    method Cancel(now: Time, k: PaymentKey, reply: Reply<()>, at: Time)
      returns (payment: Option<Payment>, error: Option<Error>)
      modifies store
      ensures payment.Some? <==> k.connection in config.connections && k in old(store.orders)
      ensures store.Contents() == AfterCancel(config, old(store.Contents()), now, k, reply)
      ensures payment.Some? && reply.Answer? ==>
                var o := old(store.orders)[k];
                store.orders == old(store.orders)[k := Order(o.terms, Cancelled, "PAY_CLOSED", now, o.attempts, None,
                    None)]
      ensures payment.None? || reply.Failure? ==> store.orders == old(store.orders)
      ensures store.operations == old(store.operations) && store.refunds == old(store.refunds)
      ensures store.inbound == old(store.inbound) && store.outbox == old(store.outbox)
      ensures payment.Some? ==>
                var stored := Snapshot(k, old(store.orders)[k]);
                if reply.Answer?
                then error.None? && payment.value == stored.(status := Cancelled, raw := "PAY_CLOSED", observedAt := at)
                else error == Some(Invalid(reply.message)) && payment.value == stored
      ensures payment.None? ==>
                error == Some(if k.connection in config.connections then NotFound
                    else Invalid("unknown provider connection"))
    {
      if k.connection !in config.connections {
        return None, Some(Invalid("unknown provider connection"));
      }
      var found := store.FindPayment(k);
      if found.Err? {
        return None, Some(NotFound);
      }
      payment := Some(found.value);
      if reply.Failure? {
        return payment, Some(Invalid(reply.message));
      }
      payment := Some(found.value.(status := Cancelled, raw := "PAY_CLOSED", observedAt := at));
      var written := store.UpdateStatus(now, k, payment.value.status, payment.value.raw);
      error := ErrorOf(written);
    }

    /** The status a provider document means: a closed order past its expiry has expired. */
    method SettledStatus(raw: string, expiresAt: Option<Time>, at: Time) returns (status: Status)
      ensures status == Expired <==> EqualFold(raw, "PAY_CLOSED") && expiresAt.Some? && at >= expiresAt.value
      ensures status != Expired ==> status == NormalizeStatus(raw)
      ensures Open(status) <==> !Final(raw)
    {
      NormalForms();
      status := NormalizeStatus(raw);
      if EqualFold(raw, "PAY_CLOSED") && expiresAt.Some? && at >= expiresAt.value {
        status := Expired;
      }
    }

    /** Answers whether a new event was recorded, and for which order the document was taken. */
    method HandleWebhook(now: Time, connection: string, h: Hook, at: Time, stamp: Time)
      returns (r: Result<bool>, target: Option<PaymentKey>)
      modifies store
      ensures target.None? <==>
                forall k :: k in old(store.orders) ==>
                    !(k.connection == connection && old(store.orders)[k].terms.reference == h.reference)
      ensures target.None? ==> r == Err(NotFound) && store.Contents() == old(store.Contents())
      ensures target.Some? ==>
                var k := target.value;
                && k in old(store.orders) && k.connection == connection &&
                    old(store.orders)[k].terms.reference == h.reference
                && var p := Snapshot(k, old(store.orders)[k]);
                   && store.Contents() == AfterHook(old(store.Contents()), now, p, h, at, stamp)
                   && (r.Err? <==>
                       || !Matches(p, h.id, h.currency, h.amount)
                       || (Reportable(h.raw) && InboundKey(connection, HookId(k.id, h.raw)) !in old(store.inbound)
                           && HookId(k.id, h.raw) in old(store.outbox)))
                   && (r == Ok(true) <==> store.Contents() != old(store.Contents()))
    {
      var found := store.FindPaymentByReference(connection, h.reference);
      if found.Err? {
        return Err(found.error), None;
      }
      var payment := found.value;
      target := Some(payment.key);
      r := RecordWebhook(now, payment, h, at, stamp);
    }

    /** The rest of a webhook once its order is found. */
    method RecordWebhook(now: Time, payment: Payment, h: Hook, at: Time, stamp: Time) returns (r: Result<bool>)
      modifies store
      ensures store.Contents() == AfterHook(old(store.Contents()), now, payment, h, at, stamp)
      ensures r == Ok(true) <==> store.Contents() != old(store.Contents())
      ensures if !(h.id == "" || h.id == payment.key.id) then r == Err(Invalid("provider payment mismatch"))
              else if !(h.currency == "" || EqualFold(h.currency, payment.terms.currency))
              then r == Err(Invalid("currency mismatch"))
              else if !(h.amount == "" || Amounts.AmountsEqual(h.amount, payment.terms.amount))
              then r == Err(Invalid("amount mismatch"))
              else if !(EqualFold(h.raw, "INITIAL") || EqualFold(h.raw, "PAID") || EqualFold(h.raw, "PAY_SUCCESS")
                        || EqualFold(h.raw, "PAY_CLOSED") || EqualFold(h.raw, "PAY_FAIL"))
              then r == Ok(false)
              else
                var id := "binancepay:" + payment.key.id + ":" + ToLower(h.raw);
                r == if InboundKey(payment.key.connection, id) in old(store.inbound) then Ok(false)
                     else if id in old(store.outbox) then Err(Constraint) else Ok(true)
      ensures r == Ok(true) ==>
                var id := "binancepay:" + payment.key.id + ":" + ToLower(h.raw);
                var closed := EqualFold(h.raw, "PAY_CLOSED") && payment.terms.expiresAt.Some?
                              && at >= payment.terms.expiresAt.value;
                var status := if closed then Expired else NormalizeStatus(h.raw);
                var event := Event(id, "payment.provider_" + StatusText(status), Webhook, stamp,
                                   payment.terms.transaction, payment.key, status, h.raw, payment.terms.amount,
                                   payment.terms.currency, payment.terms.reference, h.transaction);
                && store.inbound == old(store.inbound)[InboundKey(payment.key.connection, id) := Evidence(h.amount)]
                && store.outbox == old(store.outbox)[id := Delivery(event, 0, now, None, None, now)]
                && if payment.key !in old(store.orders) then store.orders == old(store.orders)
                   else var o := old(store.orders)[payment.key];
                     store.orders == old(store.orders)[payment.key :=
                       Order(o.terms, status, h.raw, stamp, o.attempts,
                             if Final(h.raw) then None else Some(now + 60_000_000), None)]
      ensures store.operations == old(store.operations) && store.refunds == old(store.refunds)
    {
      var mismatch := FirstMismatch(payment, h.id, h.currency, h.amount);
      if mismatch.Some? {
        return Err(Invalid(mismatch.value));
      }
      var status := SettledStatus(h.raw, payment.terms.expiresAt, at);
      assert status == Settle(h.raw, payment.terms.expiresAt, at);
      StatusTable(h.raw);
      if status == Pending && !EqualFold(h.raw, "PAID") {
        return Ok(false);
      }
      var seen := payment.(status := status, raw := h.raw, observedAt := stamp);
      var event := NewEvent(seen, HookId(payment.key.id, h.raw), Webhook, h.transaction);
      ghost var db := store.Contents();
      RecordChanges(db, now, event, Evidence(h.amount));
      r := store.RecordProviderEvent(now, event, Evidence(h.amount));
    }

    /** The first of the three checks of a provider document that fails, by its message. */
    method FirstMismatch(p: Payment, id: string, currency: string, amount: string) returns (m: Option<string>)
      ensures m.None? <==> Matches(p, id, currency, amount)
      ensures m == if !(id == "" || id == p.key.id) then Some("provider payment mismatch")
                   else if !(currency == "" || EqualFold(currency, p.terms.currency)) then Some("currency mismatch")
                   else if !(amount == "" || Amounts.AmountsEqual(amount, p.terms.amount)) then Some("amount mismatch")
                   else None
    {
      if id != "" && id != p.key.id {
        return Some("provider payment mismatch");
      }
      if currency != "" && !EqualFold(currency, p.terms.currency) {
        return Some("currency mismatch");
      }
      if amount != "" && !Amounts.AmountsEqual(amount, p.terms.amount) {
        return Some("amount mismatch");
      }
      m := None;
    }

    method ReconcilePayment(now: Time, claimed: Payment, reply: Reply<Model.Answer>, at: Time, stamp: Time)
      modifies store
      ensures store.Contents() == AfterReconcile(config.sha, old(store.Contents()), now, claimed, reply, at, stamp)
      ensures store.operations == old(store.operations) && store.refunds == old(store.refunds)
      ensures reply.Failure? ==> store.Postponed(old(store.Contents()), now, claimed.key, reply.message)
      ensures reply.Answer? && !Matches(claimed, reply.value.id, reply.value.currency, reply.value.amount) ==>
                store.Postponed(old(store.Contents()), now, claimed.key,
                  if reply.value.id != "" && reply.value.id != claimed.key.id then "provider payment mismatch"
                  else if reply.value.currency != "" && !EqualFold(reply.value.currency, claimed.terms.currency)
                  then "currency mismatch" else "amount mismatch")
      ensures reply.Answer? && Matches(claimed, reply.value.id, reply.value.currency, reply.value.amount)
              && !Final(reply.value.raw) ==>
                && store.inbound == old(store.inbound) && store.outbox == old(store.outbox)
                && if claimed.key !in old(store.orders) then store.orders == old(store.orders)
                   else var o := old(store.orders)[claimed.key];
                     store.orders == old(store.orders)[claimed.key :=
                       Order(o.terms, NormalizeStatus(reply.value.raw), reply.value.raw, stamp, o.attempts,
                             Some(now + 60_000_000), None)]
      ensures reply.Answer? && Matches(claimed, reply.value.id, reply.value.currency, reply.value.amount)
              && Final(reply.value.raw) ==>
                var raw, id := reply.value.raw, PollId(config.sha, claimed.key, reply.value.raw);
                if InboundKey(claimed.key.connection, id) in old(store.inbound)
                then store.Contents() == old(store.Contents())
                else if id in old(store.outbox)
                then store.Postponed(old(store.Contents()), now, claimed.key, VIOLATION)
                else
                  var closed := EqualFold(raw, "PAY_CLOSED") && claimed.terms.expiresAt.Some?
                                && at >= claimed.terms.expiresAt.value;
                  var status := if closed then Expired else NormalizeStatus(raw);
                  var event := Event(id, "payment.provider_" + StatusText(status), Poll, stamp,
                                     claimed.terms.transaction, claimed.key, status, raw, claimed.terms.amount,
                                     claimed.terms.currency, claimed.terms.reference, reply.value.transaction);
                  && store.inbound == old(store.inbound)[InboundKey(claimed.key.connection, id) :=
                                                           Evidence(reply.value.amount)]
                  && store.outbox == old(store.outbox)[id := Delivery(event, 0, now, None, None, now)]
                  && if claimed.key !in old(store.orders) then store.orders == old(store.orders)
                     else var o := old(store.orders)[claimed.key];
                       store.orders == old(store.orders)[claimed.key :=
                         Order(o.terms, status, raw, stamp, o.attempts, None, None)]
    {
      var payment := claimed;
      if reply.Failure? {
        store.RetryPaymentReconciliation(now, payment.key, reply.message);
        return;
      }
      var a := reply.value;
      var mismatch := FirstMismatch(payment, a.id, a.currency, a.amount);
      if mismatch.Some? {
        store.RetryPaymentReconciliation(now, payment.key, mismatch.value);
        return;
      }
      var status := SettledStatus(a.raw, payment.terms.expiresAt, at);
      assert status == Settle(a.raw, payment.terms.expiresAt, at);
      payment := payment.(status := status, raw := a.raw, observedAt := stamp);
      if status == Created || status == Pending {
        store.UpdatePaymentObservation(now, payment);
        return;
      }
      var event := NewEvent(payment, PollId(config.sha, payment.key, payment.raw), Poll, a.transaction);
      assert DecidePoll(config.sha, claimed, a, at, stamp) == Emit(event);
      RecordOrRetry(now, event, Evidence(a.amount));
    }

    method RecordOrRetry(now: Time, event: Event, evidence: Evidence)
      modifies store
      ensures store.Contents() == RecordedOrRetried(old(store.Contents()), now, event, evidence)
      ensures store.operations == old(store.operations) && store.refunds == old(store.refunds)
      ensures if InboundKey(event.key.connection, event.id) in old(store.inbound)
              then store.Contents() == old(store.Contents())
              else if event.id in old(store.outbox)
              then store.Postponed(old(store.Contents()), now, event.key, VIOLATION)
              else
                && store.inbound == old(store.inbound)[InboundKey(event.key.connection, event.id) := evidence]
                && store.outbox == old(store.outbox)[event.id := Delivery(event, 0, now, None, None, now)]
                && if event.key !in old(store.orders) then store.orders == old(store.orders)
                   else var o := old(store.orders)[event.key];
                     store.orders == old(store.orders)[event.key :=
                       Order(o.terms, event.status, event.raw, event.observedAt, o.attempts,
                             if event.status in {Created, Pending} then Some(now + 60_000_000) else None, None)]
    {
      var recorded := store.RecordProviderEvent(now, event, evidence);
      if recorded.Err? {
        store.RetryPaymentReconciliation(now, event.key, VIOLATION);
      }
    }

    /**
     A call whose key has no row goes to the provider; if its refund id belongs to another key
     it refunds there and then fails, with no row changed.
     */
    method CreateRefund(now: Time, paymentId: string, key: string, cmd: RefundCommand, reply: Reply<RefundReply>,
                        at: Time)
      returns (r: Result<Refund>)
      modifies store
      ensures var payment := PaymentKey(cmd.connection, paymentId);
        store.Contents() == AfterRefund(config, old(store.Contents()), now, key, payment, cmd, reply, at)
      ensures var k := PaymentKey(cmd.connection, paymentId);
        if "" in {key, cmd.refund, cmd.transaction, cmd.connection, cmd.amount, cmd.currency}
        then r == Err(Invalid("missing required field")) && store.refunds == old(store.refunds)
        else if cmd.connection !in config.connections
        then r == Err(Invalid("unknown provider connection")) && store.refunds == old(store.refunds)
        else if k !in old(store.orders) then r == Err(NotFound) && store.refunds == old(store.refunds)
        else if old(store.orders)[k].terms.transaction != cmd.transaction
                || !EqualFold(old(store.orders)[k].terms.currency, cmd.currency)
        then r == Err(Conflict) && store.refunds == old(store.refunds)
        else Refunds.ValidRefund(config, old(store.Contents()), key, k, cmd)
      ensures Refunds.ValidRefund(config, old(store.Contents()), key, PaymentKey(cmd.connection, paymentId), cmd)
              && KeyHasRow(old(store.Contents()), key) ==>
                && store.refunds == old(store.refunds)
                && exists x :: x in old(store.refunds) && old(store.refunds)[x].key == key
                     && var row := old(store.refunds)[x];
                        if row.hash == config.refundFingerprint(cmd) && row.status != RefundProcessing &&
                            row.response.Some?
                        then r == Ok(row.response.value) else r == Err(Conflict)
      ensures Refunds.ValidRefund(config, old(store.Contents()), key, PaymentKey(cmd.connection, paymentId), cmd)
              && !KeyHasRow(old(store.Contents()), key) && reply.Failure? ==>
                && r == Err(Invalid(reply.message))
                && store.refunds ==
                     if RefundBlocked(old(store.Contents()), cmd) then old(store.refunds)
                     else old(store.refunds)[cmd.refund :=
                       RefundRow(cmd, RemoveDashes(cmd.refund), key, config.refundFingerprint(cmd), "", RefundFailed,
                           "",
                                 None, Some(reply.message), now)]
      ensures Refunds.ValidRefund(config, old(store.Contents()), key, PaymentKey(cmd.connection, paymentId), cmd)
              && !KeyHasRow(old(store.Contents()), key) && reply.Answer? ==>
                if RefundBlocked(old(store.Contents()), cmd)
                then r == Err(NotFound) && store.refunds == old(store.refunds)
                else
                  && r.Ok?
                  && store.refunds == old(store.refunds)[cmd.refund :=
                       RefundRow(cmd, RemoveDashes(cmd.refund), key, config.refundFingerprint(cmd), reply.value.id,
                                 r.value.status, reply.value.raw, Some(r.value), None, at)]
                  && r.value == Refund(cmd.refund, cmd.transaction, cmd.connection, cmd.amount, ToUpper(cmd.currency),
                                       reply.value.id, r.value.status, reply.value.raw, at)
                  && (r.value.status == RefundConfirmed <==>
                      EqualFold(reply.value.raw, "REFUNDED") || EqualFold(reply.value.raw, "REFUND_SUCCESS"))
                  && (r.value.status == RefundFailed <==>
                      || EqualFold(reply.value.raw, "CANCELLED") || EqualFold(reply.value.raw, "REFUND_FAIL")
                      || EqualFold(reply.value.raw, "FAILED"))
                  && r.value.status != RefundProcessing
      ensures store.operations == old(store.operations) && store.orders == old(store.orders)
      ensures store.inbound == old(store.inbound) && store.outbox == old(store.outbox)
    {
      if key == "" || cmd.refund == "" || cmd.transaction == "" || cmd.connection == "" || cmd.amount == "" ||
          cmd.currency == "" {
        return Err(Invalid("missing required field"));
      }
      if cmd.connection !in config.connections {
        return Err(Invalid("unknown provider connection"));
      }
      var found := store.FindPayment(PaymentKey(cmd.connection, paymentId));
      if found.Err? {
        return Err(found.error);
      }
      if found.value.terms.transaction != cmd.transaction || !EqualFold(found.value.terms.currency, cmd.currency) {
        return Err(Conflict);
      }
      ghost var db := store.Contents();
      var previous := store.ReserveRefund(now, key, config.refundFingerprint(cmd), cmd);
      InsertedKey(db, now, key, config.refundFingerprint(cmd), cmd);
      if previous.Refused? {
        return Err(previous.error);
      }
      if previous.Replay? {
        return Ok(previous.value);
      }
      if reply.Answer? {
        RefundStatusTable(reply.value.raw);
      }
      AcceptedRefundRows(config, db, now, key, PaymentKey(cmd.connection, paymentId), cmd, reply, at);
      r := SettleRefund(key, cmd, reply, at);
    }

    /** The end of a refund: the provider's reply is stored in the row of the key, if there is one. */
    method SettleRefund(key: string, cmd: RefundCommand, reply: Reply<RefundReply>, at: Time)
      returns (r: Result<Refund>)
      modifies store`refunds
      ensures reply.Failure? ==>
                && store.Contents() == FailRefund(old(store.Contents()), key, reply.message)
                && r == Err(Invalid(reply.message))
      ensures reply.Answer? ==>
                var refund := Refunds.NewRefund(cmd, reply.value.id, reply.value.raw, at);
                && store.Contents() == CompleteRefund(old(store.Contents()), key, refund)
                && r == if KeyHasRow(old(store.Contents()), key) then Ok(refund) else Err(NotFound)
    {
      if reply.Failure? {
        store.FailRefund(key, reply.message);
        return Err(Invalid(reply.message));
      }
      var refund := Refunds.NewRefund(cmd, reply.value.id, reply.value.raw, at);
      var done := store.CompleteRefund(key, refund);
      if done.Err? {
        return Err(done.error);
      }
      r := Ok(refund);
    }
  }

  lemma InsertedRowSettles(db: Db, now: Time, key: string, hash: string, cmd: RefundCommand, refund: Refund,
                           message: string)
    requires CanInsertRefund(db, key, cmd)
    ensures var reserved, request := InsertRefund(db, now, key, hash, cmd), RemoveDashes(cmd.refund);
      && CompleteRefund(reserved, key, refund).refunds == db.refunds[cmd.refund :=
           RefundRow(cmd, request, key, hash, refund.providerRefund, refund.status, refund.raw, Some(refund), None,
                     refund.observedAt)]
      && FailRefund(reserved, key, message).refunds == db.refunds[cmd.refund :=
           RefundRow(cmd, request, key, hash, "", RefundFailed, "", None, Some(message), now)]
  {
  }

  /** What a refund that goes to the provider leaves of its row. */
  lemma AcceptedRefundRows(config: Config, db: Db, now: Time, key: string, payment: PaymentKey, cmd: RefundCommand,
                           reply: Reply<RefundReply>, at: Time)
    requires Refunds.ValidRefund(config, db, key, payment, cmd) && !KeyHasRow(db, key)
    ensures CanInsertRefund(db, key, cmd) <==> !RefundBlocked(db, cmd)
    ensures var t, hash := AfterRefund(config, db, now, key, payment, cmd, reply, at), config.refundFingerprint(cmd);
      && (RefundBlocked(db, cmd) ==> t == db)
      && (!RefundBlocked(db, cmd) && reply.Failure? ==>
          t.refunds == db.refunds[cmd.refund :=
            RefundRow(cmd, RemoveDashes(cmd.refund), key, hash, "", RefundFailed, "", None, Some(reply.message), now)])
      && (!RefundBlocked(db, cmd) && reply.Answer? ==>
          var refund := Refunds.NewRefund(cmd, reply.value.id, reply.value.raw, at);
          t.refunds == db.refunds[cmd.refund :=
            RefundRow(cmd, RemoveDashes(cmd.refund), key, hash, reply.value.id, refund.status, reply.value.raw,
                      Some(refund), None, at)])
  {
    assert forall x :: x in db.refunds ==> (db.refunds[x].key == key ==> HoldsKey(db, x, key));
    var refund := if reply.Answer? then Refunds.NewRefund(cmd, reply.value.id, reply.value.raw, at)
                  else Refunds.NewRefund(cmd, "", "", at);
    var message := if reply.Failure? then reply.message else "";
    if RefundBlocked(db, cmd) {
      Refunds.NoRowNoChange(db, key, refund, message);
    } else {
      InsertedRowSettles(db, now, key, config.refundFingerprint(cmd), cmd, refund, message);
    }
  }

  function ErrorOf(outcome: Result<()>): Option<Error> {
    match outcome case Ok(_) => None case Err(error) => Some(error)
  }

  function AsResult(answer: Lookup<Refund>): Result<Refund> {
    match answer
    case Replay(refund) => Ok(refund)
    case Refused(error) => Err(error)
    case Proceed => Err(NotFound)
  }

  /** Recording changes the tables exactly when it takes. */
  lemma RecordChanges(db: Db, now: Time, e: Event, evidence: Evidence)
    ensures RecordEvent(db, now, e, evidence) != db <==> CanRecord(db, e)
  {
    if CanRecord(db, e) {
      assert InboundOf(e) in RecordEvent(db, now, e, evidence).inbound;
    }
  }

  /** After its insert a key has a row exactly when it had one or the insert took; a failed insert changes nothing. */
  lemma InsertedKey(db: Db, now: Time, key: string, hash: string, cmd: RefundCommand)
    ensures KeyHasRow(InsertRefund(db, now, key, hash, cmd), key) <==>
        KeyHasRow(db, key) || CanInsertRefund(db, key, cmd)
    ensures KeyHasRow(db, key) ==> !CanInsertRefund(db, key, cmd)
  {
    if CanInsertRefund(db, key, cmd) {
      assert HoldsKey(InsertRefund(db, now, key, hash, cmd), cmd.refund, key);
    }
  }
}
