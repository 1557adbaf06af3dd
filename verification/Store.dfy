/**
 The store (internal/adapters/postgres/store.go): a mutable set of tables. Every method is
 proved against the statement it runs, stated on the tables' value in Tables.
 */
module Stores {
  import opened Basics
  import opened Model
  import opened Statuses
  import opened Text
  import opened Tables

  class Store {
    var operations: map<string, Operation>
    var orders: map<PaymentKey, Order>
    var inbound: map<InboundKey, Evidence>
    var outbox: map<string, Delivery>
    var refunds: map<string, RefundRow>

    ghost function Contents(): Db
      reads this
    {
      Db(operations, orders, inbound, outbox, refunds)
    }

    constructor ()
      ensures Contents() == EmptyDb()
    {
      operations, orders, inbound, outbox, refunds := map[], map[], map[], map[], map[];
    }

    /** The startup UPDATE that schedules unfinished rows left without a time. */
    method Migrate(now: Time)
      modifies this`orders
      ensures Contents() == Backfill(old(Contents()), now)
      ensures orders.Keys == old(orders).Keys
      ensures forall k :: k in orders ==>
                var o := old(orders)[k];
                orders[k] == if o.status in {Created, Pending} && o.next == None then o.(next := Some(now)) else o
    {
      var rest := orders.Keys;
      while rest != {}
        invariant rest <= orders.Keys == old(orders).Keys
        invariant forall k :: k in rest ==> orders[k] == old(orders)[k]
        invariant forall k :: k in orders.Keys - rest ==> orders[k] == Backfilled(old(orders)[k], now)
        decreases |rest|
      {
        var k :| k in rest;
        orders := orders[k := Backfilled(orders[k], now)];
        rest := rest - {k};
      }
      assert orders == Backfill(old(Contents()), now).orders;
    }

    method ReserveCreate(key: string, hash: string, cmd: CreateCommand) returns (r: Lookup<Payment>)
      modifies this`operations
      ensures Contents() == InsertOperation(old(Contents()), key, hash, cmd)
      ensures r == Tables.ReserveCreate(old(Contents()), key, hash)
      ensures key !in old(operations) ==>
                r == Proceed && operations == old(operations)[key := Operation(hash, cmd, Processing, None, None)]
      ensures key in old(operations) ==>
                var row := old(operations)[key];
                && operations == old(operations)
                && (r == Refused(Conflict) <==> row.hash != hash || row.status != Completed)
                && (r.Replay? <==> row.hash == hash && row.status == Completed && row.response.Some?)
                && (r.Replay? ==> r.value == row.response.value)
    {
      if key !in operations {
        operations := operations[key := Operation(hash, cmd, Processing, None, None)];
        return Proceed;
      }
      var row := operations[key];
      if row.hash != hash {
        return Refused(Conflict);
      }
      if row.status != Completed {
        return Refused(Conflict);
      }
      if row.response.None? {
        return Refused(Invalid("unreadable response"));
      }
      r := Replay(row.response.value);
    }

    /** The scan of the two secondary unique indexes of the orders table. */
    method ViolatesUnique(p: Payment) returns (violated: bool)
      ensures violated <==> exists k :: k in orders && Clashes(k, orders[k], p)
      ensures violated <==>
                exists k :: k in orders &&
                    (orders[k].terms.transaction == p.terms.transaction
                    || (k.connection == p.key.connection && orders[k].terms.reference == p.terms.reference))
    {
      var rest := orders.Keys;
      while rest != {}
        invariant rest <= orders.Keys
        invariant forall k :: k in orders.Keys - rest ==> !Clashes(k, orders[k], p)
        decreases |rest|
      {
        var k :| k in rest;
        var o := orders[k];
        if o.terms.transaction == p.terms.transaction {
          return true;
        }
        if k.connection == p.key.connection && o.terms.reference == p.terms.reference {
          return true;
        }
        rest := rest - {k};
      }
      violated := false;
    }

    method CompleteCreate(now: Time, key: string, p: Payment) returns (r: Result<()>)
      modifies this`orders, this`operations
      ensures Contents() == Tables.CompleteCreate(old(Contents()), now, key, p)
      ensures r == if CanInsertOrder(old(Contents()), p) then Ok(()) else Err(Constraint)
      ensures r.Ok? <==>
                p.key !in old(orders) && forall k :: k in old(orders) ==>
                    && old(orders)[k].terms.transaction != p.terms.transaction
                    && !(k.connection == p.key.connection && old(orders)[k].terms.reference == p.terms.reference)
      ensures r.Err? ==> Contents() == old(Contents())
      ensures r.Ok? ==>
                orders == old(orders)[p.key :=
                  Order(p.terms, p.status, p.raw, p.observedAt, 0,
                        if p.status in {Created, Pending} then Some(now + 10_000_000) else None, None)]
      ensures r.Ok? && key in old(operations) ==>
                operations == old(operations)[key := old(operations)[key].(status := Completed,
                  response := Some(p.(terms := p.terms.(amount := "", currency := ""))))]
    {
      var violated := ViolatesUnique(p);
      if p.key in orders || violated {
        return Err(Constraint);
      }
      orders := orders[p.key := NewOrder(p, now)];
      if key in operations {
        operations := operations[key := operations[key].(status := Completed, response := Some(Serialized(p)))];
      }
      r := Ok(());
    }

    method FailCreate(key: string, message: string)
      modifies this`operations
      ensures Contents() == Tables.FailCreate(old(Contents()), key, message)
      ensures key in old(operations) ==>
                operations == old(operations)[key := old(operations)[key].(status := Aborted, message := Some(message))]
    {
      if key in operations {
        operations := operations[key := operations[key].(status := Aborted, message := Some(message))];
      }
    }

    method FindPayment(k: PaymentKey) returns (r: Result<Payment>)
      ensures r == Err(NotFound) <==> k !in orders
      ensures k in orders ==>
                && r.Ok? && r.value.key == k && r.value.terms == orders[k].terms &&
                    r.value.observedAt == orders[k].observedAt
                && r.value.status == orders[k].status && r.value.raw == orders[k].raw
    {
      r := if k in orders then Ok(Snapshot(k, orders[k])) else Err(NotFound);
    }

    method FindPaymentByReference(connection: string, reference: string) returns (r: Result<Payment>)
      ensures r.Ok? ==>
                && r.value.key in orders && r.value == Snapshot(r.value.key, orders[r.value.key])
                && r.value.key.connection == connection && r.value.terms.reference == reference
      ensures r.Err? <==> forall k :: k in orders ==>
          !(k.connection == connection && orders[k].terms.reference == reference)
      ensures r.Err? ==> r.error == NotFound
    {
      var rest := orders.Keys;
      while rest != {}
        invariant rest <= orders.Keys
        invariant forall k :: k in orders.Keys - rest ==>
            !(k.connection == connection && orders[k].terms.reference == reference)
        decreases |rest|
      {
        var k :| k in rest;
        if k.connection == connection && orders[k].terms.reference == reference {
          return Ok(Snapshot(k, orders[k]));
        }
        rest := rest - {k};
      }
      r := Err(NotFound);
    }

    method UpdateStatus(now: Time, k: PaymentKey, status: Status, raw: string) returns (r: Result<()>)
      modifies this`orders
      ensures Contents() == Tables.UpdateStatus(old(Contents()), now, k, status, raw)
      ensures r == if k in old(orders) then Ok(()) else Err(NotFound)
      ensures k !in old(orders) ==> orders == old(orders)
      ensures k in old(orders) ==>
                var o := old(orders)[k];
                orders == old(orders)[k :=
                  Order(o.terms, status, raw, now, o.attempts,
                        if status in {Created, Pending} then Some(now + 60_000_000) else None, None)]
    {
      if k !in orders {
        return Err(NotFound);
      }
      orders := orders[k := Written(orders[k], now, status, raw, now)];
      r := Ok(());
    }

    method UpdatePaymentObservation(now: Time, p: Payment)
      modifies this`orders
      ensures Contents() == UpdateObservation(old(Contents()), now, p)
      ensures p.key in old(orders) ==>
                var o := old(orders)[p.key];
                orders == old(orders)[p.key :=
                  Order(o.terms, p.status, p.raw, p.observedAt, o.attempts,
                        if p.status in {Created, Pending} then Some(now + 60_000_000) else None, None)]
    {
      if p.key in orders {
        orders := orders[p.key := Written(orders[p.key], now, p.status, p.raw, p.observedAt)];
      }
    }

    /** Only the retry time and the error of one row differ from tables `was`, if that row is open there. */
    ghost predicate Postponed(was: Db, now: Time, k: PaymentKey, message: string)
      reads this
    {
      && operations == was.operations && inbound == was.inbound && outbox == was.outbox && refunds == was.refunds
      && if k in was.orders && was.orders[k].status in {Created, Pending}
         then orders == was.orders[k :=
                Order(was.orders[k].terms, was.orders[k].status, was.orders[k].raw, was.orders[k].observedAt,
                      was.orders[k].attempts, Some(now + RetryDelay(was.orders[k].attempts)),
                      Some(if |message| <= 1000 then message else message[..1000]))]
         else orders == was.orders
    }

    method RetryPaymentReconciliation(now: Time, k: PaymentKey, message: string)
      modifies this`orders
      ensures Contents() == RetryReconciliation(old(Contents()), now, k, message)
      ensures Postponed(old(Contents()), now, k, message)
    {
      if k in orders && Open(orders[k].status) {
        var o := orders[k];
        orders := orders[k := o.(lastError := Some(Truncate(message, 1000)),
            next := Some(now + RetryDelay(o.attempts)))];
      }
    }

    /** The earliest of a nonempty set of scheduled rows. */
    method Earliest(candidates: set<PaymentKey>) returns (least: PaymentKey)
      requires candidates != {}
      requires forall k :: k in candidates ==> k in orders && orders[k].next.Some?
      ensures least in candidates
      ensures forall k :: k in candidates ==> orders[least].next.value <= orders[k].next.value
    {
      least :| least in candidates;
      var rest := candidates - {least};
      while rest != {}
        invariant rest <= candidates && least in candidates
        invariant forall k :: k in candidates - rest ==> orders[least].next.value <= orders[k].next.value
        decreases |rest|
      {
        var k :| k in rest;
        if orders[k].next.value < orders[least].next.value {
          least := k;
        }
        rest := rest - {k};
      }
    }

    /** SELECT ... ORDER BY next_reconcile_at LIMIT ... FOR UPDATE SKIP LOCKED. */
    method SelectDue(now: Time, limit: nat, locked: set<PaymentKey>) returns (keys: seq<PaymentKey>)
      ensures IsClaim(orders, now, limit, locked, keys)
    {
      var due := set k | k in orders && Due(orders[k], now) && k !in locked;
      keys := [];
      while |keys| < limit && due != {}
        invariant |keys| <= limit && Distinct(keys)
        invariant forall k :: k in due ==> k in orders && Due(orders[k], now) && k !in locked && k !in keys
        invariant forall k :: k in keys ==> k in orders && Due(orders[k], now) && k !in locked
        invariant forall k :: k in orders && Due(orders[k], now) && k !in locked ==> k in due || k in keys
        invariant forall k, j :: k in keys && j in due ==> orders[k].next.value <= orders[j].next.value
        decreases |due|
      {
        var k := Earliest(due);
        keys := keys + [k];
        due := due - {k};
      }
    }

    method ClaimPaymentsForReconciliation(now: Time, limit: nat, locked: set<PaymentKey>)
      returns (claimed: seq<Payment>, keys: seq<PaymentKey>)
      modifies this`orders
      ensures IsClaim(old(orders), now, limit, locked, keys)
      ensures Contents() == Claim(old(Contents()), now, keys)
      ensures orders.Keys == old(orders).Keys
      ensures forall k :: k in orders ==>
                var o := old(orders)[k];
                orders[k] == if k in keys then o.(next := Some(now + 60_000_000), attempts := o.attempts + 1) else o
      ensures forall k :: k in keys ==>
                k in old(orders) && k !in locked && old(orders)[k].status in {Created, Pending}
                && old(orders)[k].next.Some? && old(orders)[k].next.value <= now
      ensures |keys| <= limit && forall i, j :: 0 <= i < j < |keys| ==> keys[i] != keys[j]
      ensures forall j :: j in old(orders) && j !in locked && j !in keys && old(orders)[j].status in {Created, Pending}
                          && old(orders)[j].next.Some? && old(orders)[j].next.value <= now ==>
                |keys| == limit && forall k :: k in keys ==> old(orders)[k].next.value <= old(orders)[j].next.value
      ensures |claimed| == |keys|
      ensures forall i :: 0 <= i < |keys| ==> keys[i] in orders && claimed[i] == Snapshot(keys[i], orders[keys[i]])
    {
      keys := SelectDue(now, limit, locked);
      claimed := [];
      ghost var was := orders;
      for i := 0 to |keys|
        invariant |claimed| == i
        invariant orders.Keys == was.Keys
        invariant forall k :: k in orders ==> orders[k] == if k in keys[..i] then Claimed(was[k], now) else was[k]
        invariant forall j :: 0 <= j < i ==> claimed[j] == Snapshot(keys[j], orders[keys[j]])
      {
        var k := keys[i];
        orders := orders[k := Claimed(orders[k], now)];
        claimed := claimed + [Snapshot(k, orders[k])];
        assert keys[..i + 1] == keys[..i] + [k];
      }
      assert keys[..|keys|] == keys;
      assert orders == Claim(old(Contents()), now, keys).orders;
    }

    /** Inbox insert, outbox insert and order update in one transaction. */
    method RecordProviderEvent(now: Time, e: Event, evidence: Evidence) returns (r: Result<bool>)
      modifies this`inbound, this`outbox, this`orders
      ensures Contents() == RecordEvent(old(Contents()), now, e, evidence)
      ensures r == if EventRecorded(old(Contents()), e) then Ok(false)
                   else if CanRecord(old(Contents()), e) then Ok(true)
                   else Err(Constraint)
      ensures r == Ok(false) <==> InboundKey(e.key.connection, e.id) in old(inbound)
      ensures r == Ok(true) <==> InboundKey(e.key.connection, e.id) !in old(inbound) && e.id !in old(outbox)
      ensures r != Ok(true) ==> Contents() == old(Contents())
      ensures r == Ok(true) ==>
                && inbound == old(inbound)[InboundKey(e.key.connection, e.id) := evidence]
                && outbox == old(outbox)[e.id := Delivery(e, 0, now, None, None, now)]
                && (e.key !in old(orders) ==> orders == old(orders))
      ensures r == Ok(true) && e.key in old(orders) ==>
                var o := old(orders)[e.key];
                orders == old(orders)[e.key :=
                  Order(o.terms, e.status, e.raw, e.observedAt, o.attempts,
                        if e.status in {Created, Pending} then Some(now + 60_000_000) else None, None)]
    {
      var saved := inbound;
      if InboundOf(e) in inbound {
        return Ok(false);
      }
      inbound := inbound[InboundOf(e) := evidence];
      if e.id in outbox {
        inbound := saved;
        return Err(Constraint);
      }
      outbox := outbox[e.id := Delivery(e, 0, now, None, None, now)];
      if e.key in orders {
        orders := orders[e.key := Written(orders[e.key], now, e.status, e.raw, e.observedAt)];
      }
      r := Ok(true);
    }

    method Oldest(candidates: set<string>) returns (least: string)
      requires candidates != {} && candidates <= outbox.Keys
      ensures least in candidates
      ensures forall e :: e in candidates ==> outbox[least].createdAt <= outbox[e].createdAt
    {
      least :| least in candidates;
      var rest := candidates - {least};
      while rest != {}
        invariant rest <= candidates && least in candidates
        invariant forall e :: e in candidates - rest ==> outbox[least].createdAt <= outbox[e].createdAt
        decreases |rest|
      {
        var e :| e in rest;
        if outbox[e].createdAt < outbox[least].createdAt {
          least := e;
        }
        rest := rest - {e};
      }
    }

    method PendingEvents(now: Time, limit: nat) returns (ids: seq<string>)
      ensures IsPage(outbox, now, limit, ids)
      ensures forall e :: e in ids ==> e in outbox && outbox[e].published == None && outbox[e].nextAttempt <= now
      ensures |ids| <= limit
      ensures forall i, j :: 0 <= i < j < |ids| ==>
                ids[i] != ids[j] && outbox[ids[i]].createdAt <= outbox[ids[j]].createdAt
      ensures forall e :: e in outbox && outbox[e].published == None && outbox[e].nextAttempt <= now && e !in ids ==>
                |ids| == limit && forall d :: d in ids ==> outbox[d].createdAt <= outbox[e].createdAt
    {
      var due := set e | e in outbox && Sendable(outbox[e], now);
      ids := [];
      while |ids| < limit && due != {}
        invariant |ids| <= limit && Distinct(ids) && due <= outbox.Keys
        invariant forall e :: e in due ==> Sendable(outbox[e], now) && e !in ids
        invariant forall e :: e in ids ==> e in outbox && Sendable(outbox[e], now)
        invariant forall e :: e in outbox && Sendable(outbox[e], now) ==> e in due || e in ids
        invariant forall d, e :: d in ids && e in due ==> outbox[d].createdAt <= outbox[e].createdAt
        invariant forall i, j :: 0 <= i < j < |ids| ==> outbox[ids[i]].createdAt <= outbox[ids[j]].createdAt
        decreases |due|
      {
        var e := Oldest(due);
        ids := ids + [e];
        due := due - {e};
      }
      assert IsPage(outbox, now, limit, ids);
    }

    method MarkPublished(now: Time, id: string)
      modifies this`outbox
      ensures Contents() == Tables.MarkPublished(old(Contents()), now, id)
      ensures id in old(outbox) ==> outbox == old(outbox)[id := old(outbox)[id].(published := Some(now))]
    {
      if id in outbox {
        outbox := outbox[id := outbox[id].(published := Some(now))];
      }
    }

    method MarkFailed(now: Time, id: string, message: string)
      modifies this`outbox
      ensures Contents() == Tables.MarkFailed(old(Contents()), now, id, message)
      ensures id in old(outbox) ==>
                var d := old(outbox)[id];
                outbox == old(outbox)[id :=
                  Delivery(d.event, d.attempts + 1, now + PublishDelay(d.attempts), d.published, Some(message),
                           d.createdAt)]
    {
      if id in outbox {
        var d := outbox[id];
        outbox := outbox[id := d.(attempts := d.attempts + 1, lastError := Some(message),
                                  nextAttempt := now + PublishDelay(d.attempts))];
      }
    }

    method ConflictsWithRefund(key: string, cmd: RefundCommand) returns (conflict: bool)
      ensures conflict <==> !CanInsertRefund(Contents(), key, cmd)
      ensures conflict <==>
                || cmd.refund in refunds
                || (exists r :: r in refunds && refunds[r].request == RemoveDashes(cmd.refund))
                || (exists r :: r in refunds && refunds[r].key == key)
    {
      if cmd.refund in refunds {
        return true;
      }
      var rest := refunds.Keys;
      while rest != {}
        invariant rest <= refunds.Keys
        invariant forall r :: r in refunds.Keys - rest ==>
            refunds[r].request != RemoveDashes(cmd.refund) && refunds[r].key != key
        decreases |rest|
      {
        var r :| r in rest;
        if refunds[r].request == RemoveDashes(cmd.refund) || refunds[r].key == key {
          return true;
        }
        rest := rest - {r};
      }
      conflict := false;
    }

    method ReserveRefund(now: Time, key: string, hash: string, cmd: RefundCommand) returns (answer: Lookup<Refund>)
      modifies this`refunds
      ensures Contents() == InsertRefund(old(Contents()), now, key, hash, cmd)
      ensures CanInsertRefund(old(Contents()), key, cmd) ==> answer == Proceed
      ensures !CanInsertRefund(old(Contents()), key, cmd) ==> LooksUp(Contents(), key, hash, answer)
      ensures refunds == old(refunds)
              || (&& cmd.refund !in old(refunds) && answer == Proceed
                  && (forall r :: r in old(refunds) ==>
                        old(refunds)[r].request != RemoveDashes(cmd.refund) && old(refunds)[r].key != key)
                  && refunds == old(refunds)[cmd.refund :=
                       RefundRow(cmd, RemoveDashes(cmd.refund), key, hash, "", RefundProcessing, "", None, None, now)])
      ensures answer == Proceed <==> forall r :: r in old(refunds) ==> old(refunds)[r].key != key
      ensures answer.Refused? ==>
                answer.error == Conflict
                && (exists r :: r in old(refunds) && old(refunds)[r].key == key && var row := old(refunds)[r];
                      row.hash != hash || row.status == RefundProcessing || row.response == None)
      ensures answer.Replay? ==>
                (exists r :: r in old(refunds) && old(refunds)[r].key == key && var row := old(refunds)[r];
                   row.hash == hash && row.status != RefundProcessing && row.response == Some(answer.value))
    {
      var conflict := ConflictsWithRefund(key, cmd);
      if !conflict {
        refunds := refunds[cmd.refund := RefundRow(cmd, RemoveDashes(cmd.refund), key, hash, "", RefundProcessing, "",
            None, None, now)];
        return Proceed;
      }
      var rest := refunds.Keys;
      while rest != {}
        invariant rest <= refunds.Keys
        invariant forall r :: r in refunds.Keys - rest ==> refunds[r].key != key
        decreases |rest|
      {
        var r :| r in rest;
        if refunds[r].key == key {
          assert HoldsKey(Contents(), r, key);
          return LookupRow(refunds[r], hash);
        }
        rest := rest - {r};
      }
      answer := Proceed;
    }

    method CompleteRefund(key: string, refund: Refund) returns (r: Result<()>)
      modifies this`refunds
      ensures Contents() == Tables.CompleteRefund(old(Contents()), key, refund)
      ensures r == if KeyHasRow(old(Contents()), key) then Ok(()) else Err(NotFound)
      ensures refunds.Keys == old(refunds).Keys
      ensures forall k :: k in refunds && old(refunds)[k].key != key ==> refunds[k] == old(refunds)[k]
      ensures forall k :: k in refunds && old(refunds)[k].key == key ==>
                refunds[k] == old(refunds)[k].(providerRefund := refund.providerRefund, status := refund.status,
                  raw := refund.raw, observedAt := refund.observedAt, response := Some(refund))
    {
      var affected := Affected(key);
      ghost var was := refunds;
      var rest := affected;
      while rest != {}
        invariant rest <= affected <= refunds.Keys == was.Keys
        invariant forall k :: k in was ==>
            refunds[k] == if k in affected - rest then CompletedRow(was[k], refund) else was[k]
        decreases |rest|
      {
        var k :| k in rest;
        refunds := refunds[k := CompletedRow(refunds[k], refund)];
        rest := rest - {k};
      }
      assert refunds == Tables.CompleteRefund(old(Contents()), key, refund).refunds;
      r := if affected == {} then Err(NotFound) else Ok(());
    }

    /** The rows an UPDATE by idempotency key affects. */
    method Affected(key: string) returns (rows: set<string>)
      ensures rows <= refunds.Keys && forall k :: k in refunds ==> (k in rows <==> refunds[k].key == key)
      ensures rows == {} <==> !KeyHasRow(Contents(), key)
    {
      rows := set k | k in refunds && refunds[k].key == key;
      if rows != {} {
        var k :| k in rows;
        assert HoldsKey(Contents(), k, key);
      }
    }

    method FailRefund(key: string, message: string)
      modifies this`refunds
      ensures Contents() == Tables.FailRefund(old(Contents()), key, message)
      ensures refunds.Keys == old(refunds).Keys
      ensures forall k :: k in refunds && old(refunds)[k].key != key ==> refunds[k] == old(refunds)[k]
      ensures forall k :: k in refunds && old(refunds)[k].key == key ==>
                refunds[k] == old(refunds)[k].(status := RefundFailed, message := Some(message))
    {
      var affected := Affected(key);
      ghost var was := refunds;
      var rest := affected;
      while rest != {}
        invariant rest <= affected <= refunds.Keys == was.Keys
        invariant forall k :: k in was ==>
            refunds[k] == if k in affected - rest then FailedRow(was[k], message) else was[k]
        decreases |rest|
      {
        var k :| k in rest;
        refunds := refunds[k := FailedRow(refunds[k], message)];
        rest := rest - {k};
      }
      assert refunds == Tables.FailRefund(old(Contents()), key, message).refunds;
    }
  }
}
