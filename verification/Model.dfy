/**
 The connector's records (internal/core/model.go) and table rows
 (internal/adapters/postgres/migration.sql). The columns of an order that no
 statement updates are grouped in Terms.
 */
module Model {
  import opened Basics

  datatype Status = Created | Pending | Confirmed | Cancelled | Failed | Expired

  datatype PaymentKey = PaymentKey(connection: string, id: string)

  datatype Terms = Terms(
    reference: string,
    transaction: string,
    amount: string,
    currency: string,
    expiresAt: Option<Time>,
    completion: string,
    data: string)

  /** A payment as callers see it: a snapshot of an order. */
  datatype Payment = Payment(key: PaymentKey, terms: Terms, status: Status, raw: string, observedAt: Time)

  datatype Order = Order(
    terms: Terms,
    status: Status,
    raw: string,
    observedAt: Time,
    attempts: nat,
    next: Option<Time>,
    lastError: Option<string>)

  datatype CreateCommand = CreateCommand(
    transaction: string,
    provider: string,
    connection: string,
    merchant: string,
    amount: string,
    currency: string,
    expiresAt: Option<Time>,
    details: string)

  datatype OperationStatus = Processing | Completed | Aborted

  datatype Operation = Operation(
    hash: string,
    command: CreateCommand,
    status: OperationStatus,
    response: Option<Payment>,
    message: Option<string>)

  datatype Source = Webhook | Poll

  /** A normalized provider event, as published to the orchestrator. */
  datatype Event = Event(
    id: string,
    kind: string,
    source: Source,
    observedAt: Time,
    transaction: string,
    key: PaymentKey,
    status: Status,
    raw: string,
    amount: string,
    currency: string,
    reference: string,
    providerTransaction: string)

  datatype InboundKey = InboundKey(connection: string, event: string)

  /** The part of a stored raw provider document the properties speak of. */
  datatype Evidence = Evidence(amount: string)

  datatype Delivery = Delivery(
    event: Event,
    attempts: nat,
    nextAttempt: Time,
    published: Option<Time>,
    lastError: Option<string>,
    createdAt: Time)

  datatype RefundStatus = RefundProcessing | RefundPending | RefundConfirmed | RefundFailed

  datatype RefundCommand = RefundCommand(
    refund: string,
    transaction: string,
    connection: string,
    amount: string,
    currency: string,
    details: string)

  datatype Refund = Refund(
    id: string,
    transaction: string,
    connection: string,
    amount: string,
    currency: string,
    providerRefund: string,
    status: RefundStatus,
    raw: string,
    observedAt: Time)

  datatype RefundRow = RefundRow(
    command: RefundCommand,
    request: string,
    key: string,
    hash: string,
    providerRefund: string,
    status: RefundStatus,
    raw: string,
    response: Option<Refund>,
    message: Option<string>,
    observedAt: Time)

  /** What the provider answers to an order query. */
  datatype Answer = Answer(id: string, currency: string, amount: string, raw: string, transaction: string)

  /** A parsed webhook. */
  datatype Hook = Hook(
    reference: string,
    id: string,
    currency: string,
    amount: string,
    raw: string,
    transaction: string)

  /** The payment document as encoded: amount and currency are not serialized. */
  function Serialized(p: Payment): Payment {
    p.(terms := p.terms.(amount := "", currency := ""))
  }

  /** The five tables. */
  datatype Db = Db(
    operations: map<string, Operation>,
    orders: map<PaymentKey, Order>,
    inbound: map<InboundKey, Evidence>,
    outbox: map<string, Delivery>,
    refunds: map<string, RefundRow>)

  function EmptyDb(): Db {
    Db(map[], map[], map[], map[], map[])
  }
}
