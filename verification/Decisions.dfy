/**
 What the service decides from a payment snapshot and a provider document: the pure parts of
 internal/app/service.go, internal/app/reconciler.go and internal/app/webhook.go.
 */
module Decisions {
  import opened Basics
  import opened Model
  import opened Text
  import opened Statuses
  import opened EventIds
  import Amounts

  /** Hashes and connections the process is started with. */
  datatype Config = Config(sha: Hash, fingerprint: CreateCommand -> string, refundFingerprint: RefundCommand -> string,
                           connections: set<string>)

  predicate ValidCreate(config: Config, key: string, cmd: CreateCommand) {
    && key != "" && cmd.transaction != "" && cmd.connection != "" && cmd.amount != "" && cmd.currency != ""
    && (cmd.provider == "" || cmd.provider == "binancepay")
    && cmd.merchant != ""
    && cmd.connection in config.connections
  }

  /** The payment stored when the provider accepted an order. */
  function CreatedPayment(cmd: CreateCommand, id: string, expireTime: Option<Time>, completion: string,
                          at: Time): Payment {
    var reference := RemoveDashes(cmd.transaction);
    Payment(PaymentKey(cmd.connection, id),
            Terms(reference, cmd.transaction, cmd.amount, ToUpper(cmd.currency),
                  if expireTime.Some? then expireTime else cmd.expiresAt, completion, reference),
            Created, "INITIAL", at)
  }

  predicate IdMatches(p: Payment, id: string) {
    id == "" || id == p.key.id
  }

  predicate CurrencyMatches(p: Payment, currency: string) {
    currency == "" || EqualFold(currency, p.terms.currency)
  }

  predicate AmountMatches(p: Payment, amount: string) {
    amount == "" || Amounts.AmountsEqual(amount, p.terms.amount)
  }

  predicate Matches(p: Payment, id: string, currency: string, amount: string) {
    IdMatches(p, id) && CurrencyMatches(p, currency) && AmountMatches(p, amount)
  }

  function NewEvent(p: Payment, id: string, source: Source, transaction: string): Event {
    Event(id, "payment.provider_" + StatusText(p.status), source, p.observedAt, p.terms.transaction, p.key,
          p.status, p.raw, p.terms.amount, p.terms.currency, p.terms.reference, transaction)
  }

  datatype PollDecision =
    | Retry(message: string)
    | Observe(payment: Payment)
    | Emit(event: Event)

  /** The clock is read twice: for the expiry rule, then for the observation stamp. */
  function DecidePoll(sha: Hash, p: Payment, a: Answer, at: Time, stamp: Time): PollDecision {
    if !IdMatches(p, a.id) then Retry("provider payment mismatch")
    else if !CurrencyMatches(p, a.currency) then Retry("currency mismatch")
    else if !AmountMatches(p, a.amount) then Retry("amount mismatch")
    else
      var seen := p.(status := Settle(a.raw, p.terms.expiresAt, at), raw := a.raw, observedAt := stamp);
      if Open(seen.status) then Observe(seen)
      else Emit(NewEvent(seen, PollId(sha, p.key, a.raw), Poll, a.transaction))
  }

  datatype HookDecision =
    | Reject(message: string)
    | Ignore
    | Record(event: Event)

  function DecideHook(p: Payment, h: Hook, at: Time, stamp: Time): HookDecision {
    if !IdMatches(p, h.id) then Reject("provider payment mismatch")
    else if !CurrencyMatches(p, h.currency) then Reject("currency mismatch")
    else if !AmountMatches(p, h.amount) then Reject("amount mismatch")
    else
      var status := Settle(h.raw, p.terms.expiresAt, at);
      if status == Pending && !EqualFold(h.raw, "PAID") then Ignore
      else
        var seen := p.(status := status, raw := h.raw, observedAt := stamp);
        Record(NewEvent(seen, HookId(p.key.id, h.raw), Webhook, h.transaction))
  }
}
