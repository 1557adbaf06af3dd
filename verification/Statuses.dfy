/** Status normalization (internal/app/service.go) and the expiry rule shared by polling and webhooks. */
module Statuses {
  import opened Basics
  import opened Model
  import opened Text

  predicate Open(status: Status) {
    status.Created? || status.Pending?
  }

  function NormalizeStatus(raw: string): Status {
    var u := ToUpper(raw);
    if u == "INITIAL" then Created
    else if u == "PENDING" || u == "PAID" then Pending
    else if u == "PAY_SUCCESS" then Confirmed
    else if u == "PAY_CLOSED" then Cancelled
    else if u == "PAY_FAIL" then Failed
    else Pending
  }

  function NormalizeRefundStatus(raw: string): RefundStatus {
    var u := ToUpper(raw);
    if u == "REFUNDED" || u == "REFUND_SUCCESS" then RefundConfirmed
    else if u == "CANCELLED" || u == "REFUND_FAIL" || u == "FAILED" then RefundFailed
    else RefundPending
  }

  /** A closed order is reported as expired from its expiry on, as cancelled before. */
  function Settle(raw: string, expiresAt: Option<Time>, at: Time): Status {
    if EqualFold(raw, "PAY_CLOSED") && expiresAt.Some? && expiresAt.value <= at then Expired
    else NormalizeStatus(raw)
  }

  /** The provider statuses that no later status follows. */
  predicate Final(raw: string) {
    !Open(NormalizeStatus(raw))
  }

  /** What a local status may say about a raw status observed at an instant. */
  predicate Fits(status: Status, raw: string, expiresAt: Option<Time>, at: Time) {
    || status == NormalizeStatus(raw)
    || (status == Expired && EqualFold(raw, "PAY_CLOSED") && expiresAt.Some? && expiresAt.value <= at)
  }

  function StatusText(status: Status): string {
    match status
    case Created => "created"
    case Pending => "pending"
    case Confirmed => "confirmed"
    case Cancelled => "cancelled"
    case Failed => "failed"
    case Expired => "expired"
  }

  lemma Capitals()
    ensures ToUpper("INITIAL") == "INITIAL"
    ensures ToUpper("PENDING") == "PENDING"
    ensures ToUpper("PAID") == "PAID"
    ensures ToUpper("PAY_SUCCESS") == "PAY_SUCCESS"
    ensures ToUpper("PAY_CLOSED") == "PAY_CLOSED"
    ensures ToUpper("PAY_FAIL") == "PAY_FAIL"
  {
    UpperFixesCapitals("INITIAL");
    UpperFixesCapitals("PENDING");
    UpperFixesCapitals("PAID");
    UpperFixesCapitals("PAY_SUCCESS");
    UpperFixesCapitals("PAY_CLOSED");
    UpperFixesCapitals("PAY_FAIL");
  }

  /** What each raw status means, in any letter case; a raw status the provider does not document is pending. */
  lemma StatusTable(raw: string)
    ensures NormalizeStatus(raw) == Created <==> EqualFold(raw, "INITIAL")
    ensures NormalizeStatus(raw) == Confirmed <==> EqualFold(raw, "PAY_SUCCESS")
    ensures NormalizeStatus(raw) == Cancelled <==> EqualFold(raw, "PAY_CLOSED")
    ensures NormalizeStatus(raw) == Failed <==> EqualFold(raw, "PAY_FAIL")
    ensures NormalizeStatus(raw) == Pending <==>
              !EqualFold(raw, "INITIAL") && !EqualFold(raw, "PAY_SUCCESS") && !EqualFold(raw, "PAY_CLOSED")
              && !EqualFold(raw, "PAY_FAIL")
    ensures EqualFold(raw, "PENDING") || EqualFold(raw, "PAID") ==> NormalizeStatus(raw) == Pending
    ensures Final(raw) <==> EqualFold(raw, "PAY_SUCCESS") || EqualFold(raw, "PAY_CLOSED") || EqualFold(raw, "PAY_FAIL")
  {
    Capitals();
  }

  /** What each refund status of the provider means; no refund is answered as processing. */
  lemma RefundStatusTable(raw: string)
    ensures NormalizeRefundStatus(raw) == RefundConfirmed <==>
              EqualFold(raw, "REFUNDED") || EqualFold(raw, "REFUND_SUCCESS")
    ensures NormalizeRefundStatus(raw) == RefundFailed <==>
              EqualFold(raw, "CANCELLED") || EqualFold(raw, "REFUND_FAIL") || EqualFold(raw, "FAILED")
    ensures NormalizeRefundStatus(raw) != RefundProcessing
  {
    UpperFixesCapitals("REFUNDED");
    UpperFixesCapitals("REFUND_SUCCESS");
    UpperFixesCapitals("CANCELLED");
    UpperFixesCapitals("REFUND_FAIL");
    UpperFixesCapitals("FAILED");
  }

  lemma NormalForms()
    ensures NormalizeStatus("INITIAL") == Created
    ensures NormalizeStatus("PENDING") == NormalizeStatus("PAID") == Pending
    ensures NormalizeStatus("PAY_SUCCESS") == Confirmed
    ensures NormalizeStatus("PAY_CLOSED") == Cancelled
    ensures NormalizeStatus("PAY_FAIL") == Failed
  {
    Capitals();
  }

  /** A status that fits a raw status is final exactly when the raw status is. */
  lemma FitsKeepsFinality(status: Status, raw: string, e: Option<Time>, t: Time)
    requires Fits(status, raw, e, t)
    ensures Open(status) <==> !Final(raw)
  {
    Capitals();
  }

  lemma FinalFolds(raw: string, raw': string)
    requires EqualFold(raw, raw')
    ensures Final(raw) <==> Final(raw')
  {
  }

  /** What fits a raw status fits it in any letter case. */
  lemma FitsFolds(status: Status, raw: string, raw': string, e: Option<Time>, t: Time)
    requires Fits(status, raw, e, t) && EqualFold(raw, raw')
    ensures Fits(status, raw', e, t)
  {
  }

  /** The expiry rule yields exactly the statuses that fit, at the instant it is applied and later. */
  lemma SettleFits(raw: string, e: Option<Time>, at: Time, later: Time)
    requires at <= later
    ensures Fits(Settle(raw, e, at), raw, e, later)
    ensures Settle(raw, e, at) == Expired <==> EqualFold(raw, "PAY_CLOSED") && e.Some? && e.value <= at
  {
  }

  /** The event type of each status. */
  lemma EventTypes(status: Status)
    ensures var kind := "payment.provider_" + StatusText(status);
      && (status == Created ==> kind == "payment.provider_created")
      && (status == Pending ==> kind == "payment.provider_pending")
      && (status == Confirmed ==> kind == "payment.provider_confirmed")
      && (status == Cancelled ==> kind == "payment.provider_cancelled")
      && (status == Failed ==> kind == "payment.provider_failed")
      && (status == Expired ==> kind == "payment.provider_expired")
  {
  }

  /** Distinct statuses have distinct names, so an event kind names one status. */
  lemma StatusTextInjective(a: Status, b: Status)
    requires "payment.provider_" + StatusText(a) == "payment.provider_" + StatusText(b)
    ensures a == b
  {
    var x, y := "payment.provider_" + StatusText(a), "payment.provider_" + StatusText(b);
    assert StatusText(a) == x[17..] && StatusText(b) == y[17..];
    assert |StatusText(a)| == |StatusText(b)| && StatusText(a)[0] == StatusText(b)[0];
    assert StatusText(a)[2] == StatusText(b)[2];
  }
}
