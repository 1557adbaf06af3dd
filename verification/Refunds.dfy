/**
 The refund protocol: reservation, provider call and completion of CreateRefund as steps of any
 number of concurrent calls, with everything else that happens to the tables in between.
 */
module Refunds {
  import opened Basics
  import opened Model
  import opened Statuses
  import opened Text
  import opened Tables
  import opened Decisions

  /** `owner` records whether the call's own insert took; no program variable holds it. */
  datatype Call =
    | Looking(key: string, cmd: RefundCommand)
    | Calling(key: string, cmd: RefundCommand, owner: bool)
    | Rejected(key: string, cmd: RefundCommand, message: string, owner: bool)
    | Accepted(key: string, cmd: RefundCommand, refund: Refund, owner: bool)

  /** `owned` counts provider calls of row owners by key; `foreign` counts all others. */
  datatype World = World(
    config: Config,
    now: Time,
    db: Db,
    calls: multiset<Call>,
    owned: map<string, nat>,
    foreign: map<string, nat>)

  datatype Action =
    | Tick(elapsed: nat)
    | Elsewhere(db: Db)
    | Crash(call: Call)
    | Insert(key: string, payment: PaymentKey, cmd: RefundCommand)
    | Lookup(call: Call)
    | Respond(call: Call, providerRefund: string, raw: string, at: Time)
    | Refuse(call: Call, message: string)
    | Complete(call: Call)
    | Fail(call: Call)

  /** The checks CreateRefund makes before it reserves: fields, connection, payment, currency. */
  predicate ValidRefund(config: Config, db: Db, key: string, payment: PaymentKey, cmd: RefundCommand) {
    && key != "" && cmd.refund != "" && cmd.transaction != ""
    && cmd.connection != "" && cmd.amount != "" && cmd.currency != ""
    && cmd.connection in config.connections && payment.connection == cmd.connection
    && payment in db.orders && db.orders[payment].terms.transaction == cmd.transaction
    && EqualFold(db.orders[payment].terms.currency, cmd.currency)
  }

  /** The refund answered to the caller and stored as the response. */
  function NewRefund(cmd: RefundCommand, providerRefund: string, raw: string, at: Time): Refund {
    Refund(cmd.refund, cmd.transaction, cmd.connection, cmd.amount, ToUpper(cmd.currency),
           providerRefund, NormalizeRefundStatus(raw), raw, at)
  }

  predicate Enabled(s: World, a: Action) {
    match a
    case Tick(_) => true
    case Elsewhere(db) => db.refunds == s.db.refunds
    case Crash(c) => c in s.calls
    case Insert(key, payment, cmd) => ValidRefund(s.config, s.db, key, payment, cmd)
    case Lookup(c) => c in s.calls && c.Looking?
    case Respond(c, _, _, at) => c in s.calls && c.Calling? && at <= s.now
    case Refuse(c, _) => c in s.calls && c.Calling?
    case Complete(c) => c in s.calls && c.Accepted?
    case Fail(c) => c in s.calls && c.Rejected?
  }

  /** A provider call: counted for its key when the caller owns the row, for its request id otherwise. */
  function Counted(s: World, c: Call): World
    requires c.Calling?
  {
    if c.owner then s.(owned := Bump(s.owned, c.key)) else s.(foreign := Bump(s.foreign, RemoveDashes(c.cmd.refund)))
  }

  function Becomes(s: World, c: Call, d: Call): World {
    s.(calls := s.calls - multiset{c} + multiset{d})
  }

  function Ends(s: World, c: Call): World {
    s.(calls := s.calls - multiset{c})
  }

  function Apply(s: World, a: Action): World
    requires Enabled(s, a)
  {
    match a
    case Tick(elapsed) => s.(now := s.now + elapsed)
    case Elsewhere(db) => s.(db := db)
    case Crash(c) => Ends(s, c)
    case Insert(key, _, cmd) =>
      s.(db := InsertRefund(s.db, s.now, key, s.config.refundFingerprint(cmd), cmd),
         calls := s.calls + multiset{if CanInsertRefund(s.db, key, cmd) then Calling(key, cmd, true)
             else Looking(key, cmd)})
    case Lookup(c) => if KeyHasRow(s.db, c.key) then Ends(s, c) else Becomes(s, c, Calling(c.key, c.cmd, false))
    case Respond(c, providerRefund, raw, at) =>
      Becomes(Counted(s, c), c, Accepted(c.key, c.cmd, NewRefund(c.cmd, providerRefund, raw, at), c.owner))
    case Refuse(c, message) => Becomes(Counted(s, c), c, Rejected(c.key, c.cmd, message, c.owner))
    case Complete(c) => Ends(s.(db := CompleteRefund(s.db, c.key, c.refund)), c)
    case Fail(c) => Ends(s.(db := FailRefund(s.db, c.key, c.message)), c)
  }

  ghost predicate Valid(s: World, run: seq<Action>)
    decreases |run|
  {
    run == [] || (Enabled(s, run[0]) && Valid(Apply(s, run[0]), run[1..]))
  }

  ghost function Run(s: World, run: seq<Action>): World
    requires Valid(s, run)
    decreases |run|
  {
    if run == [] then s else Run(Apply(s, run[0]), run[1..])
  }

  lemma Prepend(s: World, a: Action, run: seq<Action>)
    requires Enabled(s, a) && Valid(Apply(s, a), run)
    ensures Valid(s, [a] + run) && Run(s, [a] + run) == Run(Apply(s, a), run)
  {
    assert ([a] + run)[1..] == run;
  }

  lemma {:induction false} Chain(s: World, run: seq<Action>, more: seq<Action>)
    requires Valid(s, run) && Valid(Run(s, run), more)
    ensures Valid(s, run + more) && Run(s, run + more) == Run(Run(s, run), more)
    decreases |run|
  {
    if run == [] {
      assert run + more == more;
    } else {
      Chain(Apply(s, run[0]), run[1..], more);
      assert (run + more)[0] == run[0] && (run + more)[1..] == run[1..] + more;
    }
  }

  lemma One(s: World, a: Action)
    requires Enabled(s, a)
    ensures Valid(s, [a]) && Run(s, [a]) == Apply(s, a)
  {
    Prepend(s, a, []);
    assert [a] + [] == [a];
  }

  /** No refund yet and no call; the other tables are arbitrary. */
  predicate Starting(s: World) {
    s.db.refunds == map[] && s.calls == multiset{} && s.owned == map[] && s.foreign == map[]
  }

  /** A command under the idempotency key it is sent with. */
  datatype Sending = Sending(key: string, cmd: RefundCommand)

  function RequestId(cmd: RefundCommand): string {
    RemoveDashes(cmd.refund)
  }

  predicate Draws(a: Action, sent: set<Sending>) {
    a.Insert? ==> Sending(a.key, a.cmd) in sent
  }

  /** A run whose reservations are all among these. */
  predicate DrawsFrom(run: seq<Action>, sent: set<Sending>) {
    run == [] || (Draws(run[0], sent) && DrawsFrom(run[1..], sent))
  }

  /**
   Reuse of keys does no harm: a key sent with a request id that another key is sent with, too, is
   sent with no other request id.
   */
  predicate Harmless(sent: set<Sending>) {
    forall a, b, c | a in sent && b in sent && c in sent && a.key == b.key && c.key != a.key ::
      RequestId(a.cmd) == RequestId(c.cmd) ==> RequestId(a.cmd) == RequestId(b.cmd)
  }

  predicate OneCommandPerKey(sent: set<Sending>) {
    forall a, b :: a in sent && b in sent && a.key == b.key ==> a.cmd == b.cmd
  }

  /** Different keys are sent with different request ids. */
  predicate DistinctRequests(sent: set<Sending>) {
    forall a, b :: a in sent && b in sent && a.key != b.key ==> RequestId(a.cmd) != RequestId(b.cmd)
  }

  lemma HarmlessUses(sent: set<Sending>)
    ensures OneCommandPerKey(sent) || DistinctRequests(sent) ==> Harmless(sent)
  {
  }

  /** An existing row that an insert of the command would duplicate in refund id or request id. */
  predicate Blocks(db: Db, r: string, cmd: RefundCommand) {
    r in db.refunds && (r == cmd.refund || db.refunds[r].request == RequestId(cmd))
  }

  /** Another key's row blocks the command. */
  predicate BlockedBy(db: Db, r: string, key: string, cmd: RefundCommand) {
    Blocks(db, r, cmd) && db.refunds[r].key != key
  }

  ghost predicate Blocked(db: Db, key: string, cmd: RefundCommand) {
    exists r :: BlockedBy(db, r, key, cmd)
  }

  // ---- The invariant ------------------------------------------------------------------------

  /** The refund says what its command asked for, under the status its raw status means. */
  predicate Answers(r: Refund, cmd: RefundCommand) {
    && r.id == cmd.refund && r.transaction == cmd.transaction && r.connection == cmd.connection
    && r.amount == cmd.amount && r.currency == ToUpper(cmd.currency)
    && r.status == NormalizeRefundStatus(r.raw)
  }

  /** A stored response answers the row's command and agrees with its other columns. */
  predicate ResponseOk(row: RefundRow) {
    row.response.Some? ==>
      && Answers(row.response.value, row.command)
      && row.status == row.response.value.status && row.raw == row.response.value.raw
      && row.providerRefund == row.response.value.providerRefund
  }

  ghost predicate RowOk(s: World, sent: set<Sending>, r: string) {
    && r in s.db.refunds
    && var row := s.db.refunds[r];
       && row.command.refund == r && row.request == RemoveDashes(r)
       && Sending(row.key, row.command) in sent && row.hash == s.config.refundFingerprint(row.command)
       && (row.response.Some? ==> row.status != RefundProcessing) && ResponseOk(row)
  }

  predicate UniqueRows(db: Db) {
    && (forall r, q :: r in db.refunds && q in db.refunds && db.refunds[r].key == db.refunds[q].key ==> r == q)
    && (forall r, q :: r in db.refunds && q in db.refunds && db.refunds[r].request == db.refunds[q].request ==> r == q)
  }

  ghost predicate RowsOk(s: World, sent: set<Sending>) {
    UniqueRows(s.db) && forall r :: r in s.db.refunds ==> RowOk(s, sent, r)
  }

  /** The row a call owns: reserved by its insert and still without an outcome. */
  predicate OwnsRow(db: Db, key: string, cmd: RefundCommand) {
    && cmd.refund in db.refunds
    && var row := db.refunds[cmd.refund];
       row.key == key && row.command == cmd && row.status == RefundProcessing && row.response.None?
  }

  ghost predicate CallOk(s: World, sent: set<Sending>, c: Call) {
    && Sending(c.key, c.cmd) in sent
    && match c
       case Looking(key, cmd) => KeyHasRow(s.db, key) || Blocked(s.db, key, cmd)
       case Calling(key, cmd, owner) =>
         if owner then OwnsRow(s.db, key, cmd) && key !in s.owned else Blocked(s.db, key, cmd)
       case Rejected(key, cmd, _, owner) => if owner then OwnsRow(s.db, key, cmd) else Blocked(s.db, key, cmd)
       case Accepted(key, cmd, refund, owner) =>
         Answers(refund, cmd) && if owner then OwnsRow(s.db, key, cmd) else Blocked(s.db, key, cmd)
  }

  predicate Owner(c: Call) {
    !c.Looking? && c.owner
  }

  /** A key has at most one owner, running once. */
  predicate OneOwner(calls: multiset<Call>) {
    && (forall c :: c in calls && Owner(c) ==> calls[c] == 1)
    && (forall c, d :: c in calls && d in calls && Owner(c) && Owner(d) && c.key == d.key ==> c == d)
  }

  ghost predicate CallsOk(s: World, sent: set<Sending>) {
    OneOwner(s.calls) && forall c :: c in s.calls ==> CallOk(s, sent, c)
  }

  lemma OwnerEnters(calls: multiset<Call>, d: Call)
    requires OneOwner(calls) && (Owner(d) ==> forall c :: c in calls && Owner(c) ==> c.key != d.key)
    ensures OneOwner(calls + multiset{d})
  {
    if Owner(d) {
      assert d !in calls;
    }
  }

  lemma OwnerLeaves(calls: multiset<Call>, c: Call)
    requires OneOwner(calls) && c in calls
    ensures OneOwner(calls - multiset{c})
    ensures Owner(c) ==> forall d :: d in calls - multiset{c} && Owner(d) ==> d.key != c.key
  {
  }

  lemma OwnerMoves(calls: multiset<Call>, c: Call, d: Call)
    requires OneOwner(calls) && c in calls && (Owner(d) ==> Owner(c) && d.key == c.key)
    ensures OneOwner(calls - multiset{c} + multiset{d})
  {
    OwnerLeaves(calls, c);
    OwnerEnters(calls - multiset{c}, d);
  }

  ghost predicate OwnedOnce(s: World) {
    forall key :: key in s.owned ==> s.owned[key] == 1 && KeyHasRow(s.db, key)
  }

  ghost predicate Sound(s: World, sent: set<Sending>) {
    RowsOk(s, sent) && CallsOk(s, sent) && OwnedOnce(s)
  }

  // ---- Preservation ---------------------------------------------------------------------------

  lemma HoldersHaveRows(db: Db)
    ensures forall r :: r in db.refunds ==> KeyHasRow(db, db.refunds[r].key)
  {
    forall r | r in db.refunds ensures KeyHasRow(db, db.refunds[r].key) {
      assert HoldsKey(db, r, db.refunds[r].key);
    }
  }

  /** While reuse does no harm, a key blocked with one of its commands has no row. */
  lemma BlockedHasNoRow(s: World, sent: set<Sending>, key: string, cmd: RefundCommand)
    requires RowsOk(s, sent) && Harmless(sent) && Sending(key, cmd) in sent && Blocked(s.db, key, cmd)
    ensures !KeyHasRow(s.db, key)
  {
    var r :| BlockedBy(s.db, r, key, cmd);
    assert RowOk(s, sent, r);
    forall q | q in s.db.refunds ensures s.db.refunds[q].key != key {
      HasOtherRequest(s, sent, key, cmd, r, q);
    }
  }

  lemma HasOtherRequest(s: World, sent: set<Sending>, key: string, cmd: RefundCommand, r: string, q: string)
    requires RowsOk(s, sent) && Harmless(sent) && Sending(key, cmd) in sent && BlockedBy(s.db, r, key, cmd)
    requires q in s.db.refunds
    ensures s.db.refunds[q].key != key
  {
    assert RowOk(s, sent, r) && RowOk(s, sent, q);
    var a, b, c := Sending(key, cmd), Sending(s.db.refunds[q].key, s.db.refunds[q].command),
                   Sending(s.db.refunds[r].key, s.db.refunds[r].command);
    assert RequestId(c.cmd) == RequestId(a.cmd);
    assert s.db.refunds[q].request == RequestId(b.cmd) && s.db.refunds[r].request == RequestId(c.cmd);
  }

  /** Keys and request ids of rows never change, and rows are never deleted. */
  predicate SameIds(a: Db, b: Db, r: string) {
    && r in a.refunds && r in b.refunds
    && b.refunds[r].key == a.refunds[r].key && b.refunds[r].request == a.refunds[r].request
  }

  ghost predicate IdsKept(a: Db, b: Db) {
    forall r :: r in a.refunds ==> SameIds(a, b, r)
  }

  lemma BlockedStays(a: Db, b: Db, key: string, cmd: RefundCommand)
    requires IdsKept(a, b)
    ensures Blocked(a, key, cmd) ==> Blocked(b, key, cmd)
    ensures KeyHasRow(a, key) ==> KeyHasRow(b, key)
  {
    if r :| BlockedBy(a, r, key, cmd) {
      assert SameIds(a, b, r);
      assert BlockedBy(b, r, key, cmd);
    }
    if r :| r in a.refunds && HoldsKey(a, r, key) {
      assert SameIds(a, b, r);
      assert HoldsKey(b, r, key);
    }
  }

  /** A call stays justified while ids are kept, its own row is untouched and it is not counted. */
  lemma CallStays(s: World, t: World, sent: set<Sending>, c: Call)
    requires CallOk(s, sent, c) && IdsKept(s.db, t.db)
    requires Owner(c) && OwnsRow(s.db, c.key, c.cmd) ==> OwnsRow(t.db, c.key, c.cmd)
    requires Owner(c) && c.key in t.owned ==> c.key in s.owned
    ensures CallOk(t, sent, c)
  {
    BlockedStays(s.db, t.db, c.key, c.cmd);
  }

  lemma OwnedStays(s: World, t: World)
    requires OwnedOnce(s) && IdsKept(s.db, t.db) && t.owned == s.owned
    ensures OwnedOnce(t)
  {
    forall key | key in t.owned ensures t.owned[key] == 1 && KeyHasRow(t.db, key) {
      BlockedStays(s.db, t.db, key, RefundCommand("", "", "", "", "", ""));
    }
  }

  lemma RowsSame(s: World, t: World, sent: set<Sending>)
    requires RowsOk(s, sent) && t.db.refunds == s.db.refunds && t.config == s.config
    ensures RowsOk(t, sent)
  {
    forall r | r in t.db.refunds ensures RowOk(t, sent, r) {
      assert RowOk(s, sent, r);
    }
  }

  /** A change of the running calls alone, to calls the tables already justify. */
  lemma OnlyCallsChange(s: World, t: World, sent: set<Sending>)
    requires Sound(s, sent) && t.db.refunds == s.db.refunds && t.config == s.config && t.owned == s.owned
    requires OneOwner(t.calls) && forall d :: d in t.calls ==> d in s.calls || CallOk(s, sent, d)
    ensures Sound(t, sent)
  {
    RowsSame(s, t, sent);
    OwnedStays(s, t);
    forall d | d in t.calls ensures CallOk(t, sent, d) {
      CallStays(s, t, sent, d);
    }
  }

  /** Steps that leave the refund rows alone and at most end a call. */
  lemma QuietStep(s: World, a: Action, sent: set<Sending>)
    requires Sound(s, sent) && Enabled(s, a) && (a.Tick? || a.Elsewhere? || a.Crash?)
    ensures Sound(Apply(s, a), sent)
  {
    if a.Crash? {
      OwnerLeaves(s.calls, a.call);
    }
    OnlyCallsChange(s, Apply(s, a), sent);
  }

  /** An insert takes a key with no row, whose refund and request ids are new. */
  lemma InsertTakes(s: World, a: Action, sent: set<Sending>)
    requires Sound(s, sent) && a.Insert? && Enabled(s, a) && Draws(a, sent) && CanInsertRefund(s.db, a.key, a.cmd)
    ensures Sound(Apply(s, a), sent)
  {
    var t, entered := Apply(s, a), Calling(a.key, a.cmd, true);
    assert t.calls == s.calls + multiset{entered};
    assert forall c :: c in t.calls ==> c in s.calls || c == entered;
    RowsAfterInsert(s, t, sent, a.key, a.cmd);
    InsertedOwner(s, t, sent, a.key, a.cmd);
    OwnedStays(s, t);
    forall c | c in s.calls ensures CallOk(t, sent, c) && (Owner(c) ==> c.key != a.key) {
      CallAfterInsert(s, t, sent, c, a.key, a.cmd);
    }
    OwnerEnters(s.calls, entered);
  }

  ghost predicate Inserted(s: World, t: World, key: string, cmd: RefundCommand) {
    && CanInsertRefund(s.db, key, cmd) && t.config == s.config && t.owned == s.owned
    && t.db == InsertRefund(s.db, s.now, key, s.config.refundFingerprint(cmd), cmd)
  }

  lemma InsertedOwner(s: World, t: World, sent: set<Sending>, key: string, cmd: RefundCommand)
    requires OwnedOnce(s) && Inserted(s, t, key, cmd) && Sending(key, cmd) in sent
    ensures CallOk(t, sent, Calling(key, cmd, true))
  {
    HoldersHaveRows(s.db);
  }

  lemma RowsAfterInsert(s: World, t: World, sent: set<Sending>, key: string, cmd: RefundCommand)
    requires RowsOk(s, sent) && Inserted(s, t, key, cmd) && Sending(key, cmd) in sent
    ensures RowsOk(t, sent) && IdsKept(s.db, t.db)
  {
    forall r | r in t.db.refunds ensures RowOk(t, sent, r) {
      if r in s.db.refunds {
        assert RowOk(s, sent, r);
      }
    }
  }

  lemma CallAfterInsert(s: World, t: World, sent: set<Sending>, c: Call, key: string, cmd: RefundCommand)
    requires CallOk(s, sent, c) && Inserted(s, t, key, cmd) && IdsKept(s.db, t.db)
    ensures CallOk(t, sent, c) && (Owner(c) ==> c.key != key)
  {
    CallStays(s, t, sent, c);
  }

  lemma InsertTakesExactly(db: Db, key: string, cmd: RefundCommand)
    ensures !CanInsertRefund(db, key, cmd) <==> KeyHasRow(db, key) || Blocked(db, key, cmd)
  {
    HoldersHaveRows(db);
    if cmd.refund in db.refunds {
      assert HoldsKey(db, cmd.refund, key) || BlockedBy(db, cmd.refund, key, cmd);
    } else if !CanInsertRefund(db, key, cmd) {
      var r :| r in db.refunds && !(db.refunds[r].request != RemoveDashes(cmd.refund) && db.refunds[r].key != key);
      assert HoldsKey(db, r, key) || BlockedBy(db, r, key, cmd);
    }
  }

  lemma InsertCollides(s: World, a: Action, sent: set<Sending>)
    requires Sound(s, sent) && a.Insert? && Enabled(s, a) && Draws(a, sent) && !CanInsertRefund(s.db, a.key, a.cmd)
    ensures Sound(Apply(s, a), sent)
  {
    var entered := Looking(a.key, a.cmd);
    InsertTakesExactly(s.db, a.key, a.cmd);
    OwnerEnters(s.calls, entered);
    assert Apply(s, a).calls == s.calls + multiset{entered};
    OnlyCallsChange(s, Apply(s, a), sent);
  }

  /** A key without a row goes on only blocked by another's. */
  lemma LookupStep(s: World, c: Call, sent: set<Sending>)
    requires Sound(s, sent) && Enabled(s, Lookup(c))
    ensures Sound(Apply(s, Lookup(c)), sent)
  {
    var d := Calling(c.key, c.cmd, false);
    assert CallOk(s, sent, c);
    OwnerLeaves(s.calls, c);
    OwnerMoves(s.calls, c, d);
    if KeyHasRow(s.db, c.key) {
      OnlyCallsChange(s, Ends(s, c), sent);
    } else {
      OnlyCallsChange(s, Becomes(s, c, d), sent);
    }
  }

  /** The answer or refusal a call becomes. */
  predicate Follows(c: Call, d: Call) {
    && c.Calling? && d.key == c.key && d.cmd == c.cmd
    && (d.Rejected? || (d.Accepted? && Answers(d.refund, c.cmd))) && d.owner == c.owner
  }

  /** A provider call moves its caller on and is counted once. */
  lemma CallMoves(s: World, t: World, sent: set<Sending>, c: Call, d: Call)
    requires Sound(s, sent) && c in s.calls && Follows(c, d)
    requires t.db == s.db && t.config == s.config && t.calls == s.calls - multiset{c} + multiset{d}
    requires t.owned == if c.owner then Bump(s.owned, c.key) else s.owned
    ensures Sound(t, sent)
  {
    assert CallOk(s, sent, c);
    RowsSame(s, t, sent);
    CountedOnce(s, t, sent, c);
    OwnerMoves(s.calls, c, d);
    OwnerLeaves(s.calls, c);
    forall x | x in s.calls - multiset{c} ensures CallOk(t, sent, x) {
      CallStays(s, t, sent, x);
    }
  }

  lemma CountedOnce(s: World, t: World, sent: set<Sending>, c: Call)
    requires OwnedOnce(s) && CallOk(s, sent, c) && c.Calling? && t.db == s.db
    requires t.owned == if c.owner then Bump(s.owned, c.key) else s.owned
    ensures OwnedOnce(t)
  {
    HoldersHaveRows(s.db);
  }

  lemma RespondStep(s: World, a: Action, sent: set<Sending>)
    requires Sound(s, sent) && a.Respond? && Enabled(s, a)
    ensures Sound(Apply(s, a), sent)
  {
    var c := a.call;
    CallMoves(s, Apply(s, a), sent, c,
              Accepted(c.key, c.cmd, NewRefund(c.cmd, a.providerRefund, a.raw, a.at), c.owner));
  }

  lemma RefuseStep(s: World, c: Call, message: string, sent: set<Sending>)
    requires Sound(s, sent) && Enabled(s, Refuse(c, message))
    ensures Sound(Apply(s, Refuse(c, message)), sent)
  {
    CallMoves(s, Apply(s, Refuse(c, message)), sent, c, Rejected(c.key, c.cmd, message, c.owner));
  }

  lemma SettledRowOk(s: World, t: World, sent: set<Sending>, key: string, r: string)
    requires RowOk(s, sent, r) && t.config == s.config && r in t.db.refunds
    requires SettledRow(s.db.refunds[r], t.db.refunds[r], key)
    ensures RowOk(t, sent, r) && SameIds(s.db, t.db, r)
  {
  }

  /** A settling update by a key: it rewrites the outcome columns of that key's row only. */
  lemma SettleRows(s: World, t: World, sent: set<Sending>, key: string)
    requires RowsOk(s, sent) && t.config == s.config && SettledBy(s.db, t.db, key)
    ensures RowsOk(t, sent) && IdsKept(s.db, t.db)
    ensures forall k, cmd :: k != key && OwnsRow(s.db, k, cmd) ==> OwnsRow(t.db, k, cmd)
  {
    forall r | r in s.db.refunds ensures RowOk(t, sent, r) && SameIds(s.db, t.db, r) {
      assert RowOk(s, sent, r);
      SettledRowOk(s, t, sent, key, r);
    }
    assert forall r :: r in s.db.refunds ==> SameIds(s.db, t.db, r);
  }

  /** Nothing but the outcome of this key's row differs. */
  ghost predicate SettledBy(a: Db, b: Db, key: string) {
    && b.refunds.Keys == a.refunds.Keys
    && forall r :: r in a.refunds ==> SettledRow(a.refunds[r], b.refunds[r], key)
  }

  predicate SettledRow(before: RefundRow, after: RefundRow, key: string) {
    after == before || (before.key == key && Outcome(before, after))
  }

  /** A row after its outcome: identifying columns kept, a status, and a fitting response if any. */
  predicate Outcome(before: RefundRow, after: RefundRow) {
    && after.key == before.key && after.request == before.request && after.command == before.command
    && after.hash == before.hash && after.status != RefundProcessing && ResponseOk(after)
  }

  /** A settling call ends, and no other call is affected. */
  lemma CallSettles(s: World, t: World, sent: set<Sending>, c: Call)
    requires Sound(s, sent) && c in s.calls && RowsOk(t, sent) && IdsKept(s.db, t.db)
    requires t.calls == s.calls - multiset{c} && t.owned == s.owned
    requires Owner(c) || t.db == s.db
    requires forall k, cmd :: k != c.key && OwnsRow(s.db, k, cmd) ==> OwnsRow(t.db, k, cmd)
    ensures Sound(t, sent)
  {
    OwnerLeaves(s.calls, c);
    OwnedStays(s, t);
    forall d | d in t.calls ensures CallOk(t, sent, d) {
      CallStays(s, t, sent, d);
    }
  }

  lemma ForeignHasNoRow(s: World, sent: set<Sending>, c: Call)
    requires Sound(s, sent) && Harmless(sent) && c in s.calls && !Owner(c) && !c.Looking?
    ensures !KeyHasRow(s.db, c.key)
  {
    assert CallOk(s, sent, c);
    BlockedHasNoRow(s, sent, c.key, c.cmd);
  }

  lemma NoRowNoChange(db: Db, key: string, refund: Refund, message: string)
    requires !KeyHasRow(db, key)
    ensures CompleteRefund(db, key, refund) == db && FailRefund(db, key, message) == db
  {
    HoldersHaveRows(db);
    assert CompleteRefund(db, key, refund).refunds == db.refunds;
    assert FailRefund(db, key, message).refunds == db.refunds;
  }

  /** A settling call whose key owns no row changes nothing. */
  lemma ForeignSettles(s: World, sent: set<Sending>, c: Call)
    requires Sound(s, sent) && Harmless(sent) && c in s.calls && !Owner(c) && !c.Looking?
    ensures c.Accepted? ==> CompleteRefund(s.db, c.key, c.refund) == s.db
    ensures c.Rejected? ==> FailRefund(s.db, c.key, c.message) == s.db
  {
    ForeignHasNoRow(s, sent, c);
    if c.Accepted? {
      NoRowNoChange(s.db, c.key, c.refund, "");
    }
    if c.Rejected? {
      NoRowNoChange(s.db, c.key, NewRefund(c.cmd, "", "", 0), c.message);
    }
  }

  /** The one row of an owner's key is the one it reserved. */
  lemma OwnersRow(s: World, sent: set<Sending>, c: Call, r: string)
    requires Sound(s, sent) && c in s.calls && Owner(c) && r in s.db.refunds && s.db.refunds[r].key == c.key
    ensures r == c.cmd.refund && s.db.refunds[r].command == c.cmd && s.db.refunds[r].response.None?
  {
    assert CallOk(s, sent, c);
  }

  lemma CompletedOutcome(row: RefundRow, refund: Refund)
    requires Answers(refund, row.command)
    ensures Outcome(row, CompletedRow(row, refund))
  {
  }

  lemma CompleteRows(s: World, c: Call, sent: set<Sending>, r: string)
    requires Sound(s, sent) && c in s.calls && c.Accepted? && Owner(c) && r in s.db.refunds
    ensures SettledRow(s.db.refunds[r], CompleteRefund(s.db, c.key, c.refund).refunds[r], c.key)
  {
    if s.db.refunds[r].key == c.key {
      OwnersRow(s, sent, c, r);
      assert CallOk(s, sent, c);
      CompletedOutcome(s.db.refunds[r], c.refund);
    }
  }

  lemma CompleteSettles(s: World, c: Call, sent: set<Sending>)
    requires Sound(s, sent) && Harmless(sent) && c in s.calls && c.Accepted?
    ensures SettledBy(s.db, CompleteRefund(s.db, c.key, c.refund), c.key)
    ensures Owner(c) || CompleteRefund(s.db, c.key, c.refund) == s.db
  {
    if Owner(c) {
      forall r | r in s.db.refunds
        ensures SettledRow(s.db.refunds[r], CompleteRefund(s.db, c.key, c.refund).refunds[r], c.key)
      {
        CompleteRows(s, c, sent, r);
      }
    } else {
      ForeignSettles(s, sent, c);
    }
  }

  lemma FailRows(s: World, c: Call, sent: set<Sending>, r: string)
    requires Sound(s, sent) && c in s.calls && c.Rejected? && Owner(c) && r in s.db.refunds
    ensures SettledRow(s.db.refunds[r], FailRefund(s.db, c.key, c.message).refunds[r], c.key)
  {
    if s.db.refunds[r].key == c.key {
      OwnersRow(s, sent, c, r);
    }
  }

  lemma FailSettles(s: World, c: Call, sent: set<Sending>)
    requires Sound(s, sent) && Harmless(sent) && c in s.calls && c.Rejected?
    ensures SettledBy(s.db, FailRefund(s.db, c.key, c.message), c.key)
    ensures Owner(c) || FailRefund(s.db, c.key, c.message) == s.db
  {
    if Owner(c) {
      forall r | r in s.db.refunds
        ensures SettledRow(s.db.refunds[r], FailRefund(s.db, c.key, c.message).refunds[r], c.key)
      {
        FailRows(s, c, sent, r);
      }
    } else {
      ForeignSettles(s, sent, c);
    }
  }

  lemma SettleStep(s: World, t: World, c: Call, sent: set<Sending>)
    requires Sound(s, sent) && c in s.calls && SettledBy(s.db, t.db, c.key) && (Owner(c) || t.db == s.db)
    requires t == s.(db := t.db, calls := s.calls - multiset{c})
    ensures Sound(t, sent)
  {
    SettleRows(s, t, sent, c.key);
    CallSettles(s, t, sent, c);
  }

  lemma CompleteStep(s: World, c: Call, sent: set<Sending>)
    requires Sound(s, sent) && Harmless(sent) && Enabled(s, Complete(c))
    ensures Sound(Apply(s, Complete(c)), sent)
  {
    CompleteSettles(s, c, sent);
    SettleStep(s, Apply(s, Complete(c)), c, sent);
  }

  lemma FailStep(s: World, c: Call, sent: set<Sending>)
    requires Sound(s, sent) && Harmless(sent) && Enabled(s, Fail(c))
    ensures Sound(Apply(s, Fail(c)), sent)
  {
    FailSettles(s, c, sent);
    SettleStep(s, Apply(s, Fail(c)), c, sent);
  }

  lemma StepSound(s: World, a: Action, sent: set<Sending>)
    requires Sound(s, sent) && Harmless(sent) && Enabled(s, a) && Draws(a, sent)
    ensures Sound(Apply(s, a), sent)
  {
    match a {
      case Insert(key, _, cmd) =>
        if CanInsertRefund(s.db, key, cmd) {
          InsertTakes(s, a, sent);
        } else {
          InsertCollides(s, a, sent);
        }
      case Lookup(c) => LookupStep(s, c, sent);
      case Respond(_, _, _, _) => RespondStep(s, a, sent);
      case Refuse(c, message) => RefuseStep(s, c, message, sent);
      case Complete(c) => CompleteStep(s, c, sent);
      case Fail(c) => FailStep(s, c, sent);
      case _ => QuietStep(s, a, sent);
    }
  }

  lemma {:induction false} RunSound(s: World, run: seq<Action>, sent: set<Sending>)
    requires Sound(s, sent) && Harmless(sent) && Valid(s, run) && DrawsFrom(run, sent)
    ensures Sound(Run(s, run), sent)
    decreases |run|
  {
    if run != [] {
      StepSound(s, run[0], sent);
      RunSound(Apply(s, run[0]), run[1..], sent);
    }
  }

  // ---- Results ------------------------------------------------------------------------------

  /** The owner of a row calls the provider at most once, and rows have distinct request ids. */
  lemma OwnersCallOnce(s: World, run: seq<Action>, sent: set<Sending>)
    requires Starting(s) && Valid(s, run) && DrawsFrom(run, sent) && Harmless(sent)
    ensures var t := Run(s, run);
      && (forall key :: key in t.owned ==> t.owned[key] == 1 && KeyHasRow(t.db, key))
      && (forall r, q ::
            r in t.db.refunds && q in t.db.refunds && t.db.refunds[r].request == t.db.refunds[q].request ==> r == q)
      && (forall r :: r in t.db.refunds ==> t.db.refunds[r].request == RemoveDashes(r))
  {
    RunSound(s, run, sent);
    var t := Run(s, run);
    forall r | r in t.db.refunds ensures t.db.refunds[r].request == RemoveDashes(r) {
      assert RowOk(t, sent, r);
    }
  }

  /** What a stored response says is what its row's command asked for, as long as reuse does no harm. */
  lemma ResponsesAnswerTheirCommands(s: World, run: seq<Action>, sent: set<Sending>, r: string)
    requires Starting(s) && Valid(s, run) && DrawsFrom(run, sent) && Harmless(sent)
    requires r in Run(s, run).db.refunds
    ensures var row := Run(s, run).db.refunds[r]; row.command.refund == r && ResponseOk(row)
  {
    RunSound(s, run, sent);
    assert RowOk(Run(s, run), sent, r);
  }

  /** In every run, a call whose key owns no row changes no table, whatever the provider answered it. */
  lemma ForeignCallsChangeNothing(s: World, run: seq<Action>, sent: set<Sending>, c: Call)
    requires Starting(s) && Valid(s, run) && DrawsFrom(run, sent) && Harmless(sent)
    requires c in Run(s, run).calls && !Owner(c) && !c.Looking?
    ensures c.Accepted? ==> CompleteRefund(Run(s, run).db, c.key, c.refund) == Run(s, run).db
    ensures c.Rejected? ==> FailRefund(Run(s, run).db, c.key, c.message) == Run(s, run).db
  {
    RunSound(s, run, sent);
    ForeignSettles(Run(s, run), sent, c);
  }

  lemma StepKeepsResponse(s: World, a: Action, sent: set<Sending>, r: string)
    requires Sound(s, sent) && Harmless(sent) && Enabled(s, a)
    requires r in s.db.refunds && s.db.refunds[r].response.Some?
    ensures r in Apply(s, a).db.refunds && Apply(s, a).db.refunds[r] == s.db.refunds[r]
  {
    if a.Complete? || a.Fail? {
      SettlesOtherRow(s, a.call, sent, r);
    }
    OtherRowsStay(s, a, r);
  }

  lemma OtherRowsStay(s: World, a: Action, r: string)
    requires Enabled(s, a) && r in s.db.refunds
    requires a.Complete? || a.Fail? ==> s.db.refunds[r].key != a.call.key
    ensures r in Apply(s, a).db.refunds && Apply(s, a).db.refunds[r] == s.db.refunds[r]
  {
  }

  /** No running call is about to settle a row that has its response. */
  lemma SettlesOtherRow(s: World, c: Call, sent: set<Sending>, r: string)
    requires Sound(s, sent) && Harmless(sent) && c in s.calls && !c.Looking?
    requires r in s.db.refunds && s.db.refunds[r].response.Some?
    ensures s.db.refunds[r].key != c.key
  {
    assert CallOk(s, sent, c);
    if Owner(c) {
      if s.db.refunds[r].key == c.key {
        OwnersRow(s, sent, c, r);
      }
    } else {
      BlockedHasNoRow(s, sent, c.key, c.cmd);
      HoldersHaveRows(s.db);
    }
  }

  /** The row as it stands, with its response. */
  predicate Stores(s: World, r: string, row: RefundRow) {
    r in s.db.refunds && s.db.refunds[r] == row && row.response.Some?
  }

  lemma StepStores(s: World, a: Action, sent: set<Sending>, r: string, row: RefundRow)
    requires Sound(s, sent) && Harmless(sent) && Enabled(s, a) && Draws(a, sent) && Stores(s, r, row)
    ensures Sound(Apply(s, a), sent) && Stores(Apply(s, a), r, row)
  {
    StepKeepsResponse(s, a, sent, r);
    StepSound(s, a, sent);
  }

  lemma {:induction false} RunKeepsResponse(s: World, run: seq<Action>, sent: set<Sending>, r: string, row: RefundRow)
    requires Sound(s, sent) && Harmless(sent) && Valid(s, run) && DrawsFrom(run, sent) && Stores(s, r, row)
    ensures Stores(Run(s, run), r, row)
    decreases |run|
  {
    if run != [] {
      StepStores(s, run[0], sent, r, row);
      RunKeepsResponse(Apply(s, run[0]), run[1..], sent, r, row);
    }
  }

  /**
   A stored response is never changed. Every later reservation with its key replays it to a command
   with its row's fingerprint, and conflicts for any other; none inserts anything.
   */
  lemma ResponsesReplay(s: World, run: seq<Action>, more: seq<Action>, sent: set<Sending>, r: string,
                        cmd: RefundCommand, answer: Lookup<Refund>)
    requires Starting(s) && Valid(s, run) && DrawsFrom(run, sent) && Harmless(sent)
    requires Valid(Run(s, run), more) && DrawsFrom(more, sent)
    requires r in Run(s, run).db.refunds && Run(s, run).db.refunds[r].response.Some?
    requires var t := Run(Run(s, run), more);
      LooksUp(t.db, Run(s, run).db.refunds[r].key, t.config.refundFingerprint(cmd), answer)
    ensures var row, t := Run(s, run).db.refunds[r], Run(Run(s, run), more);
      && answer == (if t.config.refundFingerprint(cmd) == t.config.refundFingerprint(row.command)
                    then Replay(row.response.value) else Refused(Conflict))
      && !CanInsertRefund(t.db, row.key, cmd)
  {
    RunSound(s, run, sent);
    var u := Run(s, run);
    RunKeepsResponse(u, more, sent, r, u.db.refunds[r]);
    RunSound(u, more, sent);
    var t := Run(u, more);
    assert RowOk(t, sent, r);
    assert HoldsKey(t.db, r, t.db.refunds[r].key);
  }
}
