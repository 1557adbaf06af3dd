/** What the connector stores of an order is what the command of its creation asked for. */
module Commands {
  import opened Basics
  import opened Model
  import opened Text
  import opened Tables
  import opened Statements
  import opened Decisions
  import opened Protocol
  import opened Creation
  import opened Agreement

  predicate Repeats(k: PaymentKey, t: Terms, cmd: CreateCommand) {
    && k.connection == cmd.connection
    && t.transaction == cmd.transaction && t.reference == t.data == RemoveDashes(cmd.transaction)
    && t.amount == cmd.amount && t.currency == ToUpper(cmd.currency)
  }

  /** The provider call of a creation, with a reply that set the order's id, completion and expiry. */
  predicate Answers(a: Action, key: string, cmd: CreateCommand, k: PaymentKey, t: Terms) {
    && a.CreateCall? && a.process == CreateOwning(key, cmd)
    && k.id == a.id && t.completion == a.completion
    && t.expiresAt == if a.expireTime.Some? then a.expireTime else cmd.expiresAt
  }

  /** What the command asked for, and what one of the calls answered. */
  ghost predicate Agreed(calls: set<Action>, key: string, cmd: CreateCommand, k: PaymentKey, t: Terms) {
    Repeats(k, t, cmd) && exists a :: a in calls && Answers(a, key, cmd, k, t)
  }

  /** A running creation carries the command stored with its operation. */
  ghost predicate Carries(db: Db, calls: set<Action>, p: Process) {
    match p
    case CreateOwning(key, cmd) => key in db.operations && db.operations[key].command == cmd
    case CreateAccepted(key, payment) =>
      key in db.operations && Agreed(calls, key, db.operations[key].command, payment.key, payment.terms)
    case _ => true
  }

  ghost predicate OrderFollows(s: World, calls: set<Action>, k: PaymentKey) {
    && k in s.db.orders && k in s.trace.origin && s.trace.origin[k] in s.db.operations
    && var key := s.trace.origin[k]; Agreed(calls, key, s.db.operations[key].command, k, s.db.orders[k].terms)
  }

  ghost predicate Commanded(s: World, calls: set<Action>) {
    && (forall p :: p in s.processes ==> Carries(s.db, calls, p))
    && (forall k :: k in s.db.orders ==> OrderFollows(s, calls, k))
  }

  lemma CommandsKept(db: Db, now: Time, q: Statement, key: string)
    requires key in db.operations
    ensures key in Execute(db, now, q).operations &&
        Execute(db, now, q).operations[key].command == db.operations[key].command
  {
    OperationsChange(db, now, q);
  }

  lemma CallAgrees(db: Db, calls: set<Action>, a: Action)
    requires a.CreateCall? && a.process.CreateOwning? && Carries(db, calls, a.process)
    ensures var p := CreatedPayment(a.process.cmd, a.id, a.expireTime, a.completion, a.at);
      Carries(db, calls + {a}, CreateAccepted(a.process.key, p))
  {
    var p := CreatedPayment(a.process.cmd, a.id, a.expireTime, a.completion, a.at);
    assert Answers(a, a.process.key, a.process.cmd, p.key, p.terms);
  }

  lemma NewProcessCarries(s: World, calls: set<Action>, a: Action, p: Process)
    requires Commanded(s, calls) && Enabled(s, a) && p in NewProcesses(s, a)
    ensures Carries(Apply(s, a).db, calls + {a}, p)
  {
    if a.CreateCall? {
      CallAgrees(s.db, calls, a);
    } else if Creates(a) {
      OperationsChange(s.db, s.now, StatementOf(s, a));
    } else {
      OtherStepsCreateNothing(s, a);
    }
  }

  lemma OldProcessCarries(s: World, calls: set<Action>, a: Action, p: Process)
    requires Enabled(s, a) && Carries(s.db, calls, p)
    ensures Carries(Apply(s, a).db, calls + {a}, p)
  {
    if p.CreateOwning? || p.CreateAccepted? {
      CommandsKept(s.db, s.now, StatementOf(s, a), p.key);
    }
  }

  lemma OldOrderFollows(s: World, calls: set<Action>, a: Action, k: PaymentKey)
    requires Enabled(s, a) && OrderFollows(s, calls, k)
    ensures OrderFollows(Apply(s, a), calls + {a}, k)
  {
    RowChanges(s.db, s.now, StatementOf(s, a), k);
    OriginFollows(s, a);
    CommandsKept(s.db, s.now, StatementOf(s, a), s.trace.origin[k]);
  }

  lemma CompletesAccepted(s: World, a: Action)
    requires Enabled(s, a) && StatementOf(s, a).Complete?
    ensures var q := StatementOf(s, a); CreateAccepted(q.idempotency, q.payment) in s.processes
  {
  }

  lemma NewOrderFollows(s: World, calls: set<Action>, a: Action, k: PaymentKey)
    requires Commanded(s, calls) && Enabled(s, a) && k in Apply(s, a).db.orders && k !in s.db.orders
    ensures OrderFollows(Apply(s, a), calls + {a}, k)
  {
    var q := StatementOf(s, a);
    RowsChange(s.db, s.now, q);
    CompletesAccepted(s, a);
    assert Carries(s.db, calls, CreateAccepted(q.idempotency, q.payment));
    OriginFollows(s, a);
    CommandsKept(s.db, s.now, q, q.idempotency);
  }

  lemma StepKeepsCommands(s: World, calls: set<Action>, a: Action)
    requires Commanded(s, calls) && Enabled(s, a)
    ensures Commanded(Apply(s, a), calls + {a})
  {
    var t := Apply(s, a);
    forall p | p in t.processes ensures Carries(t.db, calls + {a}, p) {
      if p in NewProcesses(s, a) {
        NewProcessCarries(s, calls, a, p);
      } else {
        OldProcessCarries(s, calls, a, p);
      }
    }
    forall k | k in t.db.orders ensures OrderFollows(t, calls + {a}, k) {
      if k in s.db.orders {
        OldOrderFollows(s, calls, a, k);
      } else {
        NewOrderFollows(s, calls, a, k);
      }
    }
  }

  function Steps(run: seq<Action>): set<Action> {
    set a | a in run
  }

  lemma StepsSplit(calls: set<Action>, run: seq<Action>)
    ensures calls + Steps(run) == if run == [] then calls else calls + {run[0]} + Steps(run[1..])
  {
    if run != [] {
      assert run == [run[0]] + run[1..];
    }
  }

  lemma {:induction false} RunKeepsCommands(s: World, calls: set<Action>, run: seq<Action>)
    requires Commanded(s, calls) && Valid(s, run)
    ensures Commanded(Run(s, run), calls + Steps(run))
    decreases |run|
  {
    StepsSplit(calls, run);
    if run != [] {
      StepKeepsCommands(s, calls, run[0]);
      RunKeepsCommands(Apply(s, run[0]), calls + {run[0]}, run[1..]);
    }
  }

  /**
   In every run, an order has the connection, transaction, reference, amount and currency that the
   command of its own creation asked for; one step of the run is that creation's provider call, and
   the order has the id and completion of its reply, and its expiry, or the command's if it gave none.
   */
  lemma OrdersRepeatCommands(config: Config, now: Time, run: seq<Action>, key: string, k: PaymentKey)
    requires Valid(Start(config, now), run) && Completes(Run(Start(config, now), run).db, key, k)
    ensures var db := Run(Start(config, now), run).db;
      && Repeats(k, db.orders[k].terms, db.operations[key].command)
      && exists i :: 0 <= i < |run| && Answers(run[i], key, db.operations[key].command, k, db.orders[k].terms)
  {
    var s := Run(Start(config, now), run);
    RunKeepsCommands(Start(config, now), {}, run);
    assert OrderFollows(s, {} + Steps(run), k);
    OriginTells(s, key, k);
    var a :| a in {} + Steps(run) && Answers(a, key, s.db.operations[key].command, k, s.db.orders[k].terms);
    var i :| 0 <= i < |run| && run[i] == a;
  }

  lemma OriginTells(s: World, key: string, k: PaymentKey)
    requires Reachable(s) && Completes(s.db, key, k)
    ensures k in s.trace.origin && s.trace.origin[k] == key
  {
    OperationsAndOrdersPair(s);
    ReachableCreation(s);
    assert Completes(s.db, s.trace.origin[k], k);
  }

  // ---- Unique indexes ------------------------------------------------------------------------

  /** No two orders share a transaction, or a connection and a reference. */
  ghost predicate Unique(orders: map<PaymentKey, Order>) {
    forall j, k :: j in orders && k in orders && j != k ==>
      && orders[j].terms.transaction != orders[k].terms.transaction
      && (j.connection == k.connection ==> orders[j].terms.reference != orders[k].terms.reference)
  }

  lemma NewRowUnique(db: Db, p: Payment, now: Time)
    requires Unique(db.orders) && CanInsertOrder(db, p)
    ensures Unique(db.orders[p.key := NewOrder(p, now)])
  {
  }

  lemma SameTermsUnique(was: map<PaymentKey, Order>, orders: map<PaymentKey, Order>)
    requires Unique(was) && orders.Keys == was.Keys && forall k :: k in orders ==> orders[k].terms == was[k].terms
    ensures Unique(orders)
  {
  }

  lemma StatementKeepsUnique(db: Db, now: Time, q: Statement)
    requires Unique(db.orders)
    ensures Unique(Execute(db, now, q).orders)
  {
    RowsChange(db, now, q);
    var t := Execute(db, now, q);
    if q.Complete? && CanInsertOrder(db, q.payment) {
      NewRowUnique(db, q.payment, now);
      SameTermsUnique(db.orders[q.payment.key := NewOrder(q.payment, now)], t.orders);
    } else {
      SameTermsUnique(db.orders, t.orders);
    }
  }

  lemma {:induction false} RunKeepsUnique(s: World, run: seq<Action>)
    requires Unique(s.db.orders) && Valid(s, run)
    ensures Unique(Run(s, run).db.orders)
    decreases |run|
  {
    if run != [] {
      StatementKeepsUnique(s.db, s.now, StatementOf(s, run[0]));
      RunKeepsUnique(Apply(s, run[0]), run[1..]);
    }
  }

  /** So a webhook's reference finds at most one order, in every reachable state. */
  lemma OrdersUnique(s: World)
    requires Reachable(s)
    ensures Unique(s.db.orders)
  {
    var config, now, run :| Valid(Start(config, now), run) && Run(Start(config, now), run) == s;
    RunKeepsUnique(Start(config, now), run);
  }

  lemma {:induction false} RunGrows(s: World, run: seq<Action>)
    requires Valid(s, run)
    ensures Grows(s, Run(s, run))
    decreases |run|
  {
    if run != [] {
      StepGrows(s, run[0]);
      RunGrows(Apply(s, run[0]), run[1..]);
    }
  }

  lemma CompletionInserts(s: World, p: Process)
    requires Enabled(s, CreateComplete(p)) && CanInsertOrder(s.db, p.payment)
    ensures var t, k := Apply(s, CreateComplete(p)), p.payment.key;
      k in t.db.orders && t.db.orders[k].terms == p.payment.terms
  {
  }

  /**
   A created payment is found for ever, on every field its creation set: whatever runs later, the
   stored row differs from it in status, raw status and observation time only.
   */
  lemma FoundAsCreated(s: World, p: Process, run: seq<Action>)
    requires Enabled(s, CreateComplete(p)) && CanInsertOrder(s.db, p.payment)
    requires Valid(Apply(s, CreateComplete(p)), run)
    ensures var t, k := Run(Apply(s, CreateComplete(p)), run), p.payment.key;
      && k in t.db.orders
      && var found := Snapshot(k, t.db.orders[k]);
         found == p.payment.(status := found.status, raw := found.raw, observedAt := found.observedAt)
  {
    CompletionInserts(s, p);
    RunGrows(Apply(s, CreateComplete(p)), run);
  }
}
