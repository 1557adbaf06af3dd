/**
 How often the refund protocol calls the provider, counted over whole runs: per idempotency key
 and per refund request id.
 */
module RefundCalls {
  import opened Basics
  import opened Model
  import opened Text
  import opened Tables
  import opened Refunds

  /** The provider is called when it answers or refuses. */
  predicate IsCall(a: Action) {
    a.Respond? || a.Refuse?
  }

  function CallStep(a: Action, key: string): nat {
    if IsCall(a) && a.call.key == key then 1 else 0
  }

  /** The calls a run makes for a key, whoever owns its row. */
  function CallsBy(run: seq<Action>, key: string): nat {
    if run == [] then 0 else CallStep(run[0], key) + CallsBy(run[1..], key)
  }

  predicate CallsWith(a: Action, request: string) {
    IsCall(a) && RequestId(a.call.cmd) == request
  }

  /** The calls a run makes with a request id. */
  function CallsFor(run: seq<Action>, request: string): nat {
    if run == [] then 0
    else (if CallsWith(run[0], request) then 1 else 0) + CallsFor(run[1..], request)
  }

  // ---- What one step does ----------------------------------------------------------------

  lemma RowsStay(s: World, a: Action, r: string)
    requires Enabled(s, a) && r in s.db.refunds
    ensures SameIds(s.db, Apply(s, a).db, r)
  {
    match a {
      case Complete(c) => CompletedRowStays(s, c, r);
      case Fail(c) => FailedRowStays(s, c, r);
      case _ =>
    }
  }

  lemma CompletedRowStays(s: World, c: Call, r: string)
    requires Enabled(s, Complete(c)) && r in s.db.refunds
    ensures SameIds(s.db, Apply(s, Complete(c)).db, r)
  {
  }

  lemma FailedRowStays(s: World, c: Call, r: string)
    requires Enabled(s, Fail(c)) && r in s.db.refunds
    ensures SameIds(s.db, Apply(s, Fail(c)).db, r)
  {
  }

  lemma StepKeepsIds(s: World, a: Action)
    requires Enabled(s, a)
    ensures IdsKept(s.db, Apply(s, a).db)
  {
    forall r | r in s.db.refunds ensures SameIds(s.db, Apply(s, a).db, r) {
      RowsStay(s, a, r);
    }
  }

  lemma RowsArise(s: World, a: Action, r: string)
    requires Enabled(s, a) && r in Apply(s, a).db.refunds && r !in s.db.refunds
    ensures a.Insert? && CanInsertRefund(s.db, a.key, a.cmd) && Apply(s, a).db.refunds[r].key == a.key
  {
  }

  /** A key gets its row only by its own insert. */
  lemma KeysArise(s: World, a: Action, key: string)
    requires Enabled(s, a) && KeyHasRow(Apply(s, a).db, key) && !KeyHasRow(s.db, key)
    ensures a.Insert? && a.key == key && CanInsertRefund(s.db, key, a.cmd)
  {
    var t := Apply(s, a);
    var r :| r in t.db.refunds && HoldsKey(t.db, r, key);
    if r in s.db.refunds {
      RowsStay(s, a, r);
      assert HoldsKey(s.db, r, key);
    } else {
      RowsArise(s, a, r);
    }
  }

  lemma OwnedFollows(s: World, a: Action, key: string)
    requires Enabled(s, a)
    ensures Count(Apply(s, a).owned, key) ==
              Count(s.owned, key) + if IsCall(a) && a.call.owner && a.call.key == key then 1 else 0
  {
  }

  // ---- Calls by key ----------------------------------------------------------------------

  /** Another key's row blocks one of the key's commands. */
  ghost predicate KeyBlocked(db: Db, sent: set<Sending>, key: string) {
    exists x :: x in sent && x.key == key && Blocked(db, key, x.cmd)
  }

  lemma KeyStays(s: World, a: Action, sent: set<Sending>, key: string)
    requires Enabled(s, a)
    ensures KeyHasRow(s.db, key) ==> KeyHasRow(Apply(s, a).db, key)
    ensures KeyBlocked(s.db, sent, key) ==> KeyBlocked(Apply(s, a).db, sent, key)
  {
    StepKeepsIds(s, a);
    forall x | x in sent && x.key == key && Blocked(s.db, key, x.cmd) ensures Blocked(Apply(s, a).db, key, x.cmd) {
      BlockedStays(s.db, Apply(s, a).db, key, x.cmd);
    }
    BlockedStays(s.db, Apply(s, a).db, key, RefundCommand("", "", "", "", "", ""));
  }

  lemma KeyBlockedHasNoRow(s: World, sent: set<Sending>, key: string)
    requires RowsOk(s, sent) && Harmless(sent) && KeyBlocked(s.db, sent, key)
    ensures !KeyHasRow(s.db, key)
  {
    var x :| x in sent && x.key == key && Blocked(s.db, key, x.cmd);
    BlockedHasNoRow(s, sent, key, x.cmd);
  }

  /** The calls made so far for a key: those counted for its row; without a row none, unless it is blocked. */
  ghost predicate Tallied(s: World, sent: set<Sending>, key: string, n: nat) {
    if KeyHasRow(s.db, key) then n == Count(s.owned, key) else n == 0 || KeyBlocked(s.db, sent, key)
  }

  /** A caller has a row of its own, or its key is blocked. */
  lemma CallerOwnsOrIsBlocked(s: World, a: Action, sent: set<Sending>)
    requires Sound(s, sent) && Enabled(s, a) && IsCall(a)
    ensures Sending(a.call.key, a.call.cmd) in sent
    ensures if a.call.owner then KeyHasRow(s.db, a.call.key) else KeyBlocked(s.db, sent, a.call.key)
  {
    assert CallOk(s, sent, a.call);
    HoldersHaveRows(s.db);
    if !a.call.owner {
      var x := Sending(a.call.key, a.call.cmd);
      assert x in sent && x.key == a.call.key && Blocked(s.db, a.call.key, x.cmd);
    }
  }

  lemma TallyStep(s: World, a: Action, sent: set<Sending>, key: string, n: nat)
    requires Sound(s, sent) && Harmless(sent) && Enabled(s, a) && Draws(a, sent) && Tallied(s, sent, key, n)
    ensures Tallied(Apply(s, a), sent, key, n + CallStep(a, key))
  {
    StepSound(s, a, sent);
    KeyStays(s, a, sent, key);
    if IsCall(a) && a.call.key == key {
      CallerOwnsOrIsBlocked(s, a, sent);
    }
    if KeyBlocked(s.db, sent, key) {
      KeyBlockedHasNoRow(Apply(s, a), sent, key);
    } else {
      TallyUnblocked(s, a, sent, key, n);
    }
  }

  lemma TallyUnblocked(s: World, a: Action, sent: set<Sending>, key: string, n: nat)
    requires Enabled(s, a) && Tallied(s, sent, key, n) && OwnedOnce(s)
    requires KeyHasRow(s.db, key) ==> KeyHasRow(Apply(s, a).db, key)
    requires !KeyBlocked(s.db, sent, key) && (IsCall(a) && a.call.key == key ==> a.call.owner && KeyHasRow(s.db, key))
    ensures Tallied(Apply(s, a), sent, key, n + CallStep(a, key))
  {
    OwnedFollows(s, a, key);
    if !KeyHasRow(s.db, key) && KeyHasRow(Apply(s, a).db, key) {
      KeysArise(s, a, key);
    }
  }

  lemma {:induction false} TallyRun(s: World, run: seq<Action>, sent: set<Sending>, key: string, n: nat)
    requires Sound(s, sent) && Harmless(sent) && Valid(s, run) && DrawsFrom(run, sent) && Tallied(s, sent, key, n)
    ensures Tallied(Run(s, run), sent, key, n + CallsBy(run, key)) && Sound(Run(s, run), sent)
    decreases |run|
  {
    if run != [] {
      TallyStep(s, run[0], sent, key, n);
      StepSound(s, run[0], sent);
      TallyRun(Apply(s, run[0]), run[1..], sent, key, n + CallStep(run[0], key));
    }
  }

  /**
   While reuse does no harm, a key that owns a row has called the provider at most once in the
   whole run, and one that owns none has called it only if another key's row blocks a command of it.
   */
  lemma RowOwnersCallOnce(s: World, run: seq<Action>, sent: set<Sending>, key: string)
    requires Starting(s) && Valid(s, run) && DrawsFrom(run, sent) && Harmless(sent)
    ensures KeyHasRow(Run(s, run).db, key) ==> CallsBy(run, key) <= 1
    ensures !KeyHasRow(Run(s, run).db, key) && CallsBy(run, key) > 0 ==> KeyBlocked(Run(s, run).db, sent, key)
  {
    TallyRun(s, run, sent, key, 0);
  }

  // ---- Calls by request id ---------------------------------------------------------------

  /** With distinct request ids no key's row blocks another key. */
  lemma NoneBlocked(s: World, sent: set<Sending>, key: string)
    requires RowsOk(s, sent) && DistinctRequests(sent)
    ensures !KeyBlocked(s.db, sent, key)
  {
    forall x, r | x in sent && x.key == key && r in s.db.refunds ensures !BlockedBy(s.db, r, key, x.cmd) {
      assert RowOk(s, sent, r);
      assert Sending(s.db.refunds[r].key, s.db.refunds[r].command) in sent;
    }
  }

  /** Every call with the request id sends it under its key. */
  predicate CallersFit(run: seq<Action>, sent: set<Sending>, request: string) {
    run == [] || (
      && (CallsWith(run[0], request) ==> Sending(run[0].call.key, run[0].call.cmd) in sent)
      && CallersFit(run[1..], sent, request))
  }

  lemma {:induction false} CallersInRunFit(s: World, run: seq<Action>, sent: set<Sending>, request: string)
    requires Sound(s, sent) && Harmless(sent) && Valid(s, run) && DrawsFrom(run, sent)
    ensures CallersFit(run, sent, request)
    decreases |run|
  {
    if run != [] {
      if IsCall(run[0]) {
        CallerOwnsOrIsBlocked(s, run[0], sent);
      }
      StepSound(s, run[0], sent);
      CallersInRunFit(Apply(s, run[0]), run[1..], sent, request);
    }
  }

  /** If the request id is sent at all, only under this key, it makes all the calls with it. */
  lemma {:induction false} CallsForOneKey(run: seq<Action>, sent: set<Sending>, request: string, key: string)
    requires CallersFit(run, sent, request)
    requires forall x :: x in sent && RequestId(x.cmd) == request ==> x.key == key
    ensures CallsFor(run, request) <= CallsBy(run, key)
    ensures (forall x :: x in sent ==> RequestId(x.cmd) != request) ==> CallsFor(run, request) == 0
    decreases |run|
  {
    if run != [] {
      CallsForOneKey(run[1..], sent, request, key);
    }
  }

  /** When different keys are sent with different request ids, each is called with at most once. */
  lemma DistinctRequestsCallOnce(s: World, run: seq<Action>, sent: set<Sending>, request: string)
    requires Starting(s) && Valid(s, run) && DrawsFrom(run, sent) && DistinctRequests(sent)
    ensures CallsFor(run, request) <= 1
  {
    HarmlessUses(sent);
    CallersInRunFit(s, run, sent, request);
    var key := "";
    if x :| x in sent && RequestId(x.cmd) == request {
      key := x.key;
    }
    CallsForOneKey(run, sent, request, key);
    RunSound(s, run, sent);
    NoneBlocked(Run(s, run), sent, key);
    RowOwnersCallOnce(s, run, sent, key);
  }

  // ---- Who goes on ---------------------------------------------------------------------------

  lemma {:induction false} LookupStands(s: World, run: seq<Action>, sent: set<Sending>, key: string)
    requires Sound(s, sent) && Harmless(sent) && Valid(s, run) && DrawsFrom(run, sent)
    requires KeyHasRow(s.db, key) || KeyBlocked(s.db, sent, key)
    ensures KeyHasRow(Run(s, run).db, key) <==> KeyHasRow(s.db, key)
    decreases |run|
  {
    if run != [] {
      StepSound(s, run[0], sent);
      LookupStandsStep(s, run[0], sent, key);
      LookupStands(Apply(s, run[0]), run[1..], sent, key);
    }
  }

  lemma LookupStandsStep(s: World, a: Action, sent: set<Sending>, key: string)
    requires RowsOk(s, sent) && Harmless(sent) && Enabled(s, a) && RowsOk(Apply(s, a), sent)
    requires KeyHasRow(s.db, key) || KeyBlocked(s.db, sent, key)
    ensures KeyHasRow(Apply(s, a).db, key) <==> KeyHasRow(s.db, key)
    ensures KeyHasRow(Apply(s, a).db, key) || KeyBlocked(Apply(s, a).db, sent, key)
  {
    KeyStays(s, a, sent, key);
    if KeyBlocked(s.db, sent, key) {
      KeyBlockedHasNoRow(s, sent, key);
      KeyBlockedHasNoRow(Apply(s, a), sent, key);
    }
  }

  /**
   A reservation goes on to the provider exactly when its key had no row as it was made, however
   many steps later its lookup runs: its own insert took, or the row of another key blocks it and
   the lookup still finds nothing.
   */
  lemma ProceedsExactly(s: World, run: seq<Action>, insert: Action, later: seq<Action>, sent: set<Sending>)
    requires Starting(s) && Valid(s, run) && DrawsFrom(run, sent) && Harmless(sent)
    requires insert.Insert? && Enabled(Run(s, run), insert) && Draws(insert, sent)
    requires Valid(Apply(Run(s, run), insert), later) && DrawsFrom(later, sent)
    ensures var u := Run(s, run);
      var t := Run(Apply(u, insert), later);
      && (CanInsertRefund(u.db, insert.key, insert.cmd) || !KeyHasRow(t.db, insert.key) <==>
          !KeyHasRow(u.db, insert.key))
      && (!CanInsertRefund(u.db, insert.key, insert.cmd) <==>
            KeyHasRow(u.db, insert.key) || Blocked(u.db, insert.key, insert.cmd))
  {
    RunSound(s, run, sent);
    var u := Run(s, run);
    InsertTakesExactly(u.db, insert.key, insert.cmd);
    if !CanInsertRefund(u.db, insert.key, insert.cmd) {
      StepSound(u, insert, sent);
      CollidedStands(u, insert, sent);
      LookupStands(Apply(u, insert), later, sent, insert.key);
    }
  }

  lemma CollidedStands(s: World, a: Action, sent: set<Sending>)
    requires a.Insert? && Enabled(s, a) && Draws(a, sent) && !CanInsertRefund(s.db, a.key, a.cmd)
    ensures var t := Apply(s, a);
      (KeyHasRow(t.db, a.key) <==> KeyHasRow(s.db, a.key)) && (KeyHasRow(t.db, a.key) || KeyBlocked(t.db, sent, a.key))
  {
    InsertTakesExactly(s.db, a.key, a.cmd);
    assert Apply(s, a).db == s.db;
    var x := Sending(a.key, a.cmd);
    assert x in sent && x.key == a.key;
  }
}
