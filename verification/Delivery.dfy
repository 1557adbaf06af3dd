/**
 Delivery of the outbox by one publisher: pages are fetched, each event is posted and then
 marked, and any mark may fail to be stored. Other actors only add rows in between.
 */
module Deliveries {
  import opened Basics
  import opened Model
  import opened Tables
  import opened Statements

  /** Where the publisher is; `Answered` lies between the orchestrator's answer and the mark. */
  datatype Publisher =
    | Idle
    | Sending(rest: seq<string>)
    | Answered(id: string, accepted: bool, rest: seq<string>)

  /**
   History beside the program state, per event: posts the orchestrator accepted and refused, the
   marks of either kind that never reached the store, and the time of the first post.
   */
  datatype World = World(
    now: Time,
    outbox: map<string, Delivery>,
    publisher: Publisher,
    accepted: map<string, nat>,
    lost: map<string, nat>,
    refused: map<string, nat>,
    unmarked: map<string, nat>,
    first: map<string, Time>)

  datatype Action =
    | Tick(elapsed: nat)
    | Emit(event: Event)
    | Fetch(ids: seq<string>)
    | Post(ok: bool)
    | Mark(stored: bool, message: string)
    | Restart

  ghost predicate Enabled(s: World, a: Action) {
    match a
    case Tick(_) => true
    case Emit(e) => e.id !in s.outbox
    case Fetch(ids) => s.publisher.Idle? && IsPage(s.outbox, s.now, BATCH, ids)
    case Post(_) => s.publisher.Sending? && s.publisher.rest != []
    case Mark(_, _) => s.publisher.Answered?
    case Restart => true
  }

  function Published(outbox: map<string, Delivery>, id: string): nat {
    if id in outbox && outbox[id].published.Some? then 1 else 0
  }

  function Resume(rest: seq<string>): Publisher {
    if rest == [] then Idle else Sending(rest)
  }

  /** The answer to a post whose mark never reached the store. */
  function Unmarked(s: World): World
    requires s.publisher.Answered?
  {
    var id := s.publisher.id;
    if s.publisher.accepted then s.(lost := Bump(s.lost, id)) else s.(unmarked := Bump(s.unmarked, id))
  }

  function Stored(s: World, message: string): World
    requires s.publisher.Answered?
  {
    var id := s.publisher.id;
    if id !in s.outbox then s
    else if s.publisher.accepted then s.(outbox := s.outbox[id := s.outbox[id].(published := Some(s.now))])
    else s.(outbox := s.outbox[id := Failure(s.outbox[id], s.now, message)])
  }

  function Apply(s: World, a: Action): World
    requires Enabled(s, a)
  {
    match a
    case Tick(elapsed) => s.(now := s.now + elapsed)
    case Emit(e) => s.(outbox := s.outbox[e.id := Delivery(e, 0, s.now, None, None, s.now)])
    case Fetch(ids) => s.(publisher := Resume(ids))
    case Post(ok) =>
      var id, rest := s.publisher.rest[0], s.publisher.rest[1..];
      s.(publisher := Answered(id, ok, rest),
         accepted := if ok then Bump(s.accepted, id) else s.accepted,
         refused := if ok then s.refused else Bump(s.refused, id),
         first := if id in s.first then s.first else s.first[id := s.now])
    case Mark(stored, message) =>
      (if stored then Stored(s, message) else Unmarked(s)).(publisher := Resume(s.publisher.rest))
    case Restart => (if s.publisher.Answered? then Unmarked(s) else s).(publisher := Idle)
  }

  ghost predicate Valid(s: World, run: seq<Action>)
    decreases |run|
  {
    run == [] || (Enabled(s, run[0]) && Valid(Apply(s, run[0]), run[1..]))
  }

  ghost function Run(s: World, run: seq<Action>): World
    requires Valid(s, run)
    decreases |run|
  {
    if run == [] then s else Run(Apply(s, run[0]), run[1..])
  }

  function Start(now: Time): World {
    World(now, map[], Idle, map[], map[], map[], map[], map[])
  }

  /** Publish and failure marks are the store's own statements; nothing else touches delivered rows. */
  lemma MarksAreStatements(db: Db, now: Time, s: World, message: string)
    requires s.outbox == db.outbox && s.now == now && s.publisher.Answered? && s.publisher.id in s.outbox
    ensures Stored(s, message).outbox ==
              Execute(db, now, if s.publisher.accepted then Publish(s.publisher.id)
                               else Postpone(s.publisher.id, message)).outbox
  {
  }

  /** Every other statement of the protocol at most emits one event, as a new unpublished row. */
  lemma OthersOnlyEmit(db: Db, now: Time, q: Statement)
    requires !q.Publish? && !q.Postpone?
    ensures Execute(db, now, q).outbox ==
              if Emits(db, q) then db.outbox[q.event.id := Delivery(q.event, 0, now, None, None, now)] else db.outbox
  {
  }

  // ---- The invariant ---------------------------------------------------------------------

  /** The backoff in seconds after k stored failures. */
  function BackoffSeconds(k: nat): int {
    if k <= 8 then Pow2(k + 1) - 2 else 510 + 300 * (k - 8)
  }

  lemma DelayBounds(attempts: nat)
    ensures Seconds(2) <= PublishDelay(attempts) <= Seconds(300)
    ensures PublishDelay(attempts) == Seconds(BackoffSeconds(attempts + 1) - BackoffSeconds(attempts))
  {
    assert Pow2(8) == 256 && Pow2(9) == 512 by {
      assert Pow2(4) == 16;
      assert Pow2(6) == 64;
    }
    if attempts <= 7 {
      Pow2Monotone(attempts, 7);
    }
  }

  /** An event in the publisher's hands: stored, unpublished and due. */
  ghost predicate Held(s: World, id: string) {
    id in s.outbox && s.outbox[id].published.None? && s.outbox[id].nextAttempt <= s.now
  }

  ghost predicate InHand(s: World) {
    match s.publisher
    case Idle => true
    case Sending(rest) => rest != [] && Distinct(rest) && forall id :: id in rest ==> Held(s, id)
    case Answered(id, _, rest) =>
      Distinct([id] + rest) && Held(s, id) && id in s.first && forall i :: i in rest ==> Held(s, i)
  }

  function Attempts(outbox: map<string, Delivery>, id: string): nat {
    if id in outbox then outbox[id].attempts else 0
  }

  /** The answer awaiting its mark. */
  function Pending(s: World, id: string, accepted: bool): nat {
    if s.publisher.Answered? && s.publisher.id == id && s.publisher.accepted == accepted then 1 else 0
  }

  /**
   Every accepted post is an unstored publish mark, the stored one, or awaits its mark; every
   refused post is an unstored failure mark, a counted attempt, or awaits its mark.
   */
  ghost predicate Conserved(s: World, id: string) {
    && Count(s.accepted, id) == Count(s.lost, id) + Published(s.outbox, id) + Pending(s, id, true)
    && Count(s.refused, id) == Count(s.unmarked, id) + Attempts(s.outbox, id) + Pending(s, id, false)
  }

  /** All the event's marks so far were stored. */
  predicate AllStored(s: World, id: string) {
    Count(s.lost, id) == 0 && Count(s.unmarked, id) == 0
  }

  /** Not due before its backoff has passed, counted from its first post; never over five minutes away. */
  ghost predicate RowOk(s: World, id: string)
    requires id in s.outbox
  {
    var d := s.outbox[id];
    && d.nextAttempt <= s.now + Seconds(300)
    && (id in s.first && AllStored(s, id) ==>
          && s.first[id] <= s.now
          && (if s.publisher.Answered? && s.publisher.id == id
              then s.now >= s.first[id] + Seconds(BackoffSeconds(d.attempts))
              else d.published.Some? || d.nextAttempt >= s.first[id] + Seconds(BackoffSeconds(d.attempts))))
  }

  /** Nothing is counted for events the outbox does not hold, nor before their first post. */
  ghost predicate KnownOnly(s: World, id: string) {
    && (id !in s.outbox ==> id !in s.first)
    && (id !in s.first ==> Count(s.accepted, id) == 0 && Count(s.refused, id) == 0)
  }

  ghost predicate SoundFor(s: World, id: string) {
    Conserved(s, id) && KnownOnly(s, id) && (id in s.outbox ==> RowOk(s, id))
  }

  ghost predicate Sound(s: World) {
    InHand(s) && forall id :: SoundFor(s, id)
  }

  lemma StartSound(now: Time)
    ensures Sound(Start(now))
  {
  }

  lemma ConsParts(id: string, rest: seq<string>)
    requires Distinct([id] + rest)
    ensures Distinct(rest) && id !in rest
  {
    var all := [id] + rest;
    assert forall j :: 0 <= j < |rest| ==> all[j + 1] == rest[j];
    assert all[0] == id;
  }

  lemma PostInHand(s: World, ok: bool)
    requires InHand(s) && Enabled(s, Post(ok))
    ensures Held(s, s.publisher.rest[0]) && InHand(Apply(s, Post(ok)))
  {
    var rest := s.publisher.rest;
    assert rest == [rest[0]] + rest[1..];
    assert forall i :: i in rest[1..] ==> i in rest;
  }

  lemma PostSoundFor(s: World, ok: bool, id: string)
    requires SoundFor(s, id) && Enabled(s, Post(ok)) && Held(s, s.publisher.rest[0])
    ensures SoundFor(Apply(s, Post(ok)), id)
  {
  }

  lemma StoredConserves(s: World, message: string, id: string)
    requires Conserved(s, id) && KnownOnly(s, id) && Enabled(s, Mark(true, message)) && Held(s, s.publisher.id)
    ensures Conserved(Apply(s, Mark(true, message)), id) && KnownOnly(Apply(s, Mark(true, message)), id)
  {
  }

  lemma PublishedRowOk(s: World, message: string)
    requires Enabled(s, Mark(true, message)) && s.publisher.accepted && s.publisher.id in s.outbox &&
        RowOk(s, s.publisher.id)
    ensures RowOk(Apply(s, Mark(true, message)), s.publisher.id)
  {
  }

  lemma PostponedRowOk(s: World, message: string)
    requires Enabled(s, Mark(true, message)) && !s.publisher.accepted && s.publisher.id in s.outbox &&
        RowOk(s, s.publisher.id)
    ensures RowOk(Apply(s, Mark(true, message)), s.publisher.id)
  {
    var t, d := Apply(s, Mark(true, message)), s.outbox[s.publisher.id];
    DelayBounds(d.attempts);
    assert t.outbox[s.publisher.id] == Failure(d, s.now, message);
    assert t.first == s.first && t.now == s.now && !t.publisher.Answered?;
  }

  lemma StoredRowOk(s: World, message: string, id: string)
    requires Enabled(s, Mark(true, message)) && s.publisher.id in s.outbox && id in s.outbox && RowOk(s, id)
    ensures id in Stored(s, message).outbox && RowOk(Apply(s, Mark(true, message)), id)
  {
    if id == s.publisher.id {
      if s.publisher.accepted {
        PublishedRowOk(s, message);
      } else {
        PostponedRowOk(s, message);
      }
    } else {
      OtherRowOk(s, message, id);
    }
  }

  lemma OtherRowOk(s: World, message: string, id: string)
    requires Enabled(s, Mark(true, message)) && id != s.publisher.id && id in s.outbox && RowOk(s, id)
    ensures id in Stored(s, message).outbox && RowOk(Apply(s, Mark(true, message)), id)
  {
    assert Stored(s, message).outbox[id] == s.outbox[id];
  }

  lemma StoredSoundFor(s: World, message: string, id: string)
    requires SoundFor(s, id) && Enabled(s, Mark(true, message)) && Held(s, s.publisher.id)
    ensures SoundFor(Apply(s, Mark(true, message)), id)
  {
    StoredConserves(s, message, id);
    if id in s.outbox {
      StoredRowOk(s, message, id);
    }
  }

  lemma StoredInHand(s: World, message: string)
    requires InHand(s) && Enabled(s, Mark(true, message))
    ensures InHand(Apply(s, Mark(true, message)))
  {
    ConsParts(s.publisher.id, s.publisher.rest);
  }

  /** What an unstored mark or a restart leaves: the answer counted as unmarked, the page perhaps dropped. */
  function Forgotten(s: World, next: Publisher): World {
    (if s.publisher.Answered? then Unmarked(s) else s).(publisher := next)
  }

  lemma ForgottenConserves(s: World, next: Publisher, id: string)
    requires Conserved(s, id) && KnownOnly(s, id) && !next.Answered?
    ensures Conserved(Forgotten(s, next), id) && KnownOnly(Forgotten(s, next), id)
  {
  }

  lemma ForgottenSoundFor(s: World, next: Publisher, id: string)
    requires SoundFor(s, id) && !next.Answered?
    requires s.publisher.Answered? ==> Held(s, s.publisher.id)
    ensures SoundFor(Forgotten(s, next), id)
  {
    ForgottenConserves(s, next, id);
    assert AllStored(Forgotten(s, next), id) ==>
             AllStored(s, id) && !(s.publisher.Answered? && s.publisher.id == id);
  }

  lemma ForgottenSound(s: World, next: Publisher)
    requires Sound(s)
    requires next.Idle? || (s.publisher.Answered? && next == Resume(s.publisher.rest))
    ensures Sound(Forgotten(s, next))
  {
    if next.Sending? {
      ConsParts(s.publisher.id, s.publisher.rest);
    }
    forall id ensures SoundFor(Forgotten(s, next), id) {
      ForgottenSoundFor(s, next, id);
    }
  }

  lemma QuietSoundFor(s: World, a: Action, id: string)
    requires SoundFor(s, id) && Enabled(s, a) && (a.Tick? || a.Emit? || a.Fetch?)
    requires a.Emit? && s.publisher.Answered? ==> Held(s, s.publisher.id)
    ensures SoundFor(Apply(s, a), id)
  {
  }

  lemma QuietInHand(s: World, a: Action)
    requires InHand(s) && Enabled(s, a) && (a.Tick? || a.Emit? || a.Fetch?)
    ensures InHand(Apply(s, a))
  {
  }

  lemma StepSound(s: World, a: Action)
    requires Sound(s) && Enabled(s, a)
    ensures Sound(Apply(s, a))
  {
    match a {
      case Post(ok) =>
        PostInHand(s, ok);
        forall id ensures SoundFor(Apply(s, a), id) {
          PostSoundFor(s, ok, id);
        }
      case Mark(stored, message) =>
        if stored {
          StoredInHand(s, message);
          forall id ensures SoundFor(Apply(s, a), id) {
            StoredSoundFor(s, message, id);
          }
        } else {
          ForgottenSound(s, Resume(s.publisher.rest));
        }
      case Restart => ForgottenSound(s, Idle);
      case _ =>
        QuietInHand(s, a);
        forall id ensures SoundFor(Apply(s, a), id) {
          QuietSoundFor(s, a, id);
        }
    }
  }

  lemma {:induction false} RunSound(s: World, run: seq<Action>)
    requires Sound(s) && Valid(s, run)
    ensures Sound(Run(s, run))
    decreases |run|
  {
    if run != [] {
      StepSound(s, run[0]);
      RunSound(Apply(s, run[0]), run[1..]);
    }
  }

  // ---- Results ------------------------------------------------------------------------------

  /**
   Conservation: between items, each event's accepted posts number its unstored publish marks
   plus one if it is published, and its refused posts its unstored failure marks plus its
   attempts. An unpublished event is due within five minutes.
   */
  lemma DeliveryConserved(now: Time, run: seq<Action>, id: string)
    requires Valid(Start(now), run) && !Run(Start(now), run).publisher.Answered?
    ensures var s := Run(Start(now), run);
      && Count(s.accepted, id) == Count(s.lost, id) + Published(s.outbox, id)
      && Count(s.refused, id) == Count(s.unmarked, id) + Attempts(s.outbox, id)
      && (id in s.outbox && s.outbox[id].published.None? ==>
            forall t :: t >= s.now + Seconds(300) ==> Sendable(s.outbox[id], t))
  {
    StartSound(now);
    RunSound(Start(now), run);
    assert SoundFor(Run(Start(now), run), id);
  }

  /** A published event stays published and is not posted again; rows are never lost. */
  lemma NeverResent(now: Time, run: seq<Action>, a: Action, id: string)
    requires Valid(Start(now), run) && Enabled(Run(Start(now), run), a)
    requires var s := Run(Start(now), run); id in s.outbox
    ensures var s := Run(Start(now), run); var t := Apply(s, a);
      && id in t.outbox && t.outbox[id].event == s.outbox[id].event
      && (s.outbox[id].published.Some? ==> t.outbox[id].published.Some? && !(a.Post? && s.publisher.rest[0] == id))
  {
    StartSound(now);
    RunSound(Start(now), run);
    var s := Run(Start(now), run);
    KeepsPublished(s, a, id);
    if a.Post? {
      PostInHand(s, a.ok);
    }
  }

  lemma KeepsPublished(s: World, a: Action, id: string)
    requires Enabled(s, a) && id in s.outbox
    ensures var t := Apply(s, a);
      id in t.outbox && t.outbox[id].event == s.outbox[id].event
      && (s.outbox[id].published.Some? ==> t.outbox[id].published.Some?)
  {
    if a.Mark? {
      MarkKeeps(s, a.stored, a.message, id);
    }
  }

  lemma MarkKeeps(s: World, stored: bool, message: string, id: string)
    requires s.publisher.Answered? && id in s.outbox
    ensures var t := if stored then Stored(s, message) else Unmarked(s);
      id in t.outbox && t.outbox[id].event == s.outbox[id].event
      && (s.outbox[id].published.Some? ==> t.outbox[id].published.Some?)
  {
    if stored && id == s.publisher.id {
      assert Failure(s.outbox[id], s.now, message).published == s.outbox[id].published;
    }
  }

  /**
   While all its marks are stored, an event refused k times is not posted again before the
   summed backoff since its first post has passed.
   */
  lemma BackoffRespected(now: Time, run: seq<Action>, ok: bool, id: string)
    requires Valid(Start(now), run) && Enabled(Run(Start(now), run), Post(ok))
    requires var s := Run(Start(now), run); s.publisher.rest[0] == id && id in s.first && AllStored(s, id)
    ensures var s := Run(Start(now), run);
      s.now >= s.first[id] + Seconds(BackoffSeconds(Count(s.refused, id)))
  {
    StartSound(now);
    RunSound(Start(now), run);
    var s := Run(Start(now), run);
    PostInHand(s, ok);
    assert SoundFor(s, id);
  }
}
