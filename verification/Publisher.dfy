/**
 The publisher (internal/adapters/publisher/publisher.go): one flush fetches a page, posts each
 event and marks it. It is proved against Flushed, and Flushed against the transition system
 of Deliveries, where other steps and lost marks may come in between.
 */
module Publishers {
  import opened Basics
  import opened Model
  import opened Tables
  import Deliveries
  import Stores

  /** The orchestrator's answer to each post: nothing, or the error message; and whether the mark after it is stored. */
  datatype Replies = Replies(errors: string -> Option<string>, stored: string -> bool)

  /** One event after its post: published now, backed off, or untouched when its mark was lost. */
  function Delivered(d: Delivery, now: Time, id: string, replies: Replies): Delivery {
    if !replies.stored(id) then d
    else if replies.errors(id).None? then d.(published := Some(now))
    else Failure(d, now, replies.errors(id).value)
  }

  /** The outbox after a flush: exactly the page's rows are marked, each once. */
  function Flushed(outbox: map<string, Delivery>, now: Time, page: seq<string>, replies: Replies)
    : map<string, Delivery>
  {
    map id | id in outbox :: if id in page then Delivered(outbox[id], now, id, replies) else outbox[id]
  }

  lemma FlushedOneMore(outbox: map<string, Delivery>, now: Time, page: seq<string>, id: string, replies: Replies)
    requires id in outbox && id !in page
    ensures Flushed(outbox, now, page, replies)[id] == outbox[id]
    ensures Flushed(outbox, now, page + [id], replies) ==
              Flushed(outbox, now, page, replies)[id := Delivered(outbox[id], now, id, replies)]
    ensures Flushed(outbox, now, [id] + page, replies) ==
              Flushed(outbox[id := Delivered(outbox[id], now, id, replies)], now, page, replies)
  {
  }

  lemma FlushedRows(outbox: map<string, Delivery>, now: Time, page: seq<string>, replies: Replies)
    ensures var t := Flushed(outbox, now, page, replies);
      t.Keys == outbox.Keys && forall id :: id in t ==>
        var d := outbox[id];
        t[id] == if id !in page || !replies.stored(id) then d
                 else if replies.errors(id) == None then d.(published := Some(now))
                 else Delivery(d.event, d.attempts + 1, now + PublishDelay(d.attempts), d.published,
                               Some(replies.errors(id).value), d.createdAt)
  {
  }

  class Publisher {
    const store: Stores.Store

    constructor (store: Stores.Store)
      ensures this.store == store
    {
      this.store := store;
    }

    /** The mark after one post. */
    method Mark(now: Time, id: string, replies: Replies)
      requires id in store.outbox
      modifies store
      ensures var d := Delivered(old(store.outbox)[id], now, id, replies);
        store.Contents() == old(store.Contents()).(outbox := old(store.outbox)[id := d])
    {
      var error := replies.errors(id);
      if replies.stored(id) {
        if error.Some? {
          store.MarkFailed(now, id, error.value);
        } else {
          store.MarkPublished(now, id);
        }
      }
      assert old(store.outbox) == old(store.outbox)[id := old(store.outbox)[id]];
    }

    method Flush(now: Time, replies: Replies) returns (page: seq<string>)
      modifies store
      ensures IsPage(old(store.outbox), now, BATCH, page)
      ensures store.Contents() == old(store.Contents()).(outbox := Flushed(old(store.outbox), now, page, replies))
      ensures store.outbox.Keys == old(store.outbox).Keys
      ensures forall id :: id in store.outbox ==>
                var d := old(store.outbox)[id];
                store.outbox[id] ==
                  if id !in page || !replies.stored(id) then d
                  else if replies.errors(id) == None then d.(published := Some(now))
                  else Delivery(d.event, d.attempts + 1, now + PublishDelay(d.attempts), d.published,
                                Some(replies.errors(id).value), d.createdAt)
    {
      page := store.PendingEvents(now, BATCH);
      FlushedRows(store.outbox, now, page, replies);
      PostAll(now, page, replies);
    }

    /** The loop over the fetched page. */
    method PostAll(now: Time, page: seq<string>, replies: Replies)
      requires Distinct(page) && forall id :: id in page ==> id in store.outbox
      modifies store
      ensures store.Contents() == old(store.Contents()).(outbox := Flushed(old(store.outbox), now, page, replies))
    {
      ghost var was := store.Contents();
      for i := 0 to |page|
        invariant store.Contents() == was.(outbox := Flushed(was.outbox, now, page[..i], replies))
      {
        var id := page[i];
        FlushedOneMore(was.outbox, now, page[..i], id, replies);
        assert page[..i + 1] == page[..i] + [id];
        Mark(now, id, replies);
      }
      assert page[..|page|] == page;
    }
  }

  // ---- Refinement ------------------------------------------------------------------------

  /** A flush as steps: post, then mark, for each event of the page. */
  function Steps(page: seq<string>, replies: Replies): seq<Deliveries.Action> {
    if page == [] then []
    else
      var error := replies.errors(page[0]);
      var message := if error.Some? then error.value else "";
      [Deliveries.Post(error.None?), Deliveries.Mark(replies.stored(page[0]), message)] + Steps(page[1..], replies)
  }

  /** Uninterrupted, the steps of a flush leave the outbox the flush leaves, and the publisher idle. */
  lemma {:induction false} FlushRefinesSteps(s: Deliveries.World, page: seq<string>, replies: Replies)
    requires s.publisher == Deliveries.Resume(page) && Distinct(page) && forall id :: id in page ==> id in s.outbox
    ensures Deliveries.Valid(s, Steps(page, replies))
    ensures var t := Deliveries.Run(s, Steps(page, replies));
      t.publisher.Idle? && t.now == s.now && t.outbox == Flushed(s.outbox, s.now, page, replies)
    decreases |page|
  {
    if page == [] {
      assert Flushed(s.outbox, s.now, page, replies) == s.outbox;
    } else {
      var run := Steps(page, replies);
      var id, rest := page[0], page[1..];
      assert page == [id] + rest;
      assert run[1..][1..] == Steps(rest, replies);
      var marked := PostAndMark(s, replies);
      FlushRefinesSteps(marked, rest, replies);
      FlushedOneMore(s.outbox, s.now, rest, id, replies);
    }
  }

  lemma PostAndMark(s: Deliveries.World, replies: Replies) returns (t: Deliveries.World)
    requires s.publisher.Sending? && s.publisher.rest != []
    requires s.publisher.rest[0] in s.outbox
    ensures var id := s.publisher.rest[0];
      var error := replies.errors(id);
      var post := Deliveries.Post(error.None?);
      var mark := Deliveries.Mark(replies.stored(id), if error.Some? then error.value else "");
      && Deliveries.Enabled(s, post) && Deliveries.Enabled(Deliveries.Apply(s, post), mark)
      && t == Deliveries.Apply(Deliveries.Apply(s, post), mark)
      && t.now == s.now && t.publisher == Deliveries.Resume(s.publisher.rest[1..])
      && t.outbox == s.outbox[id := Delivered(s.outbox[id], s.now, id, replies)]
  {
    var id := s.publisher.rest[0];
    var error := replies.errors(id);
    var answered := Deliveries.Apply(s, Deliveries.Post(error.None?));
    t := Deliveries.Apply(answered, Deliveries.Mark(replies.stored(id), if error.Some? then error.value else ""));
    assert s.outbox == s.outbox[id := s.outbox[id]];
  }
}
