/** Nothing is lost between the outbox and the feed but what the consumer gave up on. */
module EventDelivery {
  import opened EventFlow

  /** A message of that id has been published. */
  ghost predicate Published(stream: seq<Message>, id: EventId) { exists p :: 0 <= p < |stream| && stream[p].id == id }

  /** Every row marked delivered has been published, and every message marked persisted is in the feed. */
  ghost predicate Kept(w: World) {
    && (forall id :: id in w.outbox && w.outbox[id].delivered ==> Published(w.stream, id))
    && (forall k :: k in w.held && w.held[k].persisted ==> w.held[k].position < |w.stream| && InFeed(w.feed, w.stream[w.held[k].position].id))
    && (forall k :: k in w.held ==> w.held[k].position < |w.stream|) && w.acked <= |w.stream|
  }

  /** The consumer gave up on this position of the stream before state `k`. */
  ghost predicate GivenUp(states: seq<World>, actions: seq<Action>, k: nat, p: nat)
    requires |states| == |actions| + 1 && k < |states|
  {
    exists j :: 0 <= j < k && actions[j].Terminate? && states[j].acked == p && states[j + 1].acked == p + 1
  }

  lemma PublishedStays(stream: seq<Message>, longer: seq<Message>, id: EventId)
    requires stream <= longer && Published(stream, id)
    ensures Published(longer, id)
  {
    var p :| 0 <= p < |stream| && stream[p].id == id;
    assert longer[p].id == id;
  }

  lemma AppendedHolds(stream: seq<Message>, m: Message, suppressed: bool)
    ensures var after := Appended(stream, m, suppressed); stream <= after && Published(after, m.id)
  {
    var after := Appended(stream, m, suppressed);
    if after == stream {
      var p :| 0 <= p < |stream| && stream[p].id == m.id && stream[p].replay == m.replay;
    } else {
      assert after[|stream|].id == m.id;
    }
  }

  lemma PublicationKeeps(w: World, head: EventId, p: Publication)
    requires Kept(w) && head in w.outbox
    ensures Kept(EventFlow.Published(w, head, p))
  {
    var v := EventFlow.Published(w, head, p);
    AppendedHolds(w.stream, MessageOf(w.outbox, head), p.suppressed);
    forall id | id in v.outbox && v.outbox[id].delivered ensures Published(v.stream, id) {
      if id != head { PublishedStays(w.stream, v.stream, id); } else if w.outbox[id].delivered { PublishedStays(w.stream, v.stream, id); }
    }
  }

  lemma InFeedStays(feed: seq<Entry>, longer: seq<Entry>, id: EventId)
    requires feed <= longer && InFeed(feed, id)
    ensures InFeed(longer, id)
  {
    var i :| 0 <= i < |feed| && feed[i].id == id;
    assert longer[i].id == id;
  }

  lemma PersistingKeeps(w: World, worker: nat, gap: nat)
    requires Kept(w) && FeedSound(w)
    ensures Kept(PersistedBy(w, worker, gap))
  {
    var v := PersistedBy(w, worker, gap);
    if v != w {
      var m := w.stream[w.held[worker].position];
      PersistSound(w, m, gap);
      assert w.feed <= v.feed;
      forall k | k in v.held && v.held[k].persisted ensures InFeed(v.feed, v.stream[v.held[k].position].id) {
        if k != worker { InFeedStays(w.feed, v.feed, w.stream[w.held[k].position].id); } else { assert m.id in Persisted(w, m, gap).inbox; }
      }
    }
  }

  lemma RelayKeeps(w: World, p: Publication)
    requires Kept(w)
    ensures Kept(Next(w, Relay(p)))
  {
    RelayedOrSame(w, p);
    if Next(w, Relay(p)) != w {
      var head :| IsHead(w.outbox, head) && Next(w, Relay(p)) == EventFlow.Published(w, head, p);
      PublicationKeeps(w, head, p);
    }
  }

  lemma OthersKeep(w: World, a: Action)
    requires Kept(w) && RowsSound(w) && !a.Relay? && !a.Persist?
    ensures Kept(Next(w, a))
  {
    var v := Next(w, a);
    forall id | id in v.outbox && v.outbox[id].delivered ensures Published(v.stream, id) {
      assert id in w.outbox && w.outbox[id].delivered;
      PublishedStays(w.stream, v.stream, id);
    }
  }

  lemma StepKeepsAll(w: World, a: Action)
    requires Kept(w) && Sound(w)
    ensures Kept(Next(w, a))
  {
    if a.Relay? { RelayKeeps(w, a.publication); } else if a.Persist? { PersistingKeeps(w, a.worker, a.gap); } else { OthersKeep(w, a); }
  }

  lemma KeptAfter(states: seq<World>, actions: seq<Action>, k: nat)
    requires IsRun(states, actions) && k < |actions| && Kept(states[k])
    ensures Kept(states[k + 1])
  {
    RunSound(states, actions, k);
    assert StepsAt(states, actions, k);
    StepKeepsAll(states[k], actions[k]);
  }

  lemma {:induction false} RunKept(states: seq<World>, actions: seq<Action>, k: nat)
    requires IsRun(states, actions) && k < |states|
    ensures Kept(states[k])
  {
    if k > 0 {
      RunKept(states, actions, k - 1);
      KeptAfter(states, actions, k - 1);
    }
  }

  /** The acknowledged position moves one at a time: past what is in the feed, or past what was given up on. */
  lemma AckedMoves(w: World, a: Action)
    requires Kept(w)
    ensures var v := Next(w, a);
            || v.acked == w.acked
            || (v.acked == w.acked + 1 && w.acked < |w.stream| && (a.Terminate? || (a.Ack? && InFeed(w.feed, w.stream[w.acked].id))))
  {
  }

  lemma StreamExtends(w: World, a: Action)
    ensures w.stream <= Next(w, a).stream
  {
    if a.Relay? { RelayedOrSame(w, a.publication); }
  }

  lemma AckedAt(states: seq<World>, actions: seq<Action>, k: nat)
    requires IsRun(states, actions) && k < |actions|
    ensures var w, v := states[k], states[k + 1];
            && w.stream <= v.stream && w.feed <= v.feed && w.acked <= |w.stream|
            && (v.acked == w.acked
                || (v.acked == w.acked + 1 && w.acked < |w.stream| && (actions[k].Terminate? || InFeed(w.feed, w.stream[w.acked].id))))
  {
    RunKept(states, actions, k);
    FeedGrowsAt(states, actions, k);
    assert StepsAt(states, actions, k);
    StreamExtends(states[k], actions[k]);
    AckedMoves(states[k], actions[k]);
  }

  lemma {:induction false} AckedIsInFeed(states: seq<World>, actions: seq<Action>, k: nat, p: nat)
    requires IsRun(states, actions) && k < |states| && p < states[k].acked
    ensures p < |states[k].stream| && (InFeed(states[k].feed, states[k].stream[p].id) || GivenUp(states, actions, k, p))
  {
    if k > 0 {
      AckedAt(states, actions, k - 1);
      RunKept(states, actions, k);
      var w, v := states[k - 1], states[k];
      if p < w.acked {
        AckedIsInFeed(states, actions, k - 1, p);
        if InFeed(w.feed, w.stream[p].id) { InFeedStays(w.feed, v.feed, w.stream[p].id); }
      } else if InFeed(w.feed, w.stream[p].id) {
        InFeedStays(w.feed, v.feed, w.stream[p].id);
      } else {
        assert actions[k - 1].Terminate? && states[k - 1].acked == p && states[k - 1 + 1].acked == p + 1;
      }
    }
  }

  /** Over every run - lost confirmations, duplicates, foreign messages, crashes at any point - a row marked delivered is in
      the stream, and what has been acknowledged of the stream is in the feed, unless the consumer gave up on it. */
  lemma NothingIsLost(states: seq<World>, actions: seq<Action>, k: nat, id: EventId)
    requires IsRun(states, actions) && k < |states| && id in states[k].outbox && states[k].outbox[id].delivered
    ensures var w := states[k];
            exists p: nat :: p < |w.stream| && w.stream[p].id == id && (p < w.acked ==> InFeed(w.feed, id) || GivenUp(states, actions, k, p))
  {
    RunKept(states, actions, k);
    var p: nat :| p < |states[k].stream| && states[k].stream[p].id == id;
    if p < states[k].acked { AckedIsInFeed(states, actions, k, p); }
  }

  /** So once everything is relayed and acknowledged and nothing was given up on, the feed holds exactly the committed
      events, each once. */
  lemma DrainedFeedIsComplete(states: seq<World>, actions: seq<Action>, k: nat)
    requires IsRun(states, actions) && k < |states|
    requires states[k].acked == |states[k].stream| && forall id :: id in states[k].outbox ==> states[k].outbox[id].delivered
    requires forall p: nat {:trigger GivenUp(states, actions, k, p)} :: !GivenUp(states, actions, k, p)
    ensures var w := states[k];
            (forall id :: id in w.outbox <==> id in Ids(w.feed)) && Distinct(Ids(w.feed)) && |w.feed| == |w.outbox|
  {
    var w := states[k];
    RunSound(states, actions, k);
    FeedIsCommitted(w);
    forall id ensures id in w.outbox <==> id in Ids(w.feed) {
      InFeedIsIds(w.feed, id);
      if id in w.outbox { NothingIsLost(states, actions, k, id); }
    }
    CountDistinct(Ids(w.feed), w.outbox.Keys);
  }

  lemma {:induction false} CountDistinct(ids: seq<EventId>, all: set<EventId>)
    requires Distinct(ids) && forall id :: id in all <==> id in ids
    ensures |ids| == |all|
  {
    if ids == [] {
      assert all == {};
    } else {
      var last, rest := ids[|ids| - 1], ids[..|ids| - 1];
      forall id ensures id in all - {last} <==> id in rest {
        if id in rest {
          var i :| 0 <= i < |rest| && rest[i] == id;
          assert ids[i] == id;
        }
      }
      CountDistinct(rest, all - {last});
    }
  }
}
