/** The event worker's loops over its rows: the head-of-line relay in batches, and the consumer that persists,
    acknowledges or gives up (internal/eventbus/worker.go). */
module EventWorker {
  import opened Options
  import opened EventFlow

  /** What a publication did, and why a batch stopped. */
  datatype Stop = Empty | Deferred | BatchFull

  const BATCH := 256
  const GIVE_UP := 5

  datatype Settlement = Acked | Terminated | Redeliver

  /** How a persisting transaction ends; of an uncertain one the rows are written but the reply is lost. */
  datatype Fate = Committed | Failed | Uncertain

  ghost predicate Unique(outbox: map<EventId, Row>) {
    forall i, j {:trigger Tie(outbox, i, j)} :: Tie(outbox, i, j) ==> i == j
  }

  function Waiting(outbox: map<EventId, Row>): set<EventId> { set id | id in outbox && Undelivered(outbox, id) }

  lemma {:induction false} LowestExists(outbox: map<EventId, Row>, ids: set<EventId>)
    requires ids != {} && forall id :: id in ids ==> id in outbox
    ensures exists m :: m in ids && forall k :: k in ids ==> outbox[m].sequence <= outbox[k].sequence
  {
    var x :| x in ids;
    var rest := ids - {x};
    assert forall k :: k in ids && k != x ==> k in rest;
    if rest == {} {
      assert forall k :: k in ids ==> outbox[x].sequence <= outbox[k].sequence;
    } else {
      LowestExists(outbox, rest);
      var m :| m in rest && forall k :: k in rest ==> outbox[m].sequence <= outbox[k].sequence;
      var low := if outbox[x].sequence < outbox[m].sequence then x else m;
      assert low in ids && forall k :: k in ids ==> outbox[low].sequence <= outbox[k].sequence;
    }
  }

  /** As long as a row waits, one is at the head of the line. */
  lemma HeadExists(outbox: map<EventId, Row>)
    requires Waiting(outbox) != {}
    ensures exists id :: id in outbox && IsHead(outbox, id)
  {
    LowestExists(outbox, Waiting(outbox));
    var m :| m in Waiting(outbox) && forall k :: k in Waiting(outbox) ==> outbox[m].sequence <= outbox[k].sequence;
    assert IsHead(outbox, m);
  }

  class Bus {
    var outbox: map<EventId, Row>
    var stream: seq<Message>
    var inbox: set<EventId>
    var feed: seq<Entry>

    /** The rows the worker reads and writes, as part of the whole. */
    function State(): World
      reads this
    {
      World(outbox, map[], map[], 0, stream, 0, map[], inbox, feed, 0)
    }

    constructor ()
      ensures outbox == map[] && stream == [] && inbox == {} && feed == []
    {
      outbox, stream, inbox, feed := map[], [], {}, [];
    }

    /** Publish the head of the line; only a confirmed one is marked delivered. */
    method RelayOne(p: Publication) returns (head: Option<EventId>)
      modifies this`outbox, this`stream
      ensures head.None? <==> Waiting(old(outbox)) == {}
      ensures head.None? ==> State() == old(State())
      ensures head.Some? ==> IsHead(old(outbox), head.value) && State() == Published(old(State()), head.value, p)
    {
      if Waiting(outbox) == {} { return None; }
      HeadExists(outbox);
      var id :| id in outbox && IsHead(outbox, id);
      var m := Message(id, outbox[id].event, outbox[id].replay);
      if p.Unconfirmed? {
        if p.arrived { stream := Appended(stream, m, p.suppressed); }
        return Some(id);
      }
      stream := Appended(stream, m, p.suppressed);
      outbox := outbox[id := outbox[id].(delivered := true)];
      return Some(id);
    }

    /** A batch delivers the lowest waiting rows, in sequence order, and skips none: every row still waiting comes after
        all of them. It stops when nothing waits, when a publication is not confirmed, or when it is full. */
    method RelayBatch(outcomes: seq<Publication>) returns (relayed: seq<EventId>, stop: Stop)
      requires Unique(outbox) && |outcomes| >= BATCH
      modifies this`outbox, this`stream
      ensures outbox.Keys == old(outbox).Keys && OutboxKept(old(outbox), outbox)
      ensures forall i :: 0 <= i < |relayed| ==> Undelivered(old(outbox), relayed[i]) && relayed[i] in outbox && outbox[relayed[i]].delivered
      ensures forall i, j :: 0 <= i < j < |relayed| ==> relayed[i] in outbox && relayed[j] in outbox && outbox[relayed[i]].sequence < outbox[relayed[j]].sequence
      ensures forall i, id :: 0 <= i < |relayed| && id in outbox && Undelivered(outbox, id) && relayed[i] in outbox ==> outbox[relayed[i]].sequence < outbox[id].sequence
      ensures match stop
              case Empty => Waiting(outbox) == {}
              case Deferred => |relayed| < BATCH && outcomes[|relayed|].Unconfirmed? && Waiting(outbox) != {}
              case BatchFull => |relayed| == BATCH
    {
      relayed := [];
      while |relayed| < BATCH
        invariant |relayed| <= BATCH
        invariant outbox.Keys == old(outbox).Keys && OutboxKept(old(outbox), outbox)
        invariant forall id :: id in old(outbox) && old(outbox)[id].delivered ==> outbox[id].delivered
        invariant AllRelayed(old(outbox), outbox, relayed)
      {
        ghost var before := outbox;
        var p := outcomes[|relayed|];
        var head := RelayOne(p);
        if head.None? { return relayed, Empty; }
        if p.Unconfirmed? { return relayed, Deferred; }
        RelayedNext(old(outbox), before, outbox, relayed, head.value);
        relayed := relayed + [head.value];
      }
      return relayed, BatchFull;
    }

    /** One transaction under the feed lock. */
    method PersistMessage(m: Message, gap: nat) returns (ok: bool)
      modifies this`inbox, this`feed
      ensures ok <==> Genuine(old(outbox), m)
      ensures State() == Persisted(old(State()), m, gap)
    {
      if m.id !in outbox || outbox[m.id].event != m.event { return false; }
      if m.id !in inbox {
        inbox := inbox + {m.id};
        if !InFeed(feed, m.id) {
          feed := feed + [Entry(LastSequence(feed) + 1 + gap, m.id, outbox[m.id].project, outbox[m.id].event)];
        }
      }
      return true;
    }

    /** A message is persisted in one transaction and then acknowledged. Whatever goes wrong - the message is not
        genuine, the transaction fails or its outcome is unknown, the acknowledgement is not confirmed - it comes again,
        until a delivery from the fifth on is durably recorded as failed and given up. Nothing is acknowledged that is
        not in the inbox. */
    method ConsumeOne(m: Message, gap: nat, fate: Fate, confirmed: bool, deliveries: nat, recorded: bool) returns (r: Settlement)
      modifies this`inbox, this`feed
      ensures State() == if fate == Failed then old(State()) else Persisted(old(State()), m, gap)
      ensures r == Acked <==> Genuine(old(outbox), m) && fate == Committed && confirmed
      ensures r == Terminated <==> !(Genuine(old(outbox), m) && fate == Committed) && deliveries >= GIVE_UP && recorded
      ensures r == Acked ==> m.id in inbox
    {
      var ok := false;
      if fate != Failed { ok := PersistMessage(m, gap); }
      if ok && fate == Committed {
        if confirmed { return Acked; }
        return Redeliver;
      }
      if deliveries >= GIVE_UP && recorded { return Terminated; }
      return Redeliver;
    }
  }

  /** Relayed so far: waiting before, delivered now, ascending, and below everything that still waits. */
  ghost predicate AllRelayed(before: map<EventId, Row>, now: map<EventId, Row>, relayed: seq<EventId>) {
    && (forall i :: 0 <= i < |relayed| ==> Undelivered(before, relayed[i]) && relayed[i] in now && now[relayed[i]].delivered)
    && (forall i, j :: 0 <= i < j < |relayed| ==> now[relayed[i]].sequence < now[relayed[j]].sequence)
    && (forall i, id :: 0 <= i < |relayed| && id in now && Undelivered(now, id) ==> now[relayed[i]].sequence < now[id].sequence)
  }

  lemma RelayedNext(before: map<EventId, Row>, now: map<EventId, Row>, next: map<EventId, Row>, relayed: seq<EventId>, head: EventId)
    requires Unique(before) && now.Keys == before.Keys && OutboxKept(before, now) && AllRelayed(before, now, relayed)
    requires IsHead(now, head) && next == now[head := now[head].(delivered := true)]
    requires forall id :: id in before && before[id].delivered ==> id in now && now[id].delivered
    ensures AllRelayed(before, next, relayed + [head])
  {
    var more := relayed + [head];
    forall i, id | 0 <= i < |more| && id in next && Undelivered(next, id) ensures next[more[i]].sequence < next[id].sequence {
      assert id != head && Undelivered(now, id);
      if i == |relayed| { assert Tie(before, head, id) ==> head == id; }
    }
  }
}
