/** From the outbox over the relay and the stream to the feed (internal/eventbus/worker.go, controlplane/events.go). */
module EventFlow {
  type EventId = nat
  type Project = nat
  type Payload = nat

  /** A committed or still uncommitted outbox row. Its sequence is drawn at insertion. */
  datatype Row = Row(project: Project, event: Payload, sequence: nat, delivered: bool, replay: nat)
  datatype Message = Message(id: EventId, event: Payload, replay: nat)
  datatype Entry = Entry(sequence: nat, id: EventId, project: Project, event: Payload)

  /** Who inserts a row: a transaction that holds the project's row lock, as every project write does, or one that
      does not: deactivating an account ends its Sessions in all projects under no project's lock. */
  datatype Writer = Writer(transaction: nat, locked: bool)

  /** A worker holds one position of the stream, and may have persisted its message already. */
  datatype Held = Held(position: nat, persisted: bool)

  /** `done` is history: how far into the stream messages have been persisted. */
  datatype World = World(outbox: map<EventId, Row>, inserting: map<EventId, Row>, owner: map<EventId, Writer>, nextSequence: nat,
                         stream: seq<Message>, acked: nat, held: map<nat, Held>,
                         inbox: set<EventId>, feed: seq<Entry>, done: nat)

  /** What becomes of one publication. The stream drops a message ID it already holds. */
  datatype Publication = Confirmed(suppressed: bool) | Unconfirmed(arrived: bool, suppressed: bool)

  datatype Action =
    | Insert(writer: Writer, id: EventId, project: Project, event: Payload)
    | Commit(transaction: nat)
    | Abort(transaction: nat)
    | Relay(publication: Publication)
    | Replay(id: EventId, project: Project)
    | Inject(message: Message)
    | Deliver(worker: nat)
    | Persist(worker: nat, gap: nat)
    | Ack(worker: nat)
    | Terminate(worker: nat)
    | Drop(worker: nat)

  // --- The relay ----------------------------------------------------------------

  predicate Undelivered(outbox: map<EventId, Row>, id: EventId) { id in outbox && !outbox[id].delivered }

  /** The head of the line: the undelivered row of lowest sequence. */
  predicate IsHead(outbox: map<EventId, Row>, id: EventId) {
    Undelivered(outbox, id) && forall k :: k in outbox && Undelivered(outbox, k) ==> outbox[id].sequence <= outbox[k].sequence
  }

  function MessageOf(outbox: map<EventId, Row>, id: EventId): Message
    requires id in outbox
  {
    Message(id, outbox[id].event, outbox[id].replay)
  }

  predicate Present(stream: seq<Message>, m: Message) { exists i :: 0 <= i < |stream| && stream[i].id == m.id && stream[i].replay == m.replay }

  function Appended(stream: seq<Message>, m: Message, suppressed: bool): seq<Message> {
    if suppressed && Present(stream, m) then stream else stream + [m]
  }

  function Published(w: World, head: EventId, p: Publication): World
    requires head in w.outbox
  {
    var m := MessageOf(w.outbox, head);
    match p
    case Confirmed(suppressed) =>
      w.(stream := Appended(w.stream, m, suppressed), outbox := w.outbox[head := w.outbox[head].(delivered := true)])
    case Unconfirmed(arrived, suppressed) => if arrived then w.(stream := Appended(w.stream, m, suppressed)) else w
  }

  // --- The consumer ---------------------------------------------------------------

  /** The message is a committed event, unaltered. */
  predicate Genuine(outbox: map<EventId, Row>, m: Message) { m.id in outbox && outbox[m.id].event == m.event }

  function LastSequence(feed: seq<Entry>): nat { if feed == [] then 0 else feed[|feed| - 1].sequence }

  predicate InFeed(feed: seq<Entry>, id: EventId) { exists i :: 0 <= i < |feed| && feed[i].id == id }

  /** One transaction under the feed lock: reject, or insert into inbox and feed unless already there. */
  function Persisted(w: World, m: Message, gap: nat): World {
    if !Genuine(w.outbox, m) || m.id in w.inbox then w
    else
      var entry := Entry(LastSequence(w.feed) + 1 + gap, m.id, w.outbox[m.id].project, w.outbox[m.id].event);
      w.(inbox := w.inbox + {m.id}, feed := if InFeed(w.feed, m.id) then w.feed else w.feed + [entry])
  }

  function PersistedBy(w: World, worker: nat, gap: nat): World {
    if worker !in w.held || w.held[worker].position >= |w.stream| then w
    else
      var p := w.held[worker].position;
      var m := w.stream[p];
      if !Genuine(w.outbox, m) then w
      else
        Persisted(w, m, gap).(held := w.held[worker := Held(p, true)], done := if p + 1 > w.done then p + 1 else w.done)
  }

  /** The rows one open transaction has inserted. */
  function Of(w: World, t: nat): set<EventId> { set id | id in w.inserting && id in w.owner && w.owner[id].transaction == t }

  function Chosen(rows: map<EventId, Row>, ids: set<EventId>): map<EventId, Row> { map id | id in rows && id in ids :: rows[id] }

  // --- Steps ------------------------------------------------------------------------

  ghost function Next(w: World, a: Action): World {
    match a
    case Insert(writer, id, project, event) =>
      w.(inserting := w.inserting[id := Row(project, event, w.nextSequence, false, 0)], owner := w.owner[id := writer], nextSequence := w.nextSequence + 1)
    case Commit(t) => w.(outbox := w.outbox + Chosen(w.inserting, Of(w, t)), inserting := w.inserting - Of(w, t))
    case Abort(t) => w.(inserting := w.inserting - Of(w, t))
    case Relay(p) => if exists id :: IsHead(w.outbox, id) then (var head :| IsHead(w.outbox, head); Published(w, head, p)) else w
    case Replay(id, project) =>
      if id in w.outbox && w.outbox[id].project == project
      then w.(outbox := w.outbox[id := w.outbox[id].(delivered := false, replay := w.outbox[id].replay + 1)]) else w
    case Inject(m) => w.(stream := w.stream + [m])
    case Deliver(worker) => if w.acked < |w.stream| then w.(held := w.held[worker := Held(w.acked, false)]) else w
    case Persist(worker, gap) => PersistedBy(w, worker, gap)
    case Ack(worker) =>
      if worker in w.held && w.held[worker].persisted
      then w.(acked := if w.held[worker].position == w.acked then w.acked + 1 else w.acked, held := w.held - {worker}) else w
    case Terminate(worker) =>
      if worker in w.held && w.held[worker].position == w.acked then w.(acked := w.acked + 1, held := w.held - {worker}) else w
    case Drop(worker) => w.(held := w.held - {worker})
  }

  /** An open transaction has written to the project under its lock. */
  predicate Holds(w: World, project: Project, t: nat) {
    exists id :: id in w.inserting && w.inserting[id].project == project && id in w.owner && w.owner[id] == Writer(t, true)
  }

  /** Event ids are drawn at random and never again; the project lock admits one open transaction at a time. */
  ghost predicate Possible(w: World, a: Action) {
    a.Insert? ==> && a.id !in w.outbox && a.id !in w.inserting
                  && (a.writer.locked ==> forall t :: Holds(w, a.project, t) ==> t == a.writer.transaction)
  }

  ghost predicate Fresh(w: World) {
    w.outbox == map[] && w.inserting == map[] && w.stream == [] && w.acked == 0 && w.held == map[] && w.inbox == {} && w.feed == [] && w.done == 0
  }

  ghost predicate StepsAt(states: seq<World>, actions: seq<Action>, k: nat)
    requires |states| == |actions| + 1 && k < |actions|
  {
    Possible(states[k], actions[k]) && states[k + 1] == Next(states[k], actions[k])
  }

  ghost predicate IsRun(states: seq<World>, actions: seq<Action>) {
    && |states| == |actions| + 1 && Fresh(states[0])
    && forall k: nat {:trigger StepsAt(states, actions, k)} :: k < |actions| ==> StepsAt(states, actions, k)
  }

  // --- At most once, and only what was committed ---------------------------------------

  /** The committed row behind an entry. */
  ghost predicate Backed(outbox: map<EventId, Row>, e: Entry) {
    e.id in outbox && outbox[e.id].project == e.project && outbox[e.id].event == e.event
  }

  ghost predicate FeedSound(w: World) {
    && (forall i :: 0 <= i < |w.feed| ==> Backed(w.outbox, w.feed[i]) && w.feed[i].id in w.inbox && w.feed[i].sequence > 0)
    && (forall id :: id in w.inbox ==> InFeed(w.feed, id))
    && (forall i, j :: 0 <= i < j < |w.feed| ==> w.feed[i].id != w.feed[j].id && w.feed[i].sequence < w.feed[j].sequence)
  }

  ghost function Rows(w: World): map<EventId, Row> { w.outbox + w.inserting }

  ghost predicate Tie(rows: map<EventId, Row>, i: EventId, j: EventId) { i in rows && j in rows && rows[i].sequence == rows[j].sequence }

  /** Every sequence has been drawn once. */
  ghost predicate Numbered(rows: map<EventId, Row>, nextSequence: nat) {
    && (forall id :: id in rows ==> rows[id].sequence < nextSequence)
    && (forall i, j {:trigger Tie(rows, i, j)} :: Tie(rows, i, j) ==> i == j)
  }

  /** Uncommitted rows are new and not marked. */
  ghost predicate RowsSound(w: World) {
    && w.outbox.Keys !! w.inserting.Keys && Numbered(Rows(w), w.nextSequence)
    && (forall id :: id in w.inserting ==> !w.inserting[id].delivered)
  }

  /** Committed rows are immutable but for their delivery marks. */
  ghost predicate OutboxKept(before: map<EventId, Row>, after: map<EventId, Row>) {
    forall id :: id in before ==> id in after && after[id] == before[id].(delivered := after[id].delivered, replay := after[id].replay)
  }

  predicate TouchesOutbox(a: Action) { a.Commit? || a.Relay? || a.Replay? }

  lemma OthersLeaveOutbox(w: World, a: Action)
    requires !TouchesOutbox(a)
    ensures Next(w, a).outbox == w.outbox
  {
  }

  lemma RelayedOrSame(w: World, p: Publication)
    ensures Next(w, Relay(p)) == w || exists head :: IsHead(w.outbox, head) && Next(w, Relay(p)) == Published(w, head, p)
  {
  }

  lemma StepKeepsOutbox(w: World, a: Action)
    requires w.outbox.Keys !! w.inserting.Keys
    ensures OutboxKept(w.outbox, Next(w, a).outbox)
  {
    if a.Relay? {
      RelayedOrSame(w, a.publication);
    } else if !TouchesOutbox(a) {
      OthersLeaveOutbox(w, a);
    }
  }

  lemma RowsFewer(rows: map<EventId, Row>, fewer: map<EventId, Row>, nextSequence: nat)
    requires Numbered(rows, nextSequence) && forall id :: id in fewer ==> id in rows && fewer[id].sequence == rows[id].sequence
    ensures Numbered(fewer, nextSequence)
  {
    forall i, j | Tie(fewer, i, j) ensures Tie(rows, i, j) {
    }
  }

  lemma RowInserted(rows: map<EventId, Row>, id: EventId, row: Row)
    requires Numbered(rows, row.sequence)
    ensures Numbered(rows[id := row], row.sequence + 1)
  {
    var later := rows[id := row];
    forall i, j | Tie(later, i, j) ensures i == j {
      if i != id && j != id { assert Tie(rows, i, j); }
    }
  }

  lemma RowsStaySound(w: World, a: Action)
    requires RowsSound(w) && Possible(w, a)
    ensures RowsSound(Next(w, a))
  {
    var v := Next(w, a);
    if a.Insert? {
      RowInserted(Rows(w), a.id, v.inserting[a.id]);
      assert Rows(v) == Rows(w)[a.id := v.inserting[a.id]];
    } else {
      RowsMove(w, a);
      RowsFewer(Rows(w), Rows(v), w.nextSequence);
    }
  }

  lemma CommitMovesRows(w: World, t: nat)
    requires RowsSound(w)
    ensures var v := Next(w, Commit(t));
            && v.outbox.Keys !! v.inserting.Keys && Rows(v) == Rows(w) && v.nextSequence == w.nextSequence
            && forall id :: id in v.inserting ==> id in w.inserting && v.inserting[id] == w.inserting[id]
  {
  }

  /** Rows only move from uncommitted to committed, or away. */
  ghost predicate RowsMoved(w: World, v: World) {
    && v.nextSequence == w.nextSequence && v.outbox.Keys !! v.inserting.Keys
    && (forall id :: id in Rows(v) ==> id in Rows(w) && Rows(v)[id].sequence == Rows(w)[id].sequence)
    && (forall id :: id in v.inserting ==> id in w.inserting && v.inserting[id] == w.inserting[id])
  }

  lemma MarkMovesRows(w: World, stream: seq<Message>, id: EventId, row: Row)
    requires RowsSound(w) && id in w.outbox && row.sequence == w.outbox[id].sequence
    ensures RowsMoved(w, w.(stream := stream, outbox := w.outbox[id := row]))
  {
  }

  lemma UnmarkedMovesRows(w: World, stream: seq<Message>)
    requires RowsSound(w)
    ensures RowsMoved(w, w.(stream := stream))
  {
  }

  lemma PublicationMovesRows(w: World, head: EventId, p: Publication)
    requires RowsSound(w) && head in w.outbox
    ensures RowsMoved(w, Published(w, head, p))
  {
    var v := Published(w, head, p);
    if p.Confirmed? { MarkMovesRows(w, v.stream, head, w.outbox[head].(delivered := true)); } else { UnmarkedMovesRows(w, v.stream); }
  }

  lemma RelayMovesRows(w: World, p: Publication)
    requires RowsSound(w)
    ensures RowsMoved(w, Next(w, Relay(p)))
  {
    RelayedOrSame(w, p);
    UnmarkedMovesRows(w, w.stream);
    if Next(w, Relay(p)) != w {
      var head :| IsHead(w.outbox, head) && Next(w, Relay(p)) == Published(w, head, p);
      PublicationMovesRows(w, head, p);
    }
  }

  lemma ReplayMovesRows(w: World, id: EventId, project: Project)
    requires RowsSound(w)
    ensures RowsMoved(w, Next(w, Replay(id, project)))
  {
    UnmarkedMovesRows(w, w.stream);
    if id in w.outbox { MarkMovesRows(w, w.stream, id, w.outbox[id].(delivered := false, replay := w.outbox[id].replay + 1)); }
  }

  lemma RowsMove(w: World, a: Action)
    requires RowsSound(w) && !a.Insert?
    ensures RowsMoved(w, Next(w, a))
  {
    if a.Relay? {
      RelayMovesRows(w, a.publication);
    } else if a.Replay? {
      ReplayMovesRows(w, a.id, a.project);
    } else if a.Commit? {
      CommitMovesRows(w, a.transaction);
    } else {
      OthersLeaveOutbox(w, a);
    }
  }

  ghost predicate Sound(w: World) { RowsSound(w) && FeedSound(w) }

  lemma PersistSound(w: World, m: Message, gap: nat)
    requires FeedSound(w)
    ensures FeedSound(Persisted(w, m, gap))
  {
    var v := Persisted(w, m, gap);
    if Genuine(w.outbox, m) && m.id !in w.inbox {
      assert !InFeed(w.feed, m.id);
      forall id | id in v.inbox ensures InFeed(v.feed, id) {
        if id == m.id {
          assert v.feed[|w.feed|].id == id;
        } else {
          assert InFeed(w.feed, id);
          var i :| 0 <= i < |w.feed| && w.feed[i].id == id;
          assert v.feed[i].id == id;
        }
      }
    }
  }

  lemma StepSound(w: World, a: Action)
    requires Sound(w) && Possible(w, a)
    ensures Sound(Next(w, a))
  {
    StepKeepsOutbox(w, a);
    RowsStaySound(w, a);
    if a.Persist? && a.worker in w.held && w.held[a.worker].position < |w.stream| {
      PersistSound(w, w.stream[w.held[a.worker].position], a.gap);
    } else {
      FeedUntouched(w, a);
    }
  }

  lemma FeedUntouched(w: World, a: Action)
    requires !(a.Persist? && a.worker in w.held && w.held[a.worker].position < |w.stream|)
    ensures Next(w, a).feed == w.feed && Next(w, a).inbox == w.inbox
  {
  }

  lemma SoundAt(states: seq<World>, actions: seq<Action>, k: nat)
    requires IsRun(states, actions) && k < |actions| && Sound(states[k])
    ensures Sound(states[k + 1])
  {
    assert StepsAt(states, actions, k);
    StepSound(states[k], actions[k]);
  }

  lemma {:induction false} RunSound(states: seq<World>, actions: seq<Action>, k: nat)
    requires IsRun(states, actions) && k < |states|
    ensures Sound(states[k])
  {
    if k > 0 {
      RunSound(states, actions, k - 1);
      SoundAt(states, actions, k - 1);
    }
  }

  /** In every state of every run - lost confirmations, duplicates, foreign messages, crashes between persisting and
      acknowledging, replays and terminated messages - the feed holds each event at most once, in ascending
      sequence, and each entry is its committed outbox row. */
  lemma FeedHoldsCommittedOnce(states: seq<World>, actions: seq<Action>, k: nat)
    requires IsRun(states, actions) && k < |states|
    ensures var w := states[k];
            && (forall i :: 0 <= i < |w.feed| ==> Backed(w.outbox, w.feed[i]))
            && (forall i, j :: 0 <= i < j < |w.feed| ==> w.feed[i].id != w.feed[j].id && w.feed[i].sequence < w.feed[j].sequence)
  {
    RunSound(states, actions, k);
  }

  lemma FeedGrowsAt(states: seq<World>, actions: seq<Action>, k: nat)
    requires IsRun(states, actions) && k < |actions|
    ensures states[k].feed <= states[k + 1].feed
  {
    assert StepsAt(states, actions, k);
    var w, a := states[k], actions[k];
    if !(a.Persist? && a.worker in w.held && w.held[a.worker].position < |w.stream|) { FeedUntouched(w, a); }
  }

  /** The feed only grows. */
  lemma {:induction false} FeedGrows(states: seq<World>, actions: seq<Action>, j: nat, k: nat)
    requires IsRun(states, actions) && j <= k < |states|
    ensures states[j].feed <= states[k].feed
    decreases k
  {
    if j < k {
      FeedGrows(states, actions, j, k - 1);
      FeedGrowsAt(states, actions, k - 1);
    }
  }

  // --- Order ------------------------------------------------------------------------------

  /** The ids of the messages by first occurrence. */
  ghost function FirstSeen(stream: seq<Message>): seq<EventId> {
    if stream == [] then []
    else
      var front, id := FirstSeen(stream[..|stream| - 1]), stream[|stream| - 1].id;
      if id in front then front else front + [id]
  }

  ghost function Ids(feed: seq<Entry>): seq<EventId> { seq(|feed|, i requires 0 <= i < |feed| => feed[i].id) }

  /** What a statement about order is about: all events, or those of one project. */
  datatype Scope = Everything | Only(project: Project)

  predicate InScope(s: Scope, row: Row) { s.Everything? || row.project == s.project }

  /** As far as the scope goes, the list is a prefix of the outbox in sequence order: ascending, and no row left out
      below its end. */
  ghost predicate PrefixOfOutbox(s: Scope, outbox: map<EventId, Row>, ids: seq<EventId>) {
    && (forall i :: 0 <= i < |ids| ==> ids[i] in outbox)
    && (forall i, j :: 0 <= i < j < |ids| && InScope(s, outbox[ids[i]]) && InScope(s, outbox[ids[j]])
                       ==> outbox[ids[i]].sequence < outbox[ids[j]].sequence)
    && (forall i, id :: 0 <= i < |ids| && InScope(s, outbox[ids[i]]) && id in outbox && id !in ids && InScope(s, outbox[id])
                        ==> outbox[ids[i]].sequence < outbox[id].sequence)
  }

  /** Two committed rows in sequence order. */
  ghost predicate Ordered(s: Scope, outbox: map<EventId, Row>, x: EventId, y: EventId) {
    && x in outbox && y in outbox && InScope(s, outbox[x]) && InScope(s, outbox[y])
    && outbox[x].sequence < outbox[y].sequence
  }

  /** Wherever `y` has been reached, `x` has. */
  ghost predicate Ahead(ids: seq<EventId>, x: EventId, y: EventId) {
    forall n :: 0 <= n <= |ids| && y in ids[..n] ==> x in ids[..n]
  }

  ghost predicate Distinct(ids: seq<EventId>) { forall i, j :: 0 <= i < j < |ids| ==> ids[i] != ids[j] }

  /** Only committed events have been published, and every delivered row has been. */
  ghost predicate RelaySound(w: World) {
    && (forall i :: 0 <= i < |w.stream| ==> Genuine(w.outbox, w.stream[i]))
    && (forall id :: id in w.outbox && w.outbox[id].delivered ==> id in FirstSeen(w.stream))
  }

  /** The feed is what has been consumed of the stream, one message at most ahead of the acknowledgements. */
  ghost predicate FeedFollows(w: World) {
    && w.acked <= w.done <= |w.stream| && w.done <= w.acked + 1
    && Ids(w.feed) == FirstSeen(w.stream[..w.done])
    && (forall k :: k in w.held ==> w.held[k].position <= w.acked && w.held[k].position < |w.stream|
                                    && (w.held[k].persisted ==> w.held[k].position < w.done))
  }

  lemma FirstSeenNext(stream: seq<Message>, m: Message)
    ensures FirstSeen(stream + [m]) == if m.id in FirstSeen(stream) then FirstSeen(stream) else FirstSeen(stream) + [m.id]
  {
    assert (stream + [m])[..|stream|] == stream;
  }

  lemma {:induction false} FirstSeenHolds(stream: seq<Message>, i: nat)
    requires i < |stream|
    ensures stream[i].id in FirstSeen(stream)
  {
    if i < |stream| - 1 { FirstSeenHolds(stream[..|stream| - 1], i); }
  }

  /** What is seen of the beginning is the beginning of what is seen. */
  lemma {:induction false} FirstSeenGrows(stream: seq<Message>, n: nat)
    requires n <= |stream|
    ensures FirstSeen(stream[..n]) <= FirstSeen(stream)
  {
    if n < |stream| {
      FirstSeenGrows(stream[..|stream| - 1], n);
      assert stream[..|stream| - 1][..n] == stream[..n];
    } else {
      assert stream[..n] == stream;
    }
  }

  lemma HeadIsLowest(w: World, head: EventId, id: EventId)
    requires RowsSound(w) && IsHead(w.outbox, head) && Undelivered(w.outbox, id) && id != head
    ensures w.outbox[head].sequence < w.outbox[id].sequence
  {
    assert Tie(Rows(w), head, id) ==> head == id;
    assert Rows(w)[id] == w.outbox[id] by { assert id !in w.inserting; }
    assert Rows(w)[head] == w.outbox[head] by { assert head !in w.inserting; }
  }

  lemma SuppressedIsSeen(stream: seq<Message>, m: Message)
    requires Present(stream, m)
    ensures m.id in FirstSeen(stream)
  {
    var i :| 0 <= i < |stream| && stream[i].id == m.id;
    FirstSeenHolds(stream, i);
  }

  lemma PublishedSound(w: World, head: EventId, p: Publication)
    requires RelaySound(w) && head in w.outbox
    ensures RelaySound(Published(w, head, p))
  {
    var m, v := MessageOf(w.outbox, head), Published(w, head, p);
    FirstSeenNext(w.stream, m);
    if p.Confirmed? && v.stream == w.stream { SuppressedIsSeen(w.stream, m); }
  }

  lemma PublishedFollows(w: World, head: EventId, p: Publication)
    requires FeedFollows(w) && head in w.outbox
    ensures FeedFollows(Published(w, head, p))
  {
    var v := Published(w, head, p);
    assert v.stream[..w.done] == w.stream[..w.done];
  }

  // --- What every step but a foreign message and a given-up one keeps ------------------------------

  lemma FollowsLongerStream(w: World, v: World)
    requires FeedFollows(w) && v.feed == w.feed && v.acked == w.acked && v.done == w.done && w.stream <= v.stream
    requires forall k :: k in v.held ==> k in w.held && v.held[k] == w.held[k]
    ensures FeedFollows(v)
  {
    assert v.stream[..w.done] == w.stream[..w.done];
  }

  lemma RelayStep(w: World, p: Publication)
    requires RelaySound(w) && FeedFollows(w)
    ensures RelaySound(Next(w, Relay(p))) && FeedFollows(Next(w, Relay(p)))
  {
    RelayedOrSame(w, p);
    if Next(w, Relay(p)) != w {
      var head :| IsHead(w.outbox, head) && Next(w, Relay(p)) == Published(w, head, p);
      PublishedSound(w, head, p);
      FollowsLongerStream(w, Published(w, head, p));
    }
  }

  lemma PersistAppends(w: World, p: nat)
    requires FeedFollows(w) && p < |w.stream| && p <= w.done
    ensures var seen := FirstSeen(w.stream[..if p + 1 > w.done then p + 1 else w.done]);
            seen == if w.stream[p].id in Ids(w.feed) then Ids(w.feed) else Ids(w.feed) + [w.stream[p].id]
  {
    if p == w.done {
      assert w.stream[..p + 1] == w.stream[..p] + [w.stream[p]];
      FirstSeenNext(w.stream[..p], w.stream[p]);
    } else {
      assert w.stream[..w.done][p] == w.stream[p];
      FirstSeenHolds(w.stream[..w.done], p);
    }
  }

  lemma InFeedIsIds(feed: seq<Entry>, id: EventId)
    ensures InFeed(feed, id) <==> id in Ids(feed)
  {
    if InFeed(feed, id) {
      var i :| 0 <= i < |feed| && feed[i].id == id;
      assert Ids(feed)[i] == id;
    }
  }

  lemma PersistStep(w: World, worker: nat, gap: nat)
    requires RelaySound(w) && FeedFollows(w) && FeedSound(w)
    ensures FeedFollows(PersistedBy(w, worker, gap))
  {
    if worker in w.held {
      var p := w.held[worker].position;
      var m, v := w.stream[p], PersistedBy(w, worker, gap);
      assert Genuine(w.outbox, m);
      InFeedIsIds(w.feed, m.id);
      PersistAppends(w, p);
      assert m.id in w.inbox <==> InFeed(w.feed, m.id) by { InboxIsFeed(w, m.id); }
      if m.id !in w.inbox { assert Ids(v.feed) == Ids(w.feed) + [m.id]; }
    }
  }

  lemma InboxIsFeed(w: World, id: EventId)
    requires FeedSound(w)
    ensures id in w.inbox <==> InFeed(w.feed, id)
  {
  }

  lemma ConsumerStep(w: World, a: Action)
    requires FeedFollows(w) && (a.Deliver? || a.Ack? || a.Drop?)
    ensures FeedFollows(Next(w, a))
  {
  }

  lemma RestSound(w: World, a: Action)
    requires RelaySound(w) && RowsSound(w) && !a.Relay? && !a.Inject?
    ensures RelaySound(Next(w, a))
  {
    StepKeepsOutbox(w, a);
  }

  ghost predicate Faithful(w: World) { RelaySound(w) && FeedFollows(w) }

  /** A message the relay did not publish, or one the consumer gave up on. */
  predicate Fault(a: Action) { a.Inject? || a.Terminate? }

  lemma StepFaithful(w: World, a: Action)
    requires Faithful(w) && Sound(w) && !Fault(a)
    ensures Faithful(Next(w, a))
  {
    if a.Relay? {
      RelayStep(w, a.publication);
    } else {
      RestSound(w, a);
      if a.Persist? {
        PersistStep(w, a.worker, a.gap);
      } else if a.Deliver? || a.Ack? || a.Drop? {
        ConsumerStep(w, a);
      } else {
        FollowsLongerStream(w, Next(w, a));
      }
    }
  }

  ghost predicate NoFault(actions: seq<Action>, k: nat) { forall j :: 0 <= j < k && j < |actions| ==> !Fault(actions[j]) }

  lemma FaithfulAt(states: seq<World>, actions: seq<Action>, k: nat)
    requires IsRun(states, actions) && k < |actions| && Faithful(states[k]) && !Fault(actions[k])
    ensures Faithful(states[k + 1])
  {
    RunSound(states, actions, k);
    assert StepsAt(states, actions, k);
    StepFaithful(states[k], actions[k]);
  }

  lemma {:induction false} RunFaithful(states: seq<World>, actions: seq<Action>, k: nat)
    requires IsRun(states, actions) && k < |states| && NoFault(actions, k)
    ensures Faithful(states[k])
  {
    if k > 0 {
      RunFaithful(states, actions, k - 1);
      FaithfulAt(states, actions, k - 1);
    }
  }

  // --- Which of two rows comes first ------------------------------------------------------------------

  lemma AheadAppended(ids: seq<EventId>, x: EventId, y: EventId, id: EventId)
    requires Ahead(ids, x, y) && (id == y ==> x in ids)
    ensures Ahead(ids + [id], x, y)
  {
    var more := ids + [id];
    forall n | 0 <= n <= |more| && y in more[..n] ensures x in more[..n] {
      if n <= |ids| {
        assert more[..n] == ids[..n];
      } else {
        assert more[..n] == more && ids[..|ids|] == ids;
        assert y in ids || id == y;
      }
    }
  }

  lemma AheadOfAbsent(ids: seq<EventId>, x: EventId, y: EventId)
    requires y !in ids
    ensures Ahead(ids, x, y)
  {
  }

  lemma AheadInPrefix(ids: seq<EventId>, fewer: seq<EventId>, x: EventId, y: EventId)
    requires Ahead(ids, x, y) && fewer <= ids
    ensures Ahead(fewer, x, y)
  {
    forall n | 0 <= n <= |fewer| && y in fewer[..n] ensures x in fewer[..n] {
      assert fewer[..n] == ids[..n];
    }
  }

  lemma {:induction false} SeenWasSent(stream: seq<Message>, id: EventId) returns (i: nat)
    requires id in FirstSeen(stream)
    ensures i < |stream| && stream[i].id == id
  {
    if stream[|stream| - 1].id == id { return |stream| - 1; }
    i := SeenWasSent(stream[..|stream| - 1], id);
  }

  lemma SeenIsCommitted(w: World, id: EventId)
    requires RelaySound(w) && id in FirstSeen(w.stream)
    ensures id in w.outbox
  {
    var i := SeenWasSent(w.stream, id);
    assert Genuine(w.outbox, w.stream[i]);
  }

  /** The step commits `x` when `y` has already been published. */
  ghost predicate Overtakes(w: World, a: Action, x: EventId, y: EventId) {
    a.Commit? && x in Of(w, a.transaction) && y in FirstSeen(w.stream)
  }

  lemma RelayKeepsAhead(w: World, p: Publication, x: EventId, y: EventId)
    requires RelaySound(w) && RowsSound(w) && Ordered(Everything, w.outbox, x, y) && Ahead(FirstSeen(w.stream), x, y)
    ensures Ahead(FirstSeen(Next(w, Relay(p)).stream), x, y)
  {
    RelayedOrSame(w, p);
    var v := Next(w, Relay(p));
    if v.stream != w.stream {
      var head :| IsHead(w.outbox, head) && v == Published(w, head, p);
      FirstSeenNext(w.stream, MessageOf(w.outbox, head));
      if head == y && x !in FirstSeen(w.stream) { HeadIsLowest(w, y, x); }
      if head !in FirstSeen(w.stream) { AheadAppended(FirstSeen(w.stream), x, y, head); }
    }
  }

  lemma OthersLeaveStream(w: World, a: Action)
    requires !a.Relay? && !a.Inject?
    ensures Next(w, a).stream == w.stream
    ensures !a.Commit? ==> Next(w, a).outbox.Keys == w.outbox.Keys
  {
  }

  lemma StepKeepsAhead(w: World, a: Action, x: EventId, y: EventId)
    requires RelaySound(w) && RowsSound(w) && !Fault(a) && Ordered(Everything, Next(w, a).outbox, x, y) && !Overtakes(w, a, x, y)
    requires Ordered(Everything, w.outbox, x, y) ==> Ahead(FirstSeen(w.stream), x, y)
    ensures Ahead(FirstSeen(Next(w, a).stream), x, y)
  {
    StepKeepsOutbox(w, a);
    if a.Relay? {
      RelayedOrSame(w, a.publication);
      RelayKeepsAhead(w, a.publication, x, y);
    } else {
      OthersLeaveStream(w, a);
      if x !in w.outbox || y !in w.outbox {
        if y in FirstSeen(w.stream) { SeenIsCommitted(w, y); }
        AheadOfAbsent(FirstSeen(w.stream), x, y);
      }
    }
  }

  ghost predicate NotOvertaken(states: seq<World>, actions: seq<Action>, k: nat, x: EventId, y: EventId)
    requires |states| == |actions| + 1
  {
    forall j :: 0 <= j < k && j < |actions| ==> !Overtakes(states[j], actions[j], x, y)
  }

  lemma AheadAt(states: seq<World>, actions: seq<Action>, k: nat, x: EventId, y: EventId)
    requires IsRun(states, actions) && k < |actions| && NoFault(actions, k + 1) && !Overtakes(states[k], actions[k], x, y)
    requires Ordered(Everything, states[k].outbox, x, y) ==> Ahead(FirstSeen(states[k].stream), x, y)
    requires Ordered(Everything, states[k + 1].outbox, x, y)
    ensures Ahead(FirstSeen(states[k + 1].stream), x, y)
  {
    RunSound(states, actions, k);
    RunFaithful(states, actions, k);
    assert StepsAt(states, actions, k);
    StepKeepsAhead(states[k], actions[k], x, y);
  }

  /** Unless it commits after the other was published, the row of lower sequence is published first. */
  lemma {:induction false} LowerFirst(states: seq<World>, actions: seq<Action>, k: nat, x: EventId, y: EventId)
    requires IsRun(states, actions) && k < |states| && NoFault(actions, k) && NotOvertaken(states, actions, k, x, y)
    requires Ordered(Everything, states[k].outbox, x, y)
    ensures Ahead(FirstSeen(states[k].stream), x, y)
  {
    if k > 0 {
      if Ordered(Everything, states[k - 1].outbox, x, y) { LowerFirst(states, actions, k - 1, x, y); }
      AheadAt(states, actions, k - 1, x, y);
    }
  }

  // --- Exactly when the feed is a prefix of the outbox -----------------------------------------------

  /** A list of committed rows is a prefix of the outbox exactly when the lower of two rows is always ahead. */
  lemma PrefixIffAhead(s: Scope, outbox: map<EventId, Row>, ids: seq<EventId>)
    requires Distinct(ids) && (forall i :: 0 <= i < |ids| ==> ids[i] in outbox)
    requires forall i, j {:trigger Tie(outbox, i, j)} :: Tie(outbox, i, j) ==> i == j
    ensures PrefixOfOutbox(s, outbox, ids) <==> forall x, y {:trigger Ordered(s, outbox, x, y)} :: Ordered(s, outbox, x, y) ==> Ahead(ids, x, y)
  {
    if PrefixOfOutbox(s, outbox, ids) {
      forall x, y | Ordered(s, outbox, x, y) ensures Ahead(ids, x, y) { PrefixIsAhead(s, outbox, ids, x, y); }
    } else {
      var x, y := Misplaced(s, outbox, ids);
      assert Ordered(s, outbox, x, y) && !Ahead(ids, x, y);
    }
  }

  lemma PrefixIsAhead(s: Scope, outbox: map<EventId, Row>, ids: seq<EventId>, x: EventId, y: EventId)
    requires PrefixOfOutbox(s, outbox, ids) && Ordered(s, outbox, x, y)
    ensures Ahead(ids, x, y)
  {
    forall n | 0 <= n <= |ids| && y in ids[..n] ensures x in ids[..n] {
      var j :| 0 <= j < n && ids[j] == y;
      assert x in ids;
      var i :| 0 <= i < |ids| && ids[i] == x;
      assert i < j;
      assert ids[..n][i] == x;
    }
  }

  /** A list that is not a prefix has two rows the wrong way round. */
  lemma Misplaced(s: Scope, outbox: map<EventId, Row>, ids: seq<EventId>) returns (x: EventId, y: EventId)
    requires Distinct(ids) && (forall i :: 0 <= i < |ids| ==> ids[i] in outbox) && !PrefixOfOutbox(s, outbox, ids)
    requires forall i, j {:trigger Tie(outbox, i, j)} :: Tie(outbox, i, j) ==> i == j
    ensures Ordered(s, outbox, x, y) && !Ahead(ids, x, y)
  {
    if i, j :| 0 <= i < j < |ids| && InScope(s, outbox[ids[i]]) && InScope(s, outbox[ids[j]]) && outbox[ids[i]].sequence >= outbox[ids[j]].sequence {
      x, y := ids[j], ids[i];
      assert !Tie(outbox, ids[i], ids[j]);
      assert ids[..i + 1][i] == y && x !in ids[..i + 1];
    } else {
      var i, id :| 0 <= i < |ids| && InScope(s, outbox[ids[i]]) && id in outbox && id !in ids && InScope(s, outbox[id])
                   && outbox[ids[i]].sequence >= outbox[id].sequence;
      x, y := id, ids[i];
      assert !Tie(outbox, ids[i], id);
      assert ids[..i + 1][i] == y && x !in ids[..i + 1];
    }
  }

  lemma StreamGrowsAt(states: seq<World>, actions: seq<Action>, k: nat)
    requires IsRun(states, actions) && k < |actions|
    ensures states[k].stream <= states[k + 1].stream
  {
    assert StepsAt(states, actions, k);
    if actions[k].Relay? {
      RelayedOrSame(states[k], actions[k].publication);
    } else if !actions[k].Inject? {
      OthersLeaveStream(states[k], actions[k]);
    }
  }

  lemma {:induction false} StreamGrows(states: seq<World>, actions: seq<Action>, j: nat, k: nat)
    requires IsRun(states, actions) && j <= k < |states|
    ensures states[j].stream <= states[k].stream
    decreases k
  {
    if j < k {
      StreamGrows(states, actions, j, k - 1);
      StreamGrowsAt(states, actions, k - 1);
    }
  }

  lemma OvertakenIsBehind(seen: seq<EventId>, feed: seq<EventId>, all: seq<EventId>, x: EventId, y: EventId)
    requires seen <= all && feed <= all && y in seen && y in feed && x !in seen
    ensures !Ahead(feed, x, y)
  {
    var n := if |seen| <= |feed| then |seen| else |feed|;
    assert feed[..n] == seen[..n];
    if n == |seen| { assert seen[..n] == seen; } else { assert feed[..n] == feed; }
  }

  /** A row that committed after the other was published stays behind it. */
  lemma OvertakenStaysBehind(states: seq<World>, actions: seq<Action>, j: nat, k: nat, x: EventId, y: EventId)
    requires IsRun(states, actions) && j < k < |states| && NoFault(actions, k)
    requires Overtakes(states[j], actions[j], x, y) && y in Ids(states[k].feed)
    ensures !Ahead(Ids(states[k].feed), x, y)
  {
    RunSound(states, actions, j);
    RunFaithful(states, actions, j);
    RunFaithful(states, actions, k);
    StreamGrows(states, actions, j, k);
    var w, v := states[j], states[k];
    assert v.stream[..|w.stream|] == w.stream;
    FirstSeenGrows(v.stream, |w.stream|);
    FirstSeenGrows(v.stream, v.done);
    if x in FirstSeen(w.stream) { SeenIsCommitted(w, x); }
    OvertakenIsBehind(FirstSeen(w.stream), Ids(v.feed), FirstSeen(v.stream), x, y);
  }

  /** An earlier commit brought `x` in when the higher `y`, in the feed by now, had already been published. */
  ghost predicate Overtaken(s: Scope, states: seq<World>, actions: seq<Action>, k: nat, x: EventId, y: EventId)
    requires |states| == |actions| + 1 && k < |states|
  {
    Ordered(s, states[k].outbox, x, y) && y in Ids(states[k].feed) && !NotOvertaken(states, actions, k, x, y)
  }

  lemma FeedIsCommitted(w: World)
    requires Sound(w)
    ensures Distinct(Ids(w.feed)) && forall i :: 0 <= i < |Ids(w.feed)| ==> Ids(w.feed)[i] in w.outbox
    ensures forall i, j {:trigger Tie(w.outbox, i, j)} :: Tie(w.outbox, i, j) ==> i == j
  {
    forall i | 0 <= i < |Ids(w.feed)| ensures Ids(w.feed)[i] in w.outbox { assert Backed(w.outbox, w.feed[i]); }
    forall i, j | Tie(w.outbox, i, j) ensures i == j { assert Tie(Rows(w), i, j); }
  }

  /** With every message the relay's own and none given up on - lost confirmations, duplicates, crashes and replays
      included - the feed is a prefix of the outbox in sequence order exactly when no row in scope committed after a
      higher one, by now in the feed, had been published. */
  lemma FeedIsPrefixIff(s: Scope, states: seq<World>, actions: seq<Action>, k: nat)
    requires IsRun(states, actions) && k < |states| && NoFault(actions, k)
    ensures PrefixOfOutbox(s, states[k].outbox, Ids(states[k].feed)) <==>
            forall x, y {:trigger Overtaken(s, states, actions, k, x, y)} :: !Overtaken(s, states, actions, k, x, y)
  {
    var w := states[k];
    var ids := Ids(w.feed);
    RunSound(states, actions, k);
    FeedIsCommitted(w);
    PrefixIffAhead(s, w.outbox, ids);
    forall x, y | Ordered(s, w.outbox, x, y) ensures Ahead(ids, x, y) <==> !Overtaken(s, states, actions, k, x, y) {
      AheadIffNotOvertaken(s, states, actions, k, x, y);
    }
    if forall x, y {:trigger Overtaken(s, states, actions, k, x, y)} :: !Overtaken(s, states, actions, k, x, y) {
      forall x, y | Ordered(s, w.outbox, x, y) ensures Ahead(ids, x, y) { assert !Overtaken(s, states, actions, k, x, y); }
    } else {
      var x, y :| Overtaken(s, states, actions, k, x, y);
      assert Ordered(s, w.outbox, x, y) && !Ahead(ids, x, y);
    }
  }

  lemma AheadIffNotOvertaken(s: Scope, states: seq<World>, actions: seq<Action>, k: nat, x: EventId, y: EventId)
    requires IsRun(states, actions) && k < |states| && NoFault(actions, k) && Ordered(s, states[k].outbox, x, y)
    ensures Ahead(Ids(states[k].feed), x, y) <==> !Overtaken(s, states, actions, k, x, y)
  {
    var w := states[k];
    if y !in Ids(w.feed) {
      AheadOfAbsent(Ids(w.feed), x, y);
    } else if NotOvertaken(states, actions, k, x, y) {
      LowerFirst(states, actions, k, x, y);
      RunFaithful(states, actions, k);
      FirstSeenGrows(w.stream, w.done);
      AheadInPrefix(FirstSeen(w.stream), Ids(w.feed), x, y);
    } else {
      var j :| 0 <= j < k && j < |actions| && Overtakes(states[j], actions[j], x, y);
      OvertakenStaysBehind(states, actions, j, k, x, y);
    }
  }

  // --- One project under its lock ------------------------------------------------------------------------

  /** Every write to the project so far held its lock. */
  ghost predicate AllLocked(actions: seq<Action>, k: nat, p: Project) {
    forall j :: 0 <= j < k && j < |actions| && actions[j].Insert? && actions[j].project == p ==> actions[j].writer.locked
  }

  ghost predicate Open(w: World, p: Project, id: EventId) { id in w.inserting && w.inserting[id].project == p }

  /** One open transaction writes to the project, behind everything it has committed. */
  ghost predicate Serialised(w: World, p: Project) {
    && (forall i :: Open(w, p, i) ==> i in w.owner && w.owner[i].locked)
    && (forall i, j :: Open(w, p, i) && Open(w, p, j) ==> w.owner[i] == w.owner[j])
    && (forall i, y :: Open(w, p, i) && y in w.outbox && w.outbox[y].project == p ==> w.outbox[y].sequence < w.inserting[i].sequence)
  }

  lemma InsertSerialised(w: World, a: Action, p: Project)
    requires Serialised(w, p) && RowsSound(w) && Possible(w, a) && a.Insert? && (a.project == p ==> a.writer.locked)
    ensures Serialised(Next(w, a), p)
  {
    var v := Next(w, a);
    forall i | Open(v, p, i) && i != a.id ensures Open(w, p, i) && v.owner[i] == w.owner[i] && v.inserting[i] == w.inserting[i] {
      assert i in w.inserting;
    }
    forall i | Open(w, p, i) && a.project == p ensures w.owner[i] == a.writer {
      assert Holds(w, p, w.owner[i].transaction);
    }
    forall y | y in w.outbox ensures w.outbox[y].sequence < w.nextSequence { assert Rows(w)[y] == w.outbox[y]; }
  }

  lemma RestSerialised(w: World, a: Action, p: Project)
    requires Serialised(w, p) && RowsSound(w) && !a.Insert?
    ensures Serialised(Next(w, a), p)
  {
    var v := Next(w, a);
    RowsMove(w, a);
    StepKeepsOutbox(w, a);
    OwnersStay(w, a);
    forall i | Open(v, p, i) ensures Open(w, p, i) && v.owner[i] == w.owner[i] {
    }
    forall i, y | Open(v, p, i) && y in v.outbox && v.outbox[y].project == p ensures v.outbox[y].sequence < v.inserting[i].sequence {
      if y !in w.outbox {
        CommittedWasOpen(w, a, y);
        assert Open(w, p, y) && Open(w, p, i);
      }
    }
  }

  lemma OwnersStay(w: World, a: Action)
    requires !a.Insert?
    ensures Next(w, a).owner == w.owner
  {
  }

  lemma CommittedWasOpen(w: World, a: Action, y: EventId)
    requires !a.Insert? && y in Next(w, a).outbox && y !in w.outbox
    ensures a.Commit? && y in Of(w, a.transaction) && Next(w, a).outbox[y] == w.inserting[y]
    ensures Next(w, a).inserting == w.inserting - Of(w, a.transaction)
  {
    if a.Relay? { RelayedOrSame(w, a.publication); } else if !TouchesOutbox(a) { OthersLeaveOutbox(w, a); }
  }

  lemma SerialisedAt(states: seq<World>, actions: seq<Action>, k: nat, p: Project)
    requires IsRun(states, actions) && k < |actions| && AllLocked(actions, k + 1, p) && Serialised(states[k], p)
    ensures Serialised(states[k + 1], p)
  {
    RunSound(states, actions, k);
    assert StepsAt(states, actions, k);
    if actions[k].Insert? { InsertSerialised(states[k], actions[k], p); } else { RestSerialised(states[k], actions[k], p); }
  }

  lemma {:induction false} RunSerialised(states: seq<World>, actions: seq<Action>, k: nat, p: Project)
    requires IsRun(states, actions) && k < |states| && AllLocked(actions, k, p)
    ensures Serialised(states[k], p)
  {
    if k > 0 {
      RunSerialised(states, actions, k - 1, p);
      SerialisedAt(states, actions, k - 1, p);
    }
  }

  lemma KeptAt(states: seq<World>, actions: seq<Action>, k: nat)
    requires IsRun(states, actions) && k < |actions|
    ensures OutboxKept(states[k].outbox, states[k + 1].outbox)
  {
    RunSound(states, actions, k);
    assert StepsAt(states, actions, k);
    StepKeepsOutbox(states[k], actions[k]);
  }

  lemma {:induction false} RowsKept(states: seq<World>, actions: seq<Action>, j: nat, k: nat)
    requires IsRun(states, actions) && j <= k < |states|
    ensures OutboxKept(states[j].outbox, states[k].outbox)
    decreases k
  {
    if j < k {
      RowsKept(states, actions, j, k - 1);
      KeptAt(states, actions, k - 1);
    }
  }

  lemma CommitMoves(states: seq<World>, actions: seq<Action>, j: nat, x: EventId)
    requires IsRun(states, actions) && j < |actions| && actions[j].Commit? && x in Of(states[j], actions[j].transaction)
    ensures x in states[j + 1].outbox && states[j + 1].outbox[x] == states[j].inserting[x]
  {
    assert StepsAt(states, actions, j);
  }

  lemma LockedIsNotOvertaken(states: seq<World>, actions: seq<Action>, k: nat, p: Project, x: EventId, y: EventId)
    requires IsRun(states, actions) && k < |states| && NoFault(actions, k) && AllLocked(actions, k, p)
    ensures !Overtaken(Only(p), states, actions, k, x, y)
  {
    if Overtaken(Only(p), states, actions, k, x, y) {
      var j :| 0 <= j < k && j < |actions| && Overtakes(states[j], actions[j], x, y);
      RunSerialised(states, actions, j, p);
      RunFaithful(states, actions, j);
      SeenIsCommitted(states[j], y);
      CommitMoves(states, actions, j, x);
      RowsKept(states, actions, j, k);
      RowsKept(states, actions, j + 1, k);
      assert Open(states[j], p, x);
      assert false;
    }
  }

  /** As long as every write to a project holds its lock, its part of the feed is at all times a prefix of its part of
      the outbox in sequence order, whatever other projects do. */
  lemma ProjectFeedIsPrefix(states: seq<World>, actions: seq<Action>, k: nat, p: Project)
    requires IsRun(states, actions) && k < |states| && NoFault(actions, k) && AllLocked(actions, k, p)
    ensures PrefixOfOutbox(Only(p), states[k].outbox, Ids(states[k].feed))
  {
    FeedIsPrefixIff(Only(p), states, actions, k);
    forall x, y ensures !Overtaken(Only(p), states, actions, k, x, y) {
      LockedIsNotOvertaken(states, actions, k, p, x, y);
    }
  }

  // --- Without the lock the order is not guaranteed ------------------------------------------------

  /** Two transactions: the one that drew its sequence first commits last. */
  function Overtaking(p: Project, q: Project, locked: bool): seq<Action> {
    [Insert(Writer(1, locked), 10, p, 0), Insert(Writer(2, true), 20, q, 0), Commit(2), Relay(Confirmed(false)), Deliver(0), Persist(0, 0), Commit(1)]
  }

  lemma OvertakingCommits(w: World, p: Project, q: Project, locked: bool)
    requires Fresh(w) && (p != q || !locked)
    ensures var a := Overtaking(p, q, locked);
            var c := Next(Next(Next(w, a[0]), a[1]), a[2]);
            c == w.(outbox := map[20 := Row(q, 0, w.nextSequence + 1, false, 0)], inserting := map[10 := Row(p, 0, w.nextSequence, false, 0)],
                       owner := w.owner[10 := Writer(1, locked)][20 := Writer(2, true)], nextSequence := w.nextSequence + 2)
  {
    var a := Overtaking(p, q, locked);
    var b := Next(Next(w, a[0]), a[1]);
    assert b.inserting == map[10 := Row(p, 0, w.nextSequence, false, 0), 20 := Row(q, 0, w.nextSequence + 1, false, 0)];
    assert Of(b, 2) == {20};
  }

  lemma OvertakingRelays(c: World, row: Row)
    requires c.outbox == map[20 := row] && !row.delivered && c.stream == []
    ensures Next(c, Relay(Confirmed(false))) == c.(stream := [Message(20, row.event, row.replay)], outbox := map[20 := row.(delivered := true)])
  {
    assert IsHead(c.outbox, 20);
    assert forall id :: IsHead(c.outbox, id) ==> id == 20;
    assert c.outbox[20 := row.(delivered := true)] == map[20 := row.(delivered := true)];
  }

  lemma OvertakingPersists(d: World, row: Row)
    requires d.outbox == map[20 := row] && d.stream == [Message(20, row.event, row.replay)]
    requires d.acked == 0 && d.held == map[] && d.inbox == {} && d.feed == [] && d.done == 0
    ensures var f := Next(Next(d, Deliver(0)), Persist(0, 0));
            f.outbox == d.outbox && f.inserting == d.inserting && f.owner == d.owner && f.feed == [Entry(1, 20, row.project, row.event)]
  {
    var e := Next(d, Deliver(0));
    assert e == d.(held := map[0 := Held(0, false)]);
  }

  lemma OvertakingEnds(s: Scope, f: World, n: nat)
    requires 10 in f.inserting && f.inserting[10].sequence == n && 10 in f.owner && f.owner[10].transaction == 1 && 10 !in f.outbox
    requires 20 in f.outbox && f.outbox[20].sequence == n + 1 && 20 !in f.inserting && |f.feed| == 1 && f.feed[0].id == 20
    requires InScope(s, f.inserting[10]) && InScope(s, f.outbox[20])
    ensures var g := Next(f, Commit(1)); !PrefixOfOutbox(s, g.outbox, Ids(g.feed))
  {
    var g := Next(f, Commit(1));
    assert 10 in Of(f, 1);
    assert Ids(g.feed) == [20] && 10 in g.outbox && g.outbox[10] == f.inserting[10] && g.outbox[20] == f.outbox[20];
    assert Ids(g.feed)[0] == 20 && 10 !in Ids(g.feed);
  }

  /** Where the first `k` actions lead. */
  ghost function After(w: World, actions: seq<Action>, k: nat): World
    requires k <= |actions|
  {
    if k == 0 then w else Next(After(w, actions, k - 1), actions[k - 1])
  }

  ghost function Trace(w: World, actions: seq<Action>): seq<World> {
    seq(|actions| + 1, k requires 0 <= k <= |actions| => After(w, actions, k))
  }

  lemma TraceStep(w: World, actions: seq<Action>, k: nat)
    requires k < |actions| && Possible(After(w, actions, k), actions[k])
    ensures StepsAt(Trace(w, actions), actions, k)
  {
  }

  lemma OvertakingPossible(w: World, p: Project, q: Project, locked: bool)
    requires Fresh(w) && (p != q || !locked)
    ensures Possible(w, Overtaking(p, q, locked)[0])
    ensures Possible(Next(w, Overtaking(p, q, locked)[0]), Overtaking(p, q, locked)[1])
  {
  }

  lemma OvertakingRuns(w: World, p: Project, q: Project, locked: bool)
    requires Fresh(w) && (p != q || !locked)
    ensures IsRun(Trace(w, Overtaking(p, q, locked)), Overtaking(p, q, locked))
  {
    var a := Overtaking(p, q, locked);
    OvertakingPossible(w, p, q, locked);
    assert After(w, a, 1) == Next(w, a[0]);
    forall k: nat | k < |a| ensures StepsAt(Trace(w, a), a, k) {
      if k > 1 { assert !a[k].Insert?; }
      TraceStep(w, a, k);
    }
  }

  lemma AfterThree(w: World, a: seq<Action>)
    requires |a| >= 3
    ensures After(w, a, 3) == Next(Next(Next(w, a[0]), a[1]), a[2])
  {
    assert After(w, a, 1) == Next(w, a[0]);
    assert After(w, a, 2) == Next(Next(w, a[0]), a[1]);
  }

  lemma OvertakingMiddle(c: World, row: Row)
    requires c.outbox == map[20 := row] && !row.delivered && c.stream == []
    requires c.acked == 0 && c.held == map[] && c.inbox == {} && c.feed == [] && c.done == 0
    ensures var f := Next(Next(Next(c, Relay(Confirmed(false))), Deliver(0)), Persist(0, 0));
            f.outbox.Keys == {20} && f.outbox[20] == row.(delivered := true) && f.inserting == c.inserting && f.owner == c.owner
            && |f.feed| == 1 && f.feed[0].id == 20
  {
    OvertakingRelays(c, row);
    OvertakingPersists(Next(c, Relay(Confirmed(false))), row.(delivered := true));
  }

  lemma AfterThreeMore(w: World, a: seq<Action>)
    requires |a| >= 7
    ensures After(w, a, 6) == Next(Next(Next(After(w, a, 3), a[3]), a[4]), a[5])
    ensures After(w, a, 7) == Next(After(w, a, 6), a[6])
  {
    assert After(w, a, 4) == Next(After(w, a, 3), a[3]);
    assert After(w, a, 5) == Next(After(w, a, 4), a[4]);
  }

  lemma OvertakingDisorders(w: World, p: Project, q: Project, locked: bool, s: Scope)
    requires Fresh(w) && (p != q || !locked) && (s.Everything? || p == q == s.project)
    ensures var g := After(w, Overtaking(p, q, locked), 7); !PrefixOfOutbox(s, g.outbox, Ids(g.feed))
  {
    var a := Overtaking(p, q, locked);
    OvertakingCommits(w, p, q, locked);
    AfterThree(w, a);
    AfterThreeMore(w, a);
    OvertakingMiddle(After(w, a, 3), Row(q, 0, w.nextSequence + 1, false, 0));
    OvertakingEnds(s, After(w, a, 6), w.nextSequence);
  }

  /** From every fresh start there is a run - no fault, no replay - whose feed is not a prefix of the outbox: across
      two projects, each under its lock; and within one project, when one of the writes is outside the lock. */
  lemma OvertakingFails(w: World, p: Project, q: Project, locked: bool, s: Scope)
    requires Fresh(w) && (p != q || !locked) && (s.Everything? || p == q == s.project)
    ensures var a := Overtaking(p, q, locked);
            var states := Trace(w, a);
            IsRun(states, a) && NoFault(a, 7) && !PrefixOfOutbox(s, states[7].outbox, Ids(states[7].feed))
  {
    OvertakingRuns(w, p, q, locked);
    OvertakingDisorders(w, p, q, locked, s);
  }
}
