/** Both ends of a managed Run over a network that loses requests, loses replies and delivers late. */
module LeaseProtocol {
  import opened Options
  import opened RunApi
  import opened RunLeases

  /** `air` holds the copies of requests that may still arrive; `sent` everything ever put on the wire. */
  datatype Joint = Joint(lease: Lease, server: Server, air: set<Request>, sent: set<Request>, now: int, closed: bool)

  /** The reply arrives; or the server acts and the reply is lost; or the request has not arrived yet. */
  datatype Fate = Reached | ReplyLost | NotYet

  datatype Step =
    | Tick(d: nat)
    | Renewal(key: Key, fate: Fate, judgement: Judgement)
    | Write(input: Input, fate: Fate, judgement: Judgement)
    | Read(fate: Fate, refusal: Option<Refusal>)
    | Late(request: Request, judgement: Judgement)
    | End(status: Status)
    | Close

  function Exchanged(s: Server, now: int, q: Request, fate: Fate, j: Judgement): (Server, Exchange) {
    match fate
    case NotYet => (s, NoAnswer)
    case ReplyLost => (Serve(s, now, q, j).0, NoAnswer)
    case Reached => (Serve(s, now, q, j).0, Answered(Serve(s, now, q, j).1))
  }

  /** A sent request may be delivered again later, unless its definitive refusal has been heard. */
  function Airborne(air: set<Request>, q: Request, e: Exchange): set<Request> {
    if Refused(e) then air - {q} else air + {q}
  }

  function Next(g: Joint, step: Step): Joint {
    match step
    case Tick(d) => g.(now := g.now + d)
    case Renewal(key, fate, j) =>
      if g.closed then g
      else
        var l := Checked(g.lease, g.now);
        if l.stopped.Some? || l.uncertain.Some? then g.(lease := l)
        else
          var q := BeatToSend(l, g.now, key);
          var (s, e) := Exchanged(g.server, g.now, q, fate, j);
          g.(lease := Renewed(l, q, e), server := s, air := Airborne(g.air, q, e), sent := g.sent + {q})
    case Write(input, fate, j) =>
      (match Decided(g.lease, g.now, g.closed, input)
       case Local(l) => g.(lease := l)
       case Send(l, q) =>
         var (s, e) := Exchanged(g.server, g.now, q, fate, j);
         g.(lease := Settled(l, g.now, input.Id(), e), server := s, air := Airborne(g.air, q, e), sent := g.sent + {q}))
    case Read(fate, refusal) =>
      var s := g.server;
      var e := if fate != Reached then NoAnswer
               else if refusal.Some? then Answered(Err(refusal.value))
               else Answered(Ok(RunAnswer(RunDoc(s.version, s.fence, s.status, s.expires), false)));
      g.(lease := ReadSettled(g.lease, g.now, e))
    case Late(q, j) => if q in g.air then g.(server := Serve(g.server, g.now, q, j).0) else g
    case End(status) => g.(server := EndRun(g.server, status))
    case Close => g.(closed := true)
  }

  /** The random keys of the bridge are new, callers never hit one, and the judgements are ones the
      server can make. */
  ghost predicate Possible(g: Joint, step: Step) {
    match step
    case Renewal(key, _, j) =>
      && key.Generated? && Admissible(j, g.server)
      && (g.lease.pending.None? ==> forall q :: q in g.sent ==> q.key != key)
    case Write(input, _, j) => input.key.Chosen? && Admissible(j, g.server)
    case Late(_, j) => Admissible(j, g.server)
    case _ => true
  }

  /** The joint state right after a claim: a running Run of version 1, tracked by the bridge. */
  ghost predicate Claimed(g: Joint) {
    && g.server.status == Running && g.server.version == 1 && g.server.fence > 0
    && g.server.records == map[] && g.server.log == []
    && g.lease == Checked(Lease(1, 1, g.server.fence, g.server.expires, g.now, None, false, None, None, map[]), g.now)
    && g.air == {} && g.sent == {} && !g.closed
  }

  ghost predicate StepsAt(states: seq<Joint>, steps: seq<Step>, k: nat)
    requires |states| == |steps| + 1 && k < |steps|
  {
    Possible(states[k], steps[k]) && states[k + 1] == Next(states[k], steps[k])
  }

  ghost predicate IsRun(states: seq<Joint>, steps: seq<Step>) {
    && |states| == |steps| + 1 && Claimed(states[0])
    && forall k: nat {:trigger StepsAt(states, steps, k)} :: k < |steps| ==> StepsAt(states, steps, k)
  }

  // --- The joint invariant ------------------------------------------------------

  ghost predicate SameWrite(sent: set<Request>, q: Request, r: Request) { q in sent && r in sent && q.Id() == r.Id() }

  /** Two entries of the log are of one write. */
  ghost predicate Twice(log: seq<Request>, i: nat, j: nat) { i < j < |log| && log[i].Id() == log[j].Id() }

  /** Every logical write has one wire form, and foreground writes are all on file. */
  ghost predicate OneWireForm(g: Joint) {
    && (forall q, r {:trigger SameWrite(g.sent, q, r)} :: SameWrite(g.sent, q, r) ==> q == r)
    && (forall q :: q in g.sent && q.key.Chosen? ==> q.Id() in g.lease.writes && g.lease.writes[q.Id()].request == q)
    && (forall id :: id in g.lease.writes ==> FiledAs(g.lease.writes[id], id, g.lease) && g.lease.writes[id].request in g.sent)
    && g.air <= g.sent
  }

  ghost predicate FiledAs(w: RunWrite, id: WriteId, l: Lease) {
    && w.input.Id() == id && id.key.Chosen?
    && w.request.Id() == id && w.request.body == w.input.body && w.request.fence == w.input.fence == l.fence
    && w.request.version <= l.version
  }

  /** The stored replies are those of sent requests, one commit each. */
  ghost predicate CommittedOnce(g: Joint) {
    && (forall id :: id in g.server.records ==>
          g.server.records[id].request in g.sent && g.server.records[id].request.Id() == id
          && !g.server.records[id].request.body.Malformed?)
    && (forall i :: 0 <= i < |g.server.log| ==> g.server.log[i].Id() in g.server.records)
    && (forall i: nat, j: nat {:trigger Twice(g.server.log, i, j)} :: !Twice(g.server.log, i, j))
    && (forall id :: id in g.lease.writes && g.lease.writes[id].applied ==> id in g.server.records)
  }

  /** At most one outcome is unknown, and only its request can still take effect. */
  ghost predicate OneUnknown(g: Joint) {
    var l := g.lease;
    && !(l.pending.Some? && l.uncertain.Some?)
    && (l.pending.Some? ==> l.pending.value in g.sent && l.pending.value.key.Generated? && l.pending.value.body.Beat?)
    && (l.uncertain.Some? ==> l.uncertain.value in l.writes && !l.writes[l.uncertain.value].applied)
    && l.fence == g.server.fence && l.floor <= l.version
    && (forall q :: q in g.air ==> q.Id() in g.server.records || l.pending == Some(q) || l.uncertain == Some(q.Id()))
  }

  ghost predicate Good(g: Joint) { g.lease.stopped.None? && g.server.status == Running }

  function Advance(s: Server, id: WriteId): nat { if id in s.records && Bumps(id.path) then 1 else 0 }

  /** While the lease is good, the client's version is the server's, or one behind: behind exactly
      when the one unknown write is a committed heartbeat or report. At the same version the lease ends at the same time. */
  ghost predicate Agreement(g: Joint) {
    var l, s := g.lease, g.server;
    Good(g) ==>
      && (l.pending.None? && l.uncertain.None? ==> l.version == s.version)
      && (l.pending.Some? ==> l.pending.value.version == l.version && s.version == l.version + Advance(s, l.pending.value.Id()))
      && (l.uncertain.Some? ==> s.version == l.version + Advance(s, l.uncertain.value))
      && (s.version == l.version ==> l.expires == s.expires)
  }

  /** A committed write whose reply is awaited will be answered with the Run as it stands; a refused
      write is not stored. */
  ghost predicate AwaitedAnswers(g: Joint) {
    var l, s := g.lease, g.server;
    Good(g) ==>
      && (forall id :: id in l.writes && !l.writes[id].applied && l.uncertain != Some(id) ==> id !in s.records)
      && (l.pending.Some? && l.pending.value.Id() in s.records ==> Shows(s.records[l.pending.value.Id()].answer, s))
      && (l.uncertain.Some? && Advance(s, l.uncertain.value) == 1 ==> Shows(s.records[l.uncertain.value].answer, s))
  }

  ghost predicate Invariant(g: Joint) {
    OneWireForm(g) && CommittedOnce(g) && OneUnknown(g) && Agreement(g) && AwaitedAnswers(g)
  }

  lemma ClaimEstablishes(g: Joint)
    requires Claimed(g)
    ensures Invariant(g)
  {
  }

  /** Nothing on the wire or on file has moved, and a bad lease has not become good. */
  ghost predicate Quieter(g: Joint, h: Joint) {
    && h.sent == g.sent && h.air == g.air
    && h.server.records == g.server.records && h.server.log == g.server.log && h.server.fence == g.server.fence
    && h.lease.version == g.lease.version && h.lease.expires == g.lease.expires && h.lease.floor == g.lease.floor
    && h.lease.fence == g.lease.fence && h.lease.pending == g.lease.pending && h.lease.uncertain == g.lease.uncertain && h.lease.writes == g.lease.writes
    && (Good(h) ==> Good(g) && h.server == g.server)
  }

  lemma QuieterWireForm(g: Joint, h: Joint)
    requires Quieter(g, h) && OneWireForm(g)
    ensures OneWireForm(h)
  {
    assert forall id :: id in h.lease.writes ==> FiledAs(g.lease.writes[id], id, g.lease);
  }

  lemma QuieterKeeps(g: Joint, h: Joint)
    requires Quieter(g, h) && Invariant(g)
    ensures Invariant(h)
  {
    QuieterWireForm(g, h);
    assert CommittedOnce(h);
    assert OneUnknown(h);
  }

  lemma CheckedKeeps(g: Joint)
    requires Invariant(g)
    ensures Invariant(g.(lease := Checked(g.lease, g.now)))
  {
    QuieterKeeps(g, g.(lease := Checked(g.lease, g.now)));
  }

  lemma ReadIsQuiet(l: Lease, now: int, e: Exchange)
    ensures var r := ReadSettled(l, now, e); r == l.(stopped := r.stopped, lastUse := r.lastUse)
    ensures ReadSettled(l, now, e).stopped.None? ==> l.stopped.None?
  {
  }

  lemma QuietStepKeeps(g: Joint, step: Step)
    requires Invariant(g) && Possible(g, step) && (step.Tick? || step.Read? || step.End? || step.Close?)
    ensures Invariant(Next(g, step))
  {
    match step
    case Tick(d) => QuieterKeeps(g, g.(now := g.now + d));
    case Read(fate, refusal) =>
      var s := g.server;
      var e := if fate != Reached then NoAnswer
               else if refusal.Some? then Answered(Err(refusal.value))
               else Answered(Ok(RunAnswer(RunDoc(s.version, s.fence, s.status, s.expires), false)));
      var l := ReadSettled(g.lease, g.now, e);
      ReadIsQuiet(g.lease, g.now, e);
      QuieterKeeps(g, g.(lease := l));
    case End(status) => QuieterKeeps(g, g.(server := EndRun(g.server, status)));
    case Close => QuieterKeeps(g, g.(closed := true));
  }

  /** A commit adds its one record and its one entry to the log. */
  lemma CommitOnce(g: Joint, q: Request, s: Server)
    requires CommittedOnce(g) && q in g.sent && Commits(g.server, q, s)
    ensures CommittedOnce(g.(server := s))
  {
    forall i: nat, j: nat | i < j < |s.log| ensures s.log[i].Id() != s.log[j].Id() {
      if j < |g.server.log| { assert !Twice(g.server.log, i, j); } else { assert g.server.log[i].Id() in g.server.records; }
    }
  }

  lemma LateKeeps(g: Joint, q: Request, j: Judgement)
    requires Invariant(g) && Possible(g, Late(q, j))
    ensures Invariant(Next(g, Late(q, j)))
  {
    if q in g.air {
      var h := Next(g, Late(q, j));
      ServeEffect(g.server, g.now, q, j);
      if h.server != g.server {
        CommitOnce(g, q, h.server);
        assert q.Id() in h.server.records;
      }
    }
  }

  // --- A renewal: put on the wire, perhaps served, perhaps heard -------------------

  ghost function Sent(g: Joint, l: Lease, q: Request): Joint {
    g.(lease := l, air := g.air + {q}, sent := g.sent + {q})
  }

  ghost function Heard(g: Joint, l: Lease, q: Request, reply: Reply): Joint {
    g.(lease := l, air := Airborne(g.air, q, Answered(reply)))
  }

  lemma SameFileWireForm(g: Joint, h: Joint)
    requires OneWireForm(g) && h.sent == g.sent && h.air <= g.sent
    requires h.lease.writes.Keys == g.lease.writes.Keys && h.lease.fence == g.lease.fence && h.lease.version >= g.lease.version
    requires forall id :: id in g.lease.writes ==> h.lease.writes[id].input == g.lease.writes[id].input
                                                   && h.lease.writes[id].request == g.lease.writes[id].request
    ensures OneWireForm(h)
  {
    forall id | id in h.lease.writes ensures FiledAs(h.lease.writes[id], id, h.lease) {
      assert FiledAs(g.lease.writes[id], id, g.lease);
    }
  }

  lemma OneMoreForm(sent: set<Request>, q: Request)
    requires forall x, y {:trigger SameWrite(sent, x, y)} :: SameWrite(sent, x, y) ==> x == y
    requires forall x :: x in sent && x.Id() == q.Id() ==> x == q
    ensures var more := sent + {q}; forall x, y {:trigger SameWrite(more, x, y)} :: SameWrite(more, x, y) ==> x == y
  {
    var more := sent + {q};
    forall x, y | SameWrite(more, x, y) ensures x == y {
      if x != q && y != q { assert SameWrite(sent, x, y); }
    }
  }

  lemma SentWireForm(g: Joint, l: Lease, q: Request)
    requires OneWireForm(g) && l.fence == g.lease.fence && l.version == g.lease.version && l.writes == g.lease.writes
    requires q in g.sent || (q.key.Generated? && forall r :: r in g.sent ==> r.key != q.key)
    ensures OneWireForm(Sent(g, l, q))
  {
    forall r | r in g.sent && r.Id() == q.Id() ensures r == q {
      assert q in g.sent ==> SameWrite(g.sent, r, q);
    }
    OneMoreForm(g.sent, q);
    forall id | id in l.writes ensures FiledAs(l.writes[id], id, l) {
      assert FiledAs(g.lease.writes[id], id, g.lease);
    }
  }

  lemma FirstSentWireForm(g: Joint, l: Lease, w: RunWrite)
    requires OneWireForm(g) && l.fence == g.lease.fence && l.version == g.lease.version
    requires w.request.Id() !in g.lease.writes && l.writes == g.lease.writes[w.request.Id() := w] && FiledAs(w, w.request.Id(), l)
    ensures OneWireForm(Sent(g, l, w.request))
  {
    assert forall r :: r in g.sent && r.key.Chosen? ==> r.Id() in g.lease.writes;
    OneMoreForm(g.sent, w.request);
    forall id | id in l.writes ensures FiledAs(l.writes[id], id, l) {
      if id in g.lease.writes { assert FiledAs(g.lease.writes[id], id, g.lease); }
    }
  }

  lemma NewIsUnstored(g: Joint, q: Request)
    requires CommittedOnce(g) && forall r :: r in g.sent ==> r.Id() != q.Id()
    ensures q.Id() !in g.server.records
  {
  }

  lemma SendBeatKeeps(g: Joint, q: Request, key: Key)
    requires Invariant(g) && g.lease.stopped.None? && g.lease.uncertain.None?
    requires q == BeatToSend(g.lease, g.now, key) && key.Generated?
    requires g.lease.pending.None? ==> forall r :: r in g.sent ==> r.key != key
    ensures Invariant(Sent(g, g.lease.(pending := Some(q)), q))
  {
    var h := Sent(g, g.lease.(pending := Some(q)), q);
    SentWireForm(g, h.lease, q);
    assert CommittedOnce(h);
    if g.lease.pending.None? { NewIsUnstored(g, q); }
    assert OneUnknown(h);
    assert Agreement(h);
  }

  /** The heartbeat in question has been answered; the lease stands where the server does, or is bad. */
  ghost predicate BeatResolved(g: Joint, h: Joint) {
    && h.server == g.server && h.sent == g.sent && h.air == g.air && h.lease.writes == g.lease.writes
    && h.lease.fence == g.lease.fence && h.lease.uncertain == g.lease.uncertain && h.lease.pending.None?
    && h.lease.floor == g.lease.floor && h.lease.version >= g.lease.version
    && (Good(h) ==> Good(g) && h.lease.version == h.server.version && h.lease.expires == h.server.expires)
  }

  lemma BeatResolvedKeeps(g: Joint, h: Joint, q: Request)
    requires Invariant(g) && g.lease.pending == Some(q) && q.Id() in g.server.records && BeatResolved(g, h)
    ensures Invariant(h)
  {
    SameFileWireForm(g, h);
    assert CommittedOnce(h);
    assert OneUnknown(h);
  }

  lemma ObservedFacts(l: Lease, answer: Answer, foreground: bool)
    ensures var o := Observed(l, answer, foreground);
            && o == l.(version := o.version, expires := o.expires, floor := o.floor, stopped := o.stopped)
            && o.version >= l.version && (o.floor == l.floor || o.floor == o.version)
            && (!foreground ==> o.floor == l.floor)
            && (o.stopped.None? ==> l.stopped.None? && answer.RunAnswer? && o.version == answer.run.version && o.expires == answer.run.expires)
  {
  }

  lemma BeatAnswered(g: Joint, q: Request, answer: Answer)
    requires Invariant(g) && g.lease.pending == Some(q)
    requires q.Id() in g.server.records && g.server.records[q.Id()].answer == answer
    ensures Invariant(Heard(g, Renewed(g.lease, q, Answered(Ok(answer))), q, Ok(answer)))
  {
    var h := Heard(g, Renewed(g.lease, q, Answered(Ok(answer))), q, Ok(answer));
    assert q in g.air || g.air + {q} == g.air + {q};
    ObservedFacts(g.lease.(pending := None), answer, false);
    AirborneSubset(g, q);
    BeatResolvedKeeps(g.(air := g.air + {q}), h, q);
  }

  /** A copy of a stored or awaited request in the air does no harm. */
  lemma AirborneSubset(g: Joint, q: Request)
    requires Invariant(g) && q in g.sent
    requires q.Id() in g.server.records || g.lease.pending == Some(q) || g.lease.uncertain == Some(q.Id())
    ensures Invariant(g.(air := g.air + {q}))
  {
    var h := g.(air := g.air + {q});
    SameFileWireForm(g, h);
    assert CommittedOnce(h);
    assert OneUnknown(h);
  }

  lemma BeatRefused(g: Joint, q: Request, refusal: Refusal)
    requires Invariant(g) && g.lease.pending == Some(q)
    ensures Invariant(Heard(g, Renewed(g.lease, q, Answered(Err(refusal))), q, Err(refusal)))
  {
    AirborneSubset(g, q);
    var b := g.(air := Airborne(g.air, q, Answered(Err(refusal))));
    FewerCopies(g.(air := g.air + {q}), b);
    QuieterKeeps(b, Heard(g, Renewed(g.lease, q, Answered(Err(refusal))), q, Err(refusal)));
  }

  lemma FewerCopies(g: Joint, h: Joint)
    requires Invariant(g) && h == g.(air := h.air) && h.air <= g.air
    ensures Invariant(h)
  {
    SameFileWireForm(g, h);
    assert CommittedOnce(h);
    assert OneUnknown(h);
  }

  /** A write is served like a late arrival of it, and an acceptance is the stored answer. */
  lemma ServedKeeps(g: Joint, q: Request, j: Judgement) returns (h: Joint, reply: Reply)
    requires Invariant(g) && q in g.air && Admissible(j, g.server)
    ensures h == g.(server := Serve(g.server, g.now, q, j).0) && reply == Serve(g.server, g.now, q, j).1
    ensures Invariant(h)
    ensures reply.Ok? ==> q.Id() in h.server.records && h.server.records[q.Id()].answer == reply.answer
    ensures reply.Err? ==> h.server == g.server
  {
    LateKeeps(g, q, j);
    ServeEffect(g.server, g.now, q, j);
    h, reply := g.(server := Serve(g.server, g.now, q, j).0), Serve(g.server, g.now, q, j).1;
  }

  lemma ReachedBeatKeeps(g: Joint, w: Joint, q: Request, j: Judgement)
    requires Invariant(w) && w.lease.pending == Some(q) && q in w.air && Admissible(j, w.server)
    requires w == Sent(g, g.lease.(pending := Some(q)), q)
    ensures var (s, reply) := Serve(g.server, g.now, q, j);
            && Invariant(w.(server := s))
            && Invariant(w.(lease := Renewed(g.lease, q, Answered(reply)), server := s, air := Airborne(g.air, q, Answered(reply))))
  {
    var h, reply := ServedKeeps(w, q, j);
    if reply.Ok? { BeatAnswered(h, q, reply.answer); } else { BeatRefused(h, q, reply.refusal); }
    assert Airborne(h.air, q, Answered(reply)) == Airborne(g.air, q, Answered(reply));
    assert Renewed(h.lease, q, Answered(reply)) == Renewed(g.lease, q, Answered(reply));
  }

  lemma ExchangeBeatKeeps(g: Joint, q: Request, key: Key, fate: Fate, j: Judgement)
    requires Invariant(g) && g.lease.stopped.None? && g.lease.uncertain.None? && Admissible(j, g.server)
    requires q == BeatToSend(g.lease, g.now, key) && key.Generated?
    requires g.lease.pending.None? ==> forall r :: r in g.sent ==> r.key != key
    ensures var (s, e) := Exchanged(g.server, g.now, q, fate, j);
            Invariant(g.(lease := Renewed(g.lease, q, e), server := s, air := Airborne(g.air, q, e), sent := g.sent + {q}))
  {
    SendBeatKeeps(g, q, key);
    if fate != NotYet { ReachedBeatKeeps(g, Sent(g, g.lease.(pending := Some(q)), q), q, j); }
  }

  lemma RenewalKeeps(g: Joint, key: Key, fate: Fate, j: Judgement)
    requires Invariant(g) && Possible(g, Renewal(key, fate, j))
    ensures Invariant(Next(g, Renewal(key, fate, j)))
  {
    if !g.closed {
      var c := g.(lease := Checked(g.lease, g.now));
      QuieterKeeps(g, c);
      if c.lease.stopped.None? && c.lease.uncertain.None? {
        ExchangeBeatKeeps(c, BeatToSend(c.lease, c.now, key), key, fate, j);
      }
    }
  }

  // --- A foreground write -----------------------------------------------------------

  /** What the client holds after sending, before any answer. */
  ghost function Awaiting(l: Lease, id: WriteId): Lease
    requires id in l.writes
  {
    if l.writes[id].applied then l else l.(uncertain := Some(id))
  }

  lemma FirstSendKeeps(g: Joint, input: Input)
    requires Invariant(g) && input.key.Chosen? && input.Id() !in g.lease.writes
    requires g.lease.pending.None? && g.lease.uncertain.None? && input.fence == g.lease.fence
    ensures var w := RunWrite(input, Request(input.key, g.lease.version, input.fence, input.body), false);
            var l := g.lease.(writes := g.lease.writes[input.Id() := w]);
            Invariant(Sent(g, Awaiting(l, input.Id()), w.request))
  {
    var w := RunWrite(input, Request(input.key, g.lease.version, input.fence, input.body), false);
    var l := g.lease.(writes := g.lease.writes[input.Id() := w]);
    var h := Sent(g, Awaiting(l, input.Id()), w.request);
    FirstSentWireForm(g, h.lease, w);
    NewIsUnstored(g, w.request);
    assert CommittedOnce(h);
    assert OneUnknown(h);
    assert Agreement(h);
  }

  lemma ResendKeeps(g: Joint, id: WriteId)
    requires Invariant(g) && id in g.lease.writes
    requires g.lease.writes[id].applied || (g.lease.pending.None? && (g.lease.uncertain.None? || g.lease.uncertain == Some(id)))
    ensures Invariant(Sent(g, Awaiting(g.lease, id), g.lease.writes[id].request))
  {
    var q := g.lease.writes[id].request;
    var h := Sent(g, Awaiting(g.lease, id), q);
    assert FiledAs(g.lease.writes[id], id, g.lease);
    SentWireForm(g, h.lease, q);
    assert CommittedOnce(h);
    assert OneUnknown(h);
    assert Agreement(h);
  }

  lemma AppliedHeard(g: Joint, id: WriteId, reply: Reply)
    requires Invariant(g) && id in g.lease.writes && g.lease.writes[id].applied
    ensures Invariant(Heard(g, Settled(g.lease, g.now, id, Answered(reply)), g.lease.writes[id].request, reply))
  {
    var q := g.lease.writes[id].request;
    assert FiledAs(g.lease.writes[id], id, g.lease);
    AirborneSubset(g, q);
    var b := g.(air := Airborne(g.air, q, Answered(reply)));
    FewerCopies(g.(air := g.air + {q}), b);
    QuieterKeeps(b, Heard(g, Settled(g.lease, g.now, id, Answered(reply)), q, reply));
  }

  /** The uncertain write has been answered, and the lease stands where the server does, or is bad. */
  ghost predicate WriteResolved(g: Joint, h: Joint, id: WriteId) {
    && h.server == g.server && h.sent == g.sent && h.air <= g.air
    && id in g.lease.writes && id in h.lease.writes && h.lease.writes == g.lease.writes[id := h.lease.writes[id]]
    && h.lease.writes[id] == g.lease.writes[id].(applied := h.lease.writes[id].applied)
    && h.lease.fence == g.lease.fence && h.lease.pending == g.lease.pending && h.lease.uncertain.None?
    && h.lease.floor <= h.lease.version && h.lease.version >= g.lease.version
    && (Good(h) ==> Good(g) && h.lease.version == h.server.version && h.lease.expires == h.server.expires)
    && (h.lease.writes[id].applied ==> id in g.server.records)
    && (Good(h) && !h.lease.writes[id].applied ==> id !in g.server.records)
    && (id !in g.server.records ==> g.lease.writes[id].request !in h.air)
  }

  lemma WriteResolvedKeeps(g: Joint, h: Joint, id: WriteId)
    requires Invariant(g) && g.lease.uncertain == Some(id) && WriteResolved(g, h, id)
    ensures Invariant(h)
  {
    SameFileWireForm(g, h);
    assert FiledAs(g.lease.writes[id], id, g.lease);
    assert CommittedOnce(h);
    forall q | q in h.air ensures q.Id() in h.server.records || h.lease.pending == Some(q) {
      if q.Id() == id { assert q == g.lease.writes[id].request; }
    }
    assert OneUnknown(h);
  }

  /** The lease once an awaited write has been accepted. */
  ghost function Accepted(l: Lease, now: int, id: WriteId, answer: Answer): Lease
    requires id in l.writes
  {
    var cleared := l.(uncertain := None, writes := l.writes[id := l.writes[id].(applied := true)]);
    (if Bumps(id.path) then Observed(cleared, answer, true) else cleared).(lastUse := now)
  }

  lemma SettledAcceptance(l: Lease, now: int, id: WriteId, answer: Answer)
    requires id in l.writes && !l.writes[id].applied && l.uncertain == Some(id)
    ensures Settled(l, now, id, Answered(Ok(answer))) == Accepted(l, now, id, answer)
  {
  }

  lemma AcceptedResolves(g: Joint, id: WriteId, answer: Answer)
    requires Invariant(g) && id in g.lease.writes && !g.lease.writes[id].applied && g.lease.uncertain == Some(id)
    requires id in g.server.records && g.server.records[id].answer == answer
    ensures WriteResolved(g, g.(lease := Accepted(g.lease, g.now, id, answer)), id)
  {
    ObservedFacts(g.lease.(uncertain := None, writes := g.lease.writes[id := g.lease.writes[id].(applied := true)]), answer, true);
  }

  lemma WriteAccepted(g: Joint, id: WriteId, answer: Answer)
    requires Invariant(g) && id in g.lease.writes && !g.lease.writes[id].applied && g.lease.uncertain == Some(id)
    requires id in g.server.records && g.server.records[id].answer == answer
    ensures Invariant(Heard(g, Settled(g.lease, g.now, id, Answered(Ok(answer))), g.lease.writes[id].request, Ok(answer)))
  {
    var q := g.lease.writes[id].request;
    assert FiledAs(g.lease.writes[id], id, g.lease);
    var b := g.(air := g.air + {q});
    AirborneSubset(g, q);
    AcceptedResolves(b, id, answer);
    WriteResolvedKeeps(b, b.(lease := Accepted(g.lease, g.now, id, answer)), id);
    SettledAcceptance(g.lease, g.now, id, answer);
  }

  lemma SettledRefusal(l: Lease, now: int, id: WriteId, refusal: Refusal)
    requires id in l.writes && !l.writes[id].applied && l.uncertain == Some(id)
    ensures var r := Settled(l, now, id, Answered(Err(refusal)));
            r == l.(stopped := r.stopped, uncertain := if Definitive(refusal) then None else Some(id))
    ensures Settled(l, now, id, Answered(Err(refusal))).stopped.None? ==> l.stopped.None? && !Terminal(refusal)
  {
  }

  lemma WriteRefusedKeeps(g: Joint, id: WriteId, refusal: Refusal)
    requires Invariant(g) && id in g.lease.writes && !g.lease.writes[id].applied && g.lease.uncertain == Some(id)
    requires Definitive(refusal) && !Terminal(refusal) && g.server.status == Running ==> id !in g.server.records
    ensures Invariant(Heard(g, Settled(g.lease, g.now, id, Answered(Err(refusal))), g.lease.writes[id].request, Err(refusal)))
  {
    var q := g.lease.writes[id].request;
    assert FiledAs(g.lease.writes[id], id, g.lease);
    var b := g.(air := g.air + {q});
    AirborneSubset(g, q);
    var settled := Settled(g.lease, g.now, id, Answered(Err(refusal)));
    SettledRefusal(g.lease, g.now, id, refusal);
    if Definitive(refusal) {
      WriteResolvedKeeps(b, g.(lease := settled, air := g.air - {q}), id);
    } else {
      QuieterKeeps(b, b.(lease := settled));
    }
  }

  /** A stored write that is refused without ending the lease has not reached a decision. */
  lemma StoredNotRejected(g: Joint, id: WriteId, j: Judgement)
    requires Invariant(g) && id in g.lease.writes && Admissible(j, g.server) && g.server.status == Running
    requires var reply := Serve(g.server, g.now, g.lease.writes[id].request, j).1;
             reply.Err? && Definitive(reply.refusal) && !Terminal(reply.refusal)
    ensures id !in g.server.records
  {
    var q := g.lease.writes[id].request;
    assert FiledAs(g.lease.writes[id], id, g.lease);
    if id in g.server.records {
      assert g.server.records[id].request in g.sent && g.server.records[id].request == q;
      RefusedReplay(g.server, g.now, q, j);
    }
  }

  /** The reply to a write, heard by a lease that awaits it. */
  lemma ReplyKeeps(w: Joint, id: WriteId, j: Judgement)
    requires Invariant(w) && Admissible(j, w.server) && id in w.lease.writes && w.lease.writes[id].request in w.air
    requires w.lease.writes[id].applied || w.lease.uncertain == Some(id)
    ensures var q := w.lease.writes[id].request;
            var (s, reply) := Serve(w.server, w.now, q, j);
            Invariant(w.(server := s)) &&
            Invariant(Heard(w.(server := s), Settled(w.lease, w.now, id, Answered(reply)), q, reply))
  {
    assert FiledAs(w.lease.writes[id], id, w.lease);
    var h, reply := ServedKeeps(w, w.lease.writes[id].request, j);
    if w.lease.writes[id].applied {
      AppliedHeard(h, id, reply);
    } else if reply.Ok? {
      WriteAccepted(h, id, reply.answer);
    } else {
      if Definitive(reply.refusal) && !Terminal(reply.refusal) && w.server.status == Running { StoredNotRejected(w, id, j); }
      WriteRefusedKeeps(h, id, reply.refusal);
    }
  }

  /** Sending first and hearing the outcome later comes to the same as one exchange. */
  lemma AwaitingSettles(l: Lease, now: int, id: WriteId, e: Exchange)
    requires id in l.writes
    requires l.writes[id].applied || l.uncertain.None? || l.uncertain == Some(id)
    ensures Settled(Awaiting(l, id), now, id, e) == Settled(l, now, id, e)
    ensures e == NoAnswer ==> Settled(l, now, id, e) == Awaiting(l, id)
  {
  }

  lemma ExchangeWriteKeeps(g: Joint, l: Lease, id: WriteId, fate: Fate, j: Judgement)
    requires id in l.writes && Invariant(Sent(g, Awaiting(l, id), l.writes[id].request)) && Admissible(j, g.server)
    requires l.writes[id].applied || l.uncertain.None? || l.uncertain == Some(id)
    ensures var q := l.writes[id].request;
            var (s, e) := Exchanged(g.server, g.now, q, fate, j);
            Invariant(g.(lease := Settled(l, g.now, id, e), server := s, air := Airborne(g.air, q, e), sent := g.sent + {q}))
  {
    var q := l.writes[id].request;
    var w := Sent(g, Awaiting(l, id), q);
    var e := Exchanged(g.server, g.now, q, fate, j).1;
    AwaitingSettles(l, g.now, id, e);
    if fate != NotYet {
      ReplyKeeps(w, id, j);
      assert Airborne(w.air, q, e) == Airborne(g.air, q, e);
    }
  }

  lemma DecidedResend(g: Joint, input: Input, l: Lease, q: Request)
    requires input.Id() in g.lease.writes && Decided(g.lease, g.now, g.closed, input) == Send(l, q)
    ensures (l == g.lease || l == Checked(g.lease, g.now)) && l.writes == g.lease.writes && q == g.lease.writes[input.Id()].request
    ensures l.writes[input.Id()].applied || (l.pending.None? && (l.uncertain.None? || l.uncertain == Some(input.Id())))
  {
  }

  lemma DecidedFirst(g: Joint, input: Input, l: Lease, q: Request)
    requires input.Id() !in g.lease.writes && Decided(g.lease, g.now, g.closed, input) == Send(l, q)
    ensures var c := Checked(g.lease, g.now);
            && c == g.lease && c.stopped.None? && c.pending.None? && c.uncertain.None? && input.fence == c.fence
            && q == Request(input.key, c.version, input.fence, input.body)
            && l == c.(writes := c.writes[input.Id() := RunWrite(input, q, false)])
  {
  }

  lemma ResentKeeps(g: Joint, h: Joint, id: WriteId, fate: Fate, j: Judgement)
    requires Invariant(h) && h == g.(lease := h.lease) && Admissible(j, g.server) && id in h.lease.writes
    requires h.lease.writes[id].applied || (h.lease.pending.None? && (h.lease.uncertain.None? || h.lease.uncertain == Some(id)))
    ensures var q := h.lease.writes[id].request;
            var (s, e) := Exchanged(g.server, g.now, q, fate, j);
            Invariant(g.(lease := Settled(h.lease, g.now, id, e), server := s, air := Airborne(g.air, q, e), sent := g.sent + {q}))
  {
    var q := h.lease.writes[id].request;
    ResendKeeps(h, id);
    assert Sent(h, Awaiting(h.lease, id), q) == Sent(g, Awaiting(h.lease, id), q);
    ExchangeWriteKeeps(g, h.lease, id, fate, j);
  }

  lemma FirstSentKeeps(g: Joint, input: Input, l: Lease, q: Request, fate: Fate, j: Judgement)
    requires Invariant(g) && input.key.Chosen? && Admissible(j, g.server)
    requires input.Id() !in g.lease.writes && Decided(g.lease, g.now, g.closed, input) == Send(l, q)
    ensures Invariant(Next(g, Write(input, fate, j)))
  {
    DecidedFirst(g, input, l, q);
    FirstSendKeeps(g, input);
    ExchangeWriteKeeps(g, l, input.Id(), fate, j);
  }

  lemma LocalKeeps(g: Joint, input: Input, fate: Fate, j: Judgement)
    requires Invariant(g) && Decided(g.lease, g.now, g.closed, input).Local?
    ensures Invariant(Next(g, Write(input, fate, j)))
  {
    DecidedLocal(g, input);
    CheckedKeeps(g);
  }

  lemma DecidedLocal(g: Joint, input: Input)
    requires Decided(g.lease, g.now, g.closed, input).Local?
    ensures var l := Decided(g.lease, g.now, g.closed, input).lease; l == g.lease || l == Checked(g.lease, g.now)
  {
  }

  lemma RepeatKeeps(g: Joint, input: Input, l: Lease, q: Request, fate: Fate, j: Judgement)
    requires Invariant(g) && Admissible(j, g.server) && input.Id() in g.lease.writes
    requires Decided(g.lease, g.now, g.closed, input) == Send(l, q)
    ensures Invariant(Next(g, Write(input, fate, j)))
  {
    CheckedKeeps(g);
    DecidedResend(g, input, l, q);
    ResentKeeps(g, g.(lease := l), input.Id(), fate, j);
  }

  lemma WriteKeeps(g: Joint, input: Input, fate: Fate, j: Judgement)
    requires Invariant(g) && Possible(g, Write(input, fate, j))
    ensures Invariant(Next(g, Write(input, fate, j)))
  {
    match Decided(g.lease, g.now, g.closed, input)
    case Local(l) => LocalKeeps(g, input, fate, j);
    case Send(l, q) =>
      if input.Id() in g.lease.writes {
        RepeatKeeps(g, input, l, q, fate, j);
      } else {
        FirstSentKeeps(g, input, l, q, fate, j);
      }
  }

  lemma StepKeeps(g: Joint, step: Step)
    requires Invariant(g) && Possible(g, step)
    ensures Invariant(Next(g, step))
  {
    match step
    case Renewal(key, fate, j) => RenewalKeeps(g, key, fate, j);
    case Write(input, fate, j) => WriteKeeps(g, input, fate, j);
    case Late(q, j) => LateKeeps(g, q, j);
    case _ => QuietStepKeeps(g, step);
  }

  lemma KeepsAt(states: seq<Joint>, steps: seq<Step>, k: nat)
    requires IsRun(states, steps) && k < |steps| && Invariant(states[k])
    ensures Invariant(states[k + 1])
  {
    assert StepsAt(states, steps, k);
    StepKeeps(states[k], steps[k]);
  }

  lemma {:induction false} RunKeeps(states: seq<Joint>, steps: seq<Step>, k: nat)
    requires IsRun(states, steps) && k < |states|
    ensures Invariant(states[k])
  {
    if k == 0 {
      ClaimEstablishes(states[0]);
    } else {
      RunKeeps(states, steps, k - 1);
      KeepsAt(states, steps, k - 1);
    }
  }

  // --- What every run keeps ---------------------------------------------------------

  /** While the lease goes on and the Run is running: nothing unknown, then both ends hold the same
      version; one write unknown, then the client is behind by one exactly when that write committed
      and moves the version. */
  lemma VersionsAgree(states: seq<Joint>, steps: seq<Step>, k: nat)
    requires IsRun(states, steps) && k < |states|
    ensures var h := states[k];
            && !(h.lease.pending.Some? && h.lease.uncertain.Some?)
            && (h.lease.stopped.None? && h.server.status == Running ==>
                  && (h.lease.pending.None? && h.lease.uncertain.None? ==> h.server.version == h.lease.version)
                  && (h.lease.pending.Some? ==>
                        h.server.version == h.lease.version + (if h.lease.pending.value.Id() in h.server.records then 1 else 0))
                  && (h.lease.uncertain.Some? ==>
                        h.server.version == h.lease.version + Advance(h.server, h.lease.uncertain.value)))
  {
    RunKeeps(states, steps, k);
  }

  lemma {:induction false} FenceFixed(states: seq<Joint>, steps: seq<Step>, k: nat)
    requires IsRun(states, steps) && k < |states|
    ensures states[k].server.fence == states[0].server.fence
  {
    if k > 0 {
      FenceFixed(states, steps, k - 1);
      assert StepsAt(states, steps, k - 1);
      StepFence(states[k - 1], steps[k - 1]);
    }
  }

  lemma ServeFence(s: Server, now: int, q: Request, j: Judgement)
    ensures Serve(s, now, q, j).0.fence == s.fence
  {
    ServeEffect(s, now, q, j);
  }

  lemma StepFence(h: Joint, step: Step)
    ensures Next(h, step).server.fence == h.server.fence
  {
    match step
    case Renewal(key, fate, j) => ServeFence(h.server, h.now, BeatToSend(Checked(h.lease, h.now), h.now, key), j);
    case Write(input, fate, j) =>
      var d := Decided(h.lease, h.now, h.closed, input);
      if d.Send? { ServeFence(h.server, h.now, d.request, j); }
    case Late(q, j) => ServeFence(h.server, h.now, q, j);
    case _ =>
  }

  /** So a first-time foreground write is never answered with a version conflict. */
  lemma FirstWriteNeverConflicts(states: seq<Joint>, steps: seq<Step>, k: nat, input: Input, j: Judgement)
    requires IsRun(states, steps) && k < |states| && input.key.Chosen?
    requires var h := states[k];
             input.Id() !in h.lease.writes && Decided(h.lease, h.now, h.closed, input).Send? && Admissible(j, h.server)
    ensures var h := states[k];
            Serve(h.server, h.now, Decided(h.lease, h.now, h.closed, input).request, j).1 != Err(VersionConflict)
  {
    RunKeeps(states, steps, k);
    var h := states[k];
    var d := Decided(h.lease, h.now, h.closed, input);
    DecidedFirst(h, input, d.lease, d.request);
    NewIsUnstored(h, d.request);
    assert h.server.status == Running ==> h.lease.version == h.server.version;
  }

  /** Each logical write commits at most once, as the one request ever sent for it. */
  lemma CommitsAtMostOnce(states: seq<Joint>, steps: seq<Step>, k: nat)
    requires IsRun(states, steps) && k < |states|
    ensures var h := states[k];
            && (forall i: nat, j: nat {:trigger Twice(h.server.log, i, j)} :: !Twice(h.server.log, i, j))
            && (forall q, r {:trigger SameWrite(h.sent, q, r)} :: SameWrite(h.sent, q, r) ==> q == r)
            && (forall id :: id in h.server.records ==> h.server.records[id].request in h.sent)
            && (forall id :: id in h.lease.writes && h.lease.writes[id].applied ==> id in h.server.records)
  {
    RunKeeps(states, steps, k);
  }

  ghost predicate Ended(g: Joint) { g.lease.stopped.Some? || g.closed }

  lemma SettledStays(l: Lease, now: int, id: WriteId, e: Exchange)
    requires id in l.writes && l.stopped.Some?
    ensures Settled(l, now, id, e).stopped.Some?
  {
  }

  /** An ended lease stays ended and puts nothing new on the wire: no heartbeat, no new write. */
  lemma EndedStep(g: Joint, step: Step)
    requires Invariant(g) && Ended(g)
    ensures (g.lease.stopped.Some? ==> Next(g, step).lease.stopped.Some?) && (g.closed ==> Next(g, step).closed)
    ensures Next(g, step).sent == g.sent
  {
    match step
    case Write(input, fate, j) =>
      var d := Decided(g.lease, g.now, g.closed, input);
      if d.Send? && g.lease.stopped.Some? {
        SettledStays(d.lease, g.now, input.Id(), Exchanged(g.server, g.now, d.request, fate, j).1);
      }
    case Renewal(key, fate, j) =>
    case Read(fate, refusal) =>
      ReadIsQuiet(g.lease, g.now, NoAnswer);
    case _ =>
  }

  lemma EndedAt(states: seq<Joint>, steps: seq<Step>, k: nat)
    requires IsRun(states, steps) && k < |steps| && Ended(states[k])
    ensures states[k].lease.stopped.Some? ==> states[k + 1].lease.stopped.Some?
    ensures Ended(states[k + 1]) && states[k + 1].sent == states[k].sent
  {
    RunKeeps(states, steps, k);
    assert StepsAt(states, steps, k);
    EndedStep(states[k], steps[k]);
  }

  lemma {:induction false} EndedForGood(states: seq<Joint>, steps: seq<Step>, k: nat, m: nat)
    requires IsRun(states, steps) && k <= m < |states| && Ended(states[k])
    ensures states[k].lease.stopped.Some? ==> states[m].lease.stopped.Some?
    ensures Ended(states[m]) && states[m].sent == states[k].sent
  {
    if k < m {
      EndedForGood(states, steps, k, m - 1);
      EndedAt(states, steps, m - 1);
    }
  }

  lemma RejectedWriteServed(h: Joint, id: WriteId, j: Judgement)
    requires Invariant(h) && Good(h) && j.door.None? && j.ownerActive && Admissible(j, h.server)
    requires id in h.lease.writes && !h.lease.writes[id].applied && h.lease.uncertain.None? && h.lease.pending.None?
    requires !h.lease.writes[id].request.body.Malformed? && h.now < h.server.expires
    ensures var q := h.lease.writes[id].request;
            Serve(h.server, h.now, q, j).1 == Err(VersionConflict) <==> q.version != h.lease.version
  {
    assert FiledAs(h.lease.writes[id], id, h.lease);
    assert id !in h.server.records;
    assert h.lease.version == h.server.version;
  }

  /** The one gap: a write the server rejected goes out again under its first version, so it conflicts
      exactly when a heartbeat or report has moved the version since. */
  lemma RejectedWriteConflictsIff(states: seq<Joint>, steps: seq<Step>, k: nat, input: Input, j: Judgement)
    requires IsRun(states, steps) && k < |states| && input.key.Chosen? && !input.body.Malformed?
    requires var h := states[k];
             && input.Id() in h.lease.writes && !h.lease.writes[input.Id()].applied && h.lease.uncertain.None?
             && Decided(h.lease, h.now, h.closed, input).Send? && h.server.status == Running && h.now < h.server.expires
             && j.door.None? && j.ownerActive && Admissible(j, h.server)
    ensures var h := states[k];
            var q := h.lease.writes[input.Id()].request;
            Decided(h.lease, h.now, h.closed, input).request == q &&
            (Serve(h.server, h.now, q, j).1 == Err(VersionConflict) <==> q.version != h.lease.version)
  {
    RunKeeps(states, steps, k);
    var h := states[k];
    var w := h.lease.writes[input.Id()];
    assert FiledAs(w, input.Id(), h.lease);
    RejectedWriteServed(h, input.Id(), j);
  }

  const REJECTED := Judgement(None, true, Some(Unprocessable), false)
  const ACCEPTED := Judgement(None, true, None, false)

  ghost function Registration(g: Joint): Input { Input(Chosen(0), 1, g.server.fence, Register(0)) }

  lemma RegistrationRejected(g: Joint)
    requires Claimed(g) && g.now + 1 < g.server.expires
    ensures var q := Request(Chosen(0), 1, g.server.fence, Register(0));
            Next(g, Write(Registration(g), Reached, REJECTED))
            == g.(lease := g.lease.(writes := map[q.Id() := RunWrite(Registration(g), q, false)]), sent := {q})
  {
    var q := Request(Chosen(0), 1, g.server.fence, Register(0));
    var d := Decided(g.lease, g.now, g.closed, Registration(g));
    assert d == Send(g.lease.(writes := map[q.Id() := RunWrite(Registration(g), q, false)]), q);
    assert Serve(g.server, g.now, q, REJECTED) == (g.server, Err(Unprocessable));
    assert {} + {q} == {q};
  }

  lemma BeatMovesVersion(g: Joint, h: Joint)
    requires Claimed(g) && g.now + 1 < g.server.expires
    requires h == g.(lease := g.lease.(writes := h.lease.writes), sent := h.sent)
    ensures var i := Next(h, Renewal(Generated(0), Reached, ACCEPTED));
            && i.now == g.now && !i.closed
            && i.lease == h.lease.(version := 2, expires := g.now + LEASE) && i.server.version == 2
            && i.server.fence == g.server.fence && i.server.status == Running && i.server.expires == g.now + LEASE
            && i.server.records.Keys == {WriteId(Heartbeat, Generated(0))}
  {
    var q := BeatToSend(h.lease, h.now, Generated(0));
    assert Serve(h.server, h.now, q, ACCEPTED).1.Ok?;
  }

  lemma RepeatConflicts(i: Joint, input: Input, q: Request)
    requires !i.closed && Checked(i.lease, i.now).stopped.None? && i.lease.pending.None? && i.lease.uncertain.None?
    requires input.Id() in i.lease.writes && i.lease.writes[input.Id()] == RunWrite(input, q, false)
    requires q.Id() !in i.server.records && q.fence == i.server.fence && q.version != i.server.version && q.body.Register?
    requires i.server.status == Running && i.now < i.server.expires
    ensures var k := Next(i, Write(input, Reached, ACCEPTED));
            k.lease.stopped == Some(WriteRefused) && k.server == i.server
  {
    assert Decided(i.lease, i.now, i.closed, input) == Send(i.lease, q);
    assert Serve(i.server, i.now, q, ACCEPTED) == (i.server, Err(VersionConflict));
  }

  lemma RunOfThree(states: seq<Joint>, steps: seq<Step>)
    requires |states| == 4 && |steps| == 3 && Claimed(states[0])
    requires StepsAt(states, steps, 0) && StepsAt(states, steps, 1) && StepsAt(states, steps, 2)
    ensures IsRun(states, steps)
  {
    forall k: nat | k < |steps| ensures StepsAt(states, steps, k) {
      assert k == 0 || k == 1 || k == 2;
    }
  }

  /** Such a run: a registration is refused (422), a background heartbeat commits, the agent repeats the
      registration as told to, and the lease stops. */
  lemma RejectedWriteEndsLease(g: Joint)
    requires Claimed(g) && g.now + 1 < g.server.expires
    ensures var a, b := Write(Registration(g), Reached, REJECTED), Renewal(Generated(0), Reached, ACCEPTED);
            var c := Write(Registration(g), Reached, ACCEPTED);
            var h := Next(g, a); var i := Next(h, b); var k := Next(i, c);
            && IsRun([g, h, i, k], [a, b, c])
            && i.lease.stopped.None? && i.server.status == Running
            && k.lease.stopped == Some(WriteRefused) && k.server.status == Running
  {
    var a, b := Write(Registration(g), Reached, REJECTED), Renewal(Generated(0), Reached, ACCEPTED);
    var c := Write(Registration(g), Reached, ACCEPTED);
    RegistrationRejected(g);
    var h := Next(g, a);
    BeatMovesVersion(g, h);
    var i := Next(h, b);
    RepeatConflicts(i, Registration(g), Request(Chosen(0), 1, g.server.fence, Register(0)));
    RunOfThree([g, h, i, Next(i, c)], [a, b, c]);
  }
}
