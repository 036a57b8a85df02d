/** The bridge's side of a claimed Run: background renewal and foreground writes under one mutex (internal/bridge/leases.go). */
module RunLeases {
  import opened Options
  import opened RunApi

  const IDLE_LIMIT := 30 * 60
  const MAX_WRITES := 4096

  datatype Reason =
    | HeartbeatRefused | RunEnded | ReadRefused | WriteRefused
    | InvalidResponse | LeaseExpired | IdleLimit

  /** A tool call as the agent makes it; retries must repeat it exactly. */
  datatype Input = Input(key: Key, version: nat, fence: nat, body: Body) {
    function Id(): WriteId { WriteId(PathOf(body), key) }
  }

  /** The digest of the input stands for the input: equal digests, equal inputs. */
  datatype RunWrite = RunWrite(input: Input, request: Request, applied: bool)

  datatype Lease = Lease(version: nat, floor: nat, fence: nat, expires: int, lastUse: int,
                         stopped: Option<Reason>, contextUpdated: bool,
                         pending: Option<Request>, uncertain: Option<WriteId>, writes: map<WriteId, RunWrite>)

  /** The outcome of one HTTP exchange as the client sees it. */
  datatype Exchange = Answered(reply: Reply) | NoAnswer

  predicate Definitive(r: Refusal) {
    var status := HttpStatus(r);
    400 <= status < 500 && status != 408 && status != 429
  }

  predicate Terminal(r: Refusal) {
    HttpStatus(r) in {401, 403, 404, 412} || r == RunInactive || r == StaleFence
  }

  predicate Refused(e: Exchange) { e.Answered? && e.reply.Err? && Definitive(e.reply.refusal) }
  predicate Succeeds(e: Exchange) { e.Answered? && e.reply.Ok? }

  // --- The lease as a value -------------------------------------------------

  function Checked(l: Lease, now: int): Lease {
    if l.stopped.Some? then l
    else if now >= l.expires then l.(stopped := Some(LeaseExpired))
    else if now - l.lastUse >= IDLE_LIMIT then l.(stopped := Some(IdleLimit))
    else l
  }

  function Observed(l: Lease, answer: Answer, foreground: bool): Lease {
    if answer.OtherAnswer? || answer.run.fence != l.fence || answer.run.version < l.version then
      l.(stopped := Some(InvalidResponse))
    else
      var run := answer.run;
      l.(version := run.version, expires := run.expires,
         floor := if foreground then run.version else l.floor,
         stopped := if run.status != Running then Some(RunEnded) else l.stopped)
  }

  /** The heartbeat to send: the pending one again, or a new one under the current version. */
  function BeatToSend(l: Lease, now: int, key: Key): Request {
    if l.pending.Some? then l.pending.value else Request(key, l.version, l.fence, Beat(now))
  }

  function Renewed(l: Lease, beat: Request, e: Exchange): Lease {
    if !Succeeds(e) then
      l.(pending := Some(beat), stopped := if Refused(e) then Some(HeartbeatRefused) else l.stopped)
    else
      var seen := Observed(l.(pending := None), e.reply.answer, false);
      if e.reply.answer.RunAnswer? then seen.(contextUpdated := e.reply.answer.contextUpdate) else seen
  }

  datatype Decision = Local(lease: Lease) | Send(lease: Lease, request: Request)

  /** What a foreground write does before it reaches the network. */
  function Decided(l: Lease, now: int, closed: bool, input: Input): Decision {
    var id := input.Id();
    if id in l.writes then
      var w := l.writes[id];
      if w.input != input then Local(l)
      else if w.applied || l.uncertain == Some(id) then
        if !w.applied && l.pending.Some? then Local(l) else Send(l, w.request)
      else if l.pending.Some? || l.uncertain.Some? then Local(l)
      else if closed then Local(l)
      else if Checked(l, now).stopped.Some? then Local(Checked(l, now))
      else Send(Checked(l, now), w.request)
    else if closed then Local(l)
    else
      var c := Checked(l, now);
      if c.stopped.Some? || c.pending.Some? || c.uncertain.Some? then Local(c)
      else if input.fence != c.fence || input.version < c.floor || input.version > c.version then Local(c)
      else if |c.writes| >= MAX_WRITES then Local(c)
      else
        var w := RunWrite(input, Request(input.key, c.version, input.fence, input.body), false);
        Send(c.(writes := c.writes[id := w]), w.request)
  }

  /** What it does with the outcome. */
  function Settled(l: Lease, now: int, id: WriteId, e: Exchange): Lease
    requires id in l.writes
  {
    var w := l.writes[id];
    var known :=
      if w.applied then l
      else if Succeeds(e) then
        var cleared := l.(uncertain := if l.uncertain == Some(id) then None else l.uncertain,
                          writes := l.writes[id := w.(applied := true)]);
        if Bumps(id.path) then Observed(cleared, e.reply.answer, true) else cleared
      else if Refused(e) then l.(uncertain := if l.uncertain == Some(id) then None else l.uncertain)
      else l.(uncertain := Some(id));
    var heard := if e.Answered? && e.reply.Err? && Terminal(e.reply.refusal) then known.(stopped := Some(WriteRefused)) else known;
    if Succeeds(e) then heard.(lastUse := now) else heard
  }

  /** A read can end the lease, never extend or revive it. */
  function ReadSettled(l: Lease, now: int, e: Exchange): Lease {
    if Succeeds(e) then
      var ended := if e.reply.answer.OtherAnswer? || e.reply.answer.run.status != Running then l.(stopped := Some(RunEnded)) else l;
      Checked(ended, now).(lastUse := now)
    else if e.Answered? && e.reply.Err? && Terminal(e.reply.refusal) then l.(stopped := Some(ReadRefused))
    else l
  }

  // --- The lease as the bridge keeps it ---------------------------------------

  class RunLease {
    var version: nat
    var floor: nat
    const fence: nat
    var expires: int
    var lastUse: int
    var stopped: Option<Reason>
    var contextUpdated: bool
    var pending: Option<Request>
    var uncertain: Option<WriteId>
    var writes: map<WriteId, RunWrite>

    ghost function State(): Lease
      reads this
    {
      Lease(version, floor, fence, expires, lastUse, stopped, contextUpdated, pending, uncertain, writes)
    }

    constructor (run: RunDoc, now: int)
      ensures State() == Checked(Lease(run.version, run.version, run.fence, run.expires, now, None, false, None, None, map[]), now)
    {
      version, floor, fence, expires, lastUse := run.version, run.version, run.fence, run.expires, now;
      stopped, contextUpdated, pending, uncertain, writes := None, false, None, None, map[];
      new;
      var ok := Live(now);
    }

    method Live(now: int) returns (ok: bool)
      modifies this
      ensures State() == Checked(old(State()), now)
      ensures ok <==> stopped.None?
    {
      if stopped.None? {
        if now >= expires { stopped := Some(LeaseExpired); }
        else if now - lastUse >= IDLE_LIMIT { stopped := Some(IdleLimit); }
      }
      ok := stopped.None?;
    }

    method Observe(answer: Answer, foreground: bool)
      modifies this
      ensures State() == Observed(old(State()), answer, foreground)
    {
      if answer.OtherAnswer? || answer.run.fence != fence || answer.run.version < version {
        stopped := Some(InvalidResponse);
        return;
      }
      version, expires := answer.run.version, answer.run.expires;
      if foreground { floor := answer.run.version; }
      if answer.run.status != Running { stopped := Some(RunEnded); }
    }

    /** `exchange` is what the network makes of the request that is returned. */
    method Renew(now: int, key: Key, exchange: Exchange) returns (beat: Request)
      modifies this
      ensures beat == BeatToSend(old(State()), now, key)
      ensures State() == Renewed(old(State()), beat, exchange)
    {
      if pending.None? { pending := Some(Request(key, version, fence, Beat(now))); }
      beat := pending.value;
      if !Succeeds(exchange) {
        if Refused(exchange) { stopped := Some(HeartbeatRefused); }
        return;
      }
      pending := None;
      Observe(exchange.reply.answer, false);
      if exchange.reply.answer.RunAnswer? { contextUpdated := exchange.reply.answer.contextUpdate; }
    }

    /** One pass of the renewal loop; `again` says whether the loop goes on. */
    method Maintain(now: int, closed: bool, key: Key, exchange: Exchange) returns (beat: Option<Request>, again: bool)
      modifies this
      ensures beat.Some? <==> !closed && Checked(old(State()), now).stopped.None? && old(uncertain).None?
      ensures beat.Some? ==> beat.value == BeatToSend(old(State()), now, key) && State() == Renewed(old(State()), beat.value, exchange)
      ensures beat.None? ==> State() == if closed then old(State()) else Checked(old(State()), now)
      ensures again <==> !closed && stopped.None?
    {
      beat := None;
      if closed { return None, false; }
      var ok := Live(now);
      if !ok { return None, false; }
      if uncertain.None? {
        var sent := Renew(now, key, exchange);
        beat := Some(sent);
      }
      again := stopped.None?;
    }

    /** A foreground write: the request put on the wire, if any. */
    method RunCall(now: int, closed: bool, input: Input, exchange: Exchange, later: int) returns (sent: Option<Request>)
      modifies this
      ensures var d := Decided(old(State()), now, closed, input);
              match d
              case Local(l) => sent == None && State() == l
              case Send(l, q) => sent == Some(q) && input.Id() in l.writes && State() == Settled(l, later, input.Id(), exchange)
    {
      var id := input.Id();
      if id in writes && writes[id].input != input { return None; }
      if id in writes && !writes[id].applied {
        if pending.Some? || (uncertain.Some? && uncertain != Some(id)) { return None; }
        if uncertain != Some(id) {
          if closed { return None; }
          var ok := Live(now);
          if !ok { return None; }
        }
      }
      if id !in writes {
        if closed { return None; }
        var ok := Live(now);
        if !ok || pending.Some? || uncertain.Some? { return None; }
        if input.fence != fence || input.version < floor || input.version > version { return None; }
        if |writes| >= MAX_WRITES { return None; }
        writes := writes[id := RunWrite(input, Request(input.key, version, input.fence, input.body), false)];
      }
      var w := writes[id];
      sent := Some(w.request);
      if !w.applied {
        if Succeeds(exchange) || Refused(exchange) {
          if uncertain == Some(id) { uncertain := None; }
          if Succeeds(exchange) {
            writes := writes[id := w.(applied := true)];
            if Bumps(id.path) { Observe(exchange.reply.answer, true); }
          }
        } else {
          uncertain := Some(id);
        }
      }
      if exchange.Answered? && exchange.reply.Err? && Terminal(exchange.reply.refusal) { stopped := Some(WriteRefused); }
      if Succeeds(exchange) { lastUse := later; }
    }

    method ReadRun(now: int, exchange: Exchange)
      modifies this
      ensures State() == ReadSettled(old(State()), now, exchange)
    {
      if Succeeds(exchange) {
        if exchange.reply.answer.OtherAnswer? || exchange.reply.answer.run.status != Running { stopped := Some(RunEnded); }
        var ok := Live(now);
        lastUse := now;
      } else if exchange.Answered? && exchange.reply.Err? && Terminal(exchange.reply.refusal) {
        stopped := Some(ReadRefused);
      }
    }
  }

  /** The leases of one connection. */
  class LeaseSet {
    var runs: map<nat, RunLease>

    constructor ()
      ensures runs == map[]
    {
      runs := map[];
    }

    /** A replayed claim neither resets a lease nor restarts its renewal. */
    method Track(id: nat, run: RunDoc, now: int) returns (r: RunLease?)
      modifies this
      ensures r == null <==> (run.version == 0 || run.fence == 0 || run.status != Running)
      ensures r == null || id in old(runs) ==> runs == old(runs)
      ensures r != null && id in old(runs) ==> r == old(runs)[id] && r.State() == old(r.State())
      ensures r != null && id !in old(runs) ==>
                fresh(r) && runs == old(runs)[id := r] &&
                r.State() == Checked(Lease(run.version, run.version, run.fence, run.expires, now, None, false, None, None, map[]), now)
    {
      if run.version == 0 || run.fence == 0 || run.status != Running { return null; }
      if id in runs { return runs[id]; }
      var lease := new RunLease(run, now);
      runs := runs[id := lease];
      return lease;
    }
  }
}
