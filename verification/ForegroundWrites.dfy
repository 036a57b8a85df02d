/** Which foreground writes leave the bridge, told from what the agent has heard. */
module ForegroundWrites {
  import opened Options
  import opened RunApi
  import opened RunLeases
  import opened LeaseProtocol

  // --- What the agent has heard ---------------------------------------------------------

  /** The request this step puts on the wire for the agent, and the reply if it comes back. */
  ghost function Conversation(h: Joint, step: Step): Option<(Request, Reply)> {
    if step.Write? && step.fate == Reached && Decided(h.lease, h.now, h.closed, step.input).Send? then
      var q := Decided(h.lease, h.now, h.closed, step.input).request;
      Some((q, Serve(h.server, h.now, q, step.judgement).1))
    else None
  }

  /** A heartbeat or report of the agent has been answered for the first time: the version it was told. */
  ghost function Told(h: Joint, step: Step): Option<nat> {
    match Conversation(h, step)
    case Some((q, Ok(RunAnswer(run, _)))) =>
      if Bumps(PathOf(q.body)) && !(q.Id() in h.lease.writes && h.lease.writes[q.Id()].applied) then Some(run.version) else None
    case _ => None
  }

  /** The version the agent was last told: by the claim, or by a heartbeat or report of its own. */
  ghost function LastForeground(states: seq<Joint>, steps: seq<Step>, k: nat): nat
    requires |states| == |steps| + 1 && k < |states|
  {
    if k == 0 then states[0].server.version
    else
      match Told(states[k - 1], steps[k - 1])
      case Some(version) => version
      case None => LastForeground(states, steps, k - 1)
  }

  /** The agent has used the Run: a write answered with success, or a read. */
  ghost predicate Used(h: Joint, step: Step) {
    || (step.Read? && step.fate == Reached && step.refusal.None?)
    || (Conversation(h, step).Some? && Conversation(h, step).value.1.Ok?)
  }

  /** When the agent last used the Run, the claim included. */
  ghost function LastUse(states: seq<Joint>, steps: seq<Step>, k: nat): int
    requires |states| == |steps| + 1 && k < |states|
  {
    if k == 0 then states[0].now
    else if Used(states[k - 1], steps[k - 1]) then states[k - 1].now
    else LastUse(states, steps, k - 1)
  }

  /** The reply to a background heartbeat that comes back and shows the Run: whether there is a newer Context. */
  ghost function Noticed(h: Joint, step: Step): Option<bool> {
    var l := Checked(h.lease, h.now);
    if step.Renewal? && step.fate == Reached && !h.closed && l.stopped.None? && l.uncertain.None? then
      match Serve(h.server, h.now, BeatToSend(l, h.now, step.key), step.judgement).1
      case Ok(RunAnswer(_, contextUpdate)) => Some(contextUpdate)
      case _ => None
    else None
  }

  /** What the last such reply said. */
  ghost function LastNotice(states: seq<Joint>, steps: seq<Step>, k: nat): bool
    requires |states| == |steps| + 1 && k < |states|
  {
    if k == 0 then false
    else
      match Noticed(states[k - 1], steps[k - 1])
      case Some(contextUpdate) => contextUpdate
      case None => LastNotice(states, steps, k - 1)
  }

  // --- The lease keeps them ---------------------------------------------------------------

  lemma SettledFacts(l: Lease, now: int, id: WriteId, e: Exchange)
    requires id in l.writes
    ensures var r := Settled(l, now, id, e);
            && r.lastUse == (if Succeeds(e) then now else l.lastUse) && r.contextUpdated == l.contextUpdated
            && (r.stopped.None? ==> r.floor == if Succeeds(e) && Bumps(id.path) && !l.writes[id].applied && e.reply.answer.RunAnswer?
                                               then e.reply.answer.run.version else l.floor)
  {
  }

  lemma DecidedFacts(l: Lease, now: int, closed: bool, input: Input)
    ensures match Decided(l, now, closed, input)
            case Local(m) => m.floor == l.floor && m.lastUse == l.lastUse && m.contextUpdated == l.contextUpdated
            case Send(m, q) =>
              && m.floor == l.floor && m.lastUse == l.lastUse && m.contextUpdated == l.contextUpdated && input.Id() in m.writes && q == m.writes[input.Id()].request
              && (m.writes[input.Id()].applied <==> input.Id() in l.writes && l.writes[input.Id()].applied)
  {
  }

  lemma WriteTells(h: Joint, input: Input, fate: Fate, j: Judgement)
    requires Invariant(h) && input.key.Chosen?
    ensures var step := Write(input, fate, j);
            var l := Next(h, step).lease;
            && l.lastUse == (if Used(h, step) then h.now else h.lease.lastUse)
            && l.contextUpdated == (match Noticed(h, step) case Some(contextUpdate) => contextUpdate case None => h.lease.contextUpdated)
            && (l.stopped.None? ==> l.floor == match Told(h, step) case Some(version) => version case None => h.lease.floor)
  {
    DecidedFacts(h.lease, h.now, h.closed, input);
    var d := Decided(h.lease, h.now, h.closed, input);
    if d.Send? {
      SettledFacts(d.lease, h.now, input.Id(), Exchanged(h.server, h.now, d.request, fate, j).1);
      WireId(h, input);
    }
  }

  lemma WireId(h: Joint, input: Input)
    requires Invariant(h) && Decided(h.lease, h.now, h.closed, input).Send?
    ensures Decided(h.lease, h.now, h.closed, input).request.Id() == input.Id()
  {
    if input.Id() in h.lease.writes { assert FiledAs(h.lease.writes[input.Id()], input.Id(), h.lease); }
  }

  lemma RenewalTells(h: Joint, key: Key, fate: Fate, j: Judgement)
    ensures var step := Renewal(key, fate, j);
            var l := Next(h, step).lease;
            && l.lastUse == h.lease.lastUse && l.floor == h.lease.floor
            && l.contextUpdated == (match Noticed(h, step) case Some(contextUpdate) => contextUpdate case None => h.lease.contextUpdated)
  {
    var l := Checked(h.lease, h.now);
    var q := BeatToSend(l, h.now, key);
    RenewedFacts(l, q, Exchanged(h.server, h.now, q, fate, j).1);
  }

  lemma RenewedFacts(l: Lease, beat: Request, e: Exchange)
    ensures Renewed(l, beat, e).lastUse == l.lastUse && Renewed(l, beat, e).floor == l.floor
    ensures Renewed(l, beat, e).contextUpdated == if Succeeds(e) && e.reply.answer.RunAnswer? then e.reply.answer.contextUpdate else l.contextUpdated
  {
  }

  lemma StepTells(h: Joint, step: Step)
    requires Invariant(h) && Possible(h, step)
    ensures var l := Next(h, step).lease;
            && l.lastUse == (if Used(h, step) then h.now else h.lease.lastUse)
            && l.contextUpdated == (match Noticed(h, step) case Some(contextUpdate) => contextUpdate case None => h.lease.contextUpdated)
            && (l.stopped.None? ==> l.floor == match Told(h, step) case Some(version) => version case None => h.lease.floor)
  {
    match step
    case Write(input, fate, j) => WriteTells(h, input, fate, j);
    case Renewal(key, fate, j) => RenewalTells(h, key, fate, j);
    case _ =>
  }

  lemma ToldAt(states: seq<Joint>, steps: seq<Step>, k: nat, next: nat)
    requires IsRun(states, steps) && next == k + 1 && next < |states|
    requires states[k].lease.lastUse == LastUse(states, steps, k) && states[k].lease.contextUpdated == LastNotice(states, steps, k)
    requires states[k].lease.stopped.None? ==> states[k].lease.floor == LastForeground(states, steps, k)
    ensures states[next].lease.lastUse == LastUse(states, steps, next) && states[next].lease.contextUpdated == LastNotice(states, steps, next)
    ensures states[next].lease.stopped.None? ==> states[next].lease.floor == LastForeground(states, steps, next)
  {
    RunKeeps(states, steps, k);
    assert StepsAt(states, steps, k);
    StepTells(states[k], steps[k]);
    if states[k].lease.stopped.Some? { EndedForGood(states, steps, k, next); }
  }

  /** The lease knows when it was last used, whether a heartbeat last noticed a newer Context and, while it goes on, what the
      agent was last told. */
  lemma {:induction false} LeaseRemembers(states: seq<Joint>, steps: seq<Step>, k: nat)
    requires IsRun(states, steps) && k < |states|
    ensures states[k].lease.lastUse == LastUse(states, steps, k) && states[k].lease.contextUpdated == LastNotice(states, steps, k)
    ensures states[k].lease.stopped.None? ==> states[k].lease.floor == LastForeground(states, steps, k)
  {
    if k > 0 {
      LeaseRemembers(states, steps, k - 1);
      ToldAt(states, steps, k - 1, k);
    }
  }

  // --- What goes out -------------------------------------------------------------------------

  /** Not stopped, not expired, and used within the last half hour. */
  ghost predicate Alive(h: Joint, lastUse: int) {
    !h.closed && h.lease.stopped.None? && h.now < h.lease.expires && h.now - lastUse < 30 * 60
  }

  ghost predicate Unknown(h: Joint) { h.lease.pending.Some? || h.lease.uncertain.Some? }

  /** A first-time write goes out exactly when the lease is alive, no outcome is unknown, there is room for it, the fence
      is that of the claim, and the version is none older than the agent was last told and none newer than there is. It
      goes out under the server's own version. */
  lemma FirstWriteGoesOutIff(states: seq<Joint>, steps: seq<Step>, k: nat, input: Input, fate: Fate, j: Judgement)
    requires IsRun(states, steps) && k < |states| && input.key.Chosen? && input.Id() !in states[k].lease.writes
    ensures var h := states[k];
            var after := Next(h, Write(input, fate, j));
            if && Alive(h, LastUse(states, steps, k)) && !Unknown(h) && |h.lease.writes| < 4096
               && input.fence == states[0].server.fence && LastForeground(states, steps, k) <= input.version <= h.lease.version
            then exists version ::
                   && after.sent == h.sent + {Request(input.key, version, input.fence, input.body)} && after.sent != h.sent
                   && (h.server.status == Running ==> version == h.server.version && h.lease.expires == h.server.expires)
            else after.sent == h.sent && after.air == h.air && after.server == h.server
  {
    var h := states[k];
    RunKeeps(states, steps, k);
    LeaseRemembers(states, steps, k);
    FenceFixed(states, steps, k);
    var d := Decided(h.lease, h.now, h.closed, input);
    if d.Send? {
      DecidedFirst(h, input, d.lease, d.request);
      assert d.request !in h.sent;
      assert Next(h, Write(input, fate, j)).sent == h.sent + {d.request};
    }
  }

  /** So a call with a version older than the agent was last told stays at home. */
  lemma StaleVersionStaysHome(states: seq<Joint>, steps: seq<Step>, k: nat, input: Input, fate: Fate, j: Judgement)
    requires IsRun(states, steps) && k < |states| && input.key.Chosen? && input.Id() !in states[k].lease.writes
    requires input.version < LastForeground(states, steps, k)
    ensures var after := Next(states[k], Write(input, fate, j));
            after.sent == states[k].sent && after.air == states[k].air && after.server == states[k].server
  {
    FirstWriteGoesOutIff(states, steps, k, input, fate, j);
  }

  /** And a call with the version the agent was last told goes out while the lease is alive and nothing is unknown,
      however many background heartbeats there were in between. */
  lemma ForegroundVersionGoesOut(states: seq<Joint>, steps: seq<Step>, k: nat, input: Input, fate: Fate, j: Judgement)
    requires IsRun(states, steps) && k < |states| && input.key.Chosen? && input.Id() !in states[k].lease.writes
    requires var h := states[k];
             && Alive(h, LastUse(states, steps, k)) && !Unknown(h) && |h.lease.writes| < 4096 && h.server.status == Running
             && input.fence == states[0].server.fence && input.version == LastForeground(states, steps, k)
    ensures var h := states[k];
            var q := Request(input.key, h.server.version, input.fence, input.body);
            q !in h.sent && Next(h, Write(input, fate, j)).sent == h.sent + {q}
  {
    RunKeeps(states, steps, k);
    LeaseRemembers(states, steps, k);
    FirstWriteGoesOutIff(states, steps, k, input, fate, j);
  }

  /** A renewal sends the heartbeat whose outcome is unknown, or else a new one, exactly when the lease is alive and no
      write is unknown. A lease that is no longer alive is stopped, so half an hour after its last use it is. */
  lemma HeartbeatGoesOutIff(states: seq<Joint>, steps: seq<Step>, k: nat, key: Key, fate: Fate, j: Judgement)
    requires IsRun(states, steps) && k < |states| && Possible(states[k], Renewal(key, fate, j))
    ensures var h := states[k];
            var after := Next(h, Renewal(key, fate, j));
            if Alive(h, LastUse(states, steps, k)) && h.lease.uncertain.None?
            then exists q :: && after.sent == h.sent + {q} && q.body.Beat?
                             && (if h.lease.pending.Some? then q == h.lease.pending.value && q in h.sent
                                 else q !in h.sent && q.key == key && q.version == h.lease.version && q.fence == states[0].server.fence)
            else && after.sent == h.sent && after.air == h.air && after.server == h.server
                 && (!h.closed && !Alive(h, LastUse(states, steps, k)) ==> after.lease.stopped.Some?)
  {
    var h := states[k];
    RunKeeps(states, steps, k);
    LeaseRemembers(states, steps, k);
    FenceFixed(states, steps, k);
    var l := Checked(h.lease, h.now);
    if !h.closed && l.stopped.None? && l.uncertain.None? {
      var q := BeatToSend(l, h.now, key);
      assert Next(h, Renewal(key, fate, j)).sent == h.sent + {q};
    }
  }
}
