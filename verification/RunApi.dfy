/** The server's side of the writes to one claimed Run: preconditions, fencing and stored idempotent replies. */
module RunApi {
  import opened Options

  /** A caller chooses its keys; the bridge draws its own at random, never to be met again. */
  datatype Key = Chosen(n: nat) | Generated(n: nat)
  datatype Path = Heartbeat | Reports | Contents | Artifacts
  datatype ReportKind = Progress | CompletionCandidate | Failure
  datatype Body =
    | Beat(observedAt: int)
    | Report(kind: ReportKind, message: nat)
    | Upload(content: nat)
    | Register(artifact: nat)
    | Malformed(path: Path, raw: nat)

  function PathOf(b: Body): Path {
    match b
    case Beat(_) => Heartbeat
    case Report(_, _) => Reports
    case Upload(_) => Contents
    case Register(_) => Artifacts
    case Malformed(path, _) => path
  }

  /** One logical write: the route and the idempotency key. */
  datatype WriteId = WriteId(path: Path, key: Key)

  /** What goes over the wire: If-Match carries the version, X-Run-Fencing-Token the fence. */
  datatype Request = Request(key: Key, version: nat, fence: nat, body: Body) {
    function Id(): WriteId { WriteId(PathOf(body), key) }
  }

  datatype Status = Running | Succeeded | Failed | Canceled | Lost
  datatype RunDoc = RunDoc(version: nat, fence: nat, status: Status, expires: int)
  datatype Answer = RunAnswer(run: RunDoc, contextUpdate: bool) | OtherAnswer

  datatype Refusal =
    | Unauthenticated | Forbidden | OwnerInactive | NotFound | InvalidBody | Unprocessable
    | IdempotencyConflict | StaleFence | RunInactive | ProjectArchived | VersionConflict
    | RequestTimeout | TooManyRequests | InternalError | Maintenance

  function HttpStatus(r: Refusal): nat {
    match r
    case Unauthenticated => 401
    case Forbidden => 403
    case OwnerInactive => 403
    case NotFound => 404
    case InvalidBody => 400
    case Unprocessable => 422
    case IdempotencyConflict => 409
    case StaleFence => 409
    case RunInactive => 409
    case ProjectArchived => 409
    case VersionConflict => 412
    case RequestTimeout => 408
    case TooManyRequests => 429
    case InternalError => 500
    case Maintenance => 503
  }

  datatype Reply = Ok(answer: Answer) | Err(refusal: Refusal)

  datatype Record = Record(request: Request, answer: Answer)

  /** The Run row, the session's stored replies, and the history of committed writes. */
  datatype Server = Server(version: nat, fence: nat, status: Status, expires: int,
                           records: map<WriteId, Record>, log: seq<Request>)

  /** What the server decides from state outside the Run: authentication, membership, scope, the
      maintenance gate and the archive gate at the door; the owner's membership; the handler's own
      verdict on the body (evidence, parents, sizes); whether a newer Context exists. */
  datatype Judgement = Judgement(door: Option<Refusal>, ownerActive: bool, verdict: Option<Refusal>, contextUpdate: bool)

  predicate DoorRefusal(r: Refusal, s: Server) {
    || r in {Unauthenticated, Forbidden, NotFound, RequestTimeout, TooManyRequests, InternalError, Maintenance}
    || (r == ProjectArchived && s.status != Running)
  }

  predicate VerdictRefusal(r: Refusal) { r in {Unprocessable, NotFound, InternalError} }

  predicate Admissible(j: Judgement, s: Server) {
    && (j.door.Some? ==> DoorRefusal(j.door.value, s))
    && (j.verdict.Some? ==> VerdictRefusal(j.verdict.value))
  }

  /** `checkRun`: the fence always, liveness and the owner unless a receipt is read, the version last. */
  function CheckRun(s: Server, now: int, q: Request, j: Judgement, live: bool, conditional: bool): Option<Refusal> {
    if q.fence != s.fence then Some(StaleFence)
    else if live && (s.status != Running || now >= s.expires) then Some(RunInactive)
    else if live && !j.ownerActive then Some(OwnerInactive)
    else if conditional && q.version != s.version then Some(VersionConflict)
    else None
  }

  const LEASE := 90

  /** Heartbeats and reports move the Run's version; uploads and registrations do not. */
  predicate Bumps(path: Path) { path == Heartbeat || path == Reports }

  function Ended(kind: ReportKind): Status {
    match kind
    case Progress => Running
    case CompletionCandidate => Succeeded
    case Failure => Failed
  }

  function Committed(s: Server, now: int, q: Request, contextUpdate: bool): (Server, Answer) {
    var row := match q.body
      case Beat(_) => s.(version := s.version + 1, expires := now + LEASE)
      case Report(kind, _) => s.(version := s.version + 1, status := Ended(kind))
      case _ => s;
    var answer := if Bumps(PathOf(q.body)) then RunAnswer(RunDoc(row.version, row.fence, row.status, row.expires), contextUpdate)
                  else OtherAnswer;
    (row.(records := s.records[q.Id() := Record(q, answer)], log := s.log + [q]), answer)
  }

  /** `execute` for a fenced write: door, body, stored reply (re-authorised), else the handler. */
  function Serve(s: Server, now: int, q: Request, j: Judgement): (Server, Reply) {
    if j.door.Some? then (s, Err(j.door.value))
    else if q.body.Malformed? then (s, Err(InvalidBody))
    else if q.Id() in s.records then
      var stored := s.records[q.Id()];
      if stored.request != q then (s, Err(IdempotencyConflict))
      else
        var receipt := PathOf(q.body) == Reports && s.status in {Succeeded, Failed};
        match CheckRun(s, now, q, j, !receipt, false)
        case Some(r) => (s, Err(r))
        case None => (s, Ok(stored.answer))
    else
      match CheckRun(s, now, q, j, true, true)
      case Some(r) => (s, Err(r))
      case None =>
        if j.verdict.Some? then (s, Err(j.verdict.value))
        else
          var (next, answer) := Committed(s, now, q, j.contextUpdate);
          (next, Ok(answer))
  }

  /** A human cancels, or the worker closes a lost Run. */
  function EndRun(s: Server, status: Status): Server {
    if s.status == Running && status in {Canceled, Lost} then s.(status := status, version := s.version + 1) else s
  }

  // --- What a request can do ----------------------------------------------

  /** The answer is the Run row as it now stands. */
  ghost predicate Shows(answer: Answer, s: Server) {
    answer.RunAnswer? && answer.run == RunDoc(s.version, s.fence, s.status, s.expires)
  }

  ghost predicate Commits(s: Server, q: Request, next: Server) {
    && q.Id() !in s.records && s.status == Running && q.version == s.version && q.fence == s.fence && !q.body.Malformed?
    && next.records.Keys == s.records.Keys + {q.Id()} && next.records[q.Id()].request == q
    && (forall k :: k in s.records ==> next.records[k] == s.records[k])
    && next.log == s.log + [q] && next.fence == s.fence
    && next.version == s.version + (if Bumps(PathOf(q.body)) then 1 else 0)
    && (Bumps(PathOf(q.body)) ==> Shows(next.records[q.Id()].answer, next))
    && (q.body.Report? ==> next.status == Ended(q.body.kind)) && (!q.body.Report? ==> next.status == Running)
  }

  /** A request either changes nothing, or commits one new record under its own current version. */
  lemma ServeEffect(s: Server, now: int, q: Request, j: Judgement)
    ensures var (next, reply) := Serve(s, now, q, j);
            || (next == s && (reply.Ok? ==> q.Id() in s.records && s.records[q.Id()] == Record(q, reply.answer)))
            || (Commits(s, q, next) && reply == Ok(next.records[q.Id()].answer))
  {
  }

  /** The Run is running under a live lease for an active owner. */
  ghost predicate Ongoing(s: Server, now: int, j: Judgement) { s.status == Running && now < s.expires && j.ownerActive }

  /** A write commits if and only if it is new, well formed and let in, with the Run's fence and version while the Run is
      alive, and its content is accepted; a heartbeat then renews the lease by 90 seconds. A committed write is answered from
      the store if and only if it comes again unchanged and is let in under the Run's fence while the Run is alive - or, for a
      report, once the Run has succeeded or failed. Everything else is refused and changes nothing. */
  lemma ServedIff(s: Server, now: int, q: Request, j: Judgement)
    ensures var (next, reply) := Serve(s, now, q, j);
            var fenced := j.door.None? && !q.body.Malformed? && q.fence == s.fence;
            if q.Id() in s.records
            then next == s && (reply.Ok? <==> fenced && s.records[q.Id()].request == q
                                              && (Ongoing(s, now, j) || (q.body.Report? && s.status in {Succeeded, Failed})))
            else if fenced && Ongoing(s, now, j) && q.version == s.version && j.verdict.None?
            then Commits(s, q, next) && reply.Ok? && next.expires == if q.body.Beat? then now + 90 else s.expires
            else next == s && reply.Err?
  {
  }

  /** A committed write is refused later only for reasons that outlast the request. */
  lemma RefusedReplay(s: Server, now: int, q: Request, j: Judgement)
    requires Admissible(j, s) && s.status == Running
    requires q.Id() in s.records && s.records[q.Id()].request == q && !q.body.Malformed?
    ensures var (next, reply) := Serve(s, now, q, j);
            next == s && (reply.Err? ==>
              reply.refusal in {Unauthenticated, Forbidden, NotFound, StaleFence, RunInactive, OwnerInactive,
                                RequestTimeout, TooManyRequests, InternalError, Maintenance})
  {
  }
}
