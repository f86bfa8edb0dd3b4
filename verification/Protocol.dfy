/** The cross-shard commit protocol as a step machine: gate sessions, the coordinator's fan-outs, the
    network between gate and tablets, the tablets, and the reapers on both sides.

    A request is sent, delivered and answered in separate steps. The gate may give up on an
    outstanding request at any time, and the request may still be delivered after that. */
module Protocol {
  import opened Tablets

  datatype SessionState = InTransaction | Committed | RolledBack

  /** One outgoing RPC of an operation in progress. */
  datatype Call = Unsent | Waiting(rid: nat) | Done(ok: bool)

  /** What the coordinator does once `rollbackAll` is over. */
  datatype After = AfterError | AfterRollback

  /** A statement and the tablets the router chose for it. */
  datatype Job = Job(stmt: Stmt, targets: seq<Addr>, scatter: bool)

  datatype Phase = CommitOne | PrepareAll | CommitAll | RollbackAll(after: After)

  /** Where the operation in progress on a session stands. Opening and Running loop over the job's
      targets one RPC at a time; a fan-out has one goroutine per participant. */
  datatype Pc =
    | Quiet
    | Opening(job: Job, next: nat, call: Call)
    | Running(job: Job, next: nat, call: Call, failed: bool)
    | FanOut(phase: Phase, calls: map<Addr, Call>)

  /** A statement answered successfully, and the tablets it ran on. */
  datatype Ran = Ran(stmt: Stmt, targets: seq<Addr>)

  /** `parts` is the session's map of participating shards. `epoch`, `attempt` and `ran` are history:
      how often the session was reopened, how many COMMITs it saw, what succeeded since BEGIN. */
  datatype Session = Session(
    state: SessionState, parts: map<Addr, nat>, pc: Pc, registered: bool,
    epoch: nat, attempt: nat, ran: seq<Ran>)

  /** History of one COMMIT attempt: its participants, which of them answered Prepared (and in reply
      to which request), which refused, timed out or had no client, and whether the coordinator has
      gone on to send commits. */
  datatype Attempt = Attempt(
    gtx: GTx, parts: map<Addr, nat>, prepared: map<Addr, nat>, refused: set<Addr>, decided: bool)

  datatype AttemptId = AttemptId(sid: nat, n: nat)

  datatype Verdict = ExecOk | CommitOk | RollbackOk | Failed

  /** What a client was told, with the participants and successful statements of that moment. */
  datatype Told = Told(gtx: GTx, attempt: nat, verdict: Verdict, parts: map<Addr, nat>, ran: seq<Ran>)

  /** `sent` remembers every request ever sent, by request number; `net` are those not yet delivered. */
  datatype State = State(
    tablets: map<Addr, Tablet>, clients: set<Addr>,
    sessions: map<nat, Session>, nextSid: nat,
    sent: map<nat, Msg>, net: set<nat>, replies: map<nat, Reply>, nextRid: nat,
    attempts: map<AttemptId, Attempt>, told: seq<Told>)

  datatype Label =
    | OpenSession
    | Rebegin(sid: nat)
    | StartExecute(sid: nat, job: Job)
    | StartCommit(sid: nat)
    | StartRollback(sid: nat)
    | Send(sid: nat, addr: Addr)
    | NoClient(sid: nat, addr: Addr)
    | Deliver(rid: nat, choice: Choice)
    | Receive(sid: nat, addr: Addr)
    | GiveUp(sid: nat, addr: Addr)
    | Advance(sid: nat, mergeOk: bool)
    | Reap(addr: Addr, id: nat)
    | SetClients(clients: set<Addr>)
    | ReapSession(sid: nat)

  /** The tablet a loop is at, or any participant of a fan-out. */
  predicate HasCall(pc: Pc, a: Addr) {
    match pc
    case Quiet => false
    case Opening(job, next, _) => next < |job.targets| && job.targets[next] == a
    case Running(job, next, _, _) => next < |job.targets| && job.targets[next] == a
    case FanOut(_, calls) => a in calls
  }

  function CallOf(pc: Pc, a: Addr): (c: Call)
    requires HasCall(pc, a)
  {
    match pc
    case Opening(_, _, call) => call
    case Running(_, _, call, _) => call
    case FanOut(_, calls) => calls[a]
  }

  function WithCall(pc: Pc, a: Addr, c: Call): (pc': Pc)
    requires HasCall(pc, a)
  {
    match pc
    case Opening(job, next, _) => Opening(job, next, c)
    case Running(job, next, _, failed) => Running(job, next, c, failed)
    case FanOut(phase, calls) => FanOut(phase, calls[a := c])
  }

  predicate AllDone(calls: map<Addr, Call>) {
    forall a | a in calls :: calls[a].Done?
  }

  predicate AllOk(calls: map<Addr, Call>) {
    forall a | a in calls :: calls[a] == Done(true)
  }

  function Fresh(parts: map<Addr, nat>): (calls: map<Addr, Call>) {
    map a | a in parts :: Unsent
  }

  /** `GetLocalTxID`: a shard that is not participating yields 0. */
  function LocalTxID(parts: map<Addr, nat>, a: Addr): (id: nat) {
    if a in parts then parts[a] else 0
  }

  /** The request the phase `pc` sends to tablet `a`. */
  function Body(s: Session, a: Addr): (r: Req)
    requires HasCall(s.pc, a)
  {
    var id := LocalTxID(s.parts, a);
    match s.pc
    case Opening(_, _, _) => BeginReq
    case Running(job, _, _, _) => ExecReq(id, job.stmt)
    case FanOut(phase, _) => FanBody(phase, id)
  }

  function FanBody(phase: Phase, id: nat): (r: Req) {
    match phase
    case PrepareAll => PrepareReq(id)
    case RollbackAll(_) => RollbackReq(id)
    case _ => CommitReq(id)
  }

  function Gtx(sid: nat, s: Session): (g: GTx) {
    GTx(sid, s.epoch)
  }

  /** A statement routed to one tablet is answered directly, without a merge. */
  predicate IsSingle(job: Job) {
    |job.targets| == 1 && !job.scatter
  }

  function Put(st: State, sid: nat, s: Session): (st': State) {
    st.(sessions := st.sessions[sid := s])
  }

  /** Ends the operation on `sid`: `s` is the session as it is left, `v` what the client is told. */
  function Tell(st: State, sid: nat, s: Session, v: Verdict): (st': State)
    requires sid in st.sessions
  {
    var was := st.sessions[sid];
    Put(st, sid, s.(pc := Quiet)).(told := st.told + [Told(Gtx(sid, was), was.attempt, v, was.parts, s.ran)])
  }

  function StartFan(st: State, sid: nat, s: Session, phase: Phase): (st': State) {
    Put(st, sid, s.(pc := FanOut(phase, Fresh(s.parts))))
  }

  /** Bookkeeping of one answer to a Prepare. */
  function Noted(at: Attempt, a: Addr, c: Call, ok: bool): (at': Attempt) {
    if ok && c.Waiting? then at.(prepared := at.prepared[a := c.rid]) else at.(refused := at.refused + {a})
  }

  function Decided(st: State, k: AttemptId): (st': State) {
    if k in st.attempts then st.(attempts := st.attempts[k := st.attempts[k].(decided := true)]) else st
  }

  /** The coordinator learns the outcome of one call. */
  function Resolve(st: State, sid: nat, a: Addr, r: Reply): (st': State)
    requires sid in st.sessions && HasCall(st.sessions[sid].pc, a)
  {
    var s := st.sessions[sid];
    match s.pc
    case Opening(job, next, _) =>
      if r.Begun? then Put(st, sid, s.(parts := s.parts[a := r.id], pc := Opening(job, next + 1, Unsent)))
      else StartFan(st, sid, s, RollbackAll(AfterError))
    case Running(job, next, _, failed) =>
      if r.Okay? then Put(st, sid, s.(pc := Running(job, next + 1, Unsent, failed)))
      else if IsSingle(job) then Tell(st, sid, s, Failed)
      else Put(st, sid, s.(pc := Running(job, next + 1, Unsent, true)))
    case FanOut(phase, calls) =>
      var st1 := Put(st, sid, s.(pc := FanOut(phase, calls[a := Done(r.Okay?)])));
      var k := AttemptId(sid, s.attempt);
      if phase.PrepareAll? && k in st.attempts
      then st1.(attempts := st.attempts[k := Noted(st.attempts[k], a, calls[a], r.Okay?)])
      else st1
  }

  /** Once every call of a phase is over, the operation moves to its next phase or answers. */
  function Moved(st: State, sid: nat, mergeOk: bool): (st': State)
    requires sid in st.sessions
  {
    var s := st.sessions[sid];
    match s.pc
    case Quiet => st
    case Opening(job, next, call) =>
      if next < |job.targets| then Put(st, sid, s.(pc := Opening(job, next + 1, call)))
      else Put(st, sid, s.(pc := Running(job, 0, Unsent, false)))
    case Running(job, _, _, failed) =>
      if !failed && (IsSingle(job) || mergeOk)
      then Tell(st, sid, s.(ran := s.ran + [Ran(job.stmt, job.targets)]), ExecOk)
      else StartFan(st, sid, s, RollbackAll(AfterError))
    case FanOut(phase, calls) =>
      match phase
      case CommitOne =>
        if AllOk(calls) then Tell(st, sid, s.(state := Committed, parts := map[]), CommitOk)
        else StartFan(st, sid, s, RollbackAll(AfterError))
      case PrepareAll =>
        if AllOk(calls) then StartFan(Decided(st, AttemptId(sid, s.attempt)), sid, s, CommitAll)
        else StartFan(st, sid, s, RollbackAll(AfterError))
      case CommitAll =>
        if AllOk(calls) then Tell(st, sid, s.(state := Committed, parts := map[]), CommitOk)
        else Tell(st, sid, s, Failed)
      case RollbackAll(AfterRollback) => Tell(st, sid, s.(state := RolledBack, parts := map[]), RollbackOk)
      case RollbackAll(AfterError) => Tell(st, sid, s, Failed)
  }

  /** A phase is over: nothing outstanding, and in a loop either the end or a tablet to skip. */
  predicate CanAdvance(s: Session) {
    match s.pc
    case Quiet => false
    case Opening(job, next, call) => call.Unsent? && (next < |job.targets| ==> job.targets[next] in s.parts)
    case Running(job, next, call, _) => call.Unsent? && next >= |job.targets|
    case FanOut(_, calls) => AllDone(calls)
  }

  /** A client request can start: the manager knows the session and nothing runs on it. */
  predicate Ready(st: State, sid: nat) {
    sid in st.sessions && st.sessions[sid].registered && st.sessions[sid].pc.Quiet?
  }

  predicate CanStart(st: State, sid: nat) {
    Ready(st, sid) && st.sessions[sid].state.InTransaction?
  }

  /** `handleBegin` without a transaction id. */
  function DoOpen(st: State): (st': State) {
    var sid := st.nextSid + 1;
    Put(st, sid, Session(InTransaction, map[], Quiet, true, 0, 0, [])).(nextSid := sid)
  }

  /** `handleBegin` with the id of a known session. */
  function DoRebegin(st: State, sid: nat): (st': State)
    requires Ready(st, sid)
  {
    var s := st.sessions[sid];
    if s.state.InTransaction? then st
    else Put(st, sid, s.(state := InTransaction, parts := map[], epoch := s.epoch + 1, ran := []))
  }

  function DoStartExecute(st: State, sid: nat, job: Job): (st': State)
    requires CanStart(st, sid)
  {
    if job.targets == [] && !job.scatter then Tell(st, sid, st.sessions[sid], Failed)
    else Put(st, sid, st.sessions[sid].(pc := Opening(job, 0, Unsent)))
  }

  function Attempted(st: State, sid: nat): (st': State)
    requires sid in st.sessions
  {
    var s := st.sessions[sid];
    Put(st, sid, s.(attempt := s.attempt + 1)).(attempts :=
      st.attempts[AttemptId(sid, s.attempt + 1) := Attempt(Gtx(sid, s), s.parts, map[], {}, |s.parts| <= 1)])
  }

  function DoStartCommit(st: State, sid: nat): (st': State)
    requires CanStart(st, sid)
  {
    var st1 := Attempted(st, sid);
    var s := st1.sessions[sid];
    if |s.parts| == 0 then Tell(st1, sid, s.(state := Committed), CommitOk)
    else if |s.parts| == 1 then StartFan(st1, sid, s, CommitOne)
    else StartFan(st1, sid, s, PrepareAll)
  }

  function DoStartRollback(st: State, sid: nat): (st': State)
    requires CanStart(st, sid)
  {
    StartFan(st, sid, st.sessions[sid], RollbackAll(AfterRollback))
  }

  predicate CanSend(st: State, sid: nat, a: Addr) {
    && sid in st.sessions
    && var s := st.sessions[sid];
    && HasCall(s.pc, a) && CallOf(s.pc, a).Unsent?
    && (s.pc.FanOut? ==> a in st.clients)
    && (s.pc.Opening? ==> a !in s.parts)
  }

  function DoSend(st: State, sid: nat, a: Addr): (st': State)
    requires CanSend(st, sid, a)
  {
    var s := st.sessions[sid];
    var rid := st.nextRid;
    Put(st, sid, s.(pc := WithCall(s.pc, a, Waiting(rid)))).(
      sent := st.sent[rid := Msg(Gtx(sid, s), s.attempt, a, Body(s, a))],
      net := st.net + {rid}, nextRid := rid + 1)
  }

  /** A goroutine finds no client for its tablet. A one-shard COMMIT gives up at once, without a
      rollback; a fan-out records the failure. */
  predicate CanMiss(st: State, sid: nat, a: Addr) {
    && sid in st.sessions
    && var s := st.sessions[sid];
    && s.pc.FanOut? && a in s.pc.calls && s.pc.calls[a].Unsent? && a !in st.clients
  }

  function DoMiss(st: State, sid: nat, a: Addr): (st': State)
    requires CanMiss(st, sid, a)
  {
    var s := st.sessions[sid];
    if s.pc.phase.CommitOne? then Tell(st, sid, s, Failed) else Resolve(st, sid, a, Refused)
  }

  predicate IsWaiting(st: State, sid: nat, a: Addr) {
    sid in st.sessions && HasCall(st.sessions[sid].pc, a) && CallOf(st.sessions[sid].pc, a).Waiting?
  }

  predicate CanDeliver(st: State, rid: nat) {
    rid in st.net && rid in st.sent && st.sent[rid].addr in st.tablets
  }

  function DoDeliver(st: State, rid: nat, choice: Choice): (st': State)
    requires CanDeliver(st, rid)
  {
    var m := st.sent[rid];
    var (t, r) := Serve(st.tablets[m.addr], rid, m, choice);
    st.(tablets := st.tablets[m.addr := t], net := st.net - {rid}, replies := st.replies[rid := r])
  }

  /** The tablet's reaper rolls back an idle transaction. */
  function DoReap(st: State, a: Addr, id: nat): (st': State)
    requires a in st.tablets
  {
    var t := st.tablets[a];
    if id in t.live && id in t.locals
    then st.(tablets := st.tablets[a := Ended(t, id, t.locals[id].(aborted := true))])
    else st
  }

  predicate Enabled(st: State, l: Label) {
    match l
    case OpenSession => true
    case Rebegin(sid) => Ready(st, sid)
    case StartExecute(sid, job) => CanStart(st, sid) && forall a | a in job.targets :: a in st.clients
    case StartCommit(sid) => CanStart(st, sid)
    case StartRollback(sid) => CanStart(st, sid)
    case Send(sid, a) => CanSend(st, sid, a)
    case NoClient(sid, a) => CanMiss(st, sid, a)
    case Deliver(rid, _) => CanDeliver(st, rid)
    case Receive(sid, a) => IsWaiting(st, sid, a) && CallOf(st.sessions[sid].pc, a).rid in st.replies
    case GiveUp(sid, a) => IsWaiting(st, sid, a)
    case Advance(sid, _) => sid in st.sessions && CanAdvance(st.sessions[sid])
    case Reap(a, _) => a in st.tablets
    case SetClients(clients) => clients <= st.tablets.Keys
    case ReapSession(sid) => sid in st.sessions
  }

  function Apply(st: State, l: Label): (st': State)
    requires Enabled(st, l)
  {
    match l
    case OpenSession => DoOpen(st)
    case Rebegin(sid) => DoRebegin(st, sid)
    case StartExecute(sid, job) => DoStartExecute(st, sid, job)
    case StartCommit(sid) => DoStartCommit(st, sid)
    case StartRollback(sid) => DoStartRollback(st, sid)
    case Send(sid, a) => DoSend(st, sid, a)
    case NoClient(sid, a) => DoMiss(st, sid, a)
    case Deliver(rid, choice) => DoDeliver(st, rid, choice)
    case Receive(sid, a) => Resolve(st, sid, a, st.replies[CallOf(st.sessions[sid].pc, a).rid])
    case GiveUp(sid, a) => Resolve(st, sid, a, Refused)
    case Advance(sid, mergeOk) => Moved(st, sid, mergeOk)
    case Reap(a, id) => DoReap(st, a, id)
    case SetClients(clients) => st.(clients := clients)
    case ReapSession(sid) => Put(st, sid, st.sessions[sid].(registered := false))
  }

  /** Any set of tablets with no transactions, no sessions, nothing on the wire. */
  predicate Init(st: State) {
    && (forall a | a in st.tablets :: st.tablets[a] == EmptyTablet)
    && st.clients <= st.tablets.Keys
    && st == State(st.tablets, st.clients, map[], 0, map[], {}, map[], 0, map[], [])
  }

  /** A run: its states and the labels between them. */
  ghost predicate IsRun(ss: seq<State>, ls: seq<Label>) {
    && |ss| == |ls| + 1
    && Init(ss[0])
    && forall i | 0 <= i < |ls| :: Enabled(ss[i], ls[i]) && ss[i + 1] == Apply(ss[i], ls[i])
  }
}
