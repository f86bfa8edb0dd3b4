/** What every step of the protocol keeps. */
module ProtocolInvariant {
  import opened Tablets
  import opened Protocol

  /** Local transaction `id` of tablet `a` exists and was begun for `g`. */
  ghost predicate Owned(st: State, a: Addr, id: nat, g: GTx) {
    a in st.tablets && id != 0 && id in st.tablets[a].locals && st.tablets[a].locals[id].owner == g
  }

  ghost predicate IsSent(st: State, rid: nat, m: Msg) {
    rid in st.sent && st.sent[rid] == m
  }

  /** Exactly one commit ever took effect on `id`, and a request of attempt `n` of `g` caused it. */
  ghost predicate CommittedBy(st: State, a: Addr, id: nat, g: GTx, n: nat) {
    && Owned(st, a, id, g)
    && var l := st.tablets[a].locals[id];
    |l.commits| == 1 && IsSent(st, l.commits[0], Msg(g, n, a, CommitReq(id)))
  }

  ghost predicate RanIn(st: State, a: Addr, id: nat, stmt: Stmt) {
    a in st.tablets && id in st.tablets[a].locals && stmt in st.tablets[a].locals[id].stmts
  }

  /** Every target of a successful statement participates, and the statement ran in the session's
      own local transaction there. */
  ghost predicate RanInside(st: State, parts: map<Addr, nat>, r: Ran) {
    forall a | a in r.targets :: a in parts && RanIn(st, a, parts[a], r.stmt)
  }

  /** A successful statement ran, on at least one of its targets, in the session's own local transaction. */
  ghost predicate RanOnTarget(st: State, parts: map<Addr, nat>, r: Ran) {
    exists a :: a in r.targets && a in parts && RanIn(st, a, parts[a], r.stmt)
  }

  /** A statement ran somewhere exactly if it had a target at all. */
  lemma RanSomewhereIff(st: State, parts: map<Addr, nat>, r: Ran)
    requires RanInside(st, parts, r)
    ensures RanOnTarget(st, parts, r) <==> r.targets != []
  {
    hide RanIn;
    if r.targets != [] {
      assert r.targets[0] in r.targets;
    }
  }

  /** Participant `b` answered Prepared to request `rid` of attempt `n`. */
  ghost predicate PreparedBy(st: State, b: Addr, id: nat, g: GTx, n: nat, rid: nat) {
    IsSent(st, rid, Msg(g, n, b, PrepareReq(id))) && rid in st.replies && st.replies[rid].Okay?
  }

  /** No further COMMIT of `g` can start: the session was reopened, or is no longer in a transaction. */
  ghost predicate Closed(st: State, g: GTx) {
    && g.sid in st.sessions
    && var s := st.sessions[g.sid];
    s.epoch > g.epoch || (s.epoch == g.epoch && !s.state.InTransaction?)
  }

  /** A commit request is backed by an attempt of its gate transaction that decided to commit. */
  ghost predicate Licensed(st: State, m: Msg)
    requires m.body.CommitReq?
  {
    var k := AttemptId(m.gtx.sid, m.attempt);
    && k in st.attempts
    && var at := st.attempts[k];
    at.gtx == m.gtx && m.addr in at.parts && at.parts[m.addr] == m.body.id && at.decided
  }

  ghost predicate BasicOk(st: State) {
    && st.clients <= st.tablets.Keys
    && (forall rid | rid in st.sent :: rid < st.nextRid)
    && st.net <= st.sent.Keys
    && (forall rid | rid in st.replies :: rid in st.sent && rid !in st.net)
    && (forall rid | rid in st.sent :: rid in st.net || rid in st.replies)
    && (forall sid | sid in st.sessions :: 1 <= sid <= st.nextSid)
    && (forall k | k in st.attempts :: k.sid in st.sessions && k.n <= st.sessions[k.sid].attempt)
  }

  ghost predicate TabletEntryOk(st: State, a: Addr)
    requires a in st.tablets
  {
    var t := st.tablets[a];
    && TabletOk(t) && t.auto == []
    && forall id | id in t.locals && t.locals[id].commits != [] ::
         exists n :: CommittedBy(st, a, id, t.locals[id].owner, n)
  }

  ghost predicate MsgOk(st: State, rid: nat)
    requires rid in st.sent
  {
    var m := st.sent[rid];
    && m.addr in st.tablets
    && m.gtx.sid in st.sessions && m.gtx.epoch <= st.sessions[m.gtx.sid].epoch
    && m.attempt <= st.sessions[m.gtx.sid].attempt
    && (!m.body.BeginReq? ==> Owned(st, m.addr, m.body.id, m.gtx))
    && (m.body.CommitReq? ==> Licensed(st, m))
  }

  /** Local transaction `id` of tablet `a` is not live any more: it was aborted or committed. */
  ghost predicate HasEnded(st: State, a: Addr, id: nat) {
    && a in st.tablets && id in st.tablets[a].locals && id !in st.tablets[a].live
    && (st.tablets[a].locals[id].aborted || st.tablets[a].locals[id].commits != [])
  }

  ghost predicate ReplyOk(st: State, rid: nat)
    requires rid in st.replies && rid in st.sent
  {
    var m, r := st.sent[rid], st.replies[rid];
    match m.body
    case BeginReq => r.Begun? ==> Owned(st, m.addr, r.id, m.gtx)
    case ExecReq(id, stmt) => r.Okay? ==> RanIn(st, m.addr, id, stmt)
    case CommitReq(id) => r.Okay? ==> CommittedBy(st, m.addr, id, m.gtx, m.attempt)
    case RollbackReq(id) => HasEnded(st, m.addr, id)
    case _ => true
  }

  ghost predicate AttemptOk(st: State, k: AttemptId)
    requires k in st.attempts
  {
    var at := st.attempts[k];
    && at.gtx.sid == k.sid && k.sid in st.sessions && at.gtx.epoch <= st.sessions[k.sid].epoch
    && at.prepared.Keys <= at.parts.Keys && at.refused <= at.parts.Keys - at.prepared.Keys
    && (at.decided && |at.parts| >= 2 ==> at.prepared.Keys == at.parts.Keys)
    && forall b | b in at.prepared :: PreparedBy(st, b, at.parts[b], at.gtx, k.n, at.prepared[b])
  }

  /** An outstanding call waits for the request the phase sent for it. */
  ghost predicate CallOk(st: State, sid: nat, s: Session, a: Addr, c: Call)
    requires HasCall(s.pc, a)
  {
    c.Waiting? ==> IsSent(st, c.rid, Msg(Gtx(sid, s), s.attempt, a, Body(s, a)))
  }

  ghost predicate FanOk(st: State, sid: nat, s: Session)
    requires s.pc.FanOut?
  {
    var k, calls := AttemptId(sid, s.attempt), s.pc.calls;
    && calls.Keys == s.parts.Keys
    && (forall a | a in calls && calls[a].Waiting? ::
          IsSent(st, calls[a].rid, Msg(Gtx(sid, s), s.attempt, a, FanBody(s.pc.phase, s.parts[a]))))
    && (!s.pc.phase.RollbackAll? ==>
          k in st.attempts && st.attempts[k].gtx == Gtx(sid, s) && st.attempts[k].parts == s.parts)
    && match s.pc.phase
       case CommitOne => |s.parts| == 1 && st.attempts[k].decided && forall a | a in calls && calls[a] == Done(true) ::
         CommittedBy(st, a, s.parts[a], Gtx(sid, s), s.attempt)
       case PrepareAll =>
         && |s.parts| >= 2 && !st.attempts[k].decided
         && (forall a | a in calls :: calls[a] == Done(true) <==> a in st.attempts[k].prepared)
         && (forall a | a in calls :: calls[a] == Done(false) <==> a in st.attempts[k].refused)
       case CommitAll =>
         && |s.parts| >= 2 && st.attempts[k].decided
         && forall a | a in calls && calls[a] == Done(true) ::
              CommittedBy(st, a, s.parts[a], Gtx(sid, s), s.attempt)
       case RollbackAll(_) => true
  }

  ghost predicate PcOk(st: State, sid: nat, s: Session) {
    match s.pc
    case Quiet => true
    case Opening(job, next, call) =>
      && next <= |job.targets| && !call.Done?
      && (forall a | a in job.targets :: a in st.tablets)
      && (forall i | 0 <= i < next :: job.targets[i] in s.parts)
      && (call.Waiting? ==>
            next < |job.targets| && job.targets[next] !in s.parts && CallOk(st, sid, s, job.targets[next], call))
    case Running(job, next, call, failed) =>
      && next <= |job.targets| && !call.Done?
      && (forall a | a in job.targets :: a in s.parts)
      && (!failed ==> forall i | 0 <= i < next :: RanIn(st, job.targets[i], s.parts[job.targets[i]], job.stmt))
      && (call.Waiting? ==> next < |job.targets| && CallOk(st, sid, s, job.targets[next], call))
    case FanOut(_, _) => FanOk(st, sid, s)
  }

  /** Outside a transaction a session has no participants and nothing in progress; inside, every
      participant is a local transaction begun for this very gate transaction, and everything that
      succeeded since BEGIN ran in those. */
  ghost predicate IdleOk(st: State, sid: nat, s: Session) {
    && (!s.state.InTransaction? ==> s.parts == map[] && s.pc.Quiet?)
    && (forall a | a in s.parts :: Owned(st, a, s.parts[a], Gtx(sid, s)))
    && (s.state.InTransaction? ==> forall r | r in s.ran :: RanInside(st, s.parts, r))
  }

  ghost predicate SessionOk(st: State, sid: nat, s: Session) {
    IdleOk(st, sid, s) && PcOk(st, sid, s)
  }

  ghost predicate ToldOk(st: State, t: Told) {
    && (t.verdict.CommitOk? || t.verdict.RollbackOk? ==> Closed(st, t.gtx))
    && (t.verdict.CommitOk? ==>
          && (forall a | a in t.parts :: CommittedBy(st, a, t.parts[a], t.gtx, t.attempt))
          && (forall r | r in t.ran :: RanInside(st, t.parts, r)))
  }

  ghost predicate TabletsOk(st: State) { forall a | a in st.tablets :: TabletEntryOk(st, a) }
  ghost predicate MsgsOk(st: State) { forall rid | rid in st.sent :: MsgOk(st, rid) }
  ghost predicate RepliesOk(st: State) { forall rid | rid in st.replies :: rid in st.sent && ReplyOk(st, rid) }
  ghost predicate AttemptsOk(st: State) { forall k | k in st.attempts :: AttemptOk(st, k) }
  ghost predicate SessionsOk(st: State) { forall sid | sid in st.sessions :: SessionOk(st, sid, st.sessions[sid]) }
  ghost predicate AllToldOk(st: State) { forall t | t in st.told :: ToldOk(st, t) }

  ghost predicate Inv(st: State) {
    BasicOk(st) && TabletsOk(st) && MsgsOk(st) && RepliesOk(st) && AttemptsOk(st) && SessionsOk(st) && AllToldOk(st)
  }

  /** The part of the state that only grows. */
  ghost predicate Extends(st: State, st': State) {
    && st.tablets.Keys == st'.tablets.Keys
    && (forall a | a in st.tablets :: Grows(st.tablets[a], st'.tablets[a]))
    && (forall rid | rid in st.sent :: rid in st'.sent && st'.sent[rid] == st.sent[rid])
    && (forall rid | rid in st.replies :: rid in st'.replies && st'.replies[rid] == st.replies[rid])
    && (forall k | k in st.attempts :: k in st'.attempts && AttemptGrows(st.attempts[k], st'.attempts[k]))
    && (forall sid | sid in st.sessions :: sid in st'.sessions && SessionGrows(st.sessions[sid], st'.sessions[sid]))
    && st.told <= st'.told
  }

  ghost predicate AttemptGrows(at: Attempt, at': Attempt) {
    && at'.gtx == at.gtx && at'.parts == at.parts
    && at.prepared.Keys <= at'.prepared.Keys
    && (forall b | b in at.prepared :: at'.prepared[b] == at.prepared[b])
    && at.refused <= at'.refused
    && (at.decided ==> at'.decided)
  }

  ghost predicate SessionGrows(s: Session, s': Session) {
    && s.epoch <= s'.epoch && s.attempt <= s'.attempt
    && (s.epoch == s'.epoch && !s.state.InTransaction? ==> !s'.state.InTransaction?)
  }

  // ----- facts that survive growth -----

  lemma CommittedByGrows(st: State, st': State, a: Addr, id: nat, g: GTx, n: nat)
    requires Extends(st, st') && a in st.tablets && TabletOk(st.tablets[a])
    requires CommittedBy(st, a, id, g, n)
    ensures CommittedBy(st', a, id, g, n)
  {
    assert Grows(st.tablets[a], st'.tablets[a]);
  }

  lemma EndedGrows(st: State, st': State, a: Addr, id: nat)
    requires Extends(st, st') && HasEnded(st, a, id)
    ensures HasEnded(st', a, id)
  {
    assert Grows(st.tablets[a], st'.tablets[a]);
  }

  lemma RanInGrows(st: State, st': State, a: Addr, id: nat, stmt: Stmt)
    requires Extends(st, st') && RanIn(st, a, id, stmt)
    ensures RanIn(st', a, id, stmt)
  {
    assert Grows(st.tablets[a], st'.tablets[a]);
  }

  lemma OwnedGrows(st: State, st': State, a: Addr, id: nat, g: GTx)
    requires Extends(st, st') && Owned(st, a, id, g)
    ensures Owned(st', a, id, g)
  {
    assert Grows(st.tablets[a], st'.tablets[a]);
  }

  lemma ClosedGrows(st: State, st': State, g: GTx)
    requires Extends(st, st') && Closed(st, g)
    ensures Closed(st', g)
  {
  }

  lemma RanInsideGrows(st: State, st': State, parts: map<Addr, nat>, r: Ran)
    requires Extends(st, st') && RanInside(st, parts, r)
    ensures RanInside(st', parts, r)
  {
    forall a | a in r.targets ensures a in parts && RanIn(st', a, parts[a], r.stmt) {
      RanInGrows(st, st', a, parts[a], r.stmt);
    }
  }

  lemma TabletGrows(st: State, st': State, a: Addr)
    requires TabletsOk(st) && Extends(st, st') && a in st.tablets && st'.tablets[a] == st.tablets[a]
    ensures TabletEntryOk(st', a)
  {
    var t := st.tablets[a];
    assert TabletEntryOk(st, a);
    forall id | id in t.locals && t.locals[id].commits != []
      ensures exists n :: CommittedBy(st', a, id, t.locals[id].owner, n)
    {
      var n :| CommittedBy(st, a, id, t.locals[id].owner, n);
      CommittedByGrows(st, st', a, id, t.locals[id].owner, n);
    }
  }

  lemma MsgGrows(st: State, st': State, rid: nat)
    requires rid in st.sent && MsgOk(st, rid) && Extends(st, st')
    ensures rid in st'.sent && MsgOk(st', rid)
  {
    var m := st.sent[rid];
    if !m.body.BeginReq? {
      OwnedGrows(st, st', m.addr, m.body.id, m.gtx);
    }
    if m.body.CommitReq? {
      var k := AttemptId(m.gtx.sid, m.attempt);
      assert AttemptGrows(st.attempts[k], st'.attempts[k]);
    }
  }

  lemma ReplyGrows(st: State, st': State, rid: nat)
    requires TabletsOk(st) && MsgsOk(st) && rid in st.replies && rid in st.sent && ReplyOk(st, rid) && Extends(st, st')
    ensures rid in st'.replies && rid in st'.sent && ReplyOk(st', rid)
  {
    var m, r := st.sent[rid], st.replies[rid];
    assert MsgOk(st, rid);
    assert TabletEntryOk(st, m.addr);
    match m.body
    case BeginReq => if r.Begun? { OwnedGrows(st, st', m.addr, r.id, m.gtx); }
    case ExecReq(id, stmt) => if r.Okay? { RanInGrows(st, st', m.addr, id, stmt); }
    case CommitReq(id) => if r.Okay? { CommittedByGrows(st, st', m.addr, id, m.gtx, m.attempt); }
    case RollbackReq(id) => EndedGrows(st, st', m.addr, id);
    case _ =>
  }

  lemma AttemptStays(st: State, st': State, k: AttemptId)
    requires k in st.attempts && AttemptOk(st, k) && Extends(st, st') && st'.attempts[k] == st.attempts[k]
    ensures AttemptOk(st', k)
  {
  }

  lemma FanGrows(st: State, st': State, sid: nat, s: Session)
    requires TabletsOk(st) && Extends(st, st') && s.pc.FanOut? && FanOk(st, sid, s)
    requires var k := AttemptId(sid, s.attempt); k in st.attempts ==> st'.attempts[k] == st.attempts[k]
    ensures FanOk(st', sid, s)
  {
    var calls := s.pc.calls;
    if s.pc.phase.CommitOne? || s.pc.phase.CommitAll? {
      forall a | a in calls && calls[a] == Done(true)
        ensures CommittedBy(st', a, s.parts[a], Gtx(sid, s), s.attempt)
      {
        assert TabletEntryOk(st, a);
        CommittedByGrows(st, st', a, s.parts[a], Gtx(sid, s), s.attempt);
      }
    }
  }

  lemma PcGrows(st: State, st': State, sid: nat, s: Session)
    requires TabletsOk(st) && Extends(st, st') && PcOk(st, sid, s)
    requires var k := AttemptId(sid, s.attempt); k in st.attempts ==> st'.attempts[k] == st.attempts[k]
    ensures PcOk(st', sid, s)
  {
    match s.pc
    case Running(job, next, _, failed) =>
      if !failed {
        forall i | 0 <= i < next ensures RanIn(st', job.targets[i], s.parts[job.targets[i]], job.stmt) {
          RanInGrows(st, st', job.targets[i], s.parts[job.targets[i]], job.stmt);
        }
      }
    case FanOut(_, _) => FanGrows(st, st', sid, s);
    case _ =>
  }

  lemma IdleGrows(st: State, st': State, sid: nat, s: Session)
    requires Extends(st, st') && IdleOk(st, sid, s)
    ensures IdleOk(st', sid, s)
  {
    forall a | a in s.parts ensures Owned(st', a, s.parts[a], Gtx(sid, s)) {
      OwnedGrows(st, st', a, s.parts[a], Gtx(sid, s));
    }
    if s.state.InTransaction? {
      forall r | r in s.ran ensures RanInside(st', s.parts, r) {
        RanInsideGrows(st, st', s.parts, r);
      }
    }
  }

  lemma ToldGrows(st: State, st': State, t: Told)
    requires TabletsOk(st) && ToldOk(st, t) && Extends(st, st')
    ensures ToldOk(st', t)
  {
    if t.verdict.CommitOk? || t.verdict.RollbackOk? {
      ClosedGrows(st, st', t.gtx);
    }
    if t.verdict.CommitOk? {
      forall a | a in t.parts ensures CommittedBy(st', a, t.parts[a], t.gtx, t.attempt) {
        assert TabletEntryOk(st, a);
        CommittedByGrows(st, st', a, t.parts[a], t.gtx, t.attempt);
      }
      forall r | r in t.ran ensures RanInside(st', t.parts, r) {
        RanInsideGrows(st, st', t.parts, r);
      }
    }
  }

  /** All that was true and is untouched is still true. */
  lemma Untouched(st: State, st': State)
    requires Inv(st) && Extends(st, st')
    ensures forall a | a in st.tablets && st'.tablets[a] == st.tablets[a] :: TabletEntryOk(st', a)
    ensures forall rid | rid in st.sent :: rid in st'.sent && MsgOk(st', rid)
    ensures forall rid | rid in st.replies :: rid in st'.sent && ReplyOk(st', rid)
    ensures forall k | k in st.attempts && st'.attempts[k] == st.attempts[k] :: AttemptOk(st', k)
    ensures forall t | t in st.told :: ToldOk(st', t)
  {
    forall a | a in st.tablets && st'.tablets[a] == st.tablets[a] ensures TabletEntryOk(st', a) {
      TabletGrows(st, st', a);
    }
    forall rid | rid in st.sent ensures rid in st'.sent && MsgOk(st', rid) { MsgGrows(st, st', rid); }
    forall rid | rid in st.replies ensures rid in st'.sent && ReplyOk(st', rid) { ReplyGrows(st, st', rid); }
    forall k | k in st.attempts && st'.attempts[k] == st.attempts[k] ensures AttemptOk(st', k) {
      AttemptStays(st, st', k);
    }
    forall t | t in st.told ensures ToldOk(st', t) { ToldGrows(st, st', t); }
  }

  lemma OtherSessions(st: State, st': State)
    requires Inv(st) && Extends(st, st')
    ensures forall sid | sid in st.sessions && st'.sessions[sid] == st.sessions[sid] &&
                         (var k := AttemptId(sid, st.sessions[sid].attempt);
                          k in st.attempts ==> st'.attempts[k] == st.attempts[k]) ::
              SessionOk(st', sid, st.sessions[sid])
  {
    forall sid | sid in st.sessions && st'.sessions[sid] == st.sessions[sid] &&
                 (var k := AttemptId(sid, st.sessions[sid].attempt);
                  k in st.attempts ==> st'.attempts[k] == st.attempts[k])
      ensures SessionOk(st', sid, st.sessions[sid])
    {
      var s := st.sessions[sid];
      assert SessionOk(st, sid, s);
      IdleGrows(st, st', sid, s);
      PcGrows(st, st', sid, s);
    }
  }
}
