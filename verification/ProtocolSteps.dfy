/** Every step of the protocol keeps the invariant and only extends the growing part of the state. */
module ProtocolSteps {
  import opened Tablets
  import opened Protocol
  import opened ProtocolInvariant

  ghost predicate OneAttempt(st: State, st': State, sid: nat)
    requires sid in st'.sessions
  {
    || st'.attempts == st.attempts
    || exists k :: && k in st'.attempts && k.sid == sid && k.n <= st'.sessions[sid].attempt
                   && st'.attempts == st.attempts[k := st'.attempts[k]]
                   && (k in st.attempts ==> AttemptGrows(st.attempts[k], st'.attempts[k]))
  }

  ghost predicate OneRequest(st: State, st': State) {
    || (st'.sent == st.sent && st'.net == st.net && st'.nextRid == st.nextRid)
    || (&& st.nextRid in st'.sent && st'.sent == st.sent[st.nextRid := st'.sent[st.nextRid]]
        && st'.net == st.net + {st.nextRid} && st'.nextRid == st.nextRid + 1)
  }

  /** The shape of a step of one session: it replaces the session, touches at most one of its
      attempts, sends at most one request and gives at most one answer. */
  ghost predicate Framed(st: State, st': State, sid: nat) {
    && st'.tablets == st.tablets && st'.replies == st.replies && st'.clients == st.clients
    && sid in st'.sessions && st'.sessions == st.sessions[sid := st'.sessions[sid]]
    && st.nextSid <= st'.nextSid && 1 <= sid <= st'.nextSid
    && (sid in st.sessions ==> SessionGrows(st.sessions[sid], st'.sessions[sid]))
    && OneAttempt(st, st', sid) && OneRequest(st, st')
    && st.told <= st'.told
  }

  lemma FramedBasic(st: State, st': State, sid: nat)
    requires BasicOk(st) && Framed(st, st', sid)
    ensures BasicOk(st')
  {
  }

  lemma FramedExtends(st: State, st': State, sid: nat)
    requires BasicOk(st) && Framed(st, st', sid)
    ensures Extends(st, st')
  {
  }

  /** What such a step has to establish anew: the session, its attempts, new requests, new answers. */
  ghost predicate NewOk(st: State, st': State, sid: nat)
    requires sid in st'.sessions
  {
    && SessionOk(st', sid, st'.sessions[sid])
    && (forall rid | rid in st'.sent && rid !in st.sent :: MsgOk(st', rid))
    && (forall k | k in st'.attempts && k.sid == sid && (k in st.attempts ==> st'.attempts[k] != st.attempts[k]) ::
          AttemptOk(st', k))
    && (forall t | t in st'.told && t !in st.told :: ToldOk(st', t))
  }

  lemma SessionStep(st: State, st': State, sid: nat)
    requires Inv(st) && Framed(st, st', sid) && NewOk(st, st', sid)
    ensures Inv(st') && Extends(st, st')
  {
    hide MsgOk, ReplyOk, AttemptOk, SessionOk, ToldOk, TabletEntryOk, BasicOk, Extends;
    FramedBasic(st, st', sid);
    FramedExtends(st, st', sid);
    AttemptsStep(st, st', sid);
    SessionsStep(st, st', sid);
    Untouched(st, st');
  }

  lemma AttemptsStep(st: State, st': State, sid: nat)
    requires Inv(st) && Framed(st, st', sid) && NewOk(st, st', sid) && Extends(st, st')
    ensures AttemptsOk(st')
  {
    hide MsgOk, ReplyOk, AttemptOk, SessionOk, ToldOk, TabletEntryOk, BasicOk, Extends, OneRequest, Inv, SessionGrows;
    Untouched(st, st');
    forall k | k in st'.attempts ensures AttemptOk(st', k) {
      assert k in st.attempts || k.sid == sid;
    }
  }

  lemma SessionsStep(st: State, st': State, sid: nat)
    requires Inv(st) && Framed(st, st', sid) && NewOk(st, st', sid) && Extends(st, st')
    ensures SessionsOk(st')
  {
    hide MsgOk, ReplyOk, AttemptOk, SessionOk, ToldOk, TabletEntryOk, BasicOk, Extends, OneRequest, Inv, SessionGrows;
    OtherSessions(st, st');
    forall x | x in st'.sessions ensures SessionOk(st', x, st'.sessions[x]) {
      if x != sid {
        assert st'.sessions[x] == st.sessions[x];
      }
    }
  }

  lemma InvBasic(st: State)
    requires Inv(st)
    ensures BasicOk(st) && TabletsOk(st)
  {
  }

  lemma SessionAt(st: State, sid: nat)
    requires Inv(st) && sid in st.sessions
    ensures BasicOk(st) && SessionOk(st, sid, st.sessions[sid]) && 1 <= sid <= st.nextSid
  {
  }

  // ----- replacing the session, with and without an answer -----

  lemma SessionView(st: State, st': State, sid: nat, s: Session)
    requires st'.tablets == st.tablets && st'.sent == st.sent && st'.replies == st.replies
    requires st'.attempts == st.attempts
    requires SessionOk(st, sid, s)
    ensures SessionOk(st', sid, s)
  {
    hide PcOk, IdleOk;
    IdleView(st, st', sid, s);
    PcView(st, st', sid, s);
  }

  lemma IdleView(st: State, st': State, sid: nat, s: Session)
    requires st'.tablets == st.tablets && IdleOk(st, sid, s)
    ensures IdleOk(st', sid, s)
  {
  }

  lemma PcView(st: State, st': State, sid: nat, s: Session)
    requires st'.tablets == st.tablets && st'.sent == st.sent && st'.attempts == st.attempts && PcOk(st, sid, s)
    ensures PcOk(st', sid, s)
  {
  }

  lemma PutKeeps(st: State, sid: nat, s: Session)
    requires Inv(st) && sid in st.sessions && SessionGrows(st.sessions[sid], s) && SessionOk(st, sid, s)
    ensures Inv(Put(st, sid, s)) && Extends(st, Put(st, sid, s))
  {
    hide Inv, Extends, SessionOk, BasicOk;
    SessionAt(st, sid);
    SessionView(st, Put(st, sid, s), sid, s);
    SessionStep(st, Put(st, sid, s), sid);
  }

  lemma TellKeeps(st: State, sid: nat, s: Session, v: Verdict)
    requires Inv(st) && sid in st.sessions && SessionGrows(st.sessions[sid], s) && SessionOk(st, sid, s.(pc := Quiet))
    requires ToldOk(Tell(st, sid, s, v),
               Told(Gtx(sid, st.sessions[sid]), st.sessions[sid].attempt, v, st.sessions[sid].parts, s.ran))
    ensures Inv(Tell(st, sid, s, v)) && Extends(st, Tell(st, sid, s, v))
  {
    hide Inv, Extends, SessionOk, BasicOk, ToldOk;
    SessionAt(st, sid);
    SessionView(st, Tell(st, sid, s, v), sid, s.(pc := Quiet));
    SessionStep(st, Tell(st, sid, s, v), sid);
  }

  lemma FailedKeeps(st: State, sid: nat, s: Session)
    requires Inv(st) && sid in st.sessions && s.pc == st.sessions[sid].pc && s == st.sessions[sid]
    ensures Inv(Tell(st, sid, s, Failed)) && Extends(st, Tell(st, sid, s, Failed))
  {
    hide Inv, Extends, BasicOk;
    SessionAt(st, sid);
    TellKeeps(st, sid, s, Failed);
  }

  // ----- client requests -----

  lemma OpenKeeps(st: State)
    requires Inv(st)
    ensures Inv(DoOpen(st)) && Extends(st, DoOpen(st))
  {
    hide Inv, Extends;
    InvBasic(st);
    SessionStep(st, DoOpen(st), st.nextSid + 1);
  }

  lemma RebeginKeeps(st: State, sid: nat)
    requires Inv(st) && Ready(st, sid)
    ensures Inv(DoRebegin(st, sid)) && Extends(st, DoRebegin(st, sid))
  {
    hide Inv, Extends, BasicOk;
    SessionAt(st, sid);
    var s := st.sessions[sid];
    if s.state.InTransaction? {
      ExtendsSelf(st);
    } else {
      PutKeeps(st, sid, s.(state := InTransaction, parts := map[], epoch := s.epoch + 1, ran := []));
    }
  }

  lemma ExtendsSelf(st: State)
    ensures Extends(st, st)
  {
  }

  lemma StartExecuteKeeps(st: State, sid: nat, job: Job)
    requires Inv(st) && CanStart(st, sid) && forall a | a in job.targets :: a in st.clients
    ensures Inv(DoStartExecute(st, sid, job)) && Extends(st, DoStartExecute(st, sid, job))
  {
    hide Inv, Extends;
    SessionAt(st, sid);
    if job.targets == [] && !job.scatter {
      FailedKeeps(st, sid, st.sessions[sid]);
    } else {
      PutKeeps(st, sid, st.sessions[sid].(pc := Opening(job, 0, Unsent)));
    }
  }

  /** The phase may start: a COMMIT phase belongs to the current attempt, has the right number of
      participants, and sends commits only once that was decided. */
  ghost predicate MayFan(st: State, sid: nat, s: Session, phase: Phase) {
    phase.RollbackAll? || (
      var k := AttemptId(sid, s.attempt);
      && k in st.attempts && st.attempts[k].gtx == Gtx(sid, s) && st.attempts[k].parts == s.parts
      && match phase
         case CommitOne => |s.parts| == 1 && st.attempts[k].decided
         case PrepareAll =>
           |s.parts| >= 2 && !st.attempts[k].decided && st.attempts[k].prepared == map[] && st.attempts[k].refused == {}
         case CommitAll => |s.parts| >= 2 && st.attempts[k].decided
         case RollbackAll(_) => true)
  }

  lemma FanKeeps(st: State, sid: nat, phase: Phase)
    requires Inv(st) && sid in st.sessions && st.sessions[sid].state.InTransaction?
    requires MayFan(st, sid, st.sessions[sid], phase)
    ensures var st' := StartFan(st, sid, st.sessions[sid], phase); Inv(st') && Extends(st, st')
  {
    hide Inv, Extends, BasicOk;
    SessionAt(st, sid);
    var s := st.sessions[sid];
    PutKeeps(st, sid, s.(pc := FanOut(phase, Fresh(s.parts))));
  }

  lemma StartRollbackKeeps(st: State, sid: nat)
    requires Inv(st) && CanStart(st, sid)
    ensures Inv(DoStartRollback(st, sid)) && Extends(st, DoStartRollback(st, sid))
  {
    hide Inv, Extends;
    FanKeeps(st, sid, RollbackAll(AfterRollback));
  }

  lemma NewAttempt(st: State, sid: nat)
    requires BasicOk(st) && sid in st.sessions
    ensures AttemptId(sid, st.sessions[sid].attempt + 1) !in st.attempts
  {
  }

  lemma AttemptedKeeps(st: State, sid: nat)
    requires Inv(st) && CanStart(st, sid)
    ensures Inv(Attempted(st, sid)) && Extends(st, Attempted(st, sid))
  {
    hide Inv, Extends, BasicOk, NewOk, Attempted;
    InvBasic(st);
    AttemptedFramed(st, sid);
    FramedExtends(st, Attempted(st, sid), sid);
    AttemptedNew(st, sid);
    SessionStep(st, Attempted(st, sid), sid);
  }

  lemma AttemptedFramed(st: State, sid: nat)
    requires BasicOk(st) && CanStart(st, sid)
    ensures Framed(st, Attempted(st, sid), sid)
  {
    var s, st' := st.sessions[sid], Attempted(st, sid);
    NewAttempt(st, sid);
    hide BasicOk;
    var k := AttemptId(sid, s.attempt + 1);
    assert st'.attempts == st.attempts[k := st'.attempts[k]];
  }

  lemma AttemptedNew(st: State, sid: nat)
    requires Inv(st) && CanStart(st, sid) && Extends(st, Attempted(st, sid))
    ensures NewOk(st, Attempted(st, sid), sid)
  {
    hide Inv, Extends, BasicOk, ToldOk, MsgOk;
    SessionAt(st, sid);
    NewAttempt(st, sid);
    IdleGrows(st, Attempted(st, sid), sid, st.sessions[sid]);
  }

  lemma ExtendsTrans(st0: State, st1: State, st2: State)
    requires Extends(st0, st1) && Extends(st1, st2)
    ensures Extends(st0, st2)
  {
    forall a | a in st0.tablets ensures Grows(st0.tablets[a], st2.tablets[a]) {
      assert Grows(st0.tablets[a], st1.tablets[a]);
      assert Grows(st1.tablets[a], st2.tablets[a]);
    }
    forall k | k in st0.attempts ensures AttemptGrows(st0.attempts[k], st2.attempts[k]) {
      assert AttemptGrows(st0.attempts[k], st1.attempts[k]);
      assert AttemptGrows(st1.attempts[k], st2.attempts[k]);
    }
    forall sid | sid in st0.sessions ensures SessionGrows(st0.sessions[sid], st2.sessions[sid]) {
      assert SessionGrows(st0.sessions[sid], st1.sessions[sid]);
      assert SessionGrows(st1.sessions[sid], st2.sessions[sid]);
    }
  }

  lemma StartCommitKeeps(st: State, sid: nat)
    requires Inv(st) && CanStart(st, sid)
    ensures Inv(DoStartCommit(st, sid)) && Extends(st, DoStartCommit(st, sid))
  {
    hide Inv, Extends, BasicOk, SessionOk, ToldOk;
    var st1 := Attempted(st, sid);
    AttemptedKeeps(st, sid);
    var s := st1.sessions[sid];
    if |s.parts| == 0 {
      EmptyCommitKeeps(st1, sid);
    } else if |s.parts| == 1 {
      FanKeeps(st1, sid, CommitOne);
    } else {
      FanKeeps(st1, sid, PrepareAll);
    }
    ExtendsTrans(st, st1, DoStartCommit(st, sid));
  }

  lemma EmptyCommitKeeps(st: State, sid: nat)
    requires Inv(st) && CanStart(st, sid) && |st.sessions[sid].parts| == 0
    ensures var st' := Tell(st, sid, st.sessions[sid].(state := Committed), CommitOk); Inv(st') && Extends(st, st')
  {
    hide Inv, Extends, BasicOk;
    var s := st.sessions[sid];
    SessionAt(st, sid);
    assert s.parts == map[];
    SuccessKeeps(st, sid, s.(state := Committed), CommitOk);
  }

  /** A COMMIT or ROLLBACK answered well: the session leaves the transaction with no participants. */
  lemma SuccessKeeps(st: State, sid: nat, s: Session, v: Verdict)
    requires Inv(st) && sid in st.sessions && st.sessions[sid].state.InTransaction?
    requires v.CommitOk? || v.RollbackOk?
    requires s == st.sessions[sid].(state := s.state, parts := map[]) && !s.state.InTransaction?
    requires v.CommitOk? ==> forall a | a in st.sessions[sid].parts ::
      CommittedBy(st, a, st.sessions[sid].parts[a], Gtx(sid, st.sessions[sid]), st.sessions[sid].attempt)
    ensures Inv(Tell(st, sid, s, v)) && Extends(st, Tell(st, sid, s, v))
  {
    hide Inv, Extends, BasicOk;
    SessionAt(st, sid);
    TellKeeps(st, sid, s, v);
  }

  // ----- requests on their way -----

  lemma SendMsg(st: State, sid: nat, a: Addr)
    requires CanSend(st, sid, a) && 1 <= sid
    requires var st' := DoSend(st, sid, a);
             IdleOk(st', sid, st.sessions[sid]) && PcOk(st', sid, st.sessions[sid])
    ensures MsgOk(DoSend(st, sid, a), st.nextRid)
  {
    var s, st' := st.sessions[sid], DoSend(st, sid, a);
    assert st'.attempts == st.attempts && st'.tablets == st.tablets;
    assert st'.sessions[sid].epoch == s.epoch;
    match s.pc
    case Opening(job, next, _) => assert a in job.targets;
    case Running(job, next, _, _) => assert a in job.targets;
    case FanOut(_, _) => assert a in s.parts;
  }

  /** One call of a fan-out changes and all that the others say still holds. */
  lemma FanUpdate(st: State, sid: nat, s: Session, a: Addr, c: Call)
    requires s.pc.FanOut? && FanOk(st, sid, s) && a in s.pc.calls
    requires c.Waiting? ==> IsSent(st, c.rid, Msg(Gtx(sid, s), s.attempt, a, FanBody(s.pc.phase, s.parts[a])))
    requires s.pc.phase.PrepareAll? ==> c.Waiting? && s.pc.calls[a].Unsent?
    requires c == Done(true) && (s.pc.phase.CommitOne? || s.pc.phase.CommitAll?) ==>
               CommittedBy(st, a, s.parts[a], Gtx(sid, s), s.attempt)
    ensures FanOk(st, sid, s.(pc := FanOut(s.pc.phase, s.pc.calls[a := c])))
  {
  }

  lemma SendSession(st: State, sid: nat, a: Addr)
    requires CanSend(st, sid, a)
    requires var st' := DoSend(st, sid, a);
             IdleOk(st', sid, st.sessions[sid]) && PcOk(st', sid, st.sessions[sid])
    ensures var st' := DoSend(st, sid, a); SessionOk(st', sid, st'.sessions[sid])
  {
    var s, st' := st.sessions[sid], DoSend(st, sid, a);
    var s' := st'.sessions[sid];
    assert IsSent(st', st.nextRid, Msg(Gtx(sid, s), s.attempt, a, Body(s, a)));
    match s.pc
    case Opening(job, next, _) =>
    case Running(job, next, _, _) =>
    case FanOut(phase, calls) => FanUpdate(st', sid, s, a, Waiting(st.nextRid));
  }

  lemma SendNew(st: State, sid: nat, a: Addr)
    requires CanSend(st, sid, a) && BasicOk(st)
    requires IdleOk(DoSend(st, sid, a), sid, st.sessions[sid]) && PcOk(DoSend(st, sid, a), sid, st.sessions[sid])
    ensures NewOk(st, DoSend(st, sid, a), sid)
  {
    hide IdleOk, PcOk, SessionOk, MsgOk;
    SendMsg(st, sid, a);
    SendSession(st, sid, a);
  }

  lemma SendKeeps(st: State, sid: nat, a: Addr)
    requires Inv(st) && CanSend(st, sid, a)
    ensures Inv(DoSend(st, sid, a)) && Extends(st, DoSend(st, sid, a))
  {
    hide Inv, Extends, TabletsOk, BasicOk, NewOk, IdleOk, PcOk;
    SessionAt(st, sid);
    InvBasic(st);
    var s := st.sessions[sid];
    var st' := DoSend(st, sid, a);
    FramedExtends(st, st', sid);
    IdleGrows(st, st', sid, s);
    PcGrows(st, st', sid, s);
    SendNew(st, sid, a);
    SessionStep(st, st', sid);
  }

  lemma WaitingReply(st: State, sid: nat, a: Addr)
    requires Inv(st) && IsWaiting(st, sid, a) && CallOf(st.sessions[sid].pc, a).rid in st.replies
    ensures var s := st.sessions[sid]; var rid := CallOf(s.pc, a).rid;
            && IsSent(st, rid, Msg(Gtx(sid, s), s.attempt, a, Body(s, a))) && ReplyOk(st, rid)
  {
    hide TabletsOk, MsgsOk, AttemptsOk, AllToldOk, BasicOk;
    SessionAt(st, sid);
  }

  /** What the coordinator may conclude from the outcome `r` of its call to `a`. */
  ghost predicate Heard(st: State, sid: nat, a: Addr, r: Reply)
    requires sid in st.sessions && HasCall(st.sessions[sid].pc, a)
  {
    var s := st.sessions[sid];
    match Body(s, a)
    case BeginReq => r.Begun? ==> Owned(st, a, r.id, Gtx(sid, s))
    case ExecReq(id, stmt) => r.Okay? ==> RanIn(st, a, id, stmt)
    case PrepareReq(id) => r.Okay? ==>
      var c := CallOf(s.pc, a); c.Waiting? && PreparedBy(st, a, id, Gtx(sid, s), s.attempt, c.rid)
    case CommitReq(id) => r.Okay? ==> CommittedBy(st, a, id, Gtx(sid, s), s.attempt)
    case RollbackReq(id) => true
  }

  lemma OpeningKeeps(st: State, sid: nat, a: Addr, r: Reply)
    requires Inv(st) && sid in st.sessions && st.sessions[sid].pc.Opening? && HasCall(st.sessions[sid].pc, a)
    requires Heard(st, sid, a, r) && a !in st.sessions[sid].parts
    ensures Inv(Resolve(st, sid, a, r)) && Extends(st, Resolve(st, sid, a, r))
  {
    hide Inv, Extends, BasicOk;
    SessionAt(st, sid);
    var s := st.sessions[sid];
    if r.Begun? {
      var s' := s.(parts := s.parts[a := r.id], pc := Opening(s.pc.job, s.pc.next + 1, Unsent));
      forall q | q in s.ran ensures RanInside(st, s'.parts, q) {
        assert RanInside(st, s.parts, q);
      }
      PutKeeps(st, sid, s');
    } else {
      FanKeeps(st, sid, RollbackAll(AfterError));
    }
  }

  lemma RunningKeeps(st: State, sid: nat, a: Addr, r: Reply)
    requires Inv(st) && sid in st.sessions && st.sessions[sid].pc.Running? && HasCall(st.sessions[sid].pc, a)
    requires Heard(st, sid, a, r)
    ensures Inv(Resolve(st, sid, a, r)) && Extends(st, Resolve(st, sid, a, r))
  {
    hide Inv, Extends, BasicOk;
    SessionAt(st, sid);
    var s := st.sessions[sid];
    assert a in s.pc.job.targets;
    if r.Okay? {
      PutKeeps(st, sid, s.(pc := Running(s.pc.job, s.pc.next + 1, Unsent, s.pc.failed)));
    } else if IsSingle(s.pc.job) {
      FailedKeeps(st, sid, s);
    } else {
      PutKeeps(st, sid, s.(pc := Running(s.pc.job, s.pc.next + 1, Unsent, true)));
    }
  }

  lemma FanHeard(st: State, sid: nat, s: Session, a: Addr, r: Reply)
    requires sid in st.sessions && s == st.sessions[sid] && SessionOk(st, sid, s)
    requires s.pc.FanOut? && a in s.pc.calls && Heard(st, sid, a, r)
    ensures s.state.InTransaction? && a in s.parts
    ensures r.Okay? && (s.pc.phase.CommitOne? || s.pc.phase.CommitAll?) ==>
              CommittedBy(st, a, s.parts[a], Gtx(sid, s), s.attempt)
    ensures r.Okay? && s.pc.phase.PrepareAll? ==>
              s.pc.calls[a].Waiting? && PreparedBy(st, a, s.parts[a], Gtx(sid, s), s.attempt, s.pc.calls[a].rid)
  {
  }

  lemma OtherPc(st: State, sid: nat, s: Session, pc: Pc)
    requires SessionOk(st, sid, s) && s.state.InTransaction? && PcOk(st, sid, s.(pc := pc))
    ensures SessionOk(st, sid, s.(pc := pc))
  {
    hide PcOk;
  }

  lemma FanOutKeeps(st: State, sid: nat, a: Addr, r: Reply)
    requires Inv(st) && sid in st.sessions && st.sessions[sid].pc.FanOut? && a in st.sessions[sid].pc.calls
    requires Heard(st, sid, a, r) && !st.sessions[sid].pc.phase.PrepareAll?
    ensures Inv(Resolve(st, sid, a, r)) && Extends(st, Resolve(st, sid, a, r))
  {
    hide Inv, Extends, BasicOk, FanOk, IdleOk, Heard, CommittedBy;
    SessionAt(st, sid);
    var s := st.sessions[sid];
    FanHeard(st, sid, s, a, r);
    FanUpdate(st, sid, s, a, Done(r.Okay?));
    var pc := FanOut(s.pc.phase, s.pc.calls[a := Done(r.Okay?)]);
    OtherPc(st, sid, s, pc);
    PutKeeps(st, sid, s.(pc := pc));
  }

  lemma PreparedSession(st: State, st': State, sid: nat, s: Session, a: Addr, ok: bool)
    requires s.pc.FanOut? && s.pc.phase.PrepareAll? && a in s.pc.calls && !s.pc.calls[a].Done? && FanOk(st, sid, s)
    requires ok ==> s.pc.calls[a].Waiting?
    requires st'.sent == st.sent && st'.replies == st.replies && st'.tablets == st.tablets
    requires var k := AttemptId(sid, s.attempt);
             st'.attempts == st.attempts[k := Noted(st.attempts[k], a, s.pc.calls[a], ok)]
    ensures FanOk(st', sid, s.(pc := FanOut(PrepareAll, s.pc.calls[a := Done(ok)])))
  {
  }

  lemma PreparedAttempt(st: State, st': State, k: AttemptId, a: Addr, c: Call, ok: bool)
    requires k in st.attempts && AttemptOk(st, k) && a in st.attempts[k].parts && !st.attempts[k].decided
    requires a !in st.attempts[k].prepared && a !in st.attempts[k].refused
    requires k in st'.attempts && st'.attempts[k] == Noted(st.attempts[k], a, c, ok)
    requires st'.sent == st.sent && st'.replies == st.replies
    requires k.sid in st'.sessions && st.sessions[k.sid].epoch <= st'.sessions[k.sid].epoch
    requires ok ==> c.Waiting? && PreparedBy(st, a, st.attempts[k].parts[a], st.attempts[k].gtx, k.n, c.rid)
    ensures AttemptOk(st', k) && AttemptGrows(st.attempts[k], st'.attempts[k])
  {
  }

  lemma PrepareAnswerKeeps(st: State, sid: nat, a: Addr, r: Reply)
    requires Inv(st) && sid in st.sessions && st.sessions[sid].pc.FanOut? && a in st.sessions[sid].pc.calls
    requires Heard(st, sid, a, r) && st.sessions[sid].pc.phase.PrepareAll? && !st.sessions[sid].pc.calls[a].Done?
    ensures Inv(Resolve(st, sid, a, r)) && Extends(st, Resolve(st, sid, a, r))
  {
    hide Inv, Extends, BasicOk, FanOk, IdleOk, Heard, AttemptOk;
    SessionAt(st, sid);
    var s, st' := st.sessions[sid], Resolve(st, sid, a, r);
    var k, c := AttemptId(sid, s.attempt), s.pc.calls[a];
    PrepareFacts(st, sid, s, a);
    FanHeard(st, sid, s, a, r);
    AttemptAt(st, k);
    PreparedAttempt(st, st', k, a, c, r.Okay?);
    FramedExtends(st, st', sid);
    PreparedSession(st, st', sid, s, a, r.Okay?);
    IdleGrows(st, st', sid, s);
    OtherPcIdle(st', sid, s, st'.sessions[sid].pc);
    SessionStep(st, st', sid);
  }

  lemma OtherPcIdle(st: State, sid: nat, s: Session, pc: Pc)
    requires IdleOk(st, sid, s) && s.state.InTransaction?
    ensures IdleOk(st, sid, s.(pc := pc))
  {
  }

  lemma PrepareFacts(st: State, sid: nat, s: Session, a: Addr)
    requires s.pc.FanOut? && s.pc.phase.PrepareAll? && FanOk(st, sid, s) && a in s.pc.calls && !s.pc.calls[a].Done?
    ensures var k := AttemptId(sid, s.attempt);
            && k in st.attempts && a in st.attempts[k].parts && st.attempts[k].gtx == Gtx(sid, s)
            && st.attempts[k].parts == s.parts
            && a !in st.attempts[k].prepared && a !in st.attempts[k].refused && !st.attempts[k].decided
  {
  }

  lemma AttemptAt(st: State, k: AttemptId)
    requires Inv(st) && k in st.attempts
    ensures AttemptOk(st, k)
  {
  }

  /** A call that is not over yet, and whose outcome is told truthfully, can be resolved. */
  lemma ResolveKeeps(st: State, sid: nat, a: Addr, r: Reply)
    requires Inv(st) && sid in st.sessions && HasCall(st.sessions[sid].pc, a) && Heard(st, sid, a, r)
    requires !CallOf(st.sessions[sid].pc, a).Done?
    requires st.sessions[sid].pc.Opening? ==> a !in st.sessions[sid].parts
    ensures Inv(Resolve(st, sid, a, r)) && Extends(st, Resolve(st, sid, a, r))
  {
    hide Inv, Extends, Heard;
    match st.sessions[sid].pc
    case Opening(_, _, _) => OpeningKeeps(st, sid, a, r);
    case Running(_, _, _, _) => RunningKeeps(st, sid, a, r);
    case FanOut(phase, _) =>
      if phase.PrepareAll? { PrepareAnswerKeeps(st, sid, a, r); } else { FanOutKeeps(st, sid, a, r); }
  }

  lemma WaitingOpening(st: State, sid: nat, a: Addr)
    requires Inv(st) && IsWaiting(st, sid, a)
    ensures st.sessions[sid].pc.Opening? ==> a !in st.sessions[sid].parts
  {
    hide Inv, BasicOk, IdleOk;
    SessionAt(st, sid);
  }

  lemma ReceiveKeeps(st: State, sid: nat, a: Addr)
    requires Inv(st) && IsWaiting(st, sid, a) && CallOf(st.sessions[sid].pc, a).rid in st.replies
    ensures var st' := Resolve(st, sid, a, st.replies[CallOf(st.sessions[sid].pc, a).rid]); Inv(st') && Extends(st, st')
  {
    hide Inv, Extends, CommittedBy, RanIn, Owned;
    WaitingReply(st, sid, a);
    WaitingOpening(st, sid, a);
    ResolveKeeps(st, sid, a, st.replies[CallOf(st.sessions[sid].pc, a).rid]);
  }

  lemma GiveUpKeeps(st: State, sid: nat, a: Addr)
    requires Inv(st) && IsWaiting(st, sid, a)
    ensures Inv(Resolve(st, sid, a, Refused)) && Extends(st, Resolve(st, sid, a, Refused))
  {
    hide Inv, Extends;
    WaitingOpening(st, sid, a);
    ResolveKeeps(st, sid, a, Refused);
  }

  lemma MissKeeps(st: State, sid: nat, a: Addr)
    requires Inv(st) && CanMiss(st, sid, a)
    ensures Inv(DoMiss(st, sid, a)) && Extends(st, DoMiss(st, sid, a))
  {
    hide Inv, Extends;
    if st.sessions[sid].pc.phase.CommitOne? {
      FailedKeeps(st, sid, st.sessions[sid]);
    } else {
      ResolveKeeps(st, sid, a, Refused);
    }
  }

  // ----- moving on -----

  lemma LoopMoves(st: State, sid: nat, mergeOk: bool)
    requires Inv(st) && sid in st.sessions && CanAdvance(st.sessions[sid]) && !st.sessions[sid].pc.FanOut?
    ensures Inv(Moved(st, sid, mergeOk)) && Extends(st, Moved(st, sid, mergeOk))
  {
    hide Inv, Extends, BasicOk;
    SessionAt(st, sid);
    var s := st.sessions[sid];
    match s.pc
    case Opening(job, next, call) =>
      if next < |job.targets| {
        PutKeeps(st, sid, s.(pc := Opening(job, next + 1, call)));
      } else {
        PutKeeps(st, sid, s.(pc := Running(job, 0, Unsent, false)));
      }
    case Running(job, next, _, failed) =>
      if !failed && (IsSingle(job) || mergeOk) {
        var q := Ran(job.stmt, job.targets);
        assert RanInside(st, s.parts, q);
        TellKeeps(st, sid, s.(ran := s.ran + [q]), ExecOk);
      } else {
        FanKeeps(st, sid, RollbackAll(AfterError));
      }
  }

  /** A COMMIT whose calls all came back good: every participant was committed by this attempt. */
  lemma CommitSucceeds(st: State, sid: nat)
    requires Inv(st) && sid in st.sessions && st.sessions[sid].pc.FanOut?
    requires var s := st.sessions[sid]; (s.pc.phase.CommitOne? || s.pc.phase.CommitAll?) && AllOk(s.pc.calls)
    ensures var st' := Tell(st, sid, st.sessions[sid].(state := Committed, parts := map[]), CommitOk);
            Inv(st') && Extends(st, st')
  {
    hide Inv, Extends, BasicOk, CommittedBy;
    SessionAt(st, sid);
    var s := st.sessions[sid];
    forall a | a in s.parts ensures CommittedBy(st, a, s.parts[a], Gtx(sid, s), s.attempt) {
      assert a in s.pc.calls && s.pc.calls[a] == Done(true);
    }
    SuccessKeeps(st, sid, s.(state := Committed, parts := map[]), CommitOk);
  }

  /** All prepared: the attempt is decided. */
  lemma DecidedKeeps(st: State, sid: nat)
    requires Inv(st) && sid in st.sessions && st.sessions[sid].pc.FanOut?
    requires st.sessions[sid].pc.phase.PrepareAll? && AllOk(st.sessions[sid].pc.calls)
    ensures var k := AttemptId(sid, st.sessions[sid].attempt);
            && k in st.attempts && AttemptOk(Decided(st, k), k) && st.attempts[k].parts == st.sessions[sid].parts
            && st.attempts[k].gtx == Gtx(sid, st.sessions[sid])
            && |st.sessions[sid].parts| >= 2 && st.sessions[sid].state.InTransaction?
  {
    hide Inv, BasicOk;
    SessionAt(st, sid);
    var s := st.sessions[sid];
    var k := AttemptId(sid, s.attempt);
    AttemptAt(st, k);
    assert st.attempts[k].prepared.Keys == s.parts.Keys by {
      forall a | a in s.parts ensures a in st.attempts[k].prepared { assert s.pc.calls[a] == Done(true); }
    }
  }

  lemma PreparedMoves(st: State, sid: nat)
    requires Inv(st) && sid in st.sessions && st.sessions[sid].pc.FanOut?
    requires st.sessions[sid].pc.phase.PrepareAll? && AllOk(st.sessions[sid].pc.calls)
    ensures var k := AttemptId(sid, st.sessions[sid].attempt);
            var st' := StartFan(Decided(st, k), sid, st.sessions[sid], CommitAll); Inv(st') && Extends(st, st')
  {
    hide Inv, Extends, BasicOk, AttemptOk, SessionOk;
    var s := st.sessions[sid];
    var k := AttemptId(sid, s.attempt);
    var st' := StartFan(Decided(st, k), sid, s, CommitAll);
    SessionAt(st, sid);
    AttemptAt(st, k) by { DecidedKeeps(st, sid); }
    DecidedKeeps(st, sid);
    assert AttemptOk(st', k) by { AttemptView(Decided(st, k), st', k); }
    assert st'.attempts == st.attempts[k := st'.attempts[k]];
    FramedExtends(st, st', sid);
    FreshCommits(st, st', sid, s);
    SessionStep(st, st', sid);
  }

  lemma AttemptView(st: State, st': State, k: AttemptId)
    requires k in st.attempts && AttemptOk(st, k) && st'.attempts == st.attempts
    requires st'.sent == st.sent && st'.replies == st.replies
    requires k.sid in st'.sessions && st'.sessions[k.sid].epoch == st.sessions[k.sid].epoch
    ensures AttemptOk(st', k)
  {
  }

  lemma FreshCommits(st: State, st': State, sid: nat, s: Session)
    requires SessionOk(st, sid, s) && s.state.InTransaction? && Extends(st, st')
    requires MayFan(st', sid, s, CommitAll)
    ensures SessionOk(st', sid, s.(pc := FanOut(CommitAll, Fresh(s.parts))))
  {
    hide Extends, IdleOk, PcOk;
    IdleGrows(st, st', sid, s);
    OtherPcIdle(st', sid, s, FanOut(CommitAll, Fresh(s.parts)));
    FreshPc(st', sid, s);
  }

  lemma FreshPc(st: State, sid: nat, s: Session)
    requires MayFan(st, sid, s, CommitAll)
    ensures PcOk(st, sid, s.(pc := FanOut(CommitAll, Fresh(s.parts))))
  {
  }

  lemma FanMoves(st: State, sid: nat, mergeOk: bool)
    requires Inv(st) && sid in st.sessions && CanAdvance(st.sessions[sid]) && st.sessions[sid].pc.FanOut?
    ensures Inv(Moved(st, sid, mergeOk)) && Extends(st, Moved(st, sid, mergeOk))
  {
    hide Inv, Extends, BasicOk, PcOk;
    SessionAt(st, sid);
    var s := st.sessions[sid];
    match s.pc.phase
    case CommitOne =>
      if AllOk(s.pc.calls) { CommitSucceeds(st, sid); } else { FanKeeps(st, sid, RollbackAll(AfterError)); }
    case PrepareAll =>
      if AllOk(s.pc.calls) { PreparedMoves(st, sid); } else { FanKeeps(st, sid, RollbackAll(AfterError)); }
    case CommitAll => if AllOk(s.pc.calls) { CommitSucceeds(st, sid); } else { FailedKeeps(st, sid, s); }
    case RollbackAll(after) =>
      if after.AfterRollback? { SuccessKeeps(st, sid, s.(state := RolledBack, parts := map[]), RollbackOk); }
      else { FailedKeeps(st, sid, s); }
  }

  // ----- the tablets -----

  /** A step of one tablet: it grows, a request may leave the network with its reply. */
  ghost predicate OneTablet(st: State, st': State, a: Addr) {
    && a in st.tablets && a in st'.tablets
    && st' == st.(tablets := st.tablets[a := st'.tablets[a]], net := st'.net, replies := st'.replies)
    && st'.net <= st.net
    && (forall rid | rid in st.replies :: rid in st'.replies && st'.replies[rid] == st.replies[rid])
    && (forall rid | rid in st'.replies && rid !in st.replies :: rid in st.sent && rid !in st'.net)
    && (forall rid | rid in st.net && rid !in st'.net :: rid in st'.replies)
    && Grows(st.tablets[a], st'.tablets[a])
  }

  lemma TabletExtends(st: State, st': State, a: Addr)
    requires BasicOk(st) && OneTablet(st, st', a)
    ensures Extends(st, st') && BasicOk(st')
  {
    TabletBasic(st, st', a);
    hide BasicOk;
  }

  lemma TabletBasic(st: State, st': State, a: Addr)
    requires BasicOk(st) && OneTablet(st, st', a)
    ensures BasicOk(st')
  {
    hide Grows;
  }

  lemma TabletStep(st: State, st': State, a: Addr)
    requires Inv(st) && OneTablet(st, st', a) && TabletEntryOk(st', a)
    requires forall rid | rid in st'.replies && rid !in st.replies :: rid in st'.sent && ReplyOk(st', rid)
    ensures Inv(st') && Extends(st, st')
  {
    hide MsgOk, ReplyOk, AttemptOk, SessionOk, ToldOk, TabletEntryOk, BasicOk, Extends, Grows;
    TabletExtends(st, st', a);
    Untouched(st, st');
    OtherSessions(st, st');
    assert forall sid | sid in st'.sessions :: SessionOk(st', sid, st'.sessions[sid]);
  }

  /** Every request on the wire names a local transaction of its own gate transaction. */
  lemma MsgAt(st: State, rid: nat)
    requires Inv(st) && rid in st.sent
    ensures MsgOk(st, rid) && TabletEntryOk(st, st.sent[rid].addr)
  {
    hide BasicOk, RepliesOk, AttemptsOk, SessionsOk, AllToldOk;
  }

  /** Serving a request that names its own local transaction runs nothing in autocommit, changes the
      commits of no other transaction, and records a commit under the request's number. */
  lemma ServedCommits(t: Tablet, rid: nat, m: Msg, c: Choice)
    requires TabletOk(t) && (!m.body.BeginReq? ==> m.body.id != 0 && m.body.id in t.locals)
    ensures var t' := Serve(t, rid, m, c).0;
            && t'.auto == t.auto
            && forall id | id in t'.locals && t'.locals[id].commits != [] ::
                 || (id in t.locals && t'.locals[id].commits == t.locals[id].commits)
                 || (m.body == CommitReq(id) && id in t.locals && t'.locals[id].commits == [rid])
  {
  }

  lemma DeliverEntry(st: State, rid: nat, choice: Choice)
    requires Inv(st) && CanDeliver(st, rid) && Extends(st, DoDeliver(st, rid, choice))
    ensures TabletEntryOk(DoDeliver(st, rid, choice), st.sent[rid].addr)
  {
    hide Inv, Extends;
    var m, st' := st.sent[rid], DoDeliver(st, rid, choice);
    var t, t' := st.tablets[m.addr], st'.tablets[m.addr];
    MsgAt(st, rid);
    ServeKeeps(t, rid, m, choice);
    ServedCommits(t, rid, m, choice);
    forall id | id in t'.locals && t'.locals[id].commits != []
      ensures exists n :: CommittedBy(st', m.addr, id, t'.locals[id].owner, n)
    {
      if id in t.locals && t'.locals[id].commits == t.locals[id].commits {
        var n :| CommittedBy(st, m.addr, id, t.locals[id].owner, n);
        CommittedByGrows(st, st', m.addr, id, t.locals[id].owner, n);
      } else {
        assert CommittedBy(st', m.addr, id, m.gtx, m.attempt);
      }
    }
  }

  lemma DeliverReply(st: State, rid: nat, choice: Choice)
    requires CanDeliver(st, rid) && MsgOk(st, rid) && TabletEntryOk(st, st.sent[rid].addr)
    ensures ReplyOk(DoDeliver(st, rid, choice), rid)
  {
    var m, st' := st.sent[rid], DoDeliver(st, rid, choice);
    AffirmativeAnswers(st.tablets[m.addr], rid, m, choice);
    ServeKeeps(st.tablets[m.addr], rid, m, choice);
  }

  lemma DeliverKeeps(st: State, rid: nat, choice: Choice)
    requires Inv(st) && CanDeliver(st, rid)
    ensures Inv(DoDeliver(st, rid, choice)) && Extends(st, DoDeliver(st, rid, choice))
  {
    hide Inv, Extends, TabletEntryOk, MsgOk, ReplyOk, Serve;
    var m, st' := st.sent[rid], DoDeliver(st, rid, choice);
    InvBasic(st);
    MsgAt(st, rid);
    TabletAt(st, m.addr);
    ServeKeeps(st.tablets[m.addr], rid, m, choice);
    TabletExtends(st, st', m.addr);
    DeliverEntry(st, rid, choice);
    DeliverReply(st, rid, choice);
    TabletStep(st, st', m.addr);
  }

  lemma TabletAt(st: State, a: Addr)
    requires Inv(st) && a in st.tablets
    ensures TabletEntryOk(st, a) && TabletOk(st.tablets[a])
  {
    hide BasicOk, MsgsOk, RepliesOk, AttemptsOk, SessionsOk, AllToldOk;
  }

  lemma ReapKeeps(st: State, a: Addr, id: nat)
    requires Inv(st) && a in st.tablets
    ensures Inv(DoReap(st, a, id)) && Extends(st, DoReap(st, a, id))
  {
    hide Inv, Extends, BasicOk;
    InvBasic(st);
    TabletAt(st, a);
    var t, st' := st.tablets[a], DoReap(st, a, id);
    if id in t.live {
      UpdateKeeps(t, id, t.locals[id].(aborted := true));
      TabletExtends(st, st', a);
      forall i | i in st'.tablets[a].locals && st'.tablets[a].locals[i].commits != []
        ensures exists n :: CommittedBy(st', a, i, st'.tablets[a].locals[i].owner, n)
      {
        var n :| CommittedBy(st, a, i, t.locals[i].owner, n);
        CommittedByGrows(st, st', a, i, t.locals[i].owner, n);
      }
      TabletStep(st, st', a);
    } else {
      ExtendsSelf(st);
    }
  }

  lemma ClientsKeep(st: State, clients: set<Addr>)
    requires Inv(st) && clients <= st.tablets.Keys
    ensures Inv(st.(clients := clients)) && Extends(st, st.(clients := clients))
  {
    hide MsgOk, ReplyOk, AttemptOk, SessionOk, ToldOk, TabletEntryOk;
    var st' := st.(clients := clients);
    ExtendsSelf(st);
    Untouched(st, st');
    OtherSessions(st, st');
    assert forall sid | sid in st'.sessions :: SessionOk(st', sid, st'.sessions[sid]);
  }

  lemma ReapSessionKeeps(st: State, sid: nat)
    requires Inv(st) && sid in st.sessions
    ensures var st' := Put(st, sid, st.sessions[sid].(registered := false)); Inv(st') && Extends(st, st')
  {
    hide Inv, Extends, BasicOk;
    SessionAt(st, sid);
    PutKeeps(st, sid, st.sessions[sid].(registered := false));
  }

  /** Every step, whatever it is, keeps the invariant and extends the state. */
  lemma StepKeeps(st: State, l: Label)
    requires Inv(st) && Enabled(st, l)
    ensures Inv(Apply(st, l)) && Extends(st, Apply(st, l))
  {
    hide Inv, Extends;
    match l
    case OpenSession => OpenKeeps(st);
    case Rebegin(sid) => RebeginKeeps(st, sid);
    case StartExecute(sid, job) => StartExecuteKeeps(st, sid, job);
    case StartCommit(sid) => StartCommitKeeps(st, sid);
    case StartRollback(sid) => StartRollbackKeeps(st, sid);
    case Send(sid, a) => SendKeeps(st, sid, a);
    case NoClient(sid, a) => MissKeeps(st, sid, a);
    case Deliver(rid, choice) => DeliverKeeps(st, rid, choice);
    case Receive(sid, a) => ReceiveKeeps(st, sid, a);
    case GiveUp(sid, a) => GiveUpKeeps(st, sid, a);
    case Advance(sid, mergeOk) =>
      if st.sessions[sid].pc.FanOut? { FanMoves(st, sid, mergeOk); } else { LoopMoves(st, sid, mergeOk); }
    case Reap(a, id) => ReapKeeps(st, a, id);
    case SetClients(clients) => ClientsKeep(st, clients);
    case ReapSession(sid) => ReapSessionKeeps(st, sid);
  }

  lemma InitInv(st: State)
    requires Init(st)
    ensures Inv(st)
  {
  }

  /** The invariant holds in every state of every run, and every later state extends every earlier one. */
  lemma RunInv(ss: seq<State>, ls: seq<Label>, i: nat)
    requires IsRun(ss, ls) && i <= |ls|
    ensures Inv(ss[i])
  {
    hide Inv, Extends, Enabled, Apply;
    if i == 0 {
      InitInv(ss[0]);
    } else {
      RunInv(ss, ls, i - 1);
      StepKeeps(ss[i - 1], ls[i - 1]);
    }
  }

  lemma RunExtends(ss: seq<State>, ls: seq<Label>, i: nat, j: nat)
    requires IsRun(ss, ls) && i <= j <= |ls|
    ensures Extends(ss[i], ss[j])
    decreases j - i
  {
    hide Inv, Extends, Enabled, Apply;
    if i == j {
      ExtendsSelf(ss[i]);
    } else {
      RunExtends(ss, ls, i, j - 1);
      RunInv(ss, ls, j - 1);
      StepKeeps(ss[j - 1], ls[j - 1]);
      ExtendsTrans(ss[i], ss[j - 1], ss[j]);
    }
  }
}
