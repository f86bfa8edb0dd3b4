/** What one step can do to a session that is in a transaction, and what it can tell its client. */
module ProtocolEffects {
  import opened Tablets
  import opened Protocol
  import opened ProtocolInvariant
  import opened ProtocolSteps

  predicate IsCommitting(pc: Pc) {
    pc.FanOut? && (pc.phase.CommitOne? || pc.phase.CommitAll?)
  }

  predicate IsPreparing(pc: Pc) {
    pc.FanOut? && pc.phase.PrepareAll?
  }

  // ----- one step, seen from one session in a transaction -----

  /** In a transaction the epoch stays, participants and successes are only added, and commits go out
      in a new attempt or after this attempt's votes. */
  ghost predicate Evolves(s: Session, s': Session) {
    && s'.epoch == s.epoch && s.ran <= s'.ran
    && (s'.state.InTransaction? ==> forall a | a in s.parts :: a in s'.parts && s'.parts[a] == s.parts[a])
    && (s'.attempt == s.attempt || s'.attempt == s.attempt + 1)
    && (IsCommitting(s'.pc) ==> s'.attempt == s.attempt + 1 || IsCommitting(s.pc) || IsPreparing(s.pc))
  }

  /** A step answers the client of `sid`: only a session in a transaction gets an answer, and a
      COMMIT succeeds only without participants or after every commit call came back good. */
  ghost predicate Speaks(st: State, st': State, sid: nat, v: Verdict)
    requires sid in st.sessions && sid in st'.sessions
  {
    var s, s' := st.sessions[sid], st'.sessions[sid];
    && st'.told == st.told + [Told(Gtx(sid, s), s'.attempt, v, s.parts, s'.ran)]
    && (v.CommitOk? || v.RollbackOk? <==> !s'.state.InTransaction?)
    && (v.CommitOk? ==> s.parts == map[] || (IsCommitting(s.pc) && AllOk(s.pc.calls)))
  }

  /** A step of session `sid`, which is in a transaction. */
  ghost predicate Acts(st: State, st': State, sid: nat) {
    && sid in st.sessions && sid in st'.sessions && st.sessions[sid].state.InTransaction?
    && st'.sessions == st.sessions[sid := st'.sessions[sid]]
    && Evolves(st.sessions[sid], st'.sessions[sid])
    && ((st'.told == st.told && st'.sessions[sid].state.InTransaction?) || exists v :: Speaks(st, st', sid, v))
  }

  /** A step that opens no transaction and answers nobody. */
  ghost predicate Silent(st: State, st': State) {
    && st'.told == st.told
    && forall sid | sid in st.sessions && st.sessions[sid].state.InTransaction? ::
         sid in st'.sessions && Evolves(st.sessions[sid], st'.sessions[sid]) && st'.sessions[sid].state.InTransaction?
  }

  lemma PutActs(st: State, st': State, sid: nat, s: Session)
    requires sid in st.sessions && st.sessions[sid].state.InTransaction?
    requires st'.sessions == st.sessions[sid := s] && st'.told == st.told
    requires Evolves(st.sessions[sid], s) && s.state.InTransaction?
    ensures Acts(st, st', sid)
  {
  }

  lemma TellActs(st: State, st': State, sid: nat, s: Session, v: Verdict)
    requires sid in st.sessions && st.sessions[sid].state.InTransaction?
    requires st'.sessions == st.sessions[sid := s] && Evolves(st.sessions[sid], s)
    requires st'.told == st.told + [Told(Gtx(sid, st.sessions[sid]), s.attempt, v, st.sessions[sid].parts, s.ran)]
    requires v.CommitOk? || v.RollbackOk? <==> !s.state.InTransaction?
    requires v.CommitOk? ==>
               var was := st.sessions[sid]; was.parts == map[] || (IsCommitting(was.pc) && AllOk(was.pc.calls))
    ensures Acts(st, st', sid)
  {
    hide Evolves, IsCommitting, AllOk;
    assert Speaks(st, st', sid, v);
  }

  lemma FanResolveActs(st: State, sid: nat, a: Addr, r: Reply)
    requires sid in st.sessions && st.sessions[sid].state.InTransaction?
    requires st.sessions[sid].pc.FanOut? && HasCall(st.sessions[sid].pc, a)
    ensures Acts(st, Resolve(st, sid, a, r), sid)
  {
    hide Acts;
    PutActs(st, Resolve(st, sid, a, r), sid, Resolve(st, sid, a, r).sessions[sid]);
  }

  lemma ResolveActs(st: State, sid: nat, a: Addr, r: Reply)
    requires sid in st.sessions && st.sessions[sid].state.InTransaction?
    requires HasCall(st.sessions[sid].pc, a) && (st.sessions[sid].pc.Opening? ==> a !in st.sessions[sid].parts)
    ensures Acts(st, Resolve(st, sid, a, r), sid)
  {
    hide Acts;
    var s, st' := st.sessions[sid], Resolve(st, sid, a, r);
    var s' := st'.sessions[sid];
    if s.pc.FanOut? {
      FanResolveActs(st, sid, a, r);
    } else if s.pc.Running? && !r.Okay? && IsSingle(s.pc.job) {
      TellActs(st, st', sid, s', Failed);
    } else {
      PutActs(st, st', sid, s');
    }
  }

  lemma TellSelf(st: State, sid: nat, s: Session, v: Verdict)
    requires sid in st.sessions && st.sessions[sid].state.InTransaction?
    requires s.epoch == st.sessions[sid].epoch && s.attempt == st.sessions[sid].attempt && st.sessions[sid].ran <= s.ran
    requires s.state.InTransaction? ==> s.parts == st.sessions[sid].parts
    requires v.CommitOk? || v.RollbackOk? <==> !s.state.InTransaction?
    requires v.CommitOk? ==> var was := st.sessions[sid]; IsCommitting(was.pc) && AllOk(was.pc.calls)
    ensures Acts(st, Tell(st, sid, s, v), sid)
  {
    hide Acts, AllOk;
    TellActs(st, Tell(st, sid, s, v), sid, s.(pc := Quiet), v);
  }

  lemma PutSelf(st: State, st': State, sid: nat, pc: Pc)
    requires sid in st.sessions && st.sessions[sid].state.InTransaction?
    requires st'.sessions == st.sessions[sid := st.sessions[sid].(pc := pc)] && st'.told == st.told
    requires IsCommitting(pc) ==> IsCommitting(st.sessions[sid].pc) || IsPreparing(st.sessions[sid].pc)
    ensures Acts(st, st', sid)
  {
    hide Acts;
    PutActs(st, st', sid, st.sessions[sid].(pc := pc));
  }

  lemma LoopMovedActs(st: State, sid: nat, mergeOk: bool)
    requires sid in st.sessions && st.sessions[sid].state.InTransaction? && !st.sessions[sid].pc.FanOut?
    ensures Acts(st, Moved(st, sid, mergeOk), sid)
  {
    hide Acts;
    var s, st' := st.sessions[sid], Moved(st, sid, mergeOk);
    match s.pc
    case Quiet => PutSelf(st, st', sid, Quiet);
    case Opening(job, next, call) =>
      PutSelf(st, st', sid,
              if next < |job.targets| then Opening(job, next + 1, call) else Running(job, 0, Unsent, false));
    case Running(job, _, _, failed) =>
      if !failed && (IsSingle(job) || mergeOk) {
        TellSelf(st, sid, s.(ran := s.ran + [Ran(job.stmt, job.targets)]), ExecOk);
      } else {
        PutSelf(st, st', sid, FanOut(RollbackAll(AfterError), Fresh(s.parts)));
      }
  }

  lemma FanMovedActs(st: State, sid: nat, mergeOk: bool)
    requires sid in st.sessions && st.sessions[sid].state.InTransaction? && st.sessions[sid].pc.FanOut?
    ensures Acts(st, Moved(st, sid, mergeOk), sid)
  {
    hide Acts, AllOk;
    var s, st' := st.sessions[sid], Moved(st, sid, mergeOk);
    var ok := AllOk(s.pc.calls);
    match s.pc.phase
    case CommitOne =>
      if ok { TellSelf(st, sid, s.(state := Committed, parts := map[]), CommitOk); }
      else { PutSelf(st, st', sid, FanOut(RollbackAll(AfterError), Fresh(s.parts))); }
    case PrepareAll =>
      PutSelf(st, st', sid, FanOut(if ok then CommitAll else RollbackAll(AfterError), Fresh(s.parts)));
    case CommitAll =>
      if ok {
        TellSelf(st, sid, s.(state := Committed, parts := map[]), CommitOk);
      } else {
        TellSelf(st, sid, s, Failed);
      }
    case RollbackAll(AfterRollback) => TellSelf(st, sid, s.(state := RolledBack, parts := map[]), RollbackOk);
    case RollbackAll(AfterError) => TellSelf(st, sid, s, Failed);
  }

  lemma ExecuteActs(st: State, sid: nat, job: Job)
    requires CanStart(st, sid)
    ensures Acts(st, DoStartExecute(st, sid, job), sid)
  {
    hide Acts;
    var st' := DoStartExecute(st, sid, job);
    if job.targets == [] && !job.scatter {
      TellActs(st, st', sid, st'.sessions[sid], Failed);
    } else {
      PutActs(st, st', sid, st'.sessions[sid]);
    }
  }

  lemma CommitActs(st: State, sid: nat)
    requires CanStart(st, sid)
    ensures Acts(st, DoStartCommit(st, sid), sid)
  {
    hide Acts;
    var st' := DoStartCommit(st, sid);
    if |st.sessions[sid].parts| == 0 {
      TellActs(st, st', sid, st'.sessions[sid], CommitOk);
    } else {
      PutActs(st, st', sid, st'.sessions[sid]);
    }
  }

  lemma MissActs(st: State, sid: nat, a: Addr)
    requires CanMiss(st, sid, a) && st.sessions[sid].state.InTransaction?
    ensures Acts(st, DoMiss(st, sid, a), sid)
  {
    hide Acts, Resolve;
    if st.sessions[sid].pc.phase.CommitOne? {
      var st' := DoMiss(st, sid, a);
      TellActs(st, st', sid, st'.sessions[sid], Failed);
    } else {
      ResolveActs(st, sid, a, Refused);
    }
  }

  /** An operation in progress means the session is in a transaction. */
  lemma BusyInTransaction(st: State, sid: nat)
    requires Inv(st) && sid in st.sessions
    ensures !st.sessions[sid].pc.Quiet? ==> st.sessions[sid].state.InTransaction?
  {
    hide Inv, BasicOk, PcOk;
    SessionAt(st, sid);
  }

  lemma StepActs(st: State, l: Label)
    requires Inv(st) && Enabled(st, l)
    ensures var st' := Apply(st, l); Silent(st, st') || exists sid :: Acts(st, st', sid)
  {
    hide Inv, Acts, Resolve, Moved, DoStartCommit, DoStartExecute, DoMiss, CanAdvance;
    match l
    case StartExecute(sid, job) => ExecuteActs(st, sid, job);
    case StartCommit(sid) => CommitActs(st, sid);
    case StartRollback(sid) => PutActs(st, DoStartRollback(st, sid), sid, DoStartRollback(st, sid).sessions[sid]);
    case NoClient(sid, a) => BusyInTransaction(st, sid); MissActs(st, sid, a);
    case Receive(sid, a) =>
      BusyInTransaction(st, sid);
      WaitingOpening(st, sid, a);
      ResolveActs(st, sid, a, st.replies[CallOf(st.sessions[sid].pc, a).rid]);
    case GiveUp(sid, a) =>
      BusyInTransaction(st, sid);
      WaitingOpening(st, sid, a);
      ResolveActs(st, sid, a, Refused);
    case Advance(sid, mergeOk) => 
      AdvancingBusy(st, sid);
      if st.sessions[sid].pc.FanOut? { FanMovedActs(st, sid, mergeOk); } else { LoopMovedActs(st, sid, mergeOk); }
    case _ => OtherSilent(st, l);
  }

  lemma AdvancingBusy(st: State, sid: nat)
    requires Inv(st) && sid in st.sessions && CanAdvance(st.sessions[sid])
    ensures st.sessions[sid].state.InTransaction?
  {
    hide Inv;
    BusyInTransaction(st, sid);
  }

  lemma OtherSilent(st: State, l: Label)
    requires Inv(st) && Enabled(st, l)
    requires l.OpenSession? || l.Rebegin? || l.Send? || l.Deliver? || l.Reap? || l.SetClients? || l.ReapSession?
    ensures Silent(st, Apply(st, l))
  {
    hide Inv, Serve, BasicOk, DoSend, CanSend;
    InvBasic(st);
    NewSession(st);
    if l.Send? { SendSilent(st, l.sid, l.addr); }
  }

  lemma SendSilent(st: State, sid: nat, a: Addr)
    requires CanSend(st, sid, a)
    ensures Silent(st, DoSend(st, sid, a))
  {
    hide Body;
  }

  lemma NewSession(st: State)
    requires BasicOk(st)
    ensures st.nextSid + 1 !in st.sessions
  {
  }
}
