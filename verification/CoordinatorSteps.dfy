/** The coordinator's steps on one session, and what the rest of the world leaves of it meanwhile. */
module CoordinatorSteps {
  import opened Tablets
  import opened Protocol
  import opened ProtocolInvariant
  import opened ProtocolSteps
  import opened ProtocolTheorems
  import opened ProtocolFrame
  import opened ProtocolLabels

  /** What others may do to the world of session `sid`. */
  ghost predicate Meanwhile(st: State, st': State, sid: nat) {
    && sid in st.sessions && sid in st'.sessions && Same(st.sessions[sid], st'.sessions[sid])
    && Extends(st, st')
  }

  lemma OthersKeep(st: State, l: Label, sid: nat)
    requires Inv(st) && Enabled(st, l) && sid in st.sessions && !StepOf(l, sid)
    ensures Meanwhile(st, Apply(st, l), sid)
  {
    hide Inv, Extends, Enabled, Apply, StepOf;
    StepKeeps(st, l);
    InvBasic(st);
    OthersSpare(st, l, sid);
  }

  lemma RunGrows(ss: seq<State>, ls: seq<Label>, l: Label)
    requires IsRun(ss, ls) && Enabled(ss[|ls|], l)
    ensures IsRun(ss + [Apply(ss[|ls|], l)], ls + [l])
  {
    hide Init, Enabled, Apply;
    var ss', ls' := ss + [Apply(ss[|ls|], l)], ls + [l];
    forall i | 0 <= i < |ls'| ensures Enabled(ss'[i], ls'[i]) && ss'[i + 1] == Apply(ss'[i], ls'[i]) {
      if i < |ls| {
        assert ss'[i] == ss[i] && ss'[i + 1] == ss[i + 1] && ls'[i] == ls[i];
      }
    }
  }

  lemma MeanwhileTrans(st: State, st1: State, st2: State, sid: nat)
    requires Meanwhile(st, st1, sid) && Meanwhile(st1, st2, sid)
    ensures Meanwhile(st, st2, sid)
  {
    hide Extends;
    ExtendsTrans(st, st1, st2);
  }

  /** The operation that began in `st` on session `s` has ended: its client was told `v`, and the session
      was left as `s'`. */
  ghost predicate Over(st: State, st': State, sid: nat, s: Session, v: Verdict, s': Session) {
    && sid in st'.sessions && Same(s'.(pc := Quiet), st'.sessions[sid])
    && exists i :: |st.told| <= i < |st'.told| && st'.told[i] == Told(Gtx(sid, s), s.attempt, v, s.parts, s'.ran)
  }

  /** What follows a fan-out. */
  ghost predicate AfterPhase(st: State, st': State, sid: nat, s0: Session, phase: Phase, ok: bool) {
    match phase
    case CommitOne =>
      if ok then Over(st, st', sid, s0, CommitOk, s0.(state := Committed, parts := map[]))
      else Fanning(st', sid, s0, RollbackAll(AfterError), Fresh(s0.parts))
    case PrepareAll => Fanning(st', sid, s0, if ok then CommitAll else RollbackAll(AfterError), Fresh(s0.parts))
    case CommitAll =>
      if ok then Over(st, st', sid, s0, CommitOk, s0.(state := Committed, parts := map[]))
      else Over(st, st', sid, s0, Failed, s0)
    case RollbackAll(AfterRollback) => Over(st, st', sid, s0, RollbackOk, s0.(state := RolledBack, parts := map[]))
    case RollbackAll(AfterError) => Over(st, st', sid, s0, Failed, s0)
  }

  lemma TellOver(st: State, sid: nat, s0: Session, t: Session, v: Verdict, s: Session)
    requires sid in st.sessions && Same(s0.(pc := st.sessions[sid].pc), st.sessions[sid])
    requires t == s.(pc := t.pc, registered := t.registered)
    ensures Over(st, Tell(st, sid, t, v), sid, s0, v, s)
  {
    assert Tell(st, sid, t, v).told[|st.told|] == Told(Gtx(sid, s0), s0.attempt, v, s0.parts, s.ran);
  }

  lemma FanStarted(st: State, sid: nat, s0: Session, phase: Phase)
    requires sid in st.sessions && Same(s0.(pc := st.sessions[sid].pc), st.sessions[sid])
    ensures Fanning(StartFan(st, sid, st.sessions[sid], phase), sid, s0, phase, Fresh(s0.parts))
  {
  }

  lemma FanMoved(st: State, sid: nat, s0: Session, phase: Phase, calls: map<Addr, Call>)
    requires Fanning(st, sid, s0, phase, calls) && AllDone(calls)
    ensures sid in st.sessions && CanAdvance(st.sessions[sid])
              && AfterPhase(st, Moved(st, sid, true), sid, s0, phase, AllOk(calls))
  {
    hide AllOk, Fresh, Tell, Over, Put;
    var s := st.sessions[sid];
    var s1, s2 := s0.(state := Committed, parts := map[]), s0.(state := RolledBack, parts := map[]);
    match phase
    case CommitOne =>
      TellOver(st, sid, s0, s.(state := Committed, parts := map[]), CommitOk, s1);
      FanStarted(st, sid, s0, RollbackAll(AfterError));
    case PrepareAll =>
      FanStarted(Decided(st, AttemptId(sid, s.attempt)), sid, s0, CommitAll);
      FanStarted(st, sid, s0, RollbackAll(AfterError));
    case CommitAll =>
      TellOver(st, sid, s0, s, Failed, s0);
      TellOver(st, sid, s0, s.(state := Committed, parts := map[]), CommitOk, s1);
    case RollbackAll(AfterRollback) => TellOver(st, sid, s0, s.(state := RolledBack, parts := map[]), RollbackOk, s2);
    case RollbackAll(AfterError) => TellOver(st, sid, s0, s, Failed, s0);
  }

  /** Where the goroutines stand: unsent, waiting or done, and how many failed. */
  ghost predicate Tally(calls: map<Addr, Call>, pending: set<Addr>, waiting: set<Addr>, errors: nat) {
    && (forall a | a in calls ::
          if a in waiting then calls[a].Waiting? else if a in pending then calls[a].Unsent? else calls[a].Done?)
    && (errors == 0 <==> forall a | a in calls && a !in pending :: calls[a] == Done(true))
  }

  lemma TallyStart(shards: map<Addr, nat>)
    ensures Tally(Fresh(shards), shards.Keys, {}, 0)
  {
  }

  lemma TallyAt(calls: map<Addr, Call>, pending: set<Addr>, waiting: set<Addr>, errors: nat, a: Addr)
    requires Tally(calls, pending, waiting, errors) && a in pending && a in calls
    ensures if a in waiting then calls[a].Waiting? else calls[a].Unsent?
  {
  }

  lemma TallyStep(calls: map<Addr, Call>, pending: set<Addr>, waiting: set<Addr>, errors: nat, a: Addr, over: bool,
                  failed: bool, call: Call)
    requires Tally(calls, pending, waiting, errors) && a in pending && a in calls && waiting <= pending
    requires (over <==> call == Done(!failed)) && (!over ==> call.Waiting?)
    ensures over ==> Tally(calls[a := call], pending - {a}, waiting - {a}, errors + if failed then 1 else 0)
    ensures !over ==> Tally(calls[a := call], pending, waiting + {a}, errors)
  {
    if over {
      assert !failed || calls[a := call][a] != Done(true);
      assert forall b | b in calls && b !in pending :: calls[a := call][b] == calls[b];
    }
  }

  lemma TallyEnd(calls: map<Addr, Call>, waiting: set<Addr>, errors: nat)
    requires Tally(calls, {}, waiting, errors) && waiting == {}
    ensures AllDone(calls) && (errors == 0 <==> AllOk(calls))
  {
  }

  lemma FanWaits(st: State, sid: nat, s0: Session, phase: Phase, calls: map<Addr, Call>, a: Addr)
    requires Fanning(st, sid, s0, phase, calls) && a in calls && calls[a].Waiting?
    ensures IsWaiting(st, sid, a) && HasCall(st.sessions[sid].pc, a) && CallOf(st.sessions[sid].pc, a) == calls[a]
  {
  }

  lemma FanSid(st: State, sid: nat, s0: Session, phase: Phase, calls: map<Addr, Call>)
    requires Fanning(st, sid, s0, phase, calls)
    ensures sid in st.sessions
  {
  }

  lemma FanMeanwhile(st: State, st': State, sid: nat, s0: Session, phase: Phase, calls: map<Addr, Call>)
    requires Fanning(st, sid, s0, phase, calls) && Meanwhile(st, st', sid)
    ensures Fanning(st', sid, s0, phase, calls) && Extends(st, st')
  {
    hide Extends;
  }

  /** In `mid` the session still waits for the request to `a` that it sent in `st`. */
  ghost predicate Sent(st: State, mid: State, sid: nat, a: Addr) {
    && sid in st.sessions && HasCall(st.sessions[sid].pc, a) && IsWaiting(mid, sid, a) && Extends(st, mid)
    && mid.sessions[sid] == st.sessions[sid].(pc := WithCall(st.sessions[sid].pc, a, CallOf(mid.sessions[sid].pc, a)),
                                              registered := mid.sessions[sid].registered)
  }

  lemma SendWaits(st: State, sid: nat, a: Addr)
    requires CanSend(st, sid, a)
    ensures sid in st.sessions && HasCall(st.sessions[sid].pc, a)
    ensures var st', s := DoSend(st, sid, a), st.sessions[sid];
            && IsWaiting(st', sid, a) && st'.sessions[sid] == s.(pc := WithCall(s.pc, a, Waiting(st.nextRid)))
            && CallOf(st'.sessions[sid].pc, a) == Waiting(st.nextRid)
            && IsSent(st', st.nextRid, Msg(Gtx(sid, s), s.attempt, a, Body(s, a)))
  {
    hide Body;
  }

  lemma StillWaits(st: State, sent: State, mid: State, sid: nat, a: Addr)
    requires CanSend(st, sid, a) && sent == DoSend(st, sid, a) && Extends(st, sent) && Meanwhile(sent, mid, sid)
    ensures Sent(st, mid, sid, a) && CallOf(mid.sessions[sid].pc, a) == Waiting(st.nextRid)
  {
    hide Extends, HasCall, WithCall, CallOf, Body;
    SendWaits(st, sid, a);
    hide DoSend, IsSent;
    ExtendsTrans(st, sent, mid);
  }

  lemma SentWaits(st: State, mid: State, sid: nat, a: Addr)
    requires Sent(st, mid, sid, a)
    ensures IsWaiting(mid, sid, a)
  {
  }

  lemma Delivered(st: State, st': State, rid: nat, c: Choice)
    requires CanDeliver(st, rid) && st' == DoDeliver(st, rid, c)
    ensures rid in st'.replies
  {
  }

  lemma SentKept(st: State, st': State, sid: nat, rid: nat)
    requires Meanwhile(st, st', sid) && rid in st.sent
    ensures rid in st'.sent
  {
  }

  lemma DeliverIsOthers(rid: nat, c: Choice, sid: nat)
    ensures !StepOf(Deliver(rid, c), sid)
  {
  }

  lemma LastState(ss: seq<State>, ls: seq<Label>, st: State, l: Label)
    requires IsRun(ss, ls)
    ensures |ss| == |ls| + 1 && (ss + [st])[|ls + [l]|] == st
  {
  }

  lemma MeanwhileSelf(st: State, sid: nat)
    requires sid in st.sessions
    ensures Meanwhile(st, st, sid)
  {
    ExtendsSelf(st);
  }

  lemma SidKept(st: State, st': State, sid: nat)
    requires Meanwhile(st, st', sid)
    ensures sid in st'.sessions
  {
  }

  // ----- a fan-out -----

  /** The session's fan-out stands at `calls`; else the session is as in `s0`. */
  ghost predicate Fanning(st: State, sid: nat, s0: Session, phase: Phase, calls: map<Addr, Call>) {
    sid in st.sessions && st.sessions[sid] == s0.(pc := FanOut(phase, calls), registered := st.sessions[sid].registered)
  }

  lemma FanResolved(st: State, sid: nat, s0: Session, phase: Phase, calls: map<Addr, Call>, a: Addr, r: Reply)
    requires Fanning(st, sid, s0, phase, calls) && a in calls
    ensures HasCall(st.sessions[sid].pc, a)
    ensures Fanning(Resolve(st, sid, a, r), sid, s0, phase, calls[a := Done(r.Okay?)])
  {
    hide Noted;
  }

  lemma FanSent(st: State, sid: nat, s0: Session, phase: Phase, calls: map<Addr, Call>, a: Addr)
    requires Fanning(st, sid, s0, phase, calls) && a in calls && calls[a].Unsent? && a in st.clients
    ensures CanSend(st, sid, a) && Fanning(DoSend(st, sid, a), sid, s0, phase, calls[a := Waiting(st.nextRid)])
  {
    hide Body;
  }

  lemma FanMissed(st: State, sid: nat, s0: Session, phase: Phase, calls: map<Addr, Call>, a: Addr)
    requires Fanning(st, sid, s0, phase, calls) && a in calls && calls[a].Unsent? && a !in st.clients
    requires !phase.CommitOne?
    ensures CanMiss(st, sid, a) && Fanning(DoMiss(st, sid, a), sid, s0, phase, calls[a := Done(false)])
  {
    FanResolved(st, sid, s0, phase, calls, a, Refused);
    hide Resolve;
  }

  lemma LaterOver(st: State, st1: State, st2: State, sid: nat, s0: Session, v: Verdict, s: Session)
    requires Extends(st, st1) && Extends(st1, st2) && Over(st1, st2, sid, s0, v, s)
    ensures Extends(st, st2) && Over(st, st2, sid, s0, v, s)
  {
    assert |st.told| <= |st1.told|;
    hide Extends;
    ExtendsTrans(st, st1, st2);
  }

  lemma LaterPhase(st: State, st1: State, st2: State, sid: nat, s0: Session, phase: Phase, ok: bool)
    requires Extends(st, st1) && Extends(st1, st2) && AfterPhase(st1, st2, sid, s0, phase, ok)
    ensures Extends(st, st2) && AfterPhase(st, st2, sid, s0, phase, ok)
  {
    hide Extends, Over, Fanning;
    ExtendsTrans(st, st1, st2);
    if Over(st1, st2, sid, s0, CommitOk, s0.(state := Committed, parts := map[])) {
      LaterOver(st, st1, st2, sid, s0, CommitOk, s0.(state := Committed, parts := map[]));
    }
    if Over(st1, st2, sid, s0, RollbackOk, s0.(state := RolledBack, parts := map[])) {
      LaterOver(st, st1, st2, sid, s0, RollbackOk, s0.(state := RolledBack, parts := map[]));
    }
    if Over(st1, st2, sid, s0, Failed, s0) {
      LaterOver(st, st1, st2, sid, s0, Failed, s0);
    }
  }

  lemma OnlyCall(calls: map<Addr, Call>, a: Addr, ok: bool)
    requires calls.Keys == {a}
    ensures AllDone(calls[a := Done(ok)]) && (AllOk(calls[a := Done(ok)]) <==> ok)
  {
    assert calls[a := Done(ok)][a] == Done(ok);
  }

  lemma OneKey(shards: map<Addr, nat>, a: Addr)
    requires a in shards && |shards| == 1
    ensures shards.Keys == {a}
  {
    assert |shards.Keys - {a}| == 0;
  }

  lemma AfterOne(st: State, st': State, sid: nat, s0: Session, ok: bool)
    requires AfterPhase(st, st', sid, s0, CommitOne, ok)
    ensures if ok then Over(st, st', sid, s0, CommitOk, s0.(state := Committed, parts := map[]))
            else Fanning(st', sid, s0, RollbackAll(AfterError), Fresh(s0.parts))
  {
  }

  lemma OnlyMissed(st: State, sid: nat, s0: Session, calls: map<Addr, Call>, a: Addr)
    requires Fanning(st, sid, s0, CommitOne, calls) && a in calls && calls[a].Unsent? && a !in st.clients
    ensures CanMiss(st, sid, a) && Over(st, DoMiss(st, sid, a), sid, s0, Failed, s0)
  {
    hide Tell, Over, Resolve;
    TellOver(st, sid, s0, st.sessions[sid], Failed, s0);
  }

  lemma OnlyAnswered(st: State, mid: State, sid: nat, s0: Session, calls: map<Addr, Call>, a: Addr, r: Reply)
    requires Fanning(st, sid, s0, CommitOne, calls) && a in calls && Sent(st, mid, sid, a)
    ensures Fanning(Resolve(mid, sid, a, r), sid, s0, CommitOne, calls[a := Done(r.Okay?)])
  {
    hide Extends;
    var waiting := calls[a := CallOf(mid.sessions[sid].pc, a)];
    FanResolved(mid, sid, s0, CommitOne, waiting, a, r);
    hide Resolve;
    assert waiting[a := Done(r.Okay?)] == calls[a := Done(r.Okay?)];
  }

  // ----- whole operations -----

  lemma StartCommitIs(st: State, sid: nat, s0: Session)
    requires CanStart(st, sid) && s0 == st.sessions[sid].(attempt := st.sessions[sid].attempt + 1)
    ensures var st', parts := DoStartCommit(st, sid), s0.parts;
            if |parts| == 0 then Over(st, st', sid, s0, CommitOk, s0.(state := Committed, parts := map[]))
            else Fanning(st', sid, s0, if |parts| == 1 then CommitOne else PrepareAll, Fresh(parts))
  {
    hide Tell, Over, StartFan, Fanning;
    var st1 := Attempted(st, sid);
    assert st1.sessions[sid] == s0;
    if |s0.parts| == 0 {
      assert s0.parts == map[];
      TellOver(st1, sid, s0, s0.(state := Committed), CommitOk, s0.(state := Committed, parts := map[]));
      OverFrom(st, st1, DoStartCommit(st, sid), sid, s0, CommitOk, s0.(state := Committed, parts := map[]));
    } else {
      FanStarted(st1, sid, s0, if |s0.parts| == 1 then CommitOne else PrepareAll);
    }
  }

  lemma OverFrom(st: State, st1: State, st': State, sid: nat, s0: Session, v: Verdict, s: Session)
    requires st1.told == st.told && Over(st1, st', sid, s0, v, s)
    ensures Over(st, st', sid, s0, v, s)
  {
  }

  lemma StartRollbackIs(st: State, sid: nat)
    requires CanStart(st, sid)
    ensures Fanning(DoStartRollback(st, sid), sid, st.sessions[sid], RollbackAll(AfterRollback),
                    Fresh(st.sessions[sid].parts))
  {
    FanStarted(st, sid, st.sessions[sid], RollbackAll(AfterRollback));
  }

  /** What a told success is worth. */
  lemma OverCommitted(st: State, st': State, sid: nat, s0: Session, s: Session)
    requires Inv(st') && Over(st, st', sid, s0, CommitOk, s)
    ensures forall a | a in s0.parts :: CommittedBy(st', a, s0.parts[a], Gtx(sid, s0), s0.attempt)
    ensures forall r | r in s.ran :: RanInside(st', s0.parts, r) && (RanOnTarget(st', s0.parts, r) <==> r.targets != [])
  {
    hide Inv, CommittedBy, RanInside, RanOnTarget;
    var i :| |st.told| <= i < |st'.told| && st'.told[i] == Told(Gtx(sid, s0), s0.attempt, CommitOk, s0.parts, s.ran);
    ToldAt(st', st'.told[i]);
    forall r | r in s.ran ensures RanOnTarget(st', s0.parts, r) <==> r.targets != [] {
      RanSomewhereIff(st', s0.parts, r);
    }
  }

  /** What a told ROLLBACK is worth. */
  lemma OverRolledBack(ss: seq<State>, ls: seq<Label>, st: State, sid: nat, s0: Session, s: Session)
    requires IsRun(ss, ls) && Over(st, ss[|ls|], sid, s0, RollbackOk, s)
    ensures Closed(ss[|ls|], Gtx(sid, s0))
    ensures NoneDecided(ss[|ls|], Gtx(sid, s0)) ==>
              forall a, id | Owned(ss[|ls|], a, id, Gtx(sid, s0)) :: ss[|ls|].tablets[a].locals[id].commits == []
  {
    hide Inv, Enabled, Apply, Init, NoneDecided;
    var st', g := ss[|ls|], Gtx(sid, s0);
    var i :| |st.told| <= i < |st'.told| && st'.told[i] == Told(g, s0.attempt, RollbackOk, s0.parts, s.ran);
    assert st'.told[i] in st'.told;
    RunInv(ss, ls, |ls|);
    ToldAt(st', st'.told[i]);
    if NoneDecided(st', g) {
      forall a, id | Owned(st', a, id, g) ensures st'.tablets[a].locals[id].commits == [] {
        RollbackIsFinal(ss, ls, |ls|, |ls|, g, a, id);
      }
    }
  }

  lemma OverLeaves(st: State, st': State, sid: nat, s0: Session, v: Verdict, s: Session)
    requires Over(st, st', sid, s0, v, s)
    ensures sid in st'.sessions && Same(s.(pc := Quiet), st'.sessions[sid])
  {
  }

  lemma NewSid(st: State)
    requires Inv(st)
    ensures st.nextSid + 1 !in st.sessions
    ensures DoOpen(st).nextSid == st.nextSid + 1 && st.nextSid + 1 in DoOpen(st).sessions
    ensures DoOpen(st).sessions[st.nextSid + 1] == Session(InTransaction, map[], Quiet, true, 0, 0, [])
  {
    hide Inv;
    InvBasic(st);
  }

  // ----- the loops of Execute -----

  ghost predicate At(st: State, sid: nat, s: Session) {
    sid in st.sessions && Same(s, st.sessions[sid])
  }

  /** Participants are only added. */
  ghost predicate Joins(parts: map<Addr, nat>, parts': map<Addr, nat>) {
    forall a | a in parts :: a in parts' && parts'[a] == parts[a]
  }

  lemma JoinsSelf(parts: map<Addr, nat>)
    ensures Joins(parts, parts)
  {
  }

  lemma AtMeanwhile(st: State, st': State, sid: nat, s: Session)
    requires At(st, sid, s) && Meanwhile(st, st', sid)
    ensures At(st', sid, s) && Extends(st, st')
  {
    hide Extends;
  }

  lemma Joined(st: State, mid: State, sid: nat, s: Session, job: Job, i: nat, r: Reply)
    requires i < |job.targets| && At(st, sid, s.(pc := Opening(job, i, Unsent))) && Sent(st, mid, sid, job.targets[i])
    ensures var st' := Resolve(mid, sid, job.targets[i], r);
            if r.Begun?
            then At(st', sid, s.(parts := s.parts[job.targets[i] := r.id], pc := Opening(job, i + 1, Unsent)))
            else Fanning(st', sid, s, RollbackAll(AfterError), Fresh(s.parts))
  {
    hide Extends;
    FanStarted(mid, sid, s, RollbackAll(AfterError));
  }

  lemma CanSkip(st: State, sid: nat, s: Session, job: Job, i: nat)
    requires i < |job.targets| && At(st, sid, s.(pc := Opening(job, i, Unsent))) && job.targets[i] in s.parts
    ensures sid in st.sessions && CanAdvance(st.sessions[sid])
    ensures At(Moved(st, sid, true), sid, s.(pc := Opening(job, i + 1, Unsent)))
  {
  }

  function WithRan(s: Session, job: Job): (s': Session) {
    s.(ran := s.ran + [Ran(job.stmt, job.targets)])
  }

  ghost predicate Executed(st: State, st': State, sid: nat, s0: Session, job: Job, ok: bool) {
    if ok then Over(st, st', sid, s0, ExecOk, WithRan(s0, job)) else Over(st, st', sid, s0, Failed, s0)
  }

  lemma StartExecuteIs(st: State, sid: nat, job: Job)
    requires CanStart(st, sid)
    ensures var st', s := DoStartExecute(st, sid, job), st.sessions[sid];
            if job.targets == [] && !job.scatter then Over(st, st', sid, s, Failed, s)
            else At(st', sid, s.(pc := Opening(job, 0, Unsent)))
  {
    hide Tell, Over;
    TellOver(st, sid, st.sessions[sid], st.sessions[sid], Failed, st.sessions[sid]);
  }

  lemma OpenedAll(st: State, sid: nat, s: Session, job: Job)
    requires At(st, sid, s.(pc := Opening(job, |job.targets|, Unsent)))
    ensures sid in st.sessions && CanAdvance(st.sessions[sid])
    ensures At(Moved(st, sid, true), sid, s.(pc := Running(job, 0, Unsent, false)))
  {
  }

  lemma RunAnswered(st: State, mid: State, sid: nat, s: Session, job: Job, i: nat, failed: bool, r: Reply)
    requires i < |job.targets| && At(st, sid, s.(pc := Running(job, i, Unsent, failed)))
    requires Sent(st, mid, sid, job.targets[i])
    ensures var st' := Resolve(mid, sid, job.targets[i], r);
            if r.Okay? then At(st', sid, s.(pc := Running(job, i + 1, Unsent, failed)))
            else if IsSingle(job) then Over(mid, st', sid, s, Failed, s)
            else At(st', sid, s.(pc := Running(job, i + 1, Unsent, true)))
  {
    hide Extends, Tell, Over;
    TellOver(mid, sid, s, mid.sessions[sid], Failed, s);
  }

  lemma RunMoved(st: State, sid: nat, s: Session, job: Job, failed: bool, mergeOk: bool)
    requires At(st, sid, s.(pc := Running(job, |job.targets|, Unsent, failed)))
    ensures sid in st.sessions && CanAdvance(st.sessions[sid])
    ensures if !failed && (IsSingle(job) || mergeOk)
            then Over(st, Moved(st, sid, mergeOk), sid, s, ExecOk, WithRan(s, job))
            else Fanning(Moved(st, sid, mergeOk), sid, s, RollbackAll(AfterError), Fresh(s.parts))
  {
    hide Tell, Over;
    TellOver(st, sid, s, WithRan(st.sessions[sid], job), ExecOk, WithRan(s, job));
    FanStarted(st, sid, s, RollbackAll(AfterError));
  }
}
