/** Where an operation of the coordinator stands, together with the log of its calls. */
module CoordinatorLog {
  import opened Tablets
  import opened Protocol
  import opened ProtocolInvariant
  import opened ProtocolSteps
  import opened ProtocolTheorems
  import opened ProtocolFrame
  import opened CallLog
  import opened CoordinatorSteps

  /** The operation works for session `s` of the gate. */
  ghost predicate For(op: Op, ss: seq<State>, sid: nat, s: Session) {
    op.from < |ss| && op.g == Gtx(sid, s) && op.n == s.attempt
  }

  /** A run that goes on. */
  ghost predicate Later(ss: seq<State>, ss': seq<State>, ls': seq<Label>) {
    ss != [] && ss <= ss' && IsRun(ss', ls')
  }

  /** A request just sent is a new one. */
  lemma NewRequest(op: Op, ss: seq<State>, ss': seq<State>, ls': seq<Label>, sid: nat, a: Addr)
    requires Later(ss, ss', ls') && op.from < |ss| && Inv(Last(ss)) && CanSend(Last(ss), sid, a)
    requires var s := Last(ss).sessions[sid]; op.g == Gtx(sid, s) && op.n == s.attempt
    requires Last(ss') == DoSend(Last(ss), sid, a)
    ensures HasCall(Last(ss).sessions[sid].pc, a)
    ensures SentIn(op, ss', Last(ss).nextRid, a, Body(Last(ss).sessions[sid], a))
  {
    hide IsRun, Inv, Body, Extends, DoSend, CanSend;
    SendWaits(Last(ss), sid, a);
    FromExtends(ss', ls', op.from, |ss| - 1);
    NewNumber(ss[op.from], Last(ss));
  }

  lemma NewNumber(was: State, st: State)
    requires Inv(st) && Extends(was, st)
    ensures st.nextRid !in was.sent
  {
    InvBasic(st);
    hide Inv;
  }

  lemma SentIs(op: Op, ss: seq<State>, rid: nat, a: Addr, req: Req)
    requires op.from < |ss| && SentIn(op, ss, rid, a, req)
    ensures rid in Last(ss).sent
  {
  }

  /** What ended later also ended since the operation began. */
  lemma OverSince(ss: seq<State>, ss1: seq<State>, ss2: seq<State>, ls: seq<Label>, sid: nat, s0: Session, v: Verdict,
                  s: Session)
    requires ss != [] && ss <= ss1 <= ss2 && IsRun(ss2, ls) && Over(Last(ss1), Last(ss2), sid, s0, v, s)
    ensures Over(Last(ss), Last(ss2), sid, s0, v, s)
  {
    FromExtends(ss2, ls, |ss| - 1, |ss1| - 1);
    hide IsRun;
    assert |Last(ss).told| <= |Last(ss1).told|;
  }

  lemma OverEarlier(st: State, st1: State, st2: State, sid: nat, s0: Session, v: Verdict, s: Session)
    requires Extends(st, st1)
    ensures Over(st1, st2, sid, s0, v, s) ==> Over(st, st2, sid, s0, v, s)
  {
    assert |st.told| <= |st1.told|;
  }

  lemma PhaseSince(ss: seq<State>, ss1: seq<State>, ss2: seq<State>, ls: seq<Label>, sid: nat, s0: Session,
                   phase: Phase, ok: bool)
    requires ss != [] && ss <= ss1 <= ss2 && IsRun(ss2, ls) && AfterPhase(Last(ss1), Last(ss2), sid, s0, phase, ok)
    ensures AfterPhase(Last(ss), Last(ss2), sid, s0, phase, ok)
  {
    FromExtends(ss2, ls, |ss| - 1, |ss1| - 1);
    LastExtends(ss1, ss2, ls);
    hide IsRun, Extends, AfterPhase;
    LaterPhase(Last(ss), Last(ss1), Last(ss2), sid, s0, phase, ok);
  }

  // ----- fan-outs -----

  /** The requests a phase sends. */
  function Requests(phase: Phase, shards: map<Addr, nat>): (reqs: map<Addr, Req>)
    ensures reqs.Keys == shards.Keys
  {
    map a | a in shards :: FanBody(phase, shards[a])
  }

  lemma VotesAndCommits(shards: map<Addr, nat>)
    ensures Requests(PrepareAll, shards) == map a | a in shards :: PrepareReq(shards[a])
    ensures Requests(CommitAll, shards) == map a | a in shards :: CommitReq(shards[a])
    ensures Requests(CommitOne, shards) == map a | a in shards :: CommitReq(shards[a])
  {
  }

  ghost predicate InFan(op: Op, ss: seq<State>, sid: nat, s0: Session, phase: Phase, calls: map<Addr, Call>,
                        rids: map<Addr, nat>) {
    && For(op, ss, sid, s0) && Fanning(Last(ss), sid, s0, phase, calls)
    && FanLogged(op, ss, Requests(phase, s0.parts), calls, rids)
  }

  lemma FanStarts(op: Op, ss: seq<State>, sid: nat, s0: Session, phase: Phase)
    requires For(op, ss, sid, s0) && Fanning(Last(ss), sid, s0, phase, Fresh(s0.parts))
    ensures InFan(op, ss, sid, s0, phase, Fresh(s0.parts), map[])
  {
    hide Fanning;
    FanBegins(op, ss, Requests(phase, s0.parts), Fresh(s0.parts));
  }

  lemma FanIs(op: Op, ss: seq<State>, sid: nat, s0: Session, phase: Phase, calls: map<Addr, Call>, rids: map<Addr, nat>)
    requires InFan(op, ss, sid, s0, phase, calls, rids)
    ensures ss != [] && sid in Last(ss).sessions && Fanning(Last(ss), sid, s0, phase, calls)
  {
  }

  lemma FanIsOver(op: Op, ss: seq<State>, sid: nat, s0: Session, phase: Phase, calls: map<Addr, Call>,
                  rids: map<Addr, nat>)
    requires InFan(op, ss, sid, s0, phase, calls, rids) && AllDone(calls)
    ensures Called(op, ss, Requests(phase, s0.parts), rids)
    ensures AllOk(calls) <==> AllGood(op.env, Last(ss), s0.parts.Keys, rids)
  {
    FanEnds(op, ss, Requests(phase, s0.parts), calls, rids);
  }

  lemma FanPasses(op: Op, ss: seq<State>, ss': seq<State>, ls': seq<Label>, sid: nat, s0: Session, phase: Phase,
                  calls: map<Addr, Call>, rids: map<Addr, nat>)
    requires InFan(op, ss, sid, s0, phase, calls, rids) && Later(ss, ss', ls') && Meanwhile(Last(ss), Last(ss'), sid)
    ensures InFan(op, ss', sid, s0, phase, calls, rids)
  {
    hide IsRun, FanLogged, Fanning, Meanwhile, Requests;
    FanLater(op, ss, ss', ls', Requests(phase, s0.parts), calls, rids);
    FanMeanwhile(Last(ss), Last(ss'), sid, s0, phase, calls);
  }

  lemma FanAwaits(op: Op, ss: seq<State>, sid: nat, s0: Session, phase: Phase, calls: map<Addr, Call>,
                  rids: map<Addr, nat>, a: Addr)
    requires InFan(op, ss, sid, s0, phase, calls, rids) && a in calls && calls[a].Waiting?
    ensures sid in Last(ss).sessions && IsWaiting(Last(ss), sid, a) && HasCall(Last(ss).sessions[sid].pc, a)
    ensures CallOf(Last(ss).sessions[sid].pc, a) == calls[a] && calls[a].rid in Last(ss).sent
  {
    hide Requests;
    assert CallLogged(op, ss, a, Requests(phase, s0.parts)[a], calls[a], rids);
    FanWaits(Last(ss), sid, s0, phase, calls, a);
  }

  /** The reply is heard, or the caller gives up. */
  lemma FanHears(op: Op, ss: seq<State>, ss': seq<State>, ls': seq<Label>, sid: nat, s0: Session, phase: Phase,
                 calls: map<Addr, Call>, rids: map<Addr, nat>, a: Addr, r: Reply)
    requires InFan(op, ss, sid, s0, phase, calls, rids) && Later(ss, ss', ls') && a in calls && calls[a].Waiting?
    requires Settled(op.env, Last(ss), calls[a].rid) && r == ReplyTo(op.env, Last(ss), calls[a].rid)
    requires HasCall(Last(ss).sessions[sid].pc, a) && Last(ss') == Resolve(Last(ss), sid, a, r)
    ensures InFan(op, ss', sid, s0, phase, calls[a := Done(r.Okay?)], rids)
  {
    hide IsRun, Fanning, Requests, Resolve, HasCall, SentIn;
    var reqs := Requests(phase, s0.parts);
    FanResolved(Last(ss), sid, s0, phase, calls, a, r);
    assert CallLogged(op, ss, a, reqs[a], calls[a], rids);
    AskedLater(op, ss, ss', ls', rids[a], a, reqs[a]);
    hide FanLogged;
    FanLater(op, ss, ss', ls', reqs, calls, rids);
    FanNote(op, ss', reqs, calls, rids, a, Done(r.Okay?), rids);
  }

  lemma FanSends(op: Op, ss: seq<State>, ss': seq<State>, ls': seq<Label>, sid: nat, s0: Session, phase: Phase,
                 calls: map<Addr, Call>, rids: map<Addr, nat>, a: Addr)
    requires InFan(op, ss, sid, s0, phase, calls, rids) && Later(ss, ss', ls') && a in calls && calls[a].Unsent?
    requires Inv(Last(ss)) && CanSend(Last(ss), sid, a) && Last(ss') == DoSend(Last(ss), sid, a)
    requires Fanning(Last(ss'), sid, s0, phase, calls[a := Waiting(Last(ss).nextRid)])
    ensures InFan(op, ss', sid, s0, phase, calls[a := Waiting(Last(ss).nextRid)], rids[a := Last(ss).nextRid])
  {
    var reqs, rid := Requests(phase, s0.parts), Last(ss).nextRid;
    FanBodyIs(Last(ss), sid, s0, phase, calls, a);
    hide IsRun, Inv, Fanning, DoSend, CanSend, FanLogged, SentIn;
    NewRequest(op, ss, ss', ls', sid, a);
    FanLater(op, ss, ss', ls', reqs, calls, rids);
    FanNote(op, ss', reqs, calls, rids, a, Waiting(rid), rids[a := rid]);
  }

  lemma FanBodyIs(st: State, sid: nat, s0: Session, phase: Phase, calls: map<Addr, Call>, a: Addr)
    requires Fanning(st, sid, s0, phase, calls) && a in calls && calls.Keys == Requests(phase, s0.parts).Keys
    ensures HasCall(st.sessions[sid].pc, a) && Body(st.sessions[sid], a) == Requests(phase, s0.parts)[a]
    ensures Gtx(sid, st.sessions[sid]) == Gtx(sid, s0) && st.sessions[sid].attempt == s0.attempt
  {
  }

  lemma FanMisses(op: Op, ss: seq<State>, ss': seq<State>, ls': seq<Label>, sid: nat, s0: Session, phase: Phase,
                  calls: map<Addr, Call>, rids: map<Addr, nat>, a: Addr)
    requires InFan(op, ss, sid, s0, phase, calls, rids) && Later(ss, ss', ls') && a in calls && calls[a].Unsent?
    requires a !in Last(ss).clients && Fanning(Last(ss'), sid, s0, phase, calls[a := Done(false)])
    ensures InFan(op, ss', sid, s0, phase, calls[a := Done(false)], rids)
  {
    hide IsRun, Fanning, Requests;
    var reqs := Requests(phase, s0.parts);
    assert CallLogged(op, ss, a, reqs[a], calls[a], rids);
    assert ss'[|ss| - 1] == Last(ss);
    hide FanLogged;
    FanLater(op, ss, ss', ls', reqs, calls, rids);
    FanNote(op, ss', reqs, calls, rids, a, Done(false), rids);
  }

  // ----- rollbacks -----

  /** Each participant was sent a rollback, and the caller waited for the reply, or it had no client; where the rollback
      was answered, the local transaction is over. */
  ghost predicate Undone(op: Op, ss: seq<State>, parts: map<Addr, nat>, undo: map<Addr, nat>)
    requires op.from < |ss|
  {
    && Called(op, ss, map a | a in parts :: RollbackReq(parts[a]), undo)
    && forall a | a in parts && a in undo && undo[a] in Last(ss).replies :: HasEnded(Last(ss), a, parts[a])
  }

  lemma RollbacksEnd(op: Op, ss: seq<State>, after: After, parts: map<Addr, nat>, undo: map<Addr, nat>)
    requires op.from < |ss| && Inv(Last(ss)) && Called(op, ss, Requests(RollbackAll(after), parts), undo)
    ensures Undone(op, ss, parts, undo)
  {
    hide Inv, HasEnded, LostClient, Settled;
    assert Requests(RollbackAll(after), parts) == map a | a in parts :: RollbackReq(parts[a]);
    forall a | a in parts && a in undo && undo[a] in Last(ss).replies ensures HasEnded(Last(ss), a, parts[a]) {
      RollbackEnds(Last(ss), undo[a], op.g, op.n, a, parts[a]);
    }
  }

  // ----- COMMIT -----

  lemma OnlyUncalled(op: Op, ss: seq<State>, ss': seq<State>, reqs: map<Addr, Req>, a: Addr)
    requires op.from < |ss| && ss <= ss' && reqs.Keys == {a} && a !in Last(ss).clients
    ensures Called(op, ss', reqs, map[]) && !AllGood(op.env, Last(ss'), reqs.Keys, map[])
  {
    assert ss'[|ss| - 1] == Last(ss);
    assert a in reqs;
  }

  lemma OnlyCalled(op: Op, ss: seq<State>, reqs: map<Addr, Req>, a: Addr, rid: nat, r: Reply)
    requires op.from < |ss| && reqs.Keys == {a}
    requires Asked(op, ss, rid, a, reqs[a]) && r == ReplyTo(op.env, Last(ss), rid)
    ensures Called(op, ss, reqs, map[a := rid])
    ensures r.Okay? <==> AllGood(op.env, Last(ss), reqs.Keys, map[a := rid])
  {
    hide Asked;
    assert a in reqs.Keys;
  }

  /** What a COMMIT of `parts` sent, what it heard, and what became of it. One participant is sent its commit, several
      first a Prepare each; after a bad vote, or a bad commit of the only participant, all are sent a rollback. */
  ghost predicate CommitLogged(op: Op, ss: seq<State>, parts: map<Addr, nat>, ok: bool, votes: map<Addr, nat>,
                               commits: map<Addr, nat>, undo: map<Addr, nat>)
    requires op.from < |ss|
  {
    if |parts| == 0 then ok
    else if |parts| == 1 then
      && Called(op, ss, map a | a in parts :: CommitReq(parts[a]), commits)
      && (ok <==> AllGood(op.env, Last(ss), parts.Keys, commits))
      && (!ok && commits != map[] ==> Undone(op, ss, parts, undo))
    else
      && Called(op, ss, map a | a in parts :: PrepareReq(parts[a]), votes)
      && (ok <==> AllGood(op.env, Last(ss), parts.Keys, votes) && AllGood(op.env, Last(ss), parts.Keys, commits))
      && if AllGood(op.env, Last(ss), parts.Keys, votes)
         then Called(op, ss, map a | a in parts :: CommitReq(parts[a]), commits)
         else Undone(op, ss, parts, undo)
  }

  lemma NoneCommitted(op: Op, ss: seq<State>, votes: map<Addr, nat>, commits: map<Addr, nat>, undo: map<Addr, nat>)
    requires op.from < |ss|
    ensures forall parts: map<Addr, nat> | |parts| == 0 :: CommitLogged(op, ss, parts, true, votes, commits, undo)
  {
  }

  // ----- a ROLLBACK -----

  /** Each participant was sent a rollback or had no client, and the local transactions whose rollback was answered are
      aborted unless an attempt to commit was decided. */
  ghost predicate RollbackLogged(op: Op, ss: seq<State>, parts: map<Addr, nat>, undo: map<Addr, nat>)
    requires op.from < |ss|
  {
    && Undone(op, ss, parts, undo)
    && (NoneDecided(Last(ss), op.g) ==>
          forall a | a in parts && a in undo && undo[a] in Last(ss).replies ::
            Last(ss).tablets[a].locals[parts[a]].aborted)
  }

  lemma PartsAreOwned(st: State, sid: nat)
    requires Inv(st) && sid in st.sessions
    ensures forall a | a in st.sessions[sid].parts ::
              Owned(st, a, st.sessions[sid].parts[a], Gtx(sid, st.sessions[sid]))
  {
    hide Inv, Owned;
    SessionAt(st, sid);
  }

  /** What the log of a ROLLBACK is worth. */
  lemma RollbacksArrived(op: Op, ss: seq<State>, ls: seq<Label>, parts: map<Addr, nat>, undo: map<Addr, nat>)
    requires IsRun(ss, ls) && op.from < |ss| && (forall a | a in parts :: Owned(ss[op.from], a, parts[a], op.g))
    requires Undone(op, ss, parts, undo)
    requires NoneDecided(Last(ss), op.g) ==>
               forall a, id | Owned(Last(ss), a, id, op.g) :: Last(ss).tablets[a].locals[id].commits == []
    ensures RollbackLogged(op, ss, parts, undo)
  {
    hide IsRun, NoneDecided, Extends, Called, Owned, Last;
    FromExtends(ss, ls, op.from, |ss| - 1);
    assert ss[|ss| - 1] == Last(ss) by { LastIs(ss); }
    forall a | a in parts && a in undo && undo[a] in Last(ss).replies
      ensures HasEnded(Last(ss), a, parts[a])
      ensures NoneDecided(Last(ss), op.g) ==> Last(ss).tablets[a].locals[parts[a]].aborted
    {
      AbortedAt(ss[op.from], Last(ss), a, parts[a], op.g);
    }
  }

  lemma LastIs(ss: seq<State>)
    requires ss != []
    ensures Last(ss) == ss[|ss| - 1]
  {
  }

  lemma AbortedAt(was: State, st: State, a: Addr, id: nat, g: GTx)
    requires Extends(was, st) && Owned(was, a, id, g) && HasEnded(st, a, id)
    requires NoneDecided(st, g) ==> forall a, id | Owned(st, a, id, g) :: st.tablets[a].locals[id].commits == []
    ensures NoneDecided(st, g) ==> st.tablets[a].locals[id].aborted
  {
    hide NoneDecided, Extends, Owned;
    OwnedGrows(was, st, a, id, g);
  }

  lemma RollbackLogIs(op: Op, ss: seq<State>, ss': seq<State>, ls': seq<Label>, sid: nat, s0: Session,
                      undo: map<Addr, nat>)
    requires Later(ss, ss', ls') && For(op, ss, sid, s0) && Inv(Last(ss)) && Inv(Last(ss'))
    requires op.from == |ss| - 1 && sid in Last(ss).sessions && s0 == Last(ss).sessions[sid]
    requires Called(op, ss', Requests(RollbackAll(AfterRollback), s0.parts), undo)
    requires NoneDecided(Last(ss'), op.g) ==>
               forall a, id | Owned(Last(ss'), a, id, op.g) :: Last(ss').tablets[a].locals[id].commits == []
    ensures RollbackLogged(op, ss', s0.parts, undo)
  {
    hide IsRun, Inv, Called, Requests, NoneDecided, Owned, RollbackLogged, Undone;
    PartsAreOwned(Last(ss), sid);
    RollbacksEnd(op, ss', AfterRollback, s0.parts, undo);
    assert ss'[op.from] == Last(ss);
    RollbacksArrived(op, ss', ls', s0.parts, undo);
  }

  lemma RollbackIsOver(op: Op, ss: seq<State>, ss1: seq<State>, ss2: seq<State>, ls: seq<Label>, sid: nat, s0: Session,
                       ok: bool, undo: map<Addr, nat>)
    requires ss != [] && ss <= ss1 <= ss2 && IsRun(ss2, ls) && For(op, ss, sid, s0)
    requires Inv(Last(ss)) && Inv(Last(ss2))
    requires op.from == |ss| - 1 && sid in Last(ss).sessions && s0 == Last(ss).sessions[sid]
    requires AfterPhase(Last(ss1), Last(ss2), sid, s0, RollbackAll(AfterRollback), ok)
    requires Called(op, ss2, Requests(RollbackAll(AfterRollback), s0.parts), undo)
    ensures Over(Last(ss), Last(ss2), sid, s0, RollbackOk, s0.(state := RolledBack, parts := map[]))
    ensures Closed(Last(ss2), op.g) && RollbackLogged(op, ss2, s0.parts, undo)
    ensures NoneDecided(Last(ss2), op.g) ==>
              forall a, id | Owned(Last(ss2), a, id, op.g) :: Last(ss2).tablets[a].locals[id].commits == []
    ensures sid in Last(ss2).sessions
    ensures Same(s0.(state := RolledBack, parts := map[], pc := Quiet), Last(ss2).sessions[sid])
  {
    assert |ss2| == |ls| + 1;
    hide IsRun, Inv, Over, Called, Requests, NoneDecided, Closed, Owned, RollbackLogged, Undone;
    var s := s0.(state := RolledBack, parts := map[]);
    PhaseSince(ss, ss1, ss2, ls, sid, s0, RollbackAll(AfterRollback), ok);
    OverRolledBack(ss2, ls, Last(ss), sid, s0, s);
    OverLeaves(Last(ss), Last(ss2), sid, s0, RollbackOk, s);
    RollbackLogIs(op, ss, ss2, ls, sid, s0, undo);
  }

  // ----- a statement: joining its targets -----

  /** BEGINs that were sent and waited for. */
  ghost predicate BeginsLogged(op: Op, ss: seq<State>, begins: map<Addr, nat>)
    requires op.from < |ss|
  {
    forall a | a in begins :: Asked(op, ss, begins[a], a, BeginReq)
  }

  /** Exactly the tablets that answered their BEGIN well in time were added, each with the id it handed out. */
  ghost predicate Opened(env: Env, st: State, parts: map<Addr, nat>, parts': map<Addr, nat>, begins: map<Addr, nat>) {
    && begins.Keys !! parts.Keys && Joins(parts, parts')
    && (forall a | a in parts' && a !in parts :: a in begins && GoodBegin(env, st, begins[a]))
    && (forall a | a in begins && GoodBegin(env, st, begins[a]) :: a in parts' && parts'[a] == st.replies[begins[a]].id)
  }

  /** Every target that did not participate was sent a BEGIN and answered it well in time. */
  ghost predicate AllBegun(env: Env, st: State, job: Job, parts: map<Addr, nat>, begins: map<Addr, nat>) {
    forall a | a in job.targets && a !in parts :: a in begins && GoodBegin(env, st, begins[a])
  }

  lemma OpenedNone(op: Op, ss: seq<State>, parts: map<Addr, nat>)
    requires op.from < |ss|
    ensures BeginsLogged(op, ss, map[]) && Opened(op.env, Last(ss), parts, parts, map[])
  {
  }

  lemma OpenedJoins(env: Env, st: State, parts: map<Addr, nat>, parts': map<Addr, nat>, begins: map<Addr, nat>)
    requires Opened(env, st, parts, parts', begins)
    ensures Joins(parts, parts')
  {
  }

  lemma BeginsLater(op: Op, ss: seq<State>, ss': seq<State>, ls': seq<Label>, begins: map<Addr, nat>,
                    parts: map<Addr, nat>, parts': map<Addr, nat>, job: Job)
    requires op.from < |ss| && Later(ss, ss', ls') && BeginsLogged(op, ss, begins)
    requires Opened(op.env, Last(ss), parts, parts', begins)
    ensures BeginsLogged(op, ss', begins) && Opened(op.env, Last(ss'), parts, parts', begins)
    ensures AllBegun(op.env, Last(ss), job, parts, begins) <==> AllBegun(op.env, Last(ss'), job, parts, begins)
  {
    hide IsRun, Asked, Joins;
    forall a | a in begins
      ensures Asked(op, ss', begins[a], a, BeginReq)
      ensures GoodBegin(op.env, Last(ss), begins[a]) <==> GoodBegin(op.env, Last(ss'), begins[a])
      ensures GoodBegin(op.env, Last(ss), begins[a]) ==>
                Last(ss').replies[begins[a]] == Last(ss).replies[begins[a]]
    {
      AskedLater(op, ss, ss', ls', begins[a], a, BeginReq);
    }
  }

  ghost predicate InOpening(op: Op, ss: seq<State>, sid: nat, s: Session, job: Job, i: nat, parts: map<Addr, nat>,
                            begins: map<Addr, nat>) {
    && For(op, ss, sid, s) && i <= |job.targets| && At(Last(ss), sid, s.(pc := Opening(job, i, Unsent)))
    && BeginsLogged(op, ss, begins) && Opened(op.env, Last(ss), parts, s.parts, begins)
    && forall j | 0 <= j < i :: job.targets[j] in s.parts
  }

  lemma OpeningStarts(op: Op, ss: seq<State>, sid: nat, s: Session, job: Job)
    requires For(op, ss, sid, s) && At(Last(ss), sid, s.(pc := Opening(job, 0, Unsent)))
    ensures InOpening(op, ss, sid, s, job, 0, s.parts, map[])
  {
    hide At;
    OpenedNone(op, ss, s.parts);
  }

  lemma OpeningPasses(op: Op, ss: seq<State>, ss': seq<State>, ls': seq<Label>, sid: nat, s: Session, job: Job, i: nat,
                      parts: map<Addr, nat>, begins: map<Addr, nat>)
    requires InOpening(op, ss, sid, s, job, i, parts, begins) && Later(ss, ss', ls')
    requires Meanwhile(Last(ss), Last(ss'), sid)
    ensures InOpening(op, ss', sid, s, job, i, parts, begins)
  {
    hide IsRun, Meanwhile, At, BeginsLogged, Opened;
    BeginsLater(op, ss, ss', ls', begins, parts, s.parts, job);
    AtMeanwhile(Last(ss), Last(ss'), sid, s.(pc := Opening(job, i, Unsent)));
  }

  lemma OpeningSid(op: Op, ss: seq<State>, sid: nat, s: Session, job: Job, i: nat, parts: map<Addr, nat>,
                   begins: map<Addr, nat>)
    requires InOpening(op, ss, sid, s, job, i, parts, begins)
    ensures sid in Last(ss).sessions
  {
  }

  lemma OpeningMoves(op: Op, ss: seq<State>, sid: nat, s: Session, job: Job, i: nat, parts: map<Addr, nat>,
                     begins: map<Addr, nat>)
    requires InOpening(op, ss, sid, s, job, i, parts, begins) && i < |job.targets| && job.targets[i] in s.parts
    ensures sid in Last(ss).sessions && CanAdvance(Last(ss).sessions[sid])
  {
    hide At, CanAdvance;
    CanSkip(Last(ss), sid, s, job, i);
  }

  lemma OpeningSends(op: Op, ss: seq<State>, sid: nat, s: Session, job: Job, i: nat, parts: map<Addr, nat>,
                     begins: map<Addr, nat>)
    requires InOpening(op, ss, sid, s, job, i, parts, begins) && i < |job.targets| && job.targets[i] !in s.parts
    ensures CanSend(Last(ss), sid, job.targets[i]) && HasCall(Last(ss).sessions[sid].pc, job.targets[i])
    ensures var t := Last(ss).sessions[sid];
            Body(t, job.targets[i]) == BeginReq && Gtx(sid, t) == op.g && t.attempt == op.n
  {
    hide BeginsLogged, Opened;
  }

  /** One more BEGIN has been answered. */
  lemma BeginNoted(op: Op, ss: seq<State>, begins: map<Addr, nat>, parts: map<Addr, nat>, parts': map<Addr, nat>,
                   a: Addr, rid: nat, r: Reply)
    requires op.from < |ss| && BeginsLogged(op, ss, begins) && Opened(op.env, Last(ss), parts, parts', begins)
    requires a !in parts' && Asked(op, ss, rid, a, BeginReq) && r == ReplyTo(op.env, Last(ss), rid)
    ensures BeginsLogged(op, ss, begins[a := rid])
    ensures if r.Begun? then Opened(op.env, Last(ss), parts, parts'[a := r.id], begins[a := rid])
            else Opened(op.env, Last(ss), parts, parts', begins[a := rid]) && !GoodBegin(op.env, Last(ss), rid)
  {
    hide Asked;
  }

  lemma OpeningHears(op: Op, ss: seq<State>, ss': seq<State>, ls': seq<Label>, sid: nat, s: Session, job: Job, i: nat,
                     parts: map<Addr, nat>, begins: map<Addr, nat>, mid: State, rid: nat, r: Reply)
    requires InOpening(op, ss, sid, s, job, i, parts, begins) && Later(ss, ss', ls') && i < |job.targets|
    requires var a := job.targets[i];
             && a !in s.parts && Sent(Last(ss), mid, sid, a) && Last(ss') == Resolve(mid, sid, a, r)
             && Asked(op, ss', rid, a, BeginReq) && r == ReplyTo(op.env, Last(ss'), rid)
    ensures var a := job.targets[i];
            if r.Begun?
            then InOpening(op, ss', sid, s.(parts := s.parts[a := r.id]), job, i + 1, parts, begins[a := rid])
            else && Fanning(Last(ss'), sid, s, RollbackAll(AfterError), Fresh(s.parts))
                 && BeginsLogged(op, ss', begins[a := rid])
                 && Opened(op.env, Last(ss'), parts, s.parts, begins[a := rid])
                 && !AllBegun(op.env, Last(ss'), job, parts, begins[a := rid])
  {
    var a := job.targets[i];
    Joined(Last(ss), mid, sid, s, job, i, r);
    BeginsLater(op, ss, ss', ls', begins, parts, s.parts, job);
    BeginNoted(op, ss', begins, parts, s.parts, a, rid, r);
    hide IsRun, At, BeginsLogged, Asked, Sent, Resolve, ReplyTo, Fanning, GoodBegin;
    OpenedJoins(op.env, Last(ss), parts, s.parts, begins);
    assert r.Begun? || begins[a := rid][a] == rid;
    hide Opened;
  }

  lemma OpeningSkips(op: Op, ss: seq<State>, ss': seq<State>, ls': seq<Label>, sid: nat, s: Session, job: Job, i: nat,
                     parts: map<Addr, nat>, begins: map<Addr, nat>)
    requires InOpening(op, ss, sid, s, job, i, parts, begins) && Later(ss, ss', ls')
    requires i < |job.targets| && job.targets[i] in s.parts
    requires sid in Last(ss).sessions && Last(ss') == Moved(Last(ss), sid, true)
    ensures InOpening(op, ss', sid, s, job, i + 1, parts, begins)
  {
    hide IsRun, At, BeginsLogged, Opened, Moved;
    CanSkip(Last(ss), sid, s, job, i);
    BeginsLater(op, ss, ss', ls', begins, parts, s.parts, job);
  }

  lemma OpeningEnds(op: Op, ss: seq<State>, sid: nat, s: Session, job: Job, parts: map<Addr, nat>,
                    begins: map<Addr, nat>)
    requires InOpening(op, ss, sid, s, job, |job.targets|, parts, begins)
    ensures At(Last(ss), sid, s.(pc := Opening(job, |job.targets|, Unsent)))
    ensures BeginsLogged(op, ss, begins) && Opened(op.env, Last(ss), parts, s.parts, begins)
    ensures AllBegun(op.env, Last(ss), job, parts, begins) && forall a | a in job.targets :: a in s.parts
  {
    hide At, BeginsLogged, GoodBegin;
  }

  // ----- a statement: running it -----

  /** The statement was sent to the first targets, each in its own local transaction, and waited for. */
  ghost predicate StmtsLogged(op: Op, ss: seq<State>, parts: map<Addr, nat>, job: Job, stmts: seq<nat>)
    requires op.from < |ss|
  {
    && |stmts| <= |job.targets|
    && forall i | 0 <= i < |stmts| ::
         job.targets[i] in parts && Asked(op, ss, stmts[i], job.targets[i], ExecReq(parts[job.targets[i]], job.stmt))
  }

  ghost predicate StmtsGood(env: Env, st: State, stmts: seq<nat>) {
    forall i | 0 <= i < |stmts| :: Good(env, st, stmts[i])
  }

  lemma NoStmts(op: Op, ss: seq<State>, parts: map<Addr, nat>, job: Job)
    requires op.from < |ss|
    ensures StmtsLogged(op, ss, parts, job, []) && StmtsGood(op.env, Last(ss), [])
  {
  }

  lemma StmtsLater(op: Op, ss: seq<State>, ss': seq<State>, ls': seq<Label>, parts: map<Addr, nat>, job: Job,
                   stmts: seq<nat>)
    requires op.from < |ss| && Later(ss, ss', ls') && StmtsLogged(op, ss, parts, job, stmts)
    ensures StmtsLogged(op, ss', parts, job, stmts)
    ensures StmtsGood(op.env, Last(ss), stmts) <==> StmtsGood(op.env, Last(ss'), stmts)
  {
    hide IsRun, Asked, Good;
    forall i | 0 <= i < |stmts|
      ensures Asked(op, ss', stmts[i], job.targets[i], ExecReq(parts[job.targets[i]], job.stmt))
      ensures Good(op.env, Last(ss), stmts[i]) <==> Good(op.env, Last(ss'), stmts[i])
    {
      AskedLater(op, ss, ss', ls', stmts[i], job.targets[i], ExecReq(parts[job.targets[i]], job.stmt));
    }
  }

  /** One more target has answered. */
  lemma StmtNoted(op: Op, ss: seq<State>, parts: map<Addr, nat>, job: Job, stmts: seq<nat>, rid: nat, r: Reply)
    requires op.from < |ss| && StmtsLogged(op, ss, parts, job, stmts) && |stmts| < |job.targets|
    requires var a := job.targets[|stmts|]; a in parts && Asked(op, ss, rid, a, ExecReq(parts[a], job.stmt))
    requires r == ReplyTo(op.env, Last(ss), rid)
    ensures StmtsLogged(op, ss, parts, job, stmts + [rid])
    ensures StmtsGood(op.env, Last(ss), stmts + [rid]) <==> StmtsGood(op.env, Last(ss), stmts) && r.Okay?
  {
    assert Good(op.env, Last(ss), rid) <==> r.Okay?;
    hide Asked, Good, ReplyTo;
    var stmts' := stmts + [rid];
    assert stmts'[|stmts|] == rid;
    assert forall i | 0 <= i < |stmts| :: stmts'[i] == stmts[i];
  }

  ghost predicate InRunning(op: Op, ss: seq<State>, sid: nat, s: Session, job: Job, i: nat, failed: bool,
                            stmts: seq<nat>) {
    && For(op, ss, sid, s) && i <= |job.targets| && At(Last(ss), sid, s.(pc := Running(job, i, Unsent, failed)))
    && |stmts| == i && StmtsLogged(op, ss, s.parts, job, stmts) && (failed <==> !StmtsGood(op.env, Last(ss), stmts))
    && forall a | a in job.targets :: a in s.parts
  }

  lemma RunningStarts(op: Op, ss: seq<State>, sid: nat, s: Session, job: Job)
    requires For(op, ss, sid, s) && At(Last(ss), sid, s.(pc := Running(job, 0, Unsent, false)))
    requires forall a | a in job.targets :: a in s.parts
    ensures InRunning(op, ss, sid, s, job, 0, false, [])
  {
    hide At;
    NoStmts(op, ss, s.parts, job);
  }

  lemma RunningPasses(op: Op, ss: seq<State>, ss': seq<State>, ls': seq<Label>, sid: nat, s: Session, job: Job, i: nat,
                      failed: bool, stmts: seq<nat>)
    requires InRunning(op, ss, sid, s, job, i, failed, stmts) && Later(ss, ss', ls')
    requires Meanwhile(Last(ss), Last(ss'), sid)
    ensures InRunning(op, ss', sid, s, job, i, failed, stmts)
  {
    hide IsRun, Meanwhile, At, StmtsLogged, StmtsGood;
    StmtsLater(op, ss, ss', ls', s.parts, job, stmts);
    AtMeanwhile(Last(ss), Last(ss'), sid, s.(pc := Running(job, i, Unsent, failed)));
  }

  lemma RunningSid(op: Op, ss: seq<State>, sid: nat, s: Session, job: Job, i: nat, failed: bool, stmts: seq<nat>)
    requires InRunning(op, ss, sid, s, job, i, failed, stmts)
    ensures sid in Last(ss).sessions
  {
  }

  lemma RunningDone(op: Op, ss: seq<State>, sid: nat, s: Session, job: Job, failed: bool, stmts: seq<nat>)
    requires InRunning(op, ss, sid, s, job, |job.targets|, failed, stmts)
    ensures At(Last(ss), sid, s.(pc := Running(job, |job.targets|, Unsent, failed))) && |stmts| == |job.targets|
    ensures StmtsLogged(op, ss, s.parts, job, stmts) && (failed <==> !StmtsGood(op.env, Last(ss), stmts))
  {
  }

  lemma RunningSends(op: Op, ss: seq<State>, sid: nat, s: Session, job: Job, i: nat, failed: bool, stmts: seq<nat>)
    requires InRunning(op, ss, sid, s, job, i, failed, stmts) && i < |job.targets|
    ensures CanSend(Last(ss), sid, job.targets[i]) && HasCall(Last(ss).sessions[sid].pc, job.targets[i])
    ensures var t, a := Last(ss).sessions[sid], job.targets[i];
            && a in s.parts && Body(t, a) == ExecReq(s.parts[a], job.stmt)
            && Gtx(sid, t) == op.g && t.attempt == op.n
  {
    hide StmtsLogged, StmtsGood;
  }

  lemma RunningHears(op: Op, ss: seq<State>, ss': seq<State>, ls': seq<Label>, sid: nat, s: Session, job: Job, i: nat,
                     failed: bool, stmts: seq<nat>, mid: State, rid: nat, r: Reply)
    requires InRunning(op, ss, sid, s, job, i, failed, stmts) && Later(ss, ss', ls') && i < |job.targets|
    requires var a := job.targets[i];
             && Sent(Last(ss), mid, sid, a) && Last(ss') == Resolve(mid, sid, a, r)
             && r == ReplyTo(op.env, Last(ss'), rid)
             && Asked(op, ss', rid, a, ExecReq(s.parts[a], job.stmt))
    ensures StmtsLogged(op, ss', s.parts, job, stmts + [rid])
    ensures StmtsGood(op.env, Last(ss'), stmts + [rid]) <==> !failed && r.Okay?
    ensures if IsSingle(job) && !r.Okay? then Over(Last(ss), Last(ss'), sid, s, Failed, s)
            else InRunning(op, ss', sid, s, job, i + 1, failed || !r.Okay?, stmts + [rid])
  {
    var a := job.targets[i];
    RunAnswered(Last(ss), mid, sid, s, job, i, failed, r);
    OverEarlier(Last(ss), mid, Last(ss'), sid, s, Failed, s);
    StmtsLater(op, ss, ss', ls', s.parts, job, stmts);
    StmtNoted(op, ss', s.parts, job, stmts, rid, r);
    hide IsRun, At, StmtsLogged, StmtsGood, Asked, Sent, Resolve, ReplyTo, Over;
  }
}
