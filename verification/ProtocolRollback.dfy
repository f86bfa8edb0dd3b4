/** When a ROLLBACK is final: exactly if no commit request of the gate transaction is still on its way to
    a live local transaction. */
module ProtocolRollback {
  import opened Tablets
  import opened Protocol
  import opened ProtocolInvariant
  import opened ProtocolSteps
  import opened ProtocolLabels
  import opened ProtocolFrame
  import opened ProtocolExec

  /** Request `rid` would commit a local transaction of `g` if it arrived now. */
  ghost predicate Pending(st: State, g: GTx, rid: nat) {
    && rid in st.net && rid in st.sent
    && var m := st.sent[rid];
    m.gtx == g && m.body.CommitReq? && m.addr in st.tablets && m.body.id in st.tablets[m.addr].live
  }

  ghost predicate CommitPending(st: State, g: GTx) {
    exists rid :: Pending(st, g, rid)
  }

  /** A local transaction begun for `g` has been committed. */
  ghost predicate Committed(st: State, a: Addr, id: nat, g: GTx) {
    Owned(st, a, id, g) && st.tablets[a].locals[id].commits != []
  }

  ghost predicate RolledBackTold(st: State, g: GTx) {
    exists t :: t in st.told && t.gtx == g && t.verdict.RollbackOk?
  }

  /** The gate transaction is over, or its ROLLBACK is under way. */
  ghost predicate Ending(st: State, g: GTx) {
    || Closed(st, g)
    || (&& g.sid in st.sessions && st.sessions[g.sid].epoch == g.epoch
        && st.sessions[g.sid].pc.FanOut? && st.sessions[g.sid].pc.phase == RollbackAll(AfterRollback))
  }

  // ----- without a pending commit nothing more is committed -----

  lemma EndingStep(st: State, l: Label, g: GTx)
    requires Inv(st) && Enabled(st, l) && Ending(st, g)
    ensures Ending(Apply(st, l), g)
  {
    hide Inv, Enabled, Apply, Extends, Closed, StepOf;
    StepKeeps(st, l);
    if Closed(st, g) {
      ClosedGrows(st, Apply(st, l), g);
    } else if StepOf(l, g.sid) {
      EndingOwnStep(st, l, g);
    } else {
      InvBasic(st);
      OthersSpare(st, l, g.sid);
    }
  }

  lemma EndingOwnStep(st: State, l: Label, g: GTx)
    requires Enabled(st, l) && StepOf(l, g.sid) && Ending(st, g) && !Closed(st, g)
    ensures Ending(Apply(st, l), g)
  {
    hide Noted, Fresh;
  }

  /** A request sent for a gate transaction that is ending is no commit. */
  lemma SendsNoCommit(st: State, sid: nat, a: Addr, g: GTx)
    requires Inv(st) && CanSend(st, sid, a) && Ending(st, g) && Gtx(sid, st.sessions[sid]) == g
    ensures !Body(st.sessions[sid], a).CommitReq?
  {
    hide Inv, BasicOk, PcOk;
    SessionAt(st, sid);
  }

  lemma SendStep(st: State, sid: nat, a: Addr, g: GTx)
    requires Inv(st) && CanSend(st, sid, a) && Ending(st, g) && !CommitPending(st, g)
    ensures !CommitPending(DoSend(st, sid, a), g)
  {
    hide Inv, Ending;
    if Gtx(sid, st.sessions[sid]) == g {
      SendsNoCommit(st, sid, a, g);
    }
    var st' := DoSend(st, sid, a);
    forall rid ensures !Pending(st', g, rid) {
      assert !Pending(st, g, rid);
    }
  }

  /** What is not pending does not become so. */
  lemma StaysNotPending(st: State, st': State, g: GTx, rid: nat)
    requires Inv(st) && Extends(st, st') && st'.sent == st.sent && st'.net <= st.net && !Pending(st, g, rid)
    ensures !Pending(st', g, rid)
  {
    hide Inv;
    if rid in st.sent {
      MsgAt(st, rid);
      assert Grows(st.tablets[st.sent[rid].addr], st'.tablets[st.sent[rid].addr]);
    }
  }

  lemma PendingStep(st: State, l: Label, g: GTx)
    requires Inv(st) && Enabled(st, l) && Ending(st, g) && !CommitPending(st, g)
    ensures !CommitPending(Apply(st, l), g)
  {
    hide Inv, Enabled, Apply, Extends, Ending, Pending;
    StepKeeps(st, l);
    if l.Send? {
      IsSend(st, l.sid, l.addr) by { SendIs(st, l.sid, l.addr); }
      SendStep(st, l.sid, l.addr, g) by { SendIs(st, l.sid, l.addr); }
    } else {
      OnlySendSends(st, l);
      forall rid ensures !Pending(Apply(st, l), g, rid) {
        StaysNotPending(st, Apply(st, l), g, rid);
      }
    }
  }

  lemma SendIs(st: State, sid: nat, a: Addr)
    requires Enabled(st, Send(sid, a))
    ensures CanSend(st, sid, a)
  {
  }

  lemma DeliverCommits(st: State, rid: nat, c: Choice, g: GTx, a: Addr, id: nat)
    requires Inv(st) && CanDeliver(st, rid) && !Pending(st, g, rid) && Committed(DoDeliver(st, rid, c), a, id, g)
    ensures Committed(st, a, id, g)
  {
    hide Inv;
    MsgAt(st, rid);
  }

  lemma ReapCommits(st: State, b: Addr, x: nat, g: GTx, a: Addr, id: nat)
    requires b in st.tablets && Committed(DoReap(st, b, x), a, id, g)
    ensures Committed(st, a, id, g)
  {
  }

  lemma CommitsStep(st: State, l: Label, g: GTx, a: Addr, id: nat)
    requires Inv(st) && Enabled(st, l) && !CommitPending(st, g) && Committed(Apply(st, l), a, id, g)
    ensures Committed(st, a, id, g)
  {
    hide Inv, Serve, Pending, Committed, DoDeliver, DoReap, Enabled, Apply;
    if l.Deliver? {
      DeliverIs(st, l.rid, l.choice);
      DeliverCommits(st, l.rid, l.choice, g, a, id);
    } else if l.Reap? {
      ReapIs(st, l.addr, l.id);
      ReapCommits(st, l.addr, l.id, g, a, id);
    } else {
      OnlyDeliverReplies(st, l);
      SameTablets(st, Apply(st, l), g, a, id);
    }
  }

  lemma SameTablets(st: State, st': State, g: GTx, a: Addr, id: nat)
    requires st'.tablets == st.tablets && Committed(st', a, id, g)
    ensures Committed(st, a, id, g)
  {
  }

  lemma DeliverIs(st: State, rid: nat, c: Choice)
    requires Enabled(st, Deliver(rid, c))
    ensures CanDeliver(st, rid) && Apply(st, Deliver(rid, c)) == DoDeliver(st, rid, c)
  {
  }

  lemma ReapIs(st: State, a: Addr, id: nat)
    requires Enabled(st, Reap(a, id))
    ensures a in st.tablets && Apply(st, Reap(a, id)) == DoReap(st, a, id)
  {
  }

  /** Nothing pending, nothing more committed. */
  lemma {:induction false} NothingMore(st: State, ls: seq<Label>, g: GTx)
    requires Inv(st) && CanExec(st, ls) && Ending(st, g) && !CommitPending(st, g)
    ensures Ending(Exec(st, ls), g) && !CommitPending(Exec(st, ls), g)
    ensures forall a, id | Committed(Exec(st, ls), a, id, g) :: Committed(st, a, id, g)
    decreases |ls|
  {
    hide Inv, Enabled, Apply, Ending, CommitPending, Committed;
    if ls != [] {
      var st1 := Apply(st, ls[0]);
      StepKeeps(st, ls[0]);
      EndingStep(st, ls[0], g);
      PendingStep(st, ls[0], g);
      NothingMore(st1, ls[1..], g);
      forall a, id | Committed(Exec(st, ls), a, id, g) ensures Committed(st, a, id, g) {
        CommitsStep(st, ls[0], g, a, id);
      }
    }
  }

  // ----- a pending commit can take effect after the answer -----

  /** With no clients left, a fan-out of `s0` has given up on all participants but `todo`. */
  ghost predicate Missing(st: State, sid: nat, s0: Session, phase: Phase, todo: set<Addr>) {
    && sid in st.sessions && st.clients == {} && todo <= s0.parts.Keys
    && st.sessions[sid] == s0.(pc := FanOut(phase, map c | c in s0.parts :: if c in todo then Unsent else Done(false)))
  }

  lemma MissOne(st: State, sid: nat, s0: Session, phase: Phase, todo: set<Addr>, c: Addr)
    requires Missing(st, sid, s0, phase, todo) && phase.RollbackAll? && c in todo
    ensures CanMiss(st, sid, c) && Missing(DoMiss(st, sid, c), sid, s0, phase, todo - {c})
    ensures SameWire(st, DoMiss(st, sid, c)) && DoMiss(st, sid, c).told == st.told
  {
    var st' := DoMiss(st, sid, c);
    assert st'.sessions[sid].pc.calls == st.sessions[sid].pc.calls[c := Done(false)];
  }

  lemma MissAll(st: State, sid: nat, s0: Session, phase: Phase, todo: set<Addr>) returns (ls: seq<Label>)
    requires Missing(st, sid, s0, phase, todo) && phase.RollbackAll?
    ensures CanExec(st, ls) && Missing(Exec(st, ls), sid, s0, phase, {})
    ensures SameWire(st, Exec(st, ls)) && Exec(st, ls).told == st.told
    decreases |todo|
  {
    hide Missing, Enabled, Apply, DoMiss, CanMiss;
    if todo == {} {
      ls := [];
    } else {
      var c :| c in todo;
      var l := NoClient(sid, c);
      MissOne(st, sid, s0, phase, todo, c);
      IsMiss(st, sid, c);
      Exec1(st, l);
      var ls' := MissAll(DoMiss(st, sid, c), sid, s0, phase, todo - {c});
      ExecAppend(st, [l], ls');
      ls := [l] + ls';
    }
  }

  lemma MissedMoves(st: State, sid: nat, s0: Session, phase: Phase)
    requires Missing(st, sid, s0, phase, {}) && phase.RollbackAll?
    ensures sid in st.sessions && CanAdvance(st.sessions[sid])
    ensures SameWire(st, Moved(st, sid, true)) && sid in Moved(st, sid, true).sessions
    ensures phase.after.AfterRollback? ==> RolledBackTold(Moved(st, sid, true), Gtx(sid, s0))
    ensures phase.after.AfterError? ==> Moved(st, sid, true).sessions[sid] == s0.(pc := Quiet)
  {
    var st' := Moved(st, sid, true);
    assert phase.after.AfterRollback? ==> st'.told[|st.told|].gtx == Gtx(sid, s0);
  }

  /** The rollback fan-out ends without any of its requests being sent. */
  lemma GiveUpRollback(st: State, sid: nat, after: After) returns (ls: seq<Label>)
    requires sid in st.sessions && st.sessions[sid].pc == FanOut(RollbackAll(after), Fresh(st.sessions[sid].parts))
    ensures CanExec(st, ls) && SameWire(st, Exec(st, ls)) && sid in Exec(st, ls).sessions
    ensures after.AfterRollback? ==> RolledBackTold(Exec(st, ls), Gtx(sid, st.sessions[sid]))
    ensures after.AfterError? ==> Exec(st, ls).sessions[sid] == st.sessions[sid].(pc := Quiet)
  {
    hide Enabled, Apply, Missing, Moved, CanAdvance;
    var s0, phase, l := st.sessions[sid], RollbackAll(after), SetClients({});
    IsSetClients(st, {});
    Exec1(st, l);
    var st1 := st.(clients := {});
    assert Missing(st1, sid, s0, phase, s0.parts.Keys) by { NoneMissed(st1, sid, phase); }
    var ls1 := MissAll(st1, sid, s0, phase, s0.parts.Keys);
    ExecAppend(st, [l], ls1);
    var st2 := Exec(st1, ls1);
    MissedMoves(st2, sid, s0, phase);
    IsAdvance(st2, sid, true);
    ExecSnoc(st, [l] + ls1, Advance(sid, true));
    ls := [l] + ls1 + [Advance(sid, true)];
  }

  lemma NoneMissed(st: State, sid: nat, phase: Phase)
    requires sid in st.sessions && st.clients == {}
    requires st.sessions[sid].pc == FanOut(phase, Fresh(st.sessions[sid].parts))
    ensures Missing(st, sid, st.sessions[sid], phase, st.sessions[sid].parts.Keys)
  {
    var parts := st.sessions[sid].parts;
    assert Fresh(parts) == map c | c in parts :: if c in parts.Keys then Unsent else Done(false);
  }

  lemma PendingArrives(st: State, g: GTx, rid: nat)
    requires Inv(st) && Pending(st, g, rid)
    ensures var m, c := st.sent[rid], Choice(0, true, true);
            && CanDeliver(st, rid) && !Committed(st, m.addr, m.body.id, g)
            && Committed(DoDeliver(st, rid, c), m.addr, m.body.id, g)
  {
    hide Inv;
    MsgAt(st, rid);
  }

  /** The ROLLBACK starts, `ls` lead to its answer, and after that `ls'` to a commit that had not taken
      effect before. */
  ghost predicate Overtaken(st: State, sid: nat, ls: seq<Label>, ls': seq<Label>)
    requires CanStart(st, sid)
  {
    var g, st0 := Gtx(sid, st.sessions[sid]), DoStartRollback(st, sid);
    && CanExec(st0, ls) && RolledBackTold(Exec(st0, ls), g) && CanExec(Exec(st0, ls), ls')
    && exists a, id :: Committed(Exec(Exec(st0, ls), ls'), a, id, g) && !Committed(Exec(st0, ls), a, id, g)
  }

  lemma SamePending(st: State, st': State, g: GTx, rid: nat)
    requires SameWire(st, st') && Pending(st, g, rid)
    ensures Pending(st', g, rid)
  {
  }

  lemma StartIs(st: State, sid: nat)
    requires CanStart(st, sid)
    ensures var st0 := DoStartRollback(st, sid); var s := st.sessions[sid];
            && SameWire(st, st0) && Ending(st0, Gtx(sid, s))
            && sid in st0.sessions && st0.sessions[sid] == s.(pc := FanOut(RollbackAll(AfterRollback), Fresh(s.parts)))
  {
  }

  lemma PendingOvertakes(st: State, sid: nat) returns (ls: seq<Label>, ls': seq<Label>)
    requires Inv(st) && CanStart(st, sid) && CommitPending(st, Gtx(sid, st.sessions[sid]))
    ensures Overtaken(st, sid, ls, ls')
  {
    hide Inv, Enabled, Apply, DoStartRollback, Pending, Committed, DoDeliver, RolledBackTold, SameWire;
    var g, st0 := Gtx(sid, st.sessions[sid]), DoStartRollback(st, sid);
    var rid :| Pending(st, g, rid);
    IsStart(st, sid);
    StepKeeps(st, StartRollback(sid));
    StartIs(st, sid);
    SamePending(st, st0, g, rid);
    ls := GiveUpRollback(st0, sid, AfterRollback);
    var st1 := Exec(st0, ls);
    ExecKeeps(st0, ls);
    SamePending(st0, st1, g, rid);
    PendingArrives(st1, g, rid);
    IsDeliver(st1, rid, Choice(0, true, true));
    Exec1(st1, Deliver(rid, Choice(0, true, true)));
    ls' := [Deliver(rid, Choice(0, true, true))];
  }

  lemma NotOvertaken(st: State, sid: nat, ls: seq<Label>, ls': seq<Label>)
    requires Inv(st) && CanStart(st, sid) && !CommitPending(st, Gtx(sid, st.sessions[sid]))
    ensures !Overtaken(st, sid, ls, ls')
  {
    hide Inv, Enabled, Apply, DoStartRollback, Pending, Committed, RolledBackTold, SameWire, Extends;
    var g, st0 := Gtx(sid, st.sessions[sid]), DoStartRollback(st, sid);
    IsStart(st, sid);
    StepKeeps(st, StartRollback(sid));
    StartIs(st, sid);
    assert !CommitPending(st0, g) by {
      forall rid ensures !Pending(st0, g, rid) { SameNotPending(st, st0, g, rid); }
    }
    if CanExec(st0, ls) && CanExec(Exec(st0, ls), ls') {
      ExecKeeps(st0, ls);
      NothingMore(st0, ls, g);
      NothingMore(Exec(st0, ls), ls', g);
    }
  }

  lemma SameNotPending(st: State, st': State, g: GTx, rid: nat)
    requires SameWire(st, st') && !Pending(st, g, rid)
    ensures !Pending(st', g, rid)
  {
  }

  /** A ROLLBACK about to start can be answered and yet be overtaken by a commit exactly if a commit
      request of its gate transaction is still on the way to a live local transaction. */
  lemma RollbackOvertakenIff(st: State, sid: nat)
    requires Inv(st) && CanStart(st, sid)
    ensures (exists ls, ls' :: Overtaken(st, sid, ls, ls')) <==> CommitPending(st, Gtx(sid, st.sessions[sid]))
  {
    hide Inv, Overtaken, CommitPending;
    if CommitPending(st, Gtx(sid, st.sessions[sid])) {
      var ls, ls' := PendingOvertakes(st, sid);
    } else {
      forall ls, ls' ensures !Overtaken(st, sid, ls, ls') { NotOvertaken(st, sid, ls, ls'); }
    }
  }

  // ----- how a commit comes to be pending -----

  /** A one-shard COMMIT whose request is sent and given up on. */
  lemma LoseCommit(st: State, sid: nat, a: Addr, id: nat) returns (ls: seq<Label>)
    requires sid in st.sessions && st.sessions[sid].parts == map[a := id] && a in st.clients
    requires st.sessions[sid].pc == FanOut(CommitOne, map[a := Unsent])
    requires a in st.tablets && id in st.tablets[a].live
    ensures CanExec(st, ls) && sid in Exec(st, ls).sessions
              && Pending(Exec(st, ls), Gtx(sid, st.sessions[sid]), st.nextRid)
    ensures Exec(st, ls).sessions[sid] == st.sessions[sid].(pc := FanOut(RollbackAll(AfterError), Fresh(map[a := id])))
  {
    hide Enabled, Apply, Moved, DoSend, CanSend, Resolve, CanAdvance, Pending;
    var l1, l2, l3 := Send(sid, a), GiveUp(sid, a), Advance(sid, true);
    CommitSent(st, sid, a, id);
    IsSend(st, sid, a);
    Exec1(st, l1);
    var st1 := DoSend(st, sid, a);
    IsGiveUp(st1, sid, a);
    ExecSnoc(st, [l1], l2);
    var st2 := Resolve(st1, sid, a, Refused);
    CommitGivenUp(st1, sid, a, id, st.nextRid);
    ResolveReplies(st1, sid, a, Refused);
    SamePending(st1, st2, Gtx(sid, st.sessions[sid]), st.nextRid);
    IsAdvance(st2, sid, true);
    ExecSnoc(st, [l1] + [l2], l3);
    MovedReplies(st2, sid, true);
    SamePending(st2, Moved(st2, sid, true), Gtx(sid, st.sessions[sid]), st.nextRid);
    ls := [l1] + [l2] + [l3];
  }

  lemma CommitSent(st: State, sid: nat, a: Addr, id: nat)
    requires sid in st.sessions && st.sessions[sid].parts == map[a := id] && a in st.clients
    requires st.sessions[sid].pc == FanOut(CommitOne, map[a := Unsent]) && a in st.tablets && id in st.tablets[a].live
    ensures CanSend(st, sid, a)
    ensures var st' := DoSend(st, sid, a);
            && sid in st'.sessions
            && st'.sessions[sid] == st.sessions[sid].(pc := FanOut(CommitOne, map[a := Waiting(st.nextRid)]))
            && IsWaiting(st', sid, a) && Pending(st', Gtx(sid, st.sessions[sid]), st.nextRid)
  {
    assert map[a := Unsent][a := Waiting(st.nextRid)] == map[a := Waiting(st.nextRid)];
  }

  lemma CommitGivenUp(st: State, sid: nat, a: Addr, id: nat, rid: nat)
    requires sid in st.sessions && st.sessions[sid].parts == map[a := id]
    requires st.sessions[sid].pc == FanOut(CommitOne, map[a := Waiting(rid)])
    ensures HasCall(st.sessions[sid].pc, a)
    ensures var st2 := Resolve(st, sid, a, Refused);
            && sid in st2.sessions && CanAdvance(st2.sessions[sid]) && sid in Moved(st2, sid, true).sessions
            && Moved(st2, sid, true).sessions[sid]
                 == st.sessions[sid].(pc := FanOut(RollbackAll(AfterError), Fresh(map[a := id])))
  {
    var calls: map<Addr, Call> := map[a := Waiting(rid)][a := Done(false)];
    assert a in calls && calls[a] != Done(true);
  }

  /** From every state in which a COMMIT over one live participant can start: its request may be lost and
      the rollback that follows may reach nobody. The client is told of a failure, may send ROLLBACK,
      and the commit is still pending. So the condition of `RollbackOvertakenIff` is met in real runs. */
  lemma LostCommitLingers(st: State, sid: nat, a: Addr, id: nat) returns (ls: seq<Label>)
    requires Inv(st) && CanStart(st, sid) && st.sessions[sid].parts == map[a := id]
    requires a in st.tablets && id in st.tablets[a].live
    ensures CanExec(st, ls) && CanStart(Exec(st, ls), sid)
    ensures Gtx(sid, Exec(st, ls).sessions[sid]) == Gtx(sid, st.sessions[sid])
    ensures CommitPending(Exec(st, ls), Gtx(sid, st.sessions[sid]))
  {
    hide Inv, Enabled, Apply, DoStartCommit, Pending, SameWire;
    IsStart(st, sid);
    Exec1(st, StartCommit(sid));
    var st0 := DoStartCommit(st, sid);
    OnlyStart(st, sid, a, id);
    IsSetClients(st0, {a});
    ExecSnoc(st, [StartCommit(sid)], SetClients({a}));
    var ls1 := [StartCommit(sid)] + [SetClients({a})];
    var st1 := st0.(clients := {a});
    var ls2 := LoseCommit(st1, sid, a, id);
    ExecAppend(st, ls1, ls2);
    var st2 := Exec(st1, ls2);
    var ls3 := GiveUpRollback(st2, sid, AfterError);
    ExecAppend(st, ls1 + ls2, ls3);
    SamePending(st2, Exec(st2, ls3), Gtx(sid, st.sessions[sid]), st1.nextRid);
    ls := ls1 + ls2 + ls3;
  }

  lemma OnlyStart(st: State, sid: nat, a: Addr, id: nat)
    requires CanStart(st, sid) && st.sessions[sid].parts == map[a := id]
    ensures var st1, s := DoStartCommit(st, sid), st.sessions[sid];
            && sid in st1.sessions
            && st1.sessions[sid] == s.(attempt := s.attempt + 1, pc := FanOut(CommitOne, map[a := Unsent]))
            && st1.tablets == st.tablets
  {
    assert Fresh(map[a := id]) == map[a := Unsent];
  }
}
