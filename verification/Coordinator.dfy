/** The coordinator's own code: straight-line operations on one session, with everything else that can
    happen meanwhile in between. Every execution is a run of the protocol, so what holds of all runs
    holds of what these methods return. */
module Coordinator {
  import opened Tablets
  import opened Protocol
  import opened ProtocolInvariant
  import opened ProtocolSteps
  import opened ProtocolTheorems
  import opened ProtocolFrame
  import opened ProtocolLabels
  import opened CallLog
  import opened CoordinatorSteps
  import opened CoordinatorLog

  /** The session object of the gate. */
  class GateSession {
    const id: nat
    var state: SessionState
    var shardTxIDs: map<Addr, nat>

    constructor (id: nat)
      ensures this.id == id && state == InTransaction && shardTxIDs == map[]
    {
      this.id := id;
      state, shardTxIDs := InTransaction, map[];
    }
  }

  /** The gate and the world around it. */
  class Gate {
    var world: State

    /** The environment's choice for each request number: its reply is back before the caller gives up. */
    const answered: Env

    /** The run so far. */
    ghost var states: seq<State>
    ghost var labels: seq<Label>

    ghost predicate Valid()
      reads this
    {
      IsRun(states, labels) && |states| == |labels| + 1 && world == Last(states) && Inv(world)
    }

    constructor (world: State, answered: Env)
      requires Init(world)
      ensures Valid() && this.world == world && this.answered == answered
    {
      this.world, this.answered, states, labels := world, answered, [world], [];
      InitInv(world);
    }

    /** One step of the protocol. */
    method Do(l: Label)
      requires Valid() && Enabled(world, l)
      modifies this
      ensures Valid() && world == Apply(old(world), l) && old(states) <= states
    {
      hide Inv, IsRun, Enabled, Apply, Extends;
      RunGrows(states, labels, l);
      StepKeeps(world, l);
      LastState(states, labels, Apply(world, l), l);
      states, labels := states + [Apply(world, l)], labels + [l];
      world := Apply(world, l);
    }

    /** Whatever else happens: deliveries, lost requests, reapers, topology changes, other sessions. */
    method Others(sid: nat)
      requires Valid() && sid in world.sessions
      modifies this
      ensures Valid() && Meanwhile(old(world), world, sid) && old(states) <= states
    {
      hide Inv, IsRun, Enabled, Apply, Meanwhile, StepOf;
      var n: nat := *;
      MeanwhileSelf(world, sid);
      while n > 0
        invariant Valid() && Meanwhile(old(world), world, sid) && old(states) <= states
      {
        var l: Label := *;
        SidKept(old(world), world, sid);
        if Enabled(world, l) && !StepOf(l, sid) {
          ghost var was := world;
          OthersKeep(world, l, sid);
          Do(l);
          MeanwhileTrans(old(world), was, world, sid);
        }
        n := n - 1;
      }
    }

    /** Waiting for the reply to a request: if it comes back in time, it is there afterwards. */
    method Await(sid: nat, rid: nat)
      requires Valid() && sid in world.sessions && rid in world.sent
      modifies this
      ensures Valid() && Meanwhile(old(world), world, sid) && old(states) <= states
      ensures answered(rid) ==> rid in world.replies
    {
      hide Inv, IsRun, Enabled, Apply, Meanwhile, StepOf;
      Others(sid);
      SidKept(old(world), world, sid);
      if answered(rid) && rid !in world.replies {
        var c: Choice := *;
        ghost var was := world;
        SentKept(old(world), world, sid, rid);
        StillComes(world, rid);
        IsDeliver(world, rid, c);
        DeliverIsOthers(rid, c, sid);
        OthersKeep(world, Deliver(rid, c), sid);
        Do(Deliver(rid, c));
        MeanwhileTrans(old(world), was, world, sid);
        Delivered(was, world, rid, c);
      }
    }

    /** One RPC: the reply if it is back in time, `Refused` otherwise. `mid` is the world when it ended. */
    method Rpc(sid: nat, a: Addr, ghost op: Op) returns (r: Reply, ghost mid: State, ghost rid: nat)
      requires Valid() && CanSend(world, sid, a) && op.env == answered && For(op, states, sid, world.sessions[sid])
      modifies this
      ensures Valid() && old(states) <= states
      ensures Sent(old(world), mid, sid, a) && world == Resolve(mid, sid, a, r)
      ensures Asked(op, states, rid, a, Body(old(world).sessions[sid], a)) && r == ReplyTo(answered, world, rid)
    {
      hide Inv, IsRun, Extends, Enabled, Apply, CanSend, DoSend, Resolve, SentIn, Sent, Meanwhile, IsSent, CallOf;
      ghost var was, ss := world, states;
      IsSend(world, sid, a);
      SendWaits(was, sid, a);
      rid := world.nextRid;
      Do(Send(sid, a));
      LastExtends(ss, states, labels);
      NewRequest(op, ss, states, labels, sid, a);
      ss := states;
      var no := CallOf(world.sessions[sid].pc, a).rid;
      assert no in world.sent by { SentIs(op, states, no, a, Body(was.sessions[sid], a)); }
      Await(sid, no);
      mid := world;
      StillWaits(was, Last(ss), mid, sid, a);
      SentWaits(was, mid, sid, a);
      if answered(no) {
        r := world.replies[no];
        IsReceive(world, sid, a);
        Do(Receive(sid, a));
      } else {
        r := Refused;
        IsGiveUp(world, sid, a);
        Do(GiveUp(sid, a));
      }
      ResolveReplies(mid, sid, a, r);
      SentLater(op, ss, states, labels, rid, a, Body(was.sessions[sid], a));
    }

    /** A goroutine of a fan-out waits for its reply. */
    method FinishCall(sid: nat, a: Addr, ghost op: Op, ghost s0: Session, ghost phase: Phase,
                      ghost calls: map<Addr, Call>, ghost rids: map<Addr, nat>)
      returns (failed: bool)
      requires Valid() && op.env == answered && InFan(op, states, sid, s0, phase, calls, rids)
      requires a in calls && calls[a].Waiting?
      modifies this
      ensures Valid() && old(states) <= states
      ensures InFan(op, states, sid, s0, phase, calls[a := Done(!failed)], rids)
    {
      hide Inv, IsRun, Enabled, Apply, InFan, HasCall, CallOf, IsWaiting, Resolve, Meanwhile;
      FanAwaits(op, states, sid, s0, phase, calls, rids, a);
      var rid := CallOf(world.sessions[sid].pc, a).rid;
      Await(sid, rid);
      FanPasses(op, old(states), states, labels, sid, s0, phase, calls, rids);
      FanAwaits(op, states, sid, s0, phase, calls, rids, a);
      ghost var ss := states;
      var r := Refused;
      if answered(rid) {
        r := world.replies[rid];
        IsReceive(world, sid, a);
        Do(Receive(sid, a));
      } else {
        IsGiveUp(world, sid, a);
        Do(GiveUp(sid, a));
      }
      FanHears(op, ss, states, labels, sid, s0, phase, calls, rids, a, r);
      failed := !r.Okay?;
    }

    /** A goroutine of a fan-out looks up its client and sends its request, or finds none. */
    method StartCall(sid: nat, a: Addr, ghost op: Op, ghost s0: Session, ghost phase: Phase,
                     ghost calls: map<Addr, Call>, ghost rids: map<Addr, nat>)
      returns (sent: bool, ghost call: Call, ghost rids': map<Addr, nat>)
      requires Valid() && InFan(op, states, sid, s0, phase, calls, rids) && !phase.CommitOne?
      requires a in calls && calls[a].Unsent?
      modifies this
      ensures Valid() && old(states) <= states && if sent then call.Waiting? else call == Done(false)
      ensures InFan(op, states, sid, s0, phase, calls[a := call], rids')
    {
      hide Inv, IsRun, Enabled, Apply, InFan, CanSend, CanMiss, DoSend, DoMiss, Fanning;
      assert Fanning(world, sid, s0, phase, calls) by { FanIs(op, states, sid, s0, phase, calls, rids); }
      sent := a in world.clients;
      if sent {
        FanSent(world, sid, s0, phase, calls, a);
        IsSend(world, sid, a);
        call, rids' := Waiting(world.nextRid), rids[a := world.nextRid];
        Do(Send(sid, a));
        FanSends(op, old(states), states, labels, sid, s0, phase, calls, rids, a);
      } else {
        FanMissed(world, sid, s0, phase, calls, a);
        IsMiss(world, sid, a);
        call, rids' := Done(false), rids;
        Do(NoClient(sid, a));
        FanMisses(op, old(states), states, labels, sid, s0, phase, calls, rids, a);
      }
    }

    /** One goroutine of a fan-out goes on, after whatever else happened. */
    method GoOn(sid: nat, a: Addr, waiting: bool, ghost op: Op, ghost s0: Session, ghost phase: Phase,
                ghost calls: map<Addr, Call>, ghost rids: map<Addr, nat>)
      returns (over: bool, failed: bool, ghost call: Call, ghost rids': map<Addr, nat>)
      requires Valid() && op.env == answered && InFan(op, states, sid, s0, phase, calls, rids) && !phase.CommitOne?
      requires a in calls && if waiting then calls[a].Waiting? else calls[a].Unsent?
      modifies this
      ensures Valid() && old(states) <= states && InFan(op, states, sid, s0, phase, calls[a := call], rids')
      ensures (over <==> call == Done(!failed)) && (!over ==> call.Waiting? && !waiting)
    {
      hide Inv, IsRun, InFan, Fanning, Meanwhile;
      FanIs(op, states, sid, s0, phase, calls, rids);
      Others(sid);
      FanPasses(op, old(states), states, labels, sid, s0, phase, calls, rids);
      over, failed, rids' := true, true, rids;
      if waiting {
        failed := FinishCall(sid, a, op, s0, phase, calls, rids);
        call := Done(!failed);
      } else {
        var sent;
        sent, call, rids' := StartCall(sid, a, op, s0, phase, calls, rids);
        over := !sent;
      }
    }

    /** `prepareAll`, `commitAll` and `rollbackAll`: one goroutine per participant, in any interleaving;
        the errors are collected and the first one counts. Each participant is sent its request and waited
        for, unless it has no client; no error means that all of them answered well in time. */
    method FanOutAll(sid: nat, shards: map<Addr, nat>, ghost op: Op, ghost s0: Session, ghost phase: Phase)
      returns (ok: bool, ghost calls: map<Addr, Call>, ghost rids: map<Addr, nat>)
      requires Valid() && Fanning(world, sid, s0, phase, Fresh(shards)) && s0.parts == shards && !phase.CommitOne?
      requires op.env == answered && For(op, states, sid, s0)
      modifies this
      ensures Valid() && old(states) <= states && Fanning(world, sid, s0, phase, calls)
      ensures calls.Keys == shards.Keys && AllDone(calls) && (ok <==> AllOk(calls))
      ensures Called(op, states, Requests(phase, shards), rids)
      ensures ok <==> AllGood(answered, world, shards.Keys, rids)
    {
      hide Inv, IsRun, InFan, Tally, AllOk, AllDone, Called, AllGood, Fanning, Requests;
      var pending, waiting := shards.Keys, {};
      var errors := 0;
      calls, rids := Fresh(shards), map[];
      TallyStart(shards);
      FanStarts(op, states, sid, s0, phase);
      while pending != {}
        invariant Valid() && old(states) <= states && InFan(op, states, sid, s0, phase, calls, rids)
        invariant calls.Keys == shards.Keys && waiting <= pending <= shards.Keys
        invariant Tally(calls, pending, waiting, errors)
        decreases pending, shards.Keys - waiting
      {
        var a :| a in pending;
        TallyAt(calls, pending, waiting, errors, a);
        var over, failed;
        ghost var call;
        over, failed, call, rids := GoOn(sid, a, a in waiting, op, s0, phase, calls, rids);
        TallyStep(calls, pending, waiting, errors, a, over, failed, call);
        calls := calls[a := call];
        if over {
          pending, waiting := pending - {a}, waiting - {a};
          errors := errors + if failed then 1 else 0;
        } else {
          waiting := waiting + {a};
        }
      }
      TallyEnd(calls, waiting, errors);
      FanIs(op, states, sid, s0, phase, calls, rids);
      FanIsOver(op, states, sid, s0, phase, calls, rids);
      ok := errors == 0;
    }

    /** The session object agrees with the world and no operation is in progress on it. */
    ghost predicate Coupled(sess: GateSession)
      reads this, sess
    {
      && sess.id in world.sessions && world.sessions[sess.id].pc.Quiet?
      && world.sessions[sess.id].state == sess.state && world.sessions[sess.id].parts == sess.shardTxIDs
    }

    /** A fan-out runs to its end and the operation moves on. */
    method RunPhase(sid: nat, shards: map<Addr, nat>, ghost op: Op, ghost s0: Session, ghost phase: Phase)
      returns (ok: bool, ghost rids: map<Addr, nat>)
      requires Valid() && Fanning(world, sid, s0, phase, Fresh(shards)) && s0.parts == shards && !phase.CommitOne?
      requires op.env == answered && For(op, states, sid, s0)
      modifies this
      ensures Valid() && old(states) <= states && AfterPhase(old(world), world, sid, s0, phase, ok)
      ensures Called(op, states, Requests(phase, shards), rids)
      ensures ok <==> AllGood(answered, world, shards.Keys, rids)
    {
      hide Inv, IsRun, Fanning, Enabled, Apply, Moved, AfterPhase, CanAdvance, Called, AllOk, AllDone, AllGood;
      ghost var calls;
      ok, calls, rids := FanOutAll(sid, shards, op, s0, phase);
      ghost var ss := states;
      FanMoved(world, sid, s0, phase, calls);
      IsAdvance(world, sid, true);
      Do(Advance(sid, true));
      PhaseSince(old(states), ss, states, labels, sid, s0, phase, ok);
      CalledLater(op, ss, states, labels, Requests(phase, shards), rids);
    }

    /** A COMMIT with one participant: it is sent its commit, if it has a client, and its answer decides. */
    method CommitOnly(sid: nat, shards: map<Addr, nat>, ghost op: Op, ghost s0: Session)
      returns (ok: bool, ghost commits: map<Addr, nat>, ghost undo: map<Addr, nat>)
      requires Valid() && Fanning(world, sid, s0, CommitOne, Fresh(shards)) && s0.parts == shards && |shards| == 1
      requires op.env == answered && For(op, states, sid, s0)
      modifies this
      ensures Valid() && old(states) <= states
      ensures if ok then Over(old(world), world, sid, s0, CommitOk, s0.(state := Committed, parts := map[]))
              else Over(old(world), world, sid, s0, Failed, s0)
      ensures Called(op, states, Requests(CommitOne, shards), commits)
      ensures ok <==> AllGood(answered, world, shards.Keys, commits)
      ensures !ok && commits != map[] ==> Undone(op, states, shards, undo)
    {
      hide Inv, IsRun, Fanning, Enabled, Apply, CanMiss, DoMiss, Over, Called, AllGood, Meanwhile, Requests, CanSend,
           AfterPhase, Undone;
      ghost var calls := Fresh(shards);
      commits, undo := map[], map[];
      FanSid(world, sid, s0, CommitOne, calls);
      Others(sid);
      FanMeanwhile(old(world), world, sid, s0, CommitOne, calls);
      var addr :| addr in shards;
      OneKey(shards, addr);
      ghost var ss := states;
      if addr !in world.clients {
        OnlyMissed(world, sid, s0, calls, addr);
        IsMiss(world, sid, addr);
        Do(NoClient(sid, addr));
        OverSince(old(states), ss, states, labels, sid, s0, Failed, s0);
        OnlyUncalled(op, ss, states, Requests(CommitOne, shards), addr);
        ok := false;
      } else {
        commits, ok := CommitSole(sid, addr, shards, op, s0);
        PhaseSince(old(states), ss, states, labels, sid, s0, CommitOne, ok);
        AfterOne(old(world), world, sid, s0, ok);
        if !ok {
          ss := states;
          undo := RollbackAfterError(sid, shards, op, s0);
          OverSince(old(states), ss, states, labels, sid, s0, Failed, s0);
          CalledLater(op, ss, states, labels, Requests(CommitOne, shards), commits);
        }
      }
    }

    /** The commit of a sole participant that has a client. */
    method CommitSole(sid: nat, addr: Addr, shards: map<Addr, nat>, ghost op: Op, ghost s0: Session)
      returns (ghost commits: map<Addr, nat>, ok: bool)
      requires Valid() && Fanning(world, sid, s0, CommitOne, Fresh(shards)) && s0.parts == shards
      requires op.env == answered && For(op, states, sid, s0) && shards.Keys == {addr} && addr in world.clients
      modifies this
      ensures Valid() && old(states) <= states && AfterPhase(old(world), world, sid, s0, CommitOne, ok)
      ensures Called(op, states, Requests(CommitOne, shards), commits)
      ensures ok <==> AllGood(answered, world, shards.Keys, commits)
    {
      hide Inv, IsRun, Fanning, Enabled, Apply, CanSend, Resolve, Called, AllGood, Asked, Sent, Requests, Body, HasCall,
           AfterPhase, Moved, CanAdvance, AllDone, AllOk;
      ghost var calls, reqs := Fresh(shards), Requests(CommitOne, shards);
      FanSent(world, sid, s0, CommitOne, calls, addr);
      FanBodyIs(world, sid, s0, CommitOne, calls, addr);
      var r;
      ghost var mid, rid;
      r, mid, rid := Rpc(sid, addr, op);
      OnlyAnswered(old(world), mid, sid, s0, calls, addr, r);
      commits, ok := map[addr := rid], r.Okay?;
      OnlyCalled(op, states, reqs, addr, rid, r);
      ghost var ss := states;
      OnlyCall(calls, addr, ok);
      FanMoved(world, sid, s0, CommitOne, calls[addr := Done(ok)]);
      IsAdvance(world, sid, true);
      Do(Advance(sid, true));
      PhaseSince(old(states), ss, states, labels, sid, s0, CommitOne, ok);
      CalledLater(op, ss, states, labels, reqs, commits);
    }

    /** `rollbackAll`, when an operation gives up: every participant is sent a rollback, unless it has no client. */
    method RollbackAfterError(sid: nat, shards: map<Addr, nat>, ghost op: Op, ghost s0: Session)
      returns (ghost undo: map<Addr, nat>)
      requires Valid() && Fanning(world, sid, s0, RollbackAll(AfterError), Fresh(shards)) && s0.parts == shards
      requires op.env == answered && For(op, states, sid, s0)
      modifies this
      ensures Valid() && old(states) <= states && Over(old(world), world, sid, s0, Failed, s0)
      ensures Undone(op, states, shards, undo)
    {
      hide Inv, IsRun, Fanning, Over, Called, AllGood, Requests, Undone;
      var all;
      all, undo := RunPhase(sid, shards, op, s0, RollbackAll(AfterError));
      RollbacksEnd(op, states, AfterError, shards, undo);
    }

    /** A COMMIT with several participants: all must be prepared before any is committed. */
    method CommitMany(sid: nat, shards: map<Addr, nat>, ghost op: Op, ghost s0: Session)
      returns (ok: bool, ghost votes: map<Addr, nat>, ghost commits: map<Addr, nat>, ghost undo: map<Addr, nat>)
      requires Valid() && Fanning(world, sid, s0, PrepareAll, Fresh(shards)) && s0.parts == shards
      requires op.env == answered && For(op, states, sid, s0)
      modifies this
      ensures Valid() && old(states) <= states
      ensures if ok then Over(old(world), world, sid, s0, CommitOk, s0.(state := Committed, parts := map[]))
              else Over(old(world), world, sid, s0, Failed, s0)
      ensures Called(op, states, Requests(PrepareAll, shards), votes)
      ensures ok <==> AllGood(answered, world, shards.Keys, votes) && AllGood(answered, world, shards.Keys, commits)
      ensures if AllGood(answered, world, shards.Keys, votes)
              then Called(op, states, Requests(CommitAll, shards), commits)
              else Undone(op, states, shards, undo)
    {
      hide Inv, IsRun, Fanning, Over, Called, AllGood, Requests, Undone;
      commits, undo := map[], map[];
      ok, votes := RunPhase(sid, shards, op, s0, PrepareAll);
      ghost var ss := states;
      if ok {
        ok, commits := RunPhase(sid, shards, op, s0, CommitAll);
        PhaseSince(old(states), ss, states, labels, sid, s0, CommitAll, ok);
      } else {
        undo := RollbackAfterError(sid, shards, op, s0);
        OverSince(old(states), ss, states, labels, sid, s0, Failed, s0);
      }
      CalledLater(op, ss, states, labels, Requests(PrepareAll, shards), votes);
    }

    /** A COMMIT with participants. */
    method CommitSome(sid: nat, shards: map<Addr, nat>, ghost op: Op, ghost s0: Session)
      returns (ok: bool, ghost votes: map<Addr, nat>, ghost commits: map<Addr, nat>, ghost undo: map<Addr, nat>)
      requires Valid() && s0.parts == shards && |shards| > 0
      requires Fanning(world, sid, s0, if |shards| == 1 then CommitOne else PrepareAll, Fresh(shards))
      requires op.env == answered && For(op, states, sid, s0)
      modifies this
      ensures Valid() && old(states) <= states
      ensures if ok then Over(old(world), world, sid, s0, CommitOk, s0.(state := Committed, parts := map[]))
              else Over(old(world), world, sid, s0, Failed, s0)
      ensures CommitLogged(op, states, shards, ok, votes, commits, undo)
    {
      hide Inv, IsRun, Fanning, Over, Called, AllGood, Requests, Undone;
      votes := map[];
      VotesAndCommits(shards);
      if |shards| == 1 {
        ok, commits, undo := CommitOnly(sid, shards, op, s0);
      } else {
        ok, votes, commits, undo := CommitMany(sid, shards, op, s0);
      }
    }

    /** `Commit`: a success means that every participant's local transaction was committed, exactly once,
        and every statement that succeeded since BEGIN ran in them on each of its targets, hence somewhere
        exactly if it had a target; after an error the session keeps its participants. It succeeds exactly if
        every vote and every commit was answered well in time: one participant is sent its commit, several
        first a Prepare each; after a bad vote, or a bad commit of the only one, all are sent a rollback. */
    method Commit(sess: GateSession)
      returns (ok: bool, ghost votes: map<Addr, nat>, ghost commits: map<Addr, nat>, ghost undo: map<Addr, nat>)
      requires Valid() && Coupled(sess) && world.sessions[sess.id].registered
      modifies this, sess
      ensures Valid() && Coupled(sess) && Extends(old(world), world) && old(states) <= states
      ensures !old(sess.state).InTransaction? ==> !ok && world == old(world)
      ensures !ok ==> sess.state == old(sess.state) && sess.shardTxIDs == old(sess.shardTxIDs)
      ensures ok ==> sess.state == Committed && sess.shardTxIDs == map[]
      ensures old(sess.state).InTransaction? ==>
                var s0 := old(world.sessions)[sess.id].(attempt := old(world.sessions)[sess.id].attempt + 1);
                if ok then Over(old(world), world, sess.id, s0, CommitOk, s0.(state := Committed, parts := map[]))
                else Over(old(world), world, sess.id, s0, Failed, s0)
      ensures ok ==> forall a | a in old(sess.shardTxIDs) ::
                CommittedBy(world, a, old(sess.shardTxIDs)[a], Gtx(sess.id, old(world.sessions)[sess.id]),
                            old(world.sessions)[sess.id].attempt + 1)
      ensures ok ==> forall r | r in old(world.sessions)[sess.id].ran ::
                RanInside(world, old(sess.shardTxIDs), r)
                  && (RanOnTarget(world, old(sess.shardTxIDs), r) <==> r.targets != [])
      ensures old(sess.state).InTransaction? ==>
                var s := old(world.sessions)[sess.id];
                var op := Op(answered, old(|labels|), Gtx(sess.id, s), s.attempt + 1);
                CommitLogged(op, states, s.parts, ok, votes, commits, undo)
    {
      hide Inv, IsRun, Extends, Fanning, Over, Enabled, Apply, DoStartCommit, CommittedBy, RanInside, RanOnTarget,
           CommitLogged;
      votes, commits, undo := map[], map[], map[];
      ExtendsSelf(world);
      if !sess.state.InTransaction? {
        return false, votes, commits, undo;
      }
      var sid, shards := sess.id, sess.shardTxIDs;
      ghost var s0 := world.sessions[sid].(attempt := world.sessions[sid].attempt + 1);
      ghost var op := Op(answered, |labels|, Gtx(sid, s0), s0.attempt);
      StartCommitIs(world, sid, s0);
      IsStart(world, sid);
      Do(StartCommit(sid));
      if |shards| == 0 {
        ok := true;
        NoneCommitted(op, states, votes, commits, undo);
      } else {
        ghost var ss := states;
        ok, votes, commits, undo := CommitSome(sid, shards, op, s0);
        OverSince(old(states), ss, states, labels, sid, s0, if ok then CommitOk else Failed,
                  if ok then s0.(state := Committed, parts := map[]) else s0);
      }
      LastExtends(old(states), states, labels);
      if ok {
        sess.state, sess.shardTxIDs := Committed, map[];
        OverCommitted(old(world), world, sid, s0, s0.(state := Committed, parts := map[]));
      }
      OverLeaves(old(world), world, sid, s0, if ok then CommitOk else Failed,
                 if ok then s0.(state := Committed, parts := map[]) else s0);
    }

    /** A ROLLBACK, from its start to its answer. */
    method RollbackStarted(sid: nat, shards: map<Addr, nat>, ghost op: Op, ghost s0: Session)
      returns (ghost undo: map<Addr, nat>)
      requires Valid() && CanStart(world, sid) && s0 == world.sessions[sid] && s0.parts == shards
      requires op.env == answered && For(op, states, sid, s0) && op.from == |labels|
      modifies this
      ensures Valid() && old(states) <= states
      ensures sid in world.sessions && Same(s0.(state := RolledBack, parts := map[], pc := Quiet), world.sessions[sid])
      ensures Over(old(world), world, sid, s0, RollbackOk, s0.(state := RolledBack, parts := map[]))
      ensures Closed(world, op.g) && RollbackLogged(op, states, shards, undo)
      ensures NoneDecided(world, op.g) ==>
                forall a, id | Owned(world, a, id, op.g) :: world.tablets[a].locals[id].commits == []
    {
      hide Inv, IsRun, Fanning, Over, Enabled, Apply, DoStartRollback, Closed, NoneDecided, Owned, Called,
           AllGood, RollbackLogged, Requests, AfterPhase, Same;
      StartRollbackIs(world, sid);
      IsStart(world, sid);
      Do(StartRollback(sid));
      ghost var ss := states;
      var all;
      all, undo := RunPhase(sid, shards, op, s0, RollbackAll(AfterRollback));
      RollbackIsOver(op, old(states), ss, states, labels, sid, s0, all, undo);
    }

    /** `Rollback`: always answered, whatever became of the rollback requests. Every participant is sent a
        rollback, unless it has no client; where it was answered, the local transaction has ended. No local
        transaction begun for it is committed unless a COMMIT attempt of it had been decided, so without a
        decided attempt every participant whose rollback was answered is aborted. */
    method Rollback(sess: GateSession) returns (ok: bool, ghost undo: map<Addr, nat>)
      requires Valid() && Coupled(sess) && world.sessions[sess.id].registered
      modifies this, sess
      ensures Valid() && Coupled(sess) && Extends(old(world), world) && old(states) <= states
      ensures ok == old(sess.state).InTransaction?
      ensures !ok ==> world == old(world) && sess.state == old(sess.state) && sess.shardTxIDs == old(sess.shardTxIDs)
      ensures ok ==> sess.state == RolledBack && sess.shardTxIDs == map[]
      ensures ok ==> var s0 := old(world.sessions)[sess.id];
                Over(old(world), world, sess.id, s0, RollbackOk, s0.(state := RolledBack, parts := map[]))
      ensures ok ==> var g := Gtx(sess.id, old(world.sessions)[sess.id]);
                && Closed(world, g)
                && (NoneDecided(world, g) ==>
                     forall a, id | Owned(world, a, id, g) :: world.tablets[a].locals[id].commits == [])
      ensures ok ==>
                var s := old(world.sessions)[sess.id];
                RollbackLogged(Op(answered, old(|labels|), Gtx(sess.id, s), s.attempt), states, s.parts, undo)
    {
      hide Inv, IsRun, Extends, Over, Closed, NoneDecided, Owned, RollbackLogged;
      undo := map[];
      ok := sess.state.InTransaction?;
      if ok {
        var sid, shards := sess.id, sess.shardTxIDs;
        ghost var s0 := world.sessions[sid];
        ghost var op := Op(answered, |labels|, Gtx(sid, s0), s0.attempt);
        undo := RollbackStarted(sid, shards, op, s0);
        sess.state, sess.shardTxIDs := RolledBack, map[];
      }
      LastExtends(old(states), states, labels);
    }

    /** `Begin` without a transaction id: a session with an id never used before. */
    method Begin() returns (sess: GateSession)
      requires Valid()
      modifies this
      ensures Valid() && Coupled(sess) && Extends(old(world), world) && old(states) <= states && fresh(sess)
      ensures sess.id !in old(world).sessions && sess.state == InTransaction && sess.shardTxIDs == map[]
    {
      hide Inv, IsRun, Extends, Enabled, Apply;
      NewSid(world);
      IsOpen(world);
      Do(OpenSession);
      LastExtends(old(states), states, labels);
      sess := new GateSession(world.nextSid);
    }

    /** `handleBegin` with the id of a known session. Outside a transaction it has no participants left
        that clearing them could forget. */
    method BeginAgain(sess: GateSession)
      requires Valid() && Coupled(sess) && world.sessions[sess.id].registered
      modifies this, sess
      ensures Valid() && Coupled(sess) && Extends(old(world), world) && old(states) <= states
      ensures sess.state == InTransaction && sess.shardTxIDs == old(sess.shardTxIDs)
    {
      hide Inv, IsRun, Extends, Enabled, Apply, PcOk;
      IsRebegin(world, sess.id);
      SessionAt(world, sess.id);
      Do(Rebegin(sess.id));
      LastExtends(old(states), states, labels);
      if !sess.state.InTransaction? {
        sess.state := InTransaction;
        sess.shardTxIDs := map[];
      }
    }

    /** Joins every target that does not participate yet, with the id its tablet handed out; `false` if one did
        not answer its BEGIN well in time and all was rolled back. */
    method OpenAll(sess: GateSession, job: Job, ghost op: Op, ghost s0: Session)
      returns (ok: bool, ghost begins: map<Addr, nat>, ghost undo: map<Addr, nat>)
      requires Valid() && At(world, sess.id, s0.(pc := Opening(job, 0, Unsent))) && s0.parts == sess.shardTxIDs
      requires op.env == answered && For(op, states, sess.id, s0)
      modifies this, sess`shardTxIDs
      ensures Valid() && old(states) <= states
      ensures if ok then At(world, sess.id, s0.(parts := sess.shardTxIDs, pc := Opening(job, |job.targets|, Unsent)))
              else Over(old(world), world, sess.id, s0.(parts := sess.shardTxIDs), Failed,
                        s0.(parts := sess.shardTxIDs))
      ensures BeginsLogged(op, states, begins)
      ensures Opened(answered, world, old(sess.shardTxIDs), sess.shardTxIDs, begins)
      ensures ok <==> AllBegun(answered, world, job, old(sess.shardTxIDs), begins)
      ensures ok ==> forall a | a in job.targets :: a in sess.shardTxIDs
      ensures !ok ==> Undone(op, states, sess.shardTxIDs, undo)
    {
      hide Inv, IsRun, Enabled, Apply, At, Fanning, Over, Resolve, Moved, CanSend, CanAdvance, Called, Opened,
           BeginsLogged, Asked, Sent, Body, InOpening, AllBegun, Meanwhile, Undone;
      var sid := sess.id;
      begins, undo := map[], map[];
      OpeningStarts(op, states, sid, s0, job);
      ghost var s, parts0 := s0, s0.parts;
      for i := 0 to |job.targets|
        invariant Valid() && old(states) <= states && s == s0.(parts := sess.shardTxIDs)
        invariant InOpening(op, states, sid, s, job, i, parts0, begins)
      {
        ghost var ss := states;
        OpeningSid(op, states, sid, s, job, i, parts0, begins);
        Others(sid);
        OpeningPasses(op, ss, states, labels, sid, s, job, i, parts0, begins);
        ss := states;
        var addr := job.targets[i];
        if addr in sess.shardTxIDs {
          OpeningMoves(op, states, sid, s, job, i, parts0, begins);
          IsAdvance(world, sid, true);
          Do(Advance(sid, true));
          OpeningSkips(op, ss, states, labels, sid, s, job, i, parts0, begins);
        } else {
          OpeningSends(op, states, sid, s, job, i, parts0, begins);
          var r;
          ghost var mid, rid;
          r, mid, rid := Rpc(sid, addr, op);
          OpeningHears(op, ss, states, labels, sid, s, job, i, parts0, begins, mid, rid, r);
          begins := begins[addr := rid];
          if !r.Begun? {
            ss := states;
            undo := RollbackAfterError(sid, sess.shardTxIDs, op, s);
            OverSince(old(states), ss, states, labels, sid, s, Failed, s);
            BeginsLater(op, ss, states, labels, begins, parts0, sess.shardTxIDs, job);
            return false, begins, undo;
          }
          sess.shardTxIDs := sess.shardTxIDs[addr := r.id];
          s := s.(parts := sess.shardTxIDs);
        }
      }
      OpeningEnds(op, states, sid, s, job, parts0, begins);
      return true, begins, undo;
    }

    /** A statement for one tablet: its answer is passed on. */
    method RunSingle(sid: nat, job: Job, ghost op: Op, ghost s0: Session) returns (ok: bool, ghost stmts: seq<nat>)
      requires Valid() && At(world, sid, s0.(pc := Running(job, 0, Unsent, false))) && IsSingle(job)
      requires op.env == answered && For(op, states, sid, s0) && forall a | a in job.targets :: a in s0.parts
      modifies this
      ensures Valid() && old(states) <= states && Executed(old(world), world, sid, s0, job, ok)
      ensures |stmts| == 1 && StmtsLogged(op, states, s0.parts, job, stmts)
      ensures ok <==> StmtsGood(answered, world, stmts)
    {
      hide Inv, IsRun, Enabled, Apply, At, Over, Resolve, Moved, CanSend, CanAdvance, Asked, Sent, Body, StmtsLogged,
           StmtsGood, InRunning, Meanwhile;
      RunningStarts(op, states, sid, s0, job);
      RunningSid(op, states, sid, s0, job, 0, false, []);
      Others(sid);
      RunningPasses(op, old(states), states, labels, sid, s0, job, 0, false, []);
      RunningSends(op, states, sid, s0, job, 0, false, []);
      ghost var ss := states;
      var r;
      ghost var mid, rid;
      r, mid, rid := Rpc(sid, job.targets[0], op);
      RunningHears(op, ss, states, labels, sid, s0, job, 0, false, [], mid, rid, r);
      ok := r.Okay?;
      stmts := [] + [rid];
      if ok {
        ss := states;
        RunningDone(op, states, sid, s0, job, false, stmts);
        RunMoved(world, sid, s0, job, false, true);
        IsAdvance(world, sid, true);
        Do(Advance(sid, true));
        OverSince(old(states), ss, states, labels, sid, s0, ExecOk, WithRan(s0, job));
        StmtsLater(op, ss, states, labels, s0.parts, job, stmts);
      } else {
        OverSince(old(states), ss, states, labels, sid, s0, Failed, s0);
      }
    }

    /** `executeScatter`: all targets are asked even if one fails; then everything is rolled back.
        `mergeOk` says whether the results can be merged. */
    method RunScatter(sid: nat, shards: map<Addr, nat>, job: Job, mergeOk: bool, ghost op: Op, ghost s0: Session)
      returns (ok: bool, ghost stmts: seq<nat>, ghost undo: map<Addr, nat>)
      requires Valid() && At(world, sid, s0.(pc := Running(job, 0, Unsent, false))) && s0.parts == shards
      requires op.env == answered && For(op, states, sid, s0) && forall a | a in job.targets :: a in shards
      requires !IsSingle(job)
      modifies this
      ensures Valid() && old(states) <= states && Executed(old(world), world, sid, s0, job, ok)
      ensures |stmts| == |job.targets| && StmtsLogged(op, states, shards, job, stmts)
      ensures ok <==> StmtsGood(answered, world, stmts) && mergeOk
      ensures !ok ==> Undone(op, states, shards, undo)
    {
      hide Inv, IsRun, Enabled, Apply, At, Fanning, Over, Resolve, Moved, CanSend, CanAdvance, Asked, Sent, Body,
           StmtsLogged, StmtsGood, InRunning, Meanwhile, Undone;
      stmts, undo := [], map[];
      var failed := false;
      RunningStarts(op, states, sid, s0, job);
      for i := 0 to |job.targets|
        invariant Valid() && old(states) <= states && InRunning(op, states, sid, s0, job, i, failed, stmts)
      {
        ghost var ss := states;
        RunningSid(op, states, sid, s0, job, i, failed, stmts);
        Others(sid);
        RunningPasses(op, ss, states, labels, sid, s0, job, i, failed, stmts);
        RunningSends(op, states, sid, s0, job, i, failed, stmts);
        ss := states;
        var r;
        ghost var mid, rid;
        r, mid, rid := Rpc(sid, job.targets[i], op);
        RunningHears(op, ss, states, labels, sid, s0, job, i, failed, stmts, mid, rid, r);
        stmts := stmts + [rid];
        if !r.Okay? {
          failed := true;
        }
      }
      ghost var ss := states;
      RunningDone(op, states, sid, s0, job, failed, stmts);
      RunMoved(world, sid, s0, job, failed, mergeOk);
      IsAdvance(world, sid, mergeOk);
      Do(Advance(sid, mergeOk));
      ok := !failed && mergeOk;
      if ok {
        OverSince(old(states), ss, states, labels, sid, s0, ExecOk, WithRan(s0, job));
      } else {
        ghost var ss' := states;
        undo := RollbackAfterError(sid, shards, op, s0);
        OverSince(old(states), ss', states, labels, sid, s0, Failed, s0);
      }
      StmtsLater(op, ss, states, labels, shards, job, stmts);
    }

    /** `Execute`: a statement that succeeds ran, on every tablet it was routed to, in a local transaction
        of this very gate transaction. A scatter that found no tablet succeeds too, and ran nowhere. It succeeds
        exactly if every BEGIN and every statement was answered well in time, and a scatter could be merged.
        After a failure everything is rolled back, except that a statement for one tablet is left to the client. */
    method Execute(sess: GateSession, job: Job, mergeOk: bool)
      returns (ok: bool, ghost begins: map<Addr, nat>, ghost stmts: seq<nat>, ghost undo: map<Addr, nat>)
      requires Valid() && Coupled(sess) && world.sessions[sess.id].registered
      requires forall a | a in job.targets :: a in world.clients
      modifies this, sess`shardTxIDs
      ensures Valid() && Coupled(sess) && Extends(old(world), world) && old(states) <= states
      ensures Joins(old(sess.shardTxIDs), sess.shardTxIDs)
      ensures !sess.state.InTransaction? ==> !ok && world == old(world) && sess.shardTxIDs == old(sess.shardTxIDs)
      ensures ok ==> world.sessions[sess.id].ran == old(world.sessions)[sess.id].ran + [Ran(job.stmt, job.targets)]
      ensures ok ==> RanInside(world, sess.shardTxIDs, Ran(job.stmt, job.targets))
      ensures ok ==> (RanOnTarget(world, sess.shardTxIDs, Ran(job.stmt, job.targets)) <==> job.targets != [])
      ensures !ok ==> world.sessions[sess.id].ran == old(world.sessions)[sess.id].ran
      ensures forall a | a in sess.shardTxIDs ::
                Owned(world, a, sess.shardTxIDs[a], Gtx(sess.id, old(world.sessions)[sess.id]))
      ensures ok <==> && sess.state.InTransaction? && (job.targets != [] || job.scatter)
                      && AllBegun(answered, world, job, old(sess.shardTxIDs), begins)
                      && |stmts| == |job.targets| && StmtsGood(answered, world, stmts) && (IsSingle(job) || mergeOk)
      ensures sess.state.InTransaction? ==>
                var s, parts := old(world.sessions)[sess.id], sess.shardTxIDs;
                var op := Op(answered, old(|labels|), Gtx(sess.id, s), s.attempt);
                && BeginsLogged(op, states, begins) && Opened(answered, world, s.parts, parts, begins)
                && StmtsLogged(op, states, parts, job, stmts)
                && (!ok && (job.targets != [] || job.scatter)
                    && !(IsSingle(job) && AllBegun(answered, world, job, s.parts, begins)) ==>
                      Undone(op, states, parts, undo))
    {
      hide Inv, IsRun, Extends, Enabled, Apply, Over, At, Joins, Owned, RanInside, RanOnTarget, DoStartExecute, Undone,
           Opened, BeginsLogged, StmtsLogged, StmtsGood, AllBegun, PcOk;
      var sid := sess.id;
      SessionAt(world, sid);
      ExtendsSelf(world);
      JoinsSelf(sess.shardTxIDs);
      begins, stmts, undo := map[], [], map[];
      if !sess.state.InTransaction? {
        return false, begins, stmts, undo;
      }
      ghost var s0 := world.sessions[sid];
      ghost var op := Op(answered, |labels|, Gtx(sid, s0), s0.attempt);
      StartExecuteIs(world, sid, job);
      IsExecute(world, sid, job);
      Do(StartExecute(sid, job));
      ghost var ss := states;
      if |job.targets| == 0 && !job.scatter {
        ok := false;
        OpenedNone(op, states, s0.parts);
        NoStmts(op, states, s0.parts, job);
      } else {
        ok, begins, stmts, undo := OpenAndRun(sess, job, mergeOk, op, s0);
        s0 := s0.(parts := sess.shardTxIDs);
        OverSince(old(states), ss, states, labels, sid, s0, if ok then ExecOk else Failed,
                  if ok then WithRan(s0, job) else s0);
      }
      LastExtends(old(states), states, labels);
      OpenedJoins(answered, world, old(sess.shardTxIDs), sess.shardTxIDs, begins);
      OverLeaves(old(world), world, sid, s0, if ok then ExecOk else Failed, if ok then WithRan(s0, job) else s0);
      SessionAt(world, sid);
      if ok {
        RanSomewhereIff(world, sess.shardTxIDs, Ran(job.stmt, job.targets));
      }
    }

    /** Joining the targets, then running the statement on them. */
    method OpenAndRun(sess: GateSession, job: Job, mergeOk: bool, ghost op: Op, ghost s0: Session)
      returns (ok: bool, ghost begins: map<Addr, nat>, ghost stmts: seq<nat>, ghost undo: map<Addr, nat>)
      requires Valid() && At(world, sess.id, s0.(pc := Opening(job, 0, Unsent))) && s0.parts == sess.shardTxIDs
      requires op.env == answered && For(op, states, sess.id, s0)
      modifies this, sess`shardTxIDs
      ensures Valid() && old(states) <= states
      ensures Executed(old(world), world, sess.id, s0.(parts := sess.shardTxIDs), job, ok)
      ensures BeginsLogged(op, states, begins) && StmtsLogged(op, states, sess.shardTxIDs, job, stmts)
      ensures Opened(answered, world, old(sess.shardTxIDs), sess.shardTxIDs, begins)
      ensures ok <==> && AllBegun(answered, world, job, old(sess.shardTxIDs), begins) && |stmts| == |job.targets|
                      && StmtsGood(answered, world, stmts) && (IsSingle(job) || mergeOk)
      ensures !ok && !(IsSingle(job) && AllBegun(answered, world, job, old(sess.shardTxIDs), begins)) ==>
                Undone(op, states, sess.shardTxIDs, undo)
    {
      hide Inv, IsRun, Enabled, Apply, Over, At, Moved, CanAdvance, Undone, Opened, BeginsLogged, StmtsLogged,
           StmtsGood, AllBegun;
      stmts := [];
      ok, begins, undo := OpenAll(sess, job, op, s0);
      if !ok {
        NoStmts(op, states, sess.shardTxIDs, job);
        return false, begins, stmts, undo;
      }
      var sid := sess.id;
      ghost var s, joined := s0.(parts := sess.shardTxIDs), states;
      OpenedAll(world, sid, s, job);
      IsAdvance(world, sid, true);
      Do(Advance(sid, true));
      ghost var ss := states;
      if |job.targets| == 1 && !job.scatter {
        ok, stmts := RunSingle(sid, job, op, s);
      } else {
        ok, stmts, undo := RunScatter(sid, sess.shardTxIDs, job, mergeOk, op, s);
      }
      OverSince(old(states), ss, states, labels, sid, s, if ok then ExecOk else Failed,
                if ok then WithRan(s, job) else s);
      BeginsLater(op, joined, states, labels, begins, old(sess.shardTxIDs), sess.shardTxIDs, job);
    }
  }
}
