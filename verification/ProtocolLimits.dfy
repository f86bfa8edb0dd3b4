/** What the protocol does not guarantee: exactly which COMMITs can end with one participant committed and
    another aborted, and that a statement without a reachable shard is answered as a success. */
module ProtocolLimits {
  import opened Tablets
  import opened Protocol
  import opened ProtocolInvariant
  import opened ProtocolSteps
  import opened ProtocolTheorems
  import opened ProtocolLabels
  import opened ProtocolFrame
  import opened ProtocolExec

  // ----- a mixed end -----

  /** A fan-out of `sid` in which `todo` has not been sent and the rest is done well. */
  ghost predicate Voting(st: State, sid: nat, g: GTx, n: nat, parts: map<Addr, nat>, todo: set<Addr>) {
    && sid in st.sessions && st.sessions[sid].pc.FanOut? && st.sessions[sid].pc.phase.PrepareAll?
    && st.sessions[sid].parts == parts && Gtx(sid, st.sessions[sid]) == g && st.sessions[sid].attempt == n
    && st.sessions[sid].pc.calls == (map c | c in parts :: if c in todo then Unsent else Done(true))
    && todo <= parts.Keys <= st.clients
    && AllLive(st, parts)
  }

  /** Every participant's local transaction is live. */
  ghost predicate AllLive(st: State, parts: map<Addr, nat>) {
    forall c | c in parts :: c in st.tablets && parts[c] in st.tablets[c].live && parts[c] in st.tablets[c].locals
  }

  /** One fan-out request is sent and delivered. */
  lemma SendThenDeliver(st: State, sid: nat, a: Addr, c: Choice) returns (ls: seq<Label>)
    requires CanSend(st, sid, a) && a in st.tablets
    ensures CanDeliver(DoSend(st, sid, a), st.nextRid)
    ensures CanExec(st, ls) && Exec(st, ls) == DoDeliver(DoSend(st, sid, a), st.nextRid, c)
  {
    hide Enabled, Apply, DoDeliver;
    IsSend(st, sid, a);
    Exec1(st, Send(sid, a));
    IsDeliver(DoSend(st, sid, a), st.nextRid, c);
    ExecSnoc(st, [Send(sid, a)], Deliver(st.nextRid, c));
    ls := [Send(sid, a)] + [Deliver(st.nextRid, c)];
  }

  lemma VoteOne(st: State, sid: nat, g: GTx, n: nat, parts: map<Addr, nat>, todo: set<Addr>, c: Addr)
    returns (ls: seq<Label>)
    requires Voting(st, sid, g, n, parts, todo) && c in todo
    ensures CanExec(st, ls) && Voting(Exec(st, ls), sid, g, n, parts, todo - {c})
  {
    hide Enabled, Apply, DoDeliver, DoSend, Resolve, Voting, CanSend;
    var yes := Choice(0, true, true);
    VoteServed(st, sid, g, n, parts, todo, c, yes);
    var ls1 := SendThenDeliver(st, sid, c, yes);
    var st1 := DoDeliver(DoSend(st, sid, c), st.nextRid, yes);
    VoteCounted(st, st1, sid, g, n, parts, todo, c);
    IsReceive(st1, sid, c);
    ExecSnoc(st, ls1, Receive(sid, c));
    ls := ls1 + [Receive(sid, c)];
  }

  /** The vote of `c` is in: it said yes and nothing else changed. */
  ghost predicate Voted(st: State, st1: State, sid: nat, c: Addr) {
    && sid in st.sessions && st.sessions[sid].pc.FanOut?
    && st1.tablets == st.tablets && st1.clients == st.clients
    && st.nextRid in st1.replies && st1.replies[st.nextRid] == Okay
    && sid in st1.sessions
    && var pc := st.sessions[sid].pc;
    st1.sessions[sid] == st.sessions[sid].(pc := FanOut(pc.phase, pc.calls[c := Waiting(st.nextRid)]))
  }

  lemma VoteServed(st: State, sid: nat, g: GTx, n: nat, parts: map<Addr, nat>, todo: set<Addr>, c: Addr, yes: Choice)
    requires Voting(st, sid, g, n, parts, todo) && c in todo && yes.ok
    ensures CanSend(st, sid, c) && c in st.tablets && CanDeliver(DoSend(st, sid, c), st.nextRid)
    ensures Voted(st, DoDeliver(DoSend(st, sid, c), st.nextRid, yes), sid, c)
  {
  }

  lemma VoteCounted(st: State, st1: State, sid: nat, g: GTx, n: nat, parts: map<Addr, nat>, todo: set<Addr>, c: Addr)
    requires Voting(st, sid, g, n, parts, todo) && c in todo && Voted(st, st1, sid, c)
    ensures IsWaiting(st1, sid, c) && CallOf(st1.sessions[sid].pc, c).rid == st.nextRid
    ensures Voting(Resolve(st1, sid, c, Okay), sid, g, n, parts, todo - {c})
  {
    hide AllLive, Noted;
    var st2 := Resolve(st1, sid, c, Okay);
    assert AllLive(st2, parts) by { StillLive(st, st2, parts); }
    assert st2.sessions[sid].pc.calls == st.sessions[sid].pc.calls[c := Done(true)];
  }

  lemma StillLive(st: State, st': State, parts: map<Addr, nat>)
    requires AllLive(st, parts) && st'.tablets == st.tablets
    ensures AllLive(st', parts)
  {
  }

  lemma VoteAll(st: State, sid: nat, g: GTx, n: nat, parts: map<Addr, nat>, todo: set<Addr>) returns (ls: seq<Label>)
    requires Voting(st, sid, g, n, parts, todo)
    ensures CanExec(st, ls) && Voting(Exec(st, ls), sid, g, n, parts, {})
    decreases |todo|
  {
    hide Voting, Enabled, Apply;
    if todo == {} {
      ls := [];
    } else {
      var c :| c in todo;
      var ls1 := VoteOne(st, sid, g, n, parts, todo, c);
      var ls2 := VoteAll(Exec(st, ls1), sid, g, n, parts, todo - {c});
      ExecAppend(st, ls1, ls2);
      ls := ls1 + ls2;
    }
  }

  /** The COMMIT starts and every tablet gets a client. */
  lemma StartVoting(st: State, sid: nat)
    requires Inv(st) && CanStart(st, sid) && |st.sessions[sid].parts| >= 2 && AllLive(st, st.sessions[sid].parts)
    ensures var st' := DoStartCommit(st, sid).(clients := st.tablets.Keys); var s := st.sessions[sid];
            Voting(st', sid, Gtx(sid, s), s.attempt + 1, s.parts, s.parts.Keys)
  {
    hide Inv;
  }

  lemma CommitArrives(st: State, sid: nat, a: Addr, id: nat) returns (ls: seq<Label>)
    requires CanSend(st, sid, a) && st.sessions[sid].pc.FanOut? && st.sessions[sid].pc.phase.CommitAll?
    requires a in st.sessions[sid].parts && st.sessions[sid].parts[a] == id
    requires Owned(st, a, id, Gtx(sid, st.sessions[sid])) && id in st.tablets[a].live
    requires st.tablets[a].locals[id].commits == []
    ensures CanExec(st, ls)
    ensures var st' := Exec(st, ls); var s := st.sessions[sid];
            && st'.tablets.Keys == st.tablets.Keys
            && (forall c | c in st.tablets && c != a :: st'.tablets[c] == st.tablets[c])
            && CommittedBy(st', a, id, Gtx(sid, s), s.attempt)
  {
    hide Enabled, Apply, CanExec, Exec;
    ls := SendThenDeliver(st, sid, a, Choice(0, true, true));
    assert DoSend(st, sid, a).sent[st.nextRid]
             == Msg(Gtx(sid, st.sessions[sid]), st.sessions[sid].attempt, a, CommitReq(id));
  }

  ghost predicate IsAborted(st: State, b: Addr, id: nat) {
    b in st.tablets && id in st.tablets[b].locals && st.tablets[b].locals[id].aborted
  }

  /** Attempt `n` committed one of its participants, and another one was aborted. */
  ghost predicate Mixed(st: State, parts: map<Addr, nat>, g: GTx, n: nat) {
    exists a, b :: a in parts && b in parts && CommittedBy(st, a, parts[a], g, n) && IsAborted(st, b, parts[b])
  }

  lemma ReapKeepsOthers(st: State, a: Addr, id: nat, g: GTx, n: nat, b: Addr, idb: nat)
    requires CommittedBy(st, a, id, g, n) && a != b && b in st.tablets && idb in st.tablets[b].live
    requires idb in st.tablets[b].locals
    ensures CommittedBy(DoReap(st, b, idb), a, id, g, n) && IsAborted(DoReap(st, b, idb), b, idb)
  {
  }

  /** Once all voted, one commit arrives and another participant is reaped before its own does. */
  lemma CommitOneReapOther(st: State, sid: nat, g: GTx, n: nat, parts: map<Addr, nat>, a: Addr, b: Addr)
    returns (ls: seq<Label>)
    requires Inv(st) && Voting(st, sid, g, n, parts, {}) && a in parts && b in parts && a != b
    ensures CanExec(st, ls) && Mixed(Exec(st, ls), parts, g, n)
  {
    hide Inv, Enabled, Apply, CommittedBy, IsAborted, CanAdvance, Moved, Voting, CanSend, AllLive;
    LiveUncommitted(st, sid, g, n, parts, a);
    VotesIn(st, sid, g, n, parts, a, b);
    IsAdvance(st, sid, true);
    Exec1(st, Advance(sid, true));
    var st1 := Moved(st, sid, true);
    var ls1 := CommitArrives(st1, sid, a, parts[a]);
    ExecAppend(st, [Advance(sid, true)], ls1);
    var ls2 := [Advance(sid, true)] + ls1;
    var st2 := Exec(st, ls2);
    IsReap(st2, b, parts[b]);
    ExecSnoc(st, ls2, Reap(b, parts[b]));
    ReapKeepsOthers(st2, a, parts[a], Gtx(sid, st.sessions[sid]), st.sessions[sid].attempt, b, parts[b]);
    ls := ls2 + [Reap(b, parts[b])];
  }

  /** All votes are in: the coordinator moves on to the commits, nothing else changes. */
  lemma VotesIn(st: State, sid: nat, g: GTx, n: nat, parts: map<Addr, nat>, a: Addr, b: Addr)
    requires Voting(st, sid, g, n, parts, {}) && a in parts && b in parts
    ensures sid in st.sessions && CanAdvance(st.sessions[sid])
    ensures var st1, s := Moved(st, sid, true), st.sessions[sid];
            && sid in st1.sessions && st1.sessions[sid] == s.(pc := FanOut(CommitAll, Fresh(parts)))
            && s.parts == parts && Gtx(sid, s) == g && s.attempt == n
            && st1.tablets == st.tablets && CanSend(st1, sid, a)
    ensures b in st.tablets && parts[b] in st.tablets[b].live && parts[b] in st.tablets[b].locals
  {
    assert AllOk(st.sessions[sid].pc.calls);
  }

  /** From every reachable state in which a COMMIT over two or more live participants can start, the
      run can go on so that the attempt ends mixed. */
  lemma MixedOutcomeReachable(st: State, sid: nat) returns (ls: seq<Label>)
    requires Inv(st) && CanStart(st, sid) && |st.sessions[sid].parts| >= 2 && AllLive(st, st.sessions[sid].parts)
    ensures EndsMixed(st, sid, ls)
  {
    hide Inv, Enabled, Apply, Voting, DoStartCommit, Mixed, AllLive;
    var parts, st0 := st.sessions[sid].parts, DoStartCommit(st, sid);
    var g, n := Gtx(sid, st.sessions[sid]), st.sessions[sid].attempt + 1;
    var a, b := TwoKeys(parts);
    IsStart(st, sid);
    StepKeeps(st, StartCommit(sid));
    StartVoting(st, sid);
    var l := SetClients(st.tablets.Keys);
    IsSetClients(st0, st.tablets.Keys) by { StartKeepsTablets(st, sid); }
    Exec1(st0, l);
    var st1 := Exec(st0, [l]);
    var votes := VoteAll(st1, sid, g, n, parts, parts.Keys);
    ExecAppend(st0, [l], votes);
    ExecKeeps(st0, [l] + votes);
    var st2 := Exec(st1, votes);
    var rest := CommitOneReapOther(st2, sid, g, n, parts, a, b);
    ExecAppend(st0, [l] + votes, rest);
    ls := [l] + votes + rest;
  }

  lemma StartKeepsTablets(st: State, sid: nat)
    requires CanStart(st, sid)
    ensures DoStartCommit(st, sid).tablets == st.tablets
  {
  }

  lemma TwoKeys(parts: map<Addr, nat>) returns (a: Addr, b: Addr)
    requires |parts| >= 2
    ensures a in parts && b in parts && a != b
  {
    a :| a in parts;
    assert |parts.Keys - {a}| >= 1;
    b :| b in parts.Keys - {a};
  }

  lemma LiveUncommitted(st: State, sid: nat, g: GTx, n: nat, parts: map<Addr, nat>, a: Addr)
    requires Inv(st) && Voting(st, sid, g, n, parts, {}) && a in parts
    ensures Owned(st, a, parts[a], Gtx(sid, st.sessions[sid])) && st.tablets[a].locals[parts[a]].commits == []
    ensures parts[a] in st.tablets[a].live
  {
    hide Inv;
    PartsOwned(st, sid, a);
    TabletAt(st, a);
  }

  /** After the COMMIT started, the steps `ls` lead to a mixed end. */
  ghost predicate EndsMixed(st: State, sid: nat, ls: seq<Label>)
    requires CanStart(st, sid)
  {
    var s, st' := st.sessions[sid], DoStartCommit(st, sid);
    CanExec(st', ls) && Mixed(Exec(st', ls), s.parts, Gtx(sid, s), s.attempt + 1)
  }

  // ----- an attempt with a dead participant commits nowhere -----

  /** Participant `b` has ended and no vote of attempt `n` for it came back good. */
  ghost predicate Voteless(st: State, g: GTx, n: nat, b: Addr, id: nat) {
    && b in st.tablets && id != 0 && id in st.tablets[b].locals && id !in st.tablets[b].live
    && forall rid | IsSent(st, rid, Msg(g, n, b, PrepareReq(id))) && rid in st.replies :: !st.replies[rid].Okay?
  }

  lemma VotelessStep(st: State, l: Label, g: GTx, n: nat, b: Addr, id: nat)
    requires Inv(st) && Enabled(st, l) && Voteless(st, g, n, b, id)
    ensures Voteless(Apply(st, l), g, n, b, id)
  {
    hide Inv, Enabled, Apply;
    var st' := Apply(st, l);
    StepKeeps(st, l);
    InvBasic(st);
    assert Grows(st.tablets[b], st'.tablets[b]);
    if l.Deliver? {
      VotelessDeliver(st, l.rid, l.choice, g, n, b, id);
    } else {
      OnlyDeliverReplies(st, l);
    }
  }

  lemma VotelessDeliver(st: State, r: nat, c: Choice, g: GTx, n: nat, b: Addr, id: nat)
    requires BasicOk(st) && Enabled(st, Deliver(r, c)) && Voteless(st, g, n, b, id)
    ensures var st' := Apply(st, Deliver(r, c));
            forall rid | IsSent(st', rid, Msg(g, n, b, PrepareReq(id))) && rid in st'.replies :: !st'.replies[rid].Okay?
  {
  }

  lemma {:induction false} VotelessForever(st: State, ls: seq<Label>, g: GTx, n: nat, b: Addr, id: nat)
    requires Inv(st) && CanExec(st, ls) && Voteless(st, g, n, b, id)
    ensures Voteless(Exec(st, ls), g, n, b, id)
    decreases |ls|
  {
    hide Inv, Enabled, Apply, Voteless;
    if ls != [] {
      VotelessStep(st, ls[0], g, n, b, id);
      StepKeeps(st, ls[0]);
      VotelessForever(Apply(st, ls[0]), ls[1..], g, n, b, id);
    }
  }

  /** An attempt that never gets the vote of one of its participants commits nothing. */
  lemma VotelessCommitsNowhere(st: State, k: AttemptId, b: Addr, a: Addr, id: nat)
    requires Inv(st) && k in st.attempts && b in st.attempts[k].parts && |st.attempts[k].parts| >= 2
    requires Voteless(st, st.attempts[k].gtx, k.n, b, st.attempts[k].parts[b])
    ensures !CommittedBy(st, a, id, st.attempts[k].gtx, k.n)
  {
    hide Inv;
    AttemptAt(st, k);
    assert b !in st.attempts[k].prepared;
    if CommittedBy(st, a, id, st.attempts[k].gtx, k.n) {
      CommitDecided(st, st.attempts[k].gtx, a, id, k.n);
      assert false;
    }
  }

  /** When the COMMIT starts, no request of the new attempt has been sent. */
  lemma StartVoteless(st: State, sid: nat, b: Addr)
    requires Inv(st) && CanStart(st, sid) && b in st.sessions[sid].parts
    requires st.sessions[sid].parts[b] !in st.tablets[b].live
    ensures var s := st.sessions[sid];
            Voteless(DoStartCommit(st, sid), Gtx(sid, s), s.attempt + 1, b, s.parts[b])
  {
    hide Inv, Extends;
    PartsOwned(st, sid, b);
    var s, st' := st.sessions[sid], DoStartCommit(st, sid);
    CommitReplies(st, sid);
    hide DoStartCommit;
    forall rid | rid in st.sent && st.sent[rid].gtx.sid == sid ensures st.sent[rid].attempt <= s.attempt {
      MsgAt(st, rid);
    }
  }

  lemma StartAttempt(st: State, sid: nat)
    requires CanStart(st, sid)
    ensures var s, st' := st.sessions[sid], DoStartCommit(st, sid);
            var k := AttemptId(sid, s.attempt + 1);
            k in st'.attempts && st'.attempts[k].gtx == Gtx(sid, s) && st'.attempts[k].parts == s.parts
  {
  }

  /** With a participant that has already ended, an attempt over two or more commits nothing, ever. */
  lemma DeadCommitsNowhere(st: State, sid: nat, ls: seq<Label>, a: Addr, id: nat)
    requires Inv(st) && CanStart(st, sid) && |st.sessions[sid].parts| >= 2 && !AllLive(st, st.sessions[sid].parts)
    requires CanExec(DoStartCommit(st, sid), ls)
    ensures var s := st.sessions[sid];
            !CommittedBy(Exec(DoStartCommit(st, sid), ls), a, id, Gtx(sid, s), s.attempt + 1)
  {
    hide Inv, Enabled, Apply, DoStartCommit, Extends, Voteless, CommittedBy;
    var s, st0 := st.sessions[sid], DoStartCommit(st, sid);
    var g, n := Gtx(sid, s), s.attempt + 1;
    IsStart(st, sid);
    StepKeeps(st, StartCommit(sid));
    ExecKeeps(st0, ls);
    var st1 := Exec(st0, ls);
    var c := DeadOne(st, sid);
    StartVoteless(st, sid, c);
    VotelessForever(st0, ls, g, n, c, s.parts[c]);
    StartAttempt(st, sid);
    AttemptKept(st0, st1, AttemptId(sid, n));
    VotelessCommitsNowhere(st1, AttemptId(sid, n), c, a, id);
  }

  /** No local commit was caused by attempt `n` of `g`. */
  ghost predicate CommitsNowhere(st: State, g: GTx, n: nat) {
    forall a, id :: !CommittedBy(st, a, id, g, n)
  }

  /** With a participant that has ended, or with fewer than two, the attempt is all or nothing; with two or
      more it is nothing. */
  lemma NeverMixed(st: State, sid: nat, ls: seq<Label>)
    requires Inv(st) && CanStart(st, sid) && (|st.sessions[sid].parts| < 2 || !AllLive(st, st.sessions[sid].parts))
    ensures !EndsMixed(st, sid, ls)
    ensures |st.sessions[sid].parts| >= 2 && CanExec(DoStartCommit(st, sid), ls) ==>
              CommitsNowhere(Exec(DoStartCommit(st, sid), ls), Gtx(sid, st.sessions[sid]), st.sessions[sid].attempt + 1)
  {
    hide Inv, Enabled, Apply, DoStartCommit, Extends;
    var s, st0 := st.sessions[sid], DoStartCommit(st, sid);
    var g, n := Gtx(sid, s), s.attempt + 1;
    if CanExec(st0, ls) {
      var st1 := Exec(st0, ls);
      if |s.parts| >= 2 {
        forall a, id ensures !CommittedBy(st1, a, id, g, n) { DeadCommitsNowhere(st, sid, ls, a, id); }
      } else if EndsMixed(st, sid, ls) {
        IsStart(st, sid);
        StepKeeps(st, StartCommit(sid));
        ExecKeeps(st0, ls);
        var a, b :| a in s.parts && b in s.parts && CommittedBy(st1, a, s.parts[a], g, n)
                      && IsAborted(st1, b, s.parts[b]);
        TabletAt(st1, a);
        SameKey(s.parts, a, b);
        assert false;
      }
    }
  }

  lemma SameKey(parts: map<Addr, nat>, a: Addr, b: Addr)
    requires a in parts && b in parts && |parts| < 2
    ensures a == b
  {
    var rest := parts.Keys - {a};
    assert |rest| == 0;
  }

  lemma DeadOne(st: State, sid: nat) returns (c: Addr)
    requires Inv(st) && sid in st.sessions && !AllLive(st, st.sessions[sid].parts)
    ensures c in st.sessions[sid].parts && c in st.tablets && st.sessions[sid].parts[c] !in st.tablets[c].live
  {
    hide Inv;
    var parts := st.sessions[sid].parts;
    c :| c in parts && !(c in st.tablets && parts[c] in st.tablets[c].live && parts[c] in st.tablets[c].locals);
    PartsOwned(st, sid, c);
  }

  /** A COMMIT about to start can end mixed exactly if it has two or more participants and all of their
      local transactions are live. */
  lemma MixedIff(st: State, sid: nat)
    requires Inv(st) && CanStart(st, sid)
    ensures (exists ls :: EndsMixed(st, sid, ls))
       <==> |st.sessions[sid].parts| >= 2 && AllLive(st, st.sessions[sid].parts)
  {
    hide Inv, EndsMixed, AllLive;
    if |st.sessions[sid].parts| >= 2 && AllLive(st, st.sessions[sid].parts) {
      var ls := MixedOutcomeReachable(st, sid);
    } else {
      forall ls ensures !EndsMixed(st, sid, ls) { NeverMixed(st, sid, ls); }
    }
  }

  // ----- a scatter to nobody -----

  /** The statement is answered ExecOk although it was sent to no tablet at all. */
  lemma NobodyAnswers(st: State, sid: nat, stmt: Stmt) returns (ls: seq<Label>)
    requires CanStart(st, sid)
    ensures CanExec(st, ls)
    ensures var s, s' := st.sessions[sid], st.sessions[sid].(ran := st.sessions[sid].ran + [Ran(stmt, [])]);
            Exec(st, ls) == Put(st, sid, s').(told := st.told + [Told(Gtx(sid, s), s.attempt, ExecOk, s.parts, s'.ran)])
  {
    hide Enabled, Apply;
    var job, s := Job(stmt, [], true), st.sessions[sid];
    var l1, l2 := StartExecute(sid, job), Advance(sid, true);
    IsExecute(st, sid, job);
    Exec1(st, l1);
    var st1 := DoStartExecute(st, sid, job);
    IsAdvance(st1, sid, true);
    ExecSnoc(st, [l1], l2);
    var st2 := Moved(st1, sid, true);
    IsAdvance(st2, sid, true);
    ExecSnoc(st, [l1] + [l2], l2);
    ls := [l1] + [l2] + [l2];
    assert Moved(st2, sid, true).sessions == st.sessions[sid := s.(ran := s.ran + [Ran(stmt, [])])];
  }

  /** From every state in which a session without participants can start an operation: a statement that
      is scattered while no primary can be reached is answered as a success, so is the COMMIT that
      follows, and no tablet has seen anything. So in `CommitIsTruthful` a statement without targets
      is one that ran nowhere. */
  lemma ScatterToNobody(st: State, sid: nat, stmt: Stmt) returns (ls: seq<Label>)
    requires CanStart(st, sid) && st.sessions[sid].parts == map[]
    ensures CanExec(st, ls)
    ensures var st', g := Exec(st, ls), Gtx(sid, st.sessions[sid]); var n := |st.told|;
            && st'.tablets == st.tablets && st'.sent == st.sent && |st'.told| == n + 2
            && st'.told[n].gtx == g && st'.told[n].verdict.ExecOk? && Ran(stmt, []) in st'.told[n].ran
            && st'.told[n + 1].gtx == g && st'.told[n + 1].verdict.CommitOk? && Ran(stmt, []) in st'.told[n + 1].ran
  {
    hide Enabled, Apply;
    var ls1 := NobodyAnswers(st, sid, stmt);
    var st1 := Exec(st, ls1);
    IsStart(st1, sid);
    ExecSnoc(st, ls1, StartCommit(sid));
    ls := ls1 + [StartCommit(sid)];
  }
}
