/** What the protocol guarantees over whole runs. */
module ProtocolTheorems {
  import opened Tablets
  import opened Protocol
  import opened ProtocolInvariant
  import opened ProtocolSteps
  import opened ProtocolEffects

  // ----- prepare before commit -----

  /** In every state of every run, a commit that took effect belongs to a recorded attempt of the
      owning gate transaction. With two or more participants, each of them has by then answered
      Prepared to a request of that very attempt, and none refused, timed out or lacked a client. */
  lemma PrepareBeforeCommit(ss: seq<State>, ls: seq<Label>, i: nat, a: Addr, id: nat) returns (n: nat)
    requires IsRun(ss, ls) && i <= |ls|
    requires a in ss[i].tablets && id in ss[i].tablets[a].locals && ss[i].tablets[a].locals[id].commits != []
    ensures var g := ss[i].tablets[a].locals[id].owner; var k := AttemptId(g.sid, n);
            && CommittedBy(ss[i], a, id, g, n)
            && k in ss[i].attempts && ss[i].attempts[k].gtx == g
            && a in ss[i].attempts[k].parts && ss[i].attempts[k].parts[a] == id
            && (|ss[i].attempts[k].parts| >= 2 ==>
                  && ss[i].attempts[k].refused == {}
                  && forall b | b in ss[i].attempts[k].parts ::
                       && b in ss[i].attempts[k].prepared
                       && PreparedBy(ss[i], b, ss[i].attempts[k].parts[b], g, n, ss[i].attempts[k].prepared[b]))
  {
    var st := ss[i];
    hide Inv, Enabled, Apply, Init;
    RunInv(ss, ls, i);
    TabletAt(st, a);
    var l := st.tablets[a].locals[id];
    n :| CommittedBy(st, a, id, l.owner, n);
    MsgAt(st, l.commits[0]);
    AttemptAt(st, AttemptId(l.owner.sid, n));
  }

  /** One refusal, timeout or missing client during the votes, and that attempt commits nowhere: not
      now and not in any later state of the run. */
  lemma RefusalCommitsNowhere(ss: seq<State>, ls: seq<Label>, i: nat, j: nat, k: AttemptId, a: Addr, id: nat)
    requires IsRun(ss, ls) && i <= j <= |ls|
    requires k in ss[i].attempts && ss[i].attempts[k].refused != {}
    requires |ss[i].attempts[k].parts| >= 2
    ensures !CommittedBy(ss[j], a, id, ss[i].attempts[k].gtx, k.n)
  {
    hide Inv, Enabled, Apply, Init, Extends;
    RunInv(ss, ls, i);
    RunInv(ss, ls, j);
    RunExtends(ss, ls, i, j);
    AttemptKept(ss[i], ss[j], k);
    AttemptAt(ss[i], k);
    if CommittedBy(ss[j], a, id, ss[i].attempts[k].gtx, k.n) {
      MsgAt(ss[j], ss[j].tablets[a].locals[id].commits[0]);
      AttemptAt(ss[j], k);
    }
  }

  lemma AttemptKept(st: State, st': State, k: AttemptId)
    requires Extends(st, st') && k in st.attempts
    ensures k in st'.attempts && AttemptGrows(st.attempts[k], st'.attempts[k])
  {
  }

  // ----- poisoned transactions stay poisoned -----

  ghost predicate NoSuccess(st: State, g: GTx) {
    forall t | t in st.told :: t.gtx == g ==> !t.verdict.CommitOk?
  }

  /** Participant `a` of the open gate transaction `g` has ended, and not through the commit that the
      coordinator is waiting for right now. */
  ghost predicate Poisoned(st: State, g: GTx, a: Addr, id: nat) {
    && g.sid in st.sessions && a in st.tablets
    && var s := st.sessions[g.sid];
    && s.epoch == g.epoch && s.state.InTransaction? && a in s.parts && s.parts[a] == id
    && id !in st.tablets[a].live
    && (IsCommitting(s.pc) ==> !CommittedBy(st, a, id, g, s.attempt))
  }

  ghost predicate Doomed(st: State, g: GTx, a: Addr, id: nat) {
    NoSuccess(st, g) && (Closed(st, g) || Poisoned(st, g, a, id))
  }

  /** A commit by the attempt under way cannot be older than the attempt's own commit phase. */
  lemma NotCommittedYet(st: State, st': State, g: GTx, a: Addr, id: nat)
    requires Inv(st) && Extends(st, st') && Poisoned(st, g, a, id)
    requires g.sid in st'.sessions && Evolves(st.sessions[g.sid], st'.sessions[g.sid])
    requires IsCommitting(st'.sessions[g.sid].pc)
    ensures !CommittedBy(st', a, id, g, st'.sessions[g.sid].attempt)
  {
    hide Inv, BasicOk, Extends;
    var n := st'.sessions[g.sid].attempt;
    if CommittedBy(st', a, id, g, n) {
      EndedKeepsCommit(st, st', g, a, id, n);
      assert CommittedBy(st, a, id, g, n);
      CommitDecided(st, g, a, id, n);
      InvBasic(st);
      NewAttempt(st, g.sid);
      if IsPreparing(st.sessions[g.sid].pc) { PreparingUndecided(st, g.sid); }
      assert false;
    }
  }

  lemma EndedKeepsCommit(st: State, st': State, g: GTx, a: Addr, id: nat, n: nat)
    requires Inv(st) && Extends(st, st') && Poisoned(st, g, a, id) && CommittedBy(st', a, id, g, n)
    ensures CommittedBy(st, a, id, g, n)
  {
    hide Inv;
    PartsOwned(st, g.sid, a);
    TabletAt(st, a);
    assert Grows(st.tablets[a], st'.tablets[a]);
    var m :| CommittedBy(st, a, id, g, m);
  }

  lemma CommitDecided(st: State, g: GTx, a: Addr, id: nat, n: nat)
    requires Inv(st) && CommittedBy(st, a, id, g, n)
    ensures var k := AttemptId(g.sid, n); k in st.attempts && st.attempts[k].decided
  {
    hide Inv;
    MsgAt(st, st.tablets[a].locals[id].commits[0]);
  }

  lemma PreparingUndecided(st: State, sid: nat)
    requires Inv(st) && sid in st.sessions && IsPreparing(st.sessions[sid].pc)
    ensures var k := AttemptId(sid, st.sessions[sid].attempt); k in st.attempts && !st.attempts[k].decided
  {
    hide Inv, BasicOk, IdleOk;
    SessionAt(st, sid);
  }

  lemma PoisonedStep(st: State, l: Label, g: GTx, a: Addr, id: nat)
    requires Inv(st) && Enabled(st, l) && Poisoned(st, g, a, id)
    ensures Closed(Apply(st, l), g) || Poisoned(Apply(st, l), g, a, id)
  {
    hide Inv, Enabled, Apply, Extends;
    var st' := Apply(st, l);
    StepKeeps(st, l);
    StepEvolves(st, l, g.sid);
    assert a in st'.tablets && id !in st'.tablets[a].live by { StaysEnded(st, st', a, id, g); }
    if IsCommitting(st'.sessions[g.sid].pc) {
      NotCommittedYet(st, st', g, a, id);
    }
  }

  lemma StaysEnded(st: State, st': State, a: Addr, id: nat, g: GTx)
    requires Inv(st) && Extends(st, st') && Poisoned(st, g, a, id)
    ensures a in st'.tablets && id !in st'.tablets[a].live
  {
    hide Inv, BasicOk, PcOk;
    SessionAt(st, g.sid);
    assert Grows(st.tablets[a], st'.tablets[a]);
  }

  lemma StepEvolves(st: State, l: Label, sid: nat)
    requires Inv(st) && Enabled(st, l) && sid in st.sessions && st.sessions[sid].state.InTransaction?
    ensures sid in Apply(st, l).sessions && Evolves(st.sessions[sid], Apply(st, l).sessions[sid])
  {
    hide Inv, Enabled, Apply;
    StepActs(st, l);
    var st' := Apply(st, l);
    if !Silent(st, st') {
      var o :| Acts(st, st', o);
      assert sid == o || st'.sessions[sid] == st.sessions[sid];
    }
  }

  /** Who is told that a COMMIT succeeded had all its participants committed by that attempt. */
  lemma SuccessNotPoisoned(st: State, l: Label, g: GTx, a: Addr, id: nat)
    requires Inv(st) && Enabled(st, l) && NoSuccess(st, g) && (Closed(st, g) || Poisoned(st, g, a, id))
    ensures NoSuccess(Apply(st, l), g)
  {
    hide Inv, Enabled, Apply;
    StepActs(st, l);
    var st' := Apply(st, l);
    if !Silent(st, st') {
      var o :| Acts(st, st', o);
      if st'.told != st.told {
        var v :| Speaks(st, st', o, v);
        if Gtx(o, st.sessions[o]) == g && v.CommitOk? {
          CommittingParts(st, o, a);
          assert false;
        }
      }
    }
  }

  lemma CommittingParts(st: State, sid: nat, a: Addr)
    requires Inv(st) && sid in st.sessions && IsCommitting(st.sessions[sid].pc) && AllOk(st.sessions[sid].pc.calls)
    ensures var s := st.sessions[sid]; a in s.parts ==> CommittedBy(st, a, s.parts[a], Gtx(sid, s), s.attempt)
  {
    hide Inv, BasicOk, IdleOk, CommittedBy;
    SessionAt(st, sid);
    var s := st.sessions[sid];
    if a in s.parts {
      assert s.pc.calls[a] == Done(true);
    }
  }

  lemma DoomedStays(ss: seq<State>, ls: seq<Label>, i: nat, j: nat, g: GTx, a: Addr, id: nat)
    requires IsRun(ss, ls) && i <= j <= |ls| && Doomed(ss[i], g, a, id)
    ensures Doomed(ss[j], g, a, id)
    decreases j - i
  {
    hide Inv, Enabled, Apply, Poisoned, NoSuccess, Closed, Extends;
    if i < j {
      DoomedStays(ss, ls, i, j - 1, g, a, id);
      RunInv(ss, ls, j - 1);
      SuccessNotPoisoned(ss[j - 1], ls[j - 1], g, a, id);
      if Closed(ss[j - 1], g) {
        StepKeeps(ss[j - 1], ls[j - 1]);
        ClosedGrows(ss[j - 1], ss[j], g);
      } else {
        PoisonedStep(ss[j - 1], ls[j - 1], g, a, id);
      }
    }
  }

  /** An open gate transaction has not been told of a success. */
  lemma OpenNoSuccess(st: State, sid: nat)
    requires Inv(st) && sid in st.sessions && st.sessions[sid].state.InTransaction?
    ensures NoSuccess(st, Gtx(sid, st.sessions[sid]))
  {
    hide BasicOk, TabletsOk, MsgsOk, RepliesOk, AttemptsOk, SessionsOk, CommittedBy, RanInside;
  }

  /** Once a participant's local transaction has ended other than by the commit of the attempt under way
      (reaped, rolled back, or consumed by an earlier attempt; before, between or after the votes), no
      COMMIT of that gate transaction ever reports success. */
  lemma PoisonedStaysPoisoned(ss: seq<State>, ls: seq<Label>, i: nat, j: nat, g: GTx, a: Addr, id: nat, t: Told)
    requires IsRun(ss, ls) && i <= j <= |ls| && Poisoned(ss[i], g, a, id)
    requires t in ss[j].told && t.gtx == g
    ensures !t.verdict.CommitOk?
  {
    hide Inv, Enabled, Apply, Init;
    RunInv(ss, ls, i);
    OpenNoSuccess(ss[i], g.sid);
    DoomedStays(ss, ls, i, j, g, a, id);
  }

  // ----- a successful COMMIT is truthful -----

  /** Later answers to a gate transaction know of every earlier success. */
  ghost predicate SuccessesKept(st: State) {
    forall i | 0 <= i < |st.told| ::
      var t := st.told[i];
      && t.gtx.sid in st.sessions && t.gtx.epoch <= st.sessions[t.gtx.sid].epoch
      && (st.sessions[t.gtx.sid].epoch == t.gtx.epoch && st.sessions[t.gtx.sid].state.InTransaction? ==>
            t.ran <= st.sessions[t.gtx.sid].ran)
      && forall j | i < j < |st.told| && st.told[j].gtx == t.gtx :: t.ran <= st.told[j].ran
  }

  lemma SuccessesStep(st: State, l: Label)
    requires Inv(st) && Enabled(st, l) && SuccessesKept(st)
    ensures SuccessesKept(Apply(st, l))
  {
    hide Inv, Enabled, Apply;
    StepKeeps(st, l);
    StepActs(st, l);
    var st' := Apply(st, l);
    forall i | 0 <= i < |st.told| ensures ToldKept(st', st.told[i]) {
      ToldKeptStep(st, l, st.told[i]);
    }
    if !Silent(st, st') {
      var o :| Acts(st, st', o);
      if st'.told != st.told {
        var v :| Speaks(st, st', o, v);
        assert st'.told[|st.told|].ran == st'.sessions[o].ran;
      }
    }
  }

  ghost predicate ToldKept(st: State, t: Told) {
    && t.gtx.sid in st.sessions && t.gtx.epoch <= st.sessions[t.gtx.sid].epoch
    && (st.sessions[t.gtx.sid].epoch == t.gtx.epoch && st.sessions[t.gtx.sid].state.InTransaction? ==>
          t.ran <= st.sessions[t.gtx.sid].ran)
  }

  lemma ToldKeptStep(st: State, l: Label, t: Told)
    requires Inv(st) && Enabled(st, l) && ToldKept(st, t)
    ensures ToldKept(Apply(st, l), t)
  {
    hide Inv, Enabled, Apply;
    var sid := t.gtx.sid;
    StepKeeps(st, l);
    assert SessionGrows(st.sessions[sid], Apply(st, l).sessions[sid]);
    if st.sessions[sid].state.InTransaction? {
      StepEvolves(st, l, sid);
    }
  }

  lemma RunSuccessesKept(ss: seq<State>, ls: seq<Label>, i: nat)
    requires IsRun(ss, ls) && i <= |ls|
    ensures SuccessesKept(ss[i])
  {
    hide Inv, Enabled, Apply, SuccessesKept;
    if i == 0 {
      NothingTold(ss[0]);
    } else {
      RunSuccessesKept(ss, ls, i - 1);
      RunInv(ss, ls, i - 1);
      SuccessesStep(ss[i - 1], ls[i - 1]);
    }
  }

  lemma NothingTold(st: State)
    requires Init(st)
    ensures SuccessesKept(st)
  {
  }

  /** A client that was told a COMMIT succeeded can rely on it, then and in every later state: each
      participant's local transaction was committed exactly once, by that attempt, and every
      statement answered successfully before it in the same gate transaction ran, on each of its
      targets, inside one of them. A statement without targets ran nowhere: `ScatterToNobody` shows
      that it can be answered successfully all the same. */
  lemma CommitIsTruthful(ss: seq<State>, ls: seq<Label>, i: nat, x: nat, y: nat)
    requires IsRun(ss, ls) && i <= |ls| && x <= y < |ss[i].told|
    requires ss[i].told[x].gtx == ss[i].told[y].gtx && ss[i].told[y].verdict.CommitOk?
    ensures var t := ss[i].told[y];
            && (forall a | a in t.parts :: CommittedBy(ss[i], a, t.parts[a], t.gtx, t.attempt))
            && forall q, a | q in ss[i].told[x].ran && a in q.targets ::
                 && a in t.parts && CommittedBy(ss[i], a, t.parts[a], t.gtx, t.attempt)
                 && RanIn(ss[i], a, t.parts[a], q.stmt)
    ensures forall q | q in ss[i].told[x].ran :: RanOnTarget(ss[i], ss[i].told[y].parts, q) <==> q.targets != []
  {
    hide Inv, Enabled, Apply, Init, CommittedBy, RanIn;
    RunInv(ss, ls, i);
    RunSuccessesKept(ss, ls, i);
    var t := ss[i].told[y];
    ToldAt(ss[i], t);
    assert ss[i].told[x].ran <= t.ran;
    forall q, a | q in ss[i].told[x].ran && a in q.targets
      ensures && a in t.parts && CommittedBy(ss[i], a, t.parts[a], t.gtx, t.attempt)
              && RanIn(ss[i], a, t.parts[a], q.stmt)
    {
      assert q in t.ran;
      assert RanInside(ss[i], t.parts, q);
    }
    forall q | q in ss[i].told[x].ran ensures RanOnTarget(ss[i], t.parts, q) <==> q.targets != [] {
      assert q in t.ran;
      RanSomewhereIff(ss[i], t.parts, q);
    }
  }

  lemma ToldAt(st: State, t: Told)
    requires Inv(st) && t in st.told
    ensures ToldOk(st, t)
  {
    hide BasicOk, TabletsOk, MsgsOk, RepliesOk, AttemptsOk, SessionsOk, ToldOk;
  }

  // ----- isolation -----

  /** A local transaction belongs to at most one gate transaction, over the whole run, and no request of a
      gate transaction ever runs outside the local transaction it owns: every data, prepare, commit and
      rollback request names a nonzero id begun for its own gate transaction, and nothing ran in
      autocommit. */
  lemma LocalsAreIsolated(ss: seq<State>, ls: seq<Label>, i: nat, j: nat)
    requires IsRun(ss, ls) && i <= j <= |ls|
    ensures forall x, y, a | Names(ss[i], x, a) && Names(ss[j], y, a) &&
                             ss[i].sessions[x].parts[a] == ss[j].sessions[y].parts[a] ::
              Gtx(x, ss[i].sessions[x]) == Gtx(y, ss[j].sessions[y])
    ensures forall rid | rid in ss[j].sent && !ss[j].sent[rid].body.BeginReq? ::
              var m := ss[j].sent[rid]; Owned(ss[j], m.addr, m.body.id, m.gtx)
    ensures forall a | a in ss[j].tablets :: ss[j].tablets[a].auto == []
  {
    hide Inv, Enabled, Apply, Init, Extends, Owned;
    var was, st := ss[i], ss[j];
    RunInv(ss, ls, i);
    RunInv(ss, ls, j);
    RunExtends(ss, ls, i, j);
    forall x, y, a | Names(was, x, a) && Names(st, y, a) && was.sessions[x].parts[a] == st.sessions[y].parts[a]
      ensures Gtx(x, was.sessions[x]) == Gtx(y, st.sessions[y])
    {
      var id := was.sessions[x].parts[a];
      PartsOwned(was, x, a);
      OwnedGrows(was, st, a, id, Gtx(x, was.sessions[x]));
      PartsOwned(st, y, a);
      OneOwner(st, a, id, Gtx(x, was.sessions[x]), Gtx(y, st.sessions[y]));
    }
    forall rid | rid in st.sent && !st.sent[rid].body.BeginReq?
      ensures var m := st.sent[rid]; Owned(st, m.addr, m.body.id, m.gtx)
    {
      MsgAt(st, rid);
    }
    forall a | a in st.tablets ensures st.tablets[a].auto == [] {
      TabletAt(st, a);
    }
  }

  /** Session `sid` has a participant at `a`. */
  ghost predicate Names(st: State, sid: nat, a: Addr) {
    sid in st.sessions && a in st.sessions[sid].parts
  }

  lemma OneOwner(st: State, a: Addr, id: nat, g: GTx, h: GTx)
    requires Owned(st, a, id, g) && Owned(st, a, id, h)
    ensures g == h
  {
  }

  lemma PartsOwned(st: State, sid: nat, a: Addr)
    requires Inv(st) && sid in st.sessions && a in st.sessions[sid].parts
    ensures Owned(st, a, st.sessions[sid].parts[a], Gtx(sid, st.sessions[sid]))
  {
    hide Inv, BasicOk, PcOk;
    SessionAt(st, sid);
  }

  // ----- rollback is final -----

  /** No COMMIT attempt of `g` went on to send commits. */
  ghost predicate NoneDecided(st: State, g: GTx) {
    forall k | k in st.attempts && st.attempts[k].gtx == g :: !st.attempts[k].decided
  }

  /** A closed gate transaction decides no further COMMIT attempt. */
  lemma ClosedDecidesNothing(st: State, l: Label, g: GTx)
    requires Inv(st) && Enabled(st, l) && Closed(st, g) && NoneDecided(st, g)
    ensures NoneDecided(Apply(st, l), g)
  {
    hide Inv, Serve, Resolve, Moved, DoMiss, DoStartCommit, CanAdvance, NoneDecided;
    match l
    case Receive(sid, a) => ResolveAttempts(st, sid, a, st.replies[CallOf(st.sessions[sid].pc, a).rid], g);
    case GiveUp(sid, a) => ResolveAttempts(st, sid, a, Refused, g);
    case NoClient(sid, a) => MissAttempts(st, sid, a, g);
    case Advance(sid, mergeOk) =>
      if IsPreparing(st.sessions[sid].pc) { PreparingOwn(st, sid); }
      MovedAttempts(st, sid, mergeOk, g);
    case StartCommit(sid) => StartAttempts(st, sid, g);
    case _ => SameAttempts(st, Apply(st, l), g);
  }

  lemma SameAttempts(st: State, st': State, g: GTx)
    requires st'.attempts == st.attempts && NoneDecided(st, g)
    ensures NoneDecided(st', g)
  {
  }

  lemma ResolveAttempts(st: State, sid: nat, a: Addr, r: Reply, g: GTx)
    requires sid in st.sessions && HasCall(st.sessions[sid].pc, a) && NoneDecided(st, g)
    ensures NoneDecided(Resolve(st, sid, a, r), g)
  {
  }

  lemma MissAttempts(st: State, sid: nat, a: Addr, g: GTx)
    requires CanMiss(st, sid, a) && NoneDecided(st, g)
    ensures NoneDecided(DoMiss(st, sid, a), g)
  {
    hide Resolve;
    ResolveAttempts(st, sid, a, Refused, g);
  }

  /** The votes under way belong to the session's current gate transaction. */
  lemma PreparingOwn(st: State, sid: nat)
    requires Inv(st) && sid in st.sessions && IsPreparing(st.sessions[sid].pc)
    ensures var k := AttemptId(sid, st.sessions[sid].attempt);
            k in st.attempts && st.attempts[k].gtx == Gtx(sid, st.sessions[sid])
              && st.sessions[sid].state.InTransaction?
  {
    hide Inv, BasicOk;
    SessionAt(st, sid);
  }

  lemma MovedAttempts(st: State, sid: nat, mergeOk: bool, g: GTx)
    requires sid in st.sessions && NoneDecided(st, g)
    requires var k := AttemptId(sid, st.sessions[sid].attempt);
             IsPreparing(st.sessions[sid].pc) ==> k in st.attempts && st.attempts[k].gtx != g
    ensures NoneDecided(Moved(st, sid, mergeOk), g)
  {
    hide AllOk, NoneDecided, Fresh, Put, Tell;
    var k := AttemptId(sid, st.sessions[sid].attempt);
    PutAttempts(st, sid);
    PutAttempts(Decided(st, k), sid);
    match st.sessions[sid].pc
    case FanOut(PrepareAll, calls) =>
      DecidedAttempts(st, k, g);
      SameAttempts(if AllOk(calls) then Decided(st, k) else st, Moved(st, sid, mergeOk), g);
    case _ => SameAttempts(st, Moved(st, sid, mergeOk), g);
  }

  lemma PutAttempts(st: State, sid: nat)
    ensures forall s :: Put(st, sid, s).attempts == st.attempts
    ensures sid in st.sessions ==> forall s, v :: Tell(st, sid, s, v).attempts == st.attempts
  {
  }

  lemma DecidedAttempts(st: State, k: AttemptId, g: GTx)
    requires NoneDecided(st, g) && k in st.attempts && st.attempts[k].gtx != g
    ensures NoneDecided(Decided(st, k), g)
  {
  }

  lemma StartAttempts(st: State, sid: nat, g: GTx)
    requires CanStart(st, sid) && NoneDecided(st, g) && Closed(st, g)
    ensures NoneDecided(DoStartCommit(st, sid), g)
  {
  }

  lemma StaysUndecided(ss: seq<State>, ls: seq<Label>, i: nat, j: nat, g: GTx)
    requires IsRun(ss, ls) && i <= j <= |ls| && Closed(ss[i], g) && NoneDecided(ss[i], g)
    ensures NoneDecided(ss[j], g)
    decreases j - i
  {
    hide Inv, Enabled, Apply, NoneDecided, Closed, Extends;
    if i < j {
      StaysUndecided(ss, ls, i, j - 1, g);
      RunInv(ss, ls, j - 1);
      RunExtends(ss, ls, i, j - 1);
      ClosedGrows(ss[i], ss[j - 1], g);
      ClosedDecidesNothing(ss[j - 1], ls[j - 1], g);
    }
  }

  /** A gate transaction that was rolled back before any COMMIT attempt of it was decided (there was
      none, or all were refused at the votes) stays rolled back: none of the local transactions begun
      for it is ever committed, whether or not its rollback arrived, and whether or not the gate ever
      learned its id. `RollbackOvertakenIff` gives the exact condition for all rollbacks. */
  lemma RollbackIsFinal(ss: seq<State>, ls: seq<Label>, i: nat, j: nat, g: GTx, a: Addr, id: nat)
    requires IsRun(ss, ls) && i <= j <= |ls|
    requires exists t :: t in ss[i].told && t.gtx == g && t.verdict.RollbackOk?
    requires NoneDecided(ss[i], g)
    requires Owned(ss[j], a, id, g)
    ensures ss[j].tablets[a].locals[id].commits == []
  {
    hide Inv, Enabled, Apply, Init;
    var t :| t in ss[i].told && t.gtx == g && t.verdict.RollbackOk?;
    RunInv(ss, ls, i);
    ToldAt(ss[i], t);
    StaysUndecided(ss, ls, i, j, g);
    if ss[j].tablets[a].locals[id].commits != [] {
      RunInv(ss, ls, j);
      var n := PrepareBeforeCommit(ss, ls, j, a, id);
      CommitDecided(ss[j], g, a, id, n);
      assert false;
    }
  }

  // ----- operation boundaries -----

  /** A session that is not in a transaction has no participants, so reopening it forgets nothing;
      session ids are handed out once. */
  lemma ReopeningForgetsNothing(ss: seq<State>, ls: seq<Label>, i: nat)
    requires IsRun(ss, ls) && i <= |ls|
    ensures forall sid | sid in ss[i].sessions && !ss[i].sessions[sid].state.InTransaction? ::
              ss[i].sessions[sid].parts == map[] && ss[i].sessions[sid].pc.Quiet?
    ensures ss[i].nextSid + 1 !in ss[i].sessions
  {
    hide Inv, Enabled, Apply, Init, PcOk;
    RunInv(ss, ls, i);
    InvBasic(ss[i]);
    forall sid | sid in ss[i].sessions && !ss[i].sessions[sid].state.InTransaction?
      ensures ss[i].sessions[sid].parts == map[] && ss[i].sessions[sid].pc.Quiet?
    {
      SessionAt(ss[i], sid);
    }
  }
}
