/** The tablet's transaction manager, one lock operation or database call at a time.

    Every request is a thread; so is every rollback the idle reaper issues. Threads interleave freely.
    The table lookup, the per-transaction mutex, the pgx call, the removal from the table and the
    release of the pooled connection are separate steps. */
module TxManager {
  import opened Tablets

  datatype Holder = Nobody | HeldBy(rid: nat)

  /** The `transaction` struct with its connection: is the pgx handle open, who holds the mutex, is a
      call running on the connection, how often was the connection released. `creator`, `closer` and
      `remover` are the threads that began it, closed the handle and deleted the table entry. */
  datatype Tx = Tx(
    open: bool, holder: Holder, busy: bool, released: nat, creator: nat, closer: nat, remover: nat, local: Local)

  datatype Pc =
    | AtGet
    | AtInsert(id: nat)
    | AtLock
    | Holding
    | InCall
    | Returned(reply: Reply)
    | AtRemove(reply: Reply)
    | AtRelease(reply: Reply)
    | Answered(reply: Reply)

  datatype Thread = Thread(msg: Msg, pc: Pc)

  /** `txs` keeps every transaction ever created, `table` is the manager's map, `known` remembers the
      ids that were ever in it. */
  datatype Manager = Manager(
    txs: map<nat, Tx>, table: set<nat>, known: set<nat>, nextID: nat, threads: map<nat, Thread>,
    auto: seq<(GTx, Stmt)>)

  const Start := Manager(map[], {}, {}, 0, map[], [])

  predicate IsFinisher(m: Msg) {
    m.body.CommitReq? || m.body.RollbackReq?
  }

  /** A thread past the lookup works on the transaction its request names. */
  predicate OnTx(pc: Pc) {
    pc.AtLock? || pc.Holding? || pc.InCall? || pc.Returned? || pc.AtRemove? || pc.AtRelease?
  }

  function WithPc(m: Manager, rid: nat, pc: Pc): (m': Manager)
    requires rid in m.threads
  {
    m.(threads := m.threads[rid := m.threads[rid].(pc := pc)])
  }

  function WithTx(m: Manager, id: nat, t: Tx): (m': Manager) {
    m.(txs := m.txs[id := t])
  }

  /** A new request, or the reaper picking a transaction it saw as stale. */
  predicate CanArrive(m: Manager, rid: nat) {
    rid !in m.threads
  }

  function Arrive(m: Manager, rid: nat, msg: Msg): (m': Manager)
    requires CanArrive(m, rid)
  {
    m.(threads := m.threads[rid := Thread(msg, AtGet)])
  }

  /** A thread can move unless it has answered or waits for a mutex that is taken. */
  predicate CanMove(m: Manager, rid: nat) {
    && rid in m.threads
    && var t := m.threads[rid];
    && !t.pc.Answered?
    && (OnTx(t.pc) ==> !t.msg.body.BeginReq? && t.msg.body.id in m.txs)
    && (t.pc.AtInsert? ==> t.pc.id in m.txs)
    && (t.pc.AtLock? ==> m.txs[t.msg.body.id].holder.Nobody?)
  }

  /** The lookup, or for BEGIN the acquisition of a connection and a number. */
  function Lookup(m: Manager, rid: nat, c: Choice): (m': Manager)
    requires rid in m.threads
  {
    var msg := m.threads[rid].msg;
    match msg.body
    case BeginReq =>
      if c.ok then
        var id := m.nextID + 1;
        var tx := Tx(true, Nobody, false, 0, rid, 0, 0, Local(msg.gtx, [], [], false));
        WithPc(WithTx(m, id, tx), rid, AtInsert(id)).(nextID := id)
      else WithPc(m, rid, Answered(Refused))
    case ExecReq(id, stmt) =>
      if id == 0 then
        WithPc(if c.ok then m.(auto := m.auto + [(msg.gtx, stmt)]) else m, rid, Answered(Answer(c.ok)))
      else WithPc(m, rid, if id in m.table then AtLock else Answered(Refused))
    case _ =>
      if msg.body.id == 0 then WithPc(m, rid, Answered(Okay))
      else WithPc(m, rid, if msg.body.id in m.table then AtLock else Answered(Refused))
  }

  /** The pgx call returns: a statement stays in the open transaction, a finisher closes the handle
      whatever it returns. */
  function Return(t: Tx, rid: nat, msg: Msg, c: Choice): (r: (Tx, Reply)) {
    match msg.body
    case ExecReq(_, stmt) =>
      (if c.ok then t.(busy := false, local := t.local.(stmts := t.local.stmts + [stmt])) else t.(busy := false),
       Answer(c.ok))
    case CommitReq(_) =>
      var l := if c.applied then t.local.(commits := t.local.commits + [rid]) else t.local.(aborted := true);
      (t.(busy := false, open := false, closer := rid, local := l), Answer(c.applied && c.ok))
    case RollbackReq(_) =>
      (t.(busy := false, open := false, closer := rid, local := t.local.(aborted := true)), Answer(c.ok))
    case _ => (t.(busy := false), Answer(c.ok))
  }

  function Move(m: Manager, rid: nat, c: Choice): (m': Manager)
    requires CanMove(m, rid)
  {
    var t := m.threads[rid];
    match t.pc
    case AtGet => Lookup(m, rid, c)
    case AtInsert(id) => WithPc(m, rid, Answered(Begun(id))).(table := m.table + {id}, known := m.known + {id})
    case AtLock =>
      var id := t.msg.body.id;
      WithPc(WithTx(m, id, m.txs[id].(holder := HeldBy(rid))), rid, Holding)
    case Holding =>
      var id := t.msg.body.id;
      if m.txs[id].open then WithPc(WithTx(m, id, m.txs[id].(busy := true)), rid, InCall)
      else WithPc(m, rid, Returned(Refused))
    case InCall =>
      var id := t.msg.body.id;
      var (x, r) := Return(m.txs[id], rid, t.msg, c);
      WithPc(WithTx(m, id, x), rid, Returned(r))
    case Returned(r) =>
      var id := t.msg.body.id;
      WithPc(WithTx(m, id, m.txs[id].(holder := Nobody)), rid, if IsFinisher(t.msg) then AtRemove(r) else Answered(r))
    case AtRemove(r) =>
      var id := t.msg.body.id;
      if id in m.table
      then WithPc(WithTx(m, id, m.txs[id].(remover := rid)), rid, AtRelease(r)).(table := m.table - {id})
      else WithPc(m, rid, Answered(r))
    case AtRelease(r) =>
      var id := t.msg.body.id;
      WithPc(WithTx(m, id, m.txs[id].(released := m.txs[id].released + 1)), rid, Answered(r))
    case Answered(_) => m
  }

  // ----- what every interleaving keeps -----

  /** One transaction. Its connection is released at most once, only after the handle was closed and
      the entry removed, and never while a call runs on it; at most one finisher took effect. */
  ghost predicate TxOk(m: Manager, id: nat)
    requires id in m.txs
  {
    var t := m.txs[id];
    && 1 <= id <= m.nextID
    && |t.local.commits| <= 1 && (t.local.commits != [] ==> !t.local.aborted)
    && (t.open <==> t.local.commits == [] && !t.local.aborted)
    && t.released <= 1 && (t.released == 1 ==> !t.open && id !in m.table)
    && (t.busy ==> t.open && t.holder.HeldBy?)
    && (t.open && id in m.known ==> id in m.table)
    && (id !in m.known ==> t == Tx(true, Nobody, false, 0, t.creator, 0, 0, Local(t.local.owner, [], [], false)))
    && (id !in m.known ==> StillToInsert(m, t.creator, id))
    && (t.holder.HeldBy? ==> HoldsMutex(m, t.holder.rid, id))
    && (t.busy ==> m.threads[t.holder.rid].pc.InCall?)
    && (!t.open && id in m.table ==> StillToRemove(m, t.closer, id))
    && (!t.open && id !in m.table && t.released == 0 ==> StillToRelease(m, t.remover, id))
  }

  ghost predicate StillToInsert(m: Manager, rid: nat, id: nat) {
    rid in m.threads && m.threads[rid].pc == AtInsert(id)
  }

  ghost predicate WorksOn(m: Manager, rid: nat, id: nat) {
    && rid in m.threads && OnTx(m.threads[rid].pc)
    && !m.threads[rid].msg.body.BeginReq? && m.threads[rid].msg.body.id == id
  }

  ghost predicate HoldsMutex(m: Manager, rid: nat, id: nat) {
    WorksOn(m, rid, id) && (m.threads[rid].pc.Holding? || m.threads[rid].pc.InCall? || m.threads[rid].pc.Returned?)
  }

  ghost predicate StillToRemove(m: Manager, rid: nat, id: nat) {
    && WorksOn(m, rid, id) && IsFinisher(m.threads[rid].msg)
    && (m.threads[rid].pc.Returned? || m.threads[rid].pc.AtRemove?)
  }

  ghost predicate StillToRelease(m: Manager, rid: nat, id: nat) {
    WorksOn(m, rid, id) && m.threads[rid].pc.AtRelease?
  }

  ghost predicate ThreadOk(m: Manager, rid: nat)
    requires rid in m.threads
  {
    var t := m.threads[rid];
    match t.pc
    case AtGet => true
    case Answered(_) => true
    case AtInsert(id) =>
      t.msg.body.BeginReq? && id in m.txs && id !in m.known && m.txs[id].local.owner == t.msg.gtx
    case _ =>
      && !t.msg.body.BeginReq? && t.msg.body.id != 0 && t.msg.body.id in m.known && t.msg.body.id in m.txs
      && var x := m.txs[t.msg.body.id];
      && (t.pc.Holding? || t.pc.InCall? || t.pc.Returned? ==> x.holder == HeldBy(rid))
      && (t.pc.InCall? ==> x.busy)
      && (t.pc.Returned? && IsFinisher(t.msg) ==> !x.open)
      && (t.pc.AtRemove? ==> IsFinisher(t.msg) && !x.open)
      && (t.pc.AtRelease? ==> IsFinisher(t.msg) && !x.open && t.msg.body.id !in m.table)
      && (t.pc.AtRelease? ==> x.released == 0 && x.remover == rid)
  }

  /** Two BEGINs never hold the same number. */
  ghost predicate InsertsApart(m: Manager) {
    forall r1, r2 | && r1 in m.threads && r2 in m.threads && r1 != r2 && m.threads[r1].pc.AtInsert?
                    && m.threads[r2].pc.AtInsert? ::
      m.threads[r1].pc.id != m.threads[r2].pc.id
  }

  ghost predicate ManagerOk(m: Manager) {
    && m.table <= m.known && m.known <= m.txs.Keys
    && (forall id | id in m.txs :: TxOk(m, id))
    && (forall rid | rid in m.threads :: ThreadOk(m, rid))
    && InsertsApart(m)
  }

  /** A step of thread `rid` on transaction `id`: the rest of both maps stays. */
  ghost predicate OnlyOn(m: Manager, m': Manager, rid: nat, id: nat) {
    && rid in m.threads && rid in m'.threads && id in m.txs && id in m'.txs
    && WorksOn(m, rid, id) && m'.threads[rid].msg == m.threads[rid].msg
    && m'.threads == m.threads[rid := m'.threads[rid]] && m'.txs == m.txs[id := m'.txs[id]]
    && m'.nextID == m.nextID && m'.known == m.known && m'.table <= m.table && m.table - {id} <= m'.table
  }

  /** What the step has to show: its own transaction, its own thread, and that the threads working on
      the same transaction are not disturbed. */
  lemma OnlyOnKeeps(m: Manager, m': Manager, rid: nat, id: nat)
    requires ManagerOk(m) && OnlyOn(m, m', rid, id)
    requires TxOk(m', id) && ThreadOk(m', rid)
    requires forall r | r in m.threads && r != rid && WorksOn(m, r, id) :: ThreadOk(m', r)
    ensures ManagerOk(m')
  {
    forall o | o in m'.txs && o != id ensures TxOk(m', o) {
      assert TxOk(m, o);
    }
    forall r | r in m'.threads && r != rid && !WorksOn(m, r, id) ensures ThreadOk(m', r) {
      assert ThreadOk(m, r);
    }
  }

  lemma LockKeeps(m: Manager, rid: nat, c: Choice)
    requires ManagerOk(m) && CanMove(m, rid) && m.threads[rid].pc.AtLock?
    ensures ManagerOk(Move(m, rid, c))
  {
    var id, m' := m.threads[rid].msg.body.id, Move(m, rid, c);
    assert ThreadOk(m, rid) && TxOk(m, id);
    forall r | r in m.threads && r != rid && WorksOn(m, r, id) ensures ThreadOk(m', r) { assert ThreadOk(m, r); }
    OnlyOnKeeps(m, m', rid, id);
  }

  lemma HoldingKeeps(m: Manager, rid: nat, c: Choice)
    requires ManagerOk(m) && CanMove(m, rid) && m.threads[rid].pc.Holding?
    ensures ManagerOk(Move(m, rid, c))
  {
    var id, m' := m.threads[rid].msg.body.id, Move(m, rid, c);
    assert ThreadOk(m, rid) && TxOk(m, id);
    assert m.txs == m.txs[id := m.txs[id]];
    forall r | r in m.threads && r != rid && WorksOn(m, r, id) ensures ThreadOk(m', r) { assert ThreadOk(m, r); }
    OnlyOnKeeps(m, m', rid, id);
  }

  lemma InCallKeeps(m: Manager, rid: nat, c: Choice)
    requires ManagerOk(m) && CanMove(m, rid) && m.threads[rid].pc.InCall?
    ensures ManagerOk(Move(m, rid, c))
  {
    var id, m' := m.threads[rid].msg.body.id, Move(m, rid, c);
    assert ThreadOk(m, rid) && TxOk(m, id);
    forall r | r in m.threads && r != rid && WorksOn(m, r, id) ensures ThreadOk(m', r) { assert ThreadOk(m, r); }
    OnlyOnKeeps(m, m', rid, id);
  }

  lemma ReturnedKeeps(m: Manager, rid: nat, c: Choice)
    requires ManagerOk(m) && CanMove(m, rid) && m.threads[rid].pc.Returned?
    ensures ManagerOk(Move(m, rid, c))
  {
    var id, m' := m.threads[rid].msg.body.id, Move(m, rid, c);
    assert ThreadOk(m, rid) && TxOk(m, id);
    forall r | r in m.threads && r != rid && WorksOn(m, r, id) ensures ThreadOk(m', r) { assert ThreadOk(m, r); }
    OnlyOnKeeps(m, m', rid, id);
  }

  lemma RemoveKeeps(m: Manager, rid: nat, c: Choice)
    requires ManagerOk(m) && CanMove(m, rid) && m.threads[rid].pc.AtRemove?
    ensures ManagerOk(Move(m, rid, c))
  {
    var id, m' := m.threads[rid].msg.body.id, Move(m, rid, c);
    assert ThreadOk(m, rid) && TxOk(m, id);
    assert m.txs == m.txs[id := m.txs[id]];
    forall r | r in m.threads && r != rid && WorksOn(m, r, id) ensures ThreadOk(m', r) { assert ThreadOk(m, r); }
    OnlyOnKeeps(m, m', rid, id);
  }

  lemma ReleaseKeeps(m: Manager, rid: nat, c: Choice)
    requires ManagerOk(m) && CanMove(m, rid) && m.threads[rid].pc.AtRelease?
    ensures ManagerOk(Move(m, rid, c))
  {
    var id, m' := m.threads[rid].msg.body.id, Move(m, rid, c);
    assert ThreadOk(m, rid) && TxOk(m, id);
    forall r | r in m.threads && r != rid && WorksOn(m, r, id) ensures ThreadOk(m', r) { assert ThreadOk(m, r); }
    OnlyOnKeeps(m, m', rid, id);
  }

  lemma PcOnlyKeeps(m: Manager, m': Manager, rid: nat, pc: Pc)
    requires ManagerOk(m) && rid in m.threads && m.threads[rid].pc.AtGet?
    requires m' == WithPc(m, rid, pc).(auto := m'.auto)
    requires pc.Answered? ||
             (&& pc.AtLock? && !m.threads[rid].msg.body.BeginReq? && m.threads[rid].msg.body.id != 0
              && m.threads[rid].msg.body.id in m.table)
    ensures ManagerOk(m')
  {
    forall o | o in m.txs ensures TxOk(m', o) { assert TxOk(m, o); }
    forall r | r in m.threads && r != rid ensures ThreadOk(m', r) { assert ThreadOk(m, r); }
  }

  lemma FreshID(m: Manager)
    requires ManagerOk(m)
    ensures m.nextID + 1 !in m.txs
  {
    assert forall id | id in m.txs :: TxOk(m, id);
  }

  /** A BEGIN that got its connection adds a transaction nobody can see yet. */
  lemma NumberedKeeps(m: Manager, rid: nat, c: Choice)
    requires ManagerOk(m) && rid in m.threads && m.threads[rid].pc.AtGet? && m.threads[rid].msg.body.BeginReq? && c.ok
    ensures ManagerOk(Lookup(m, rid, c))
  {
    var m' := Lookup(m, rid, c);
    forall o | o in m.txs ensures TxOk(m', o) { assert TxOk(m, o); }
    forall r | r in m.threads && r != rid ensures ThreadOk(m', r) { assert ThreadOk(m, r); }
    FreshID(m);
  }

  lemma LookupKeeps(m: Manager, rid: nat, c: Choice)
    requires ManagerOk(m) && rid in m.threads && m.threads[rid].pc.AtGet?
    ensures ManagerOk(Lookup(m, rid, c))
  {
    hide ManagerOk;
    if m.threads[rid].msg.body.BeginReq? && c.ok {
      NumberedKeeps(m, rid, c);
    } else {
      PcOnlyKeeps(m, Lookup(m, rid, c), rid, Lookup(m, rid, c).threads[rid].pc);
    }
  }

  lemma InsertKeeps(m: Manager, rid: nat, c: Choice)
    requires ManagerOk(m) && CanMove(m, rid) && m.threads[rid].pc.AtInsert?
    ensures ManagerOk(Move(m, rid, c))
  {
    var m' := Move(m, rid, c);
    assert ThreadOk(m, rid);
    forall o | o in m.txs ensures TxOk(m', o) { assert TxOk(m, o); }
    forall r | r in m.threads && r != rid ensures ThreadOk(m', r) { assert ThreadOk(m, r); }
  }

  lemma MoveKeeps(m: Manager, rid: nat, c: Choice)
    requires ManagerOk(m) && CanMove(m, rid)
    ensures ManagerOk(Move(m, rid, c))
  {
    hide ManagerOk, TxOk, ThreadOk;
    match m.threads[rid].pc
    case AtGet => LookupKeeps(m, rid, c);
    case AtInsert(_) => InsertKeeps(m, rid, c);
    case AtLock => LockKeeps(m, rid, c);
    case Holding => HoldingKeeps(m, rid, c);
    case InCall => InCallKeeps(m, rid, c);
    case Returned(_) => ReturnedKeeps(m, rid, c);
    case AtRemove(_) => RemoveKeeps(m, rid, c);
    case AtRelease(_) => ReleaseKeeps(m, rid, c);
  }

  lemma ArriveKeeps(m: Manager, rid: nat, msg: Msg)
    requires ManagerOk(m) && CanArrive(m, rid)
    ensures ManagerOk(Arrive(m, rid, msg))
  {
    var m' := Arrive(m, rid, msg);
    forall o | o in m.txs ensures TxOk(m', o) { assert TxOk(m, o); }
    forall r | r in m.threads ensures ThreadOk(m', r) { assert ThreadOk(m, r); }
  }

  // ----- the manager refines the atomic tablet -----

  /** The tablet the rest of the system sees. */
  ghost function Abs(m: Manager): (t: Tablet) {
    Tablet(set id | id in m.known && id in m.txs && m.txs[id].open,
           map id | id in m.known && id in m.txs :: m.txs[id].local,
           m.auto)
  }

  /** The request has taken effect and its answer is fixed. */
  predicate IsDecided(pc: Pc) {
    pc.Returned? || pc.AtRemove? || pc.AtRelease? || pc.Answered?
  }

  function Verdict(pc: Pc): (r: Reply)
    requires IsDecided(pc)
  {
    pc.reply
  }

  lemma AbsSame(m: Manager, m': Manager)
    requires m'.known == m.known && m'.auto == m.auto && m'.txs.Keys == m.txs.Keys
    requires forall id | id in m.known && id in m.txs ::
               m'.txs[id].open == m.txs[id].open && m'.txs[id].local == m.txs[id].local
    ensures Abs(m') == Abs(m)
  {
    assert Abs(m').locals == Abs(m).locals;
  }

  /** An id the lookup misses, or whose handle is closed, is not live for the atomic tablet. */
  lemma LookupRefines(m: Manager, rid: nat, c: Choice)
    requires ManagerOk(m) && rid in m.threads && m.threads[rid].pc.AtGet?
    ensures var m' := Lookup(m, rid, c); var pc' := m'.threads[rid].pc;
            if IsDecided(pc') then Serve(Abs(m), rid, m.threads[rid].msg, c) == (Abs(m'), Verdict(pc'))
            else Abs(m') == Abs(m)
  {
    hide ManagerOk, TxOk, Abs;
    var m', msg := Lookup(m, rid, c), m.threads[rid].msg;
    if msg.body.BeginReq? {
      FreshID(m);
      AbsFresh(m, m', m.nextID + 1);
    } else if msg.body.id == 0 {
      AbsAuto(m, m');
    } else {
      AbsSame(m, m');
      if msg.body.id !in m.table { MissingNotLive(m, msg.body.id); }
    }
  }

  /** A transaction nobody knows yet does not show. */
  lemma AbsFresh(m: Manager, m': Manager, id: nat)
    requires ManagerOk(m) && id !in m.txs && m'.known == m.known && m'.auto == m.auto
    requires m'.txs == m.txs || (id in m'.txs && m'.txs == m.txs[id := m'.txs[id]])
    ensures Abs(m') == Abs(m)
  {
    assert Abs(m').locals == Abs(m).locals;
  }

  lemma AbsAuto(m: Manager, m': Manager)
    requires m'.known == m.known && m'.txs == m.txs
    ensures Abs(m') == Abs(m).(auto := m'.auto) && Abs(m).auto == m.auto
  {
  }

  lemma MissingNotLive(m: Manager, id: nat)
    requires ManagerOk(m) && id !in m.table
    ensures id !in Abs(m).live
  {
    if id in m.txs { assert TxOk(m, id); }
  }

  lemma InsertRefines(m: Manager, rid: nat, c: Choice)
    requires ManagerOk(m) && CanMove(m, rid) && m.threads[rid].pc.AtInsert?
    ensures var m' := Move(m, rid, c);
            Serve(Abs(m), rid, m.threads[rid].msg, Choice(m.threads[rid].pc.id, false, true)) ==
              (Abs(m'), Verdict(m'.threads[rid].pc))
  {
    var id, m' := m.threads[rid].pc.id, Move(m, rid, c);
    assert ThreadOk(m, rid) && TxOk(m, id);
    assert Abs(m').live == Abs(m).live + {id};
    assert Abs(m').locals == Abs(m).locals[id := m.txs[id].local];
  }

  lemma ReturnRefines(m: Manager, rid: nat, c: Choice)
    requires ManagerOk(m) && CanMove(m, rid) && m.threads[rid].pc.InCall?
    ensures var m' := Move(m, rid, c);
            Serve(Abs(m), rid, m.threads[rid].msg, c) == (Abs(m'), Verdict(m'.threads[rid].pc))
  {
    var msg, m' := m.threads[rid].msg, Move(m, rid, c);
    var id := msg.body.id;
    assert ThreadOk(m, rid) && TxOk(m, id);
    var x := Return(m.txs[id], rid, msg, c).0;
    assert Abs(m').locals == Abs(m).locals[id := x.local];
    if IsFinisher(msg) {
      assert Abs(m').live == Abs(m).live - {id};
    } else {
      assert Abs(m').live == Abs(m).live;
      assert x.local == m.txs[id].local ==> Abs(m').locals == Abs(m).locals;
    }
  }

  lemma HoldingRefines(m: Manager, rid: nat, c: Choice)
    requires ManagerOk(m) && CanMove(m, rid) && m.threads[rid].pc.Holding?
    ensures var m' := Move(m, rid, c);
            && Abs(m') == Abs(m)
            && (!m.txs[m.threads[rid].msg.body.id].open ==>
                  Serve(Abs(m), rid, m.threads[rid].msg, c) == (Abs(m'), Verdict(m'.threads[rid].pc)))
  {
    assert ThreadOk(m, rid);
    AbsSame(m, Move(m, rid, c));
  }

  /** Every request takes effect atomically somewhere between its arrival and its answer: each step
      either leaves the atomic tablet as it is, or is the one step in which the request is served by
      it, with exactly the answer the thread will give. */
  lemma MoveRefines(m: Manager, rid: nat, c: Choice)
    requires ManagerOk(m) && CanMove(m, rid)
    ensures var m' := Move(m, rid, c);
            var pc, pc' := m.threads[rid].pc, m'.threads[rid].pc;
            if !IsDecided(pc) && IsDecided(pc')
            then exists d :: Serve(Abs(m), rid, m.threads[rid].msg, d) == (Abs(m'), Verdict(pc'))
            else Abs(m') == Abs(m) && (IsDecided(pc) ==> IsDecided(pc') && Verdict(pc') == Verdict(pc))
  {
    hide ManagerOk, Abs, Serve;
    var m' := Move(m, rid, c);
    match m.threads[rid].pc
    case AtGet => LookupRefines(m, rid, c);
    case AtInsert(_) => InsertRefines(m, rid, c);
    case Holding => HoldingRefines(m, rid, c);
    case InCall => ReturnRefines(m, rid, c);
    case _ => AbsSame(m, m');
  }

  // ----- whole runs -----

  datatype Step = Comes(rid: nat, msg: Msg) | Moves(rid: nat, choice: Choice)

  ghost predicate IsRun(ms: seq<Manager>, steps: seq<Step>) {
    && |ms| == |steps| + 1 && ms[0] == Start
    && forall i | 0 <= i < |steps| :: Taken(ms[i], steps[i], ms[i + 1])
  }

  ghost predicate Taken(m: Manager, step: Step, m': Manager) {
    match step
    case Comes(rid, msg) => CanArrive(m, rid) && m' == Arrive(m, rid, msg)
    case Moves(rid, c) => CanMove(m, rid) && m' == Move(m, rid, c)
  }

  lemma RunOk(ms: seq<Manager>, steps: seq<Step>, i: nat)
    requires IsRun(ms, steps) && i <= |steps|
    ensures ManagerOk(ms[i])
  {
    hide ManagerOk, CanMove, Move, Arrive;
    if i == 0 {
      StartOk();
    } else {
      RunOk(ms, steps, i - 1);
      assert Taken(ms[i - 1], steps[i - 1], ms[i - 1 + 1]);
      match steps[i - 1]
      case Comes(rid, msg) => ArriveKeeps(ms[i - 1], rid, msg);
      case Moves(rid, c) => MoveKeeps(ms[i - 1], rid, c);
    }
  }

  lemma StartOk()
    ensures ManagerOk(Start)
  {
  }

  /** Under every interleaving of statements, commits, rollbacks and the reaper: a connection is
      released at most once, only after its handle was closed and its entry removed, never while a
      call runs on it; at most one finisher took effect; the tablet others see is well formed. */
  lemma SafeRelease(ms: seq<Manager>, steps: seq<Step>, i: nat, id: nat)
    requires IsRun(ms, steps) && i <= |steps| && id in ms[i].txs
    ensures var t := ms[i].txs[id];
            && t.released <= 1
            && (t.released == 1 ==> !t.open && !t.busy && id !in ms[i].table)
            && |t.local.commits| + (if t.local.aborted then 1 else 0) <= 1
            && (t.open <==> |t.local.commits| + (if t.local.aborted then 1 else 0) == 0)
    ensures TabletOk(Abs(ms[i]))
  {
    hide CanMove, Move, Arrive;
    RunOk(ms, steps, i);
    assert TxOk(ms[i], id);
    AbsOk(ms[i]);
  }

  lemma AbsOk(m: Manager)
    requires ManagerOk(m)
    ensures TabletOk(Abs(m))
  {
    forall id | id in Abs(m).locals
      ensures id != 0 && |m.txs[id].local.commits| <= 1
      ensures id in Abs(m).live <==> m.txs[id].local.commits == [] && !m.txs[id].local.aborted
      ensures m.txs[id].local.commits != [] ==> !m.txs[id].local.aborted
    {
      assert TxOk(m, id);
    }
  }

  /** No leak: once every request has been answered, each ended transaction has given its connection
      back exactly once and each open one is in the table and has not. */
  lemma NoLeak(ms: seq<Manager>, steps: seq<Step>, i: nat, id: nat)
    requires IsRun(ms, steps) && i <= |steps| && id in ms[i].txs
    requires forall rid | rid in ms[i].threads :: ms[i].threads[rid].pc.Answered?
    ensures var t := ms[i].txs[id];
            if t.open then t.released == 0 && id in ms[i].table else t.released == 1 && id !in ms[i].table
  {
    hide CanMove, Move, Arrive;
    RunOk(ms, steps, i);
    assert TxOk(ms[i], id);
  }

  // ----- every run refines the atomic tablet -----

  /** In step `j` the request of thread `rid` takes effect: its answer becomes fixed. */
  ghost predicate Decides(ms: seq<Manager>, steps: seq<Step>, j: nat, rid: nat) {
    && j < |steps| && j + 1 < |ms| && steps[j].Moves? && steps[j].rid == rid
    && rid in ms[j].threads && rid in ms[j + 1].threads
    && !IsDecided(ms[j].threads[rid].pc) && IsDecided(ms[j + 1].threads[rid].pc)
  }

  /** The atomic tablet serves the request of thread `rid` with this reply. */
  ghost predicate ServedWith(m: Manager, m': Manager, rid: nat, reply: Reply) {
    rid in m.threads && exists d :: Serve(Abs(m), rid, m.threads[rid].msg, d) == (Abs(m'), reply)
  }

  ghost predicate Came(steps: seq<Step>, a: nat, rid: nat, msg: Msg) {
    a < |steps| && steps[a] == Comes(rid, msg)
  }

  /** Threads keep their request, move only by their own steps, and never change a fixed answer. */
  lemma ThreadStep(m: Manager, step: Step, m': Manager, rid: nat)
    requires ManagerOk(m) && Taken(m, step, m')
    ensures rid in m.threads ==> rid in m'.threads && m'.threads[rid].msg == m.threads[rid].msg
    ensures rid in m.threads && !(step.Moves? && step.rid == rid) ==> m'.threads[rid] == m.threads[rid]
    ensures rid in m.threads && IsDecided(m.threads[rid].pc) ==>
              IsDecided(m'.threads[rid].pc) && Verdict(m'.threads[rid].pc) == Verdict(m.threads[rid].pc)
    ensures rid !in m.threads && rid in m'.threads ==>
              step.Comes? && step == Comes(rid, m'.threads[rid].msg) && !IsDecided(m'.threads[rid].pc)
  {
    hide ManagerOk, Serve, Return;
  }

  lemma MovesAbs(ms: seq<Manager>, steps: seq<Step>, j: nat)
    requires IsRun(ms, steps) && j < |steps| && steps[j].Moves?
    ensures var rid := steps[j].rid;
            if Decides(ms, steps, j, rid) then ServedWith(ms[j], ms[j + 1], rid, Verdict(ms[j + 1].threads[rid].pc))
            else Abs(ms[j + 1]) == Abs(ms[j])
  {
    hide ManagerOk, Move, Abs, Serve, IsDecided, CanMove;
    RunOk(ms, steps, j);
    assert Taken(ms[j], steps[j], ms[j + 1]);
    ThreadStep(ms[j], steps[j], ms[j + 1], steps[j].rid);
    MoveKnown(ms[j], steps[j].rid);
    MoveRefines(ms[j], steps[j].rid, steps[j].choice);
  }

  lemma MoveKnown(m: Manager, rid: nat)
    requires CanMove(m, rid)
    ensures rid in m.threads
  {
  }

  /** What others see of the manager changes only in steps in which a request takes effect. */
  lemma AbsChangesOnlyThen(ms: seq<Manager>, steps: seq<Step>, j: nat)
    requires IsRun(ms, steps) && j < |steps| && Abs(ms[j + 1]) != Abs(ms[j])
    ensures steps[j].Moves? && Decides(ms, steps, j, steps[j].rid)
  {
    hide ManagerOk, Move, CanMove, Decides, ServedWith;
    assert Taken(ms[j], steps[j], ms[j + 1]);
    if steps[j].Moves? {
      MovesAbs(ms, steps, j);
    }
  }

  lemma {:induction false} NotYetDecided(ms: seq<Manager>, steps: seq<Step>, i: nat, rid: nat)
    requires IsRun(ms, steps) && i <= |steps|
    requires rid in ms[i].threads ==> !IsDecided(ms[i].threads[rid].pc)
    ensures forall j: nat | j < i :: !Decides(ms, steps, j, rid)
  {
    hide ManagerOk, Move, CanMove, Arrive, Taken;
    if i > 0 {
      var k := i - 1;
      RunOk(ms, steps, k);
      assert Taken(ms[k], steps[k], ms[k + 1]);
      ThreadStep(ms[k], steps[k], ms[k + 1], rid);
      NotYetDecided(ms, steps, k, rid);
    }
  }

  lemma {:induction false} Arrived(ms: seq<Manager>, steps: seq<Step>, i: nat, rid: nat) returns (a: nat)
    requires IsRun(ms, steps) && i <= |steps| && rid in ms[i].threads
    ensures a < i && Came(steps, a, rid, ms[i].threads[rid].msg)
  {
    hide ManagerOk, Move, CanMove, Arrive, Taken;
    assert i > 0;
    var k := i - 1;
    RunOk(ms, steps, k);
    assert Taken(ms[k], steps[k], ms[k + 1]);
    ThreadStep(ms[k], steps[k], ms[k + 1], rid);
    if rid in ms[k].threads {
      a := Arrived(ms, steps, k, rid);
    } else {
      a := k;
    }
  }

  /** In every run, a request that has been answered (or whose answer is fixed) took effect in exactly one
      step, after it arrived: there the atomic tablet served it, with the very answer the thread gives.
      With `AbsChangesOnlyThen`, the manager is the atomic tablet serving requests one after the other. */
  lemma {:induction false} RunRefines(ms: seq<Manager>, steps: seq<Step>, i: nat, rid: nat) returns (a: nat, j: nat)
    requires IsRun(ms, steps) && i <= |steps| && rid in ms[i].threads && IsDecided(ms[i].threads[rid].pc)
    ensures a < j < i && Came(steps, a, rid, ms[i].threads[rid].msg)
    ensures Decides(ms, steps, j, rid) && forall k: nat | k < i && Decides(ms, steps, k, rid) :: k == j
    ensures ServedWith(ms[j], ms[j + 1], rid, Verdict(ms[i].threads[rid].pc))
  {
    hide ManagerOk, Move, CanMove, Arrive, Taken, ServedWith;
    assert i > 0;
    var k := i - 1;
    RunOk(ms, steps, k);
    assert Taken(ms[k], steps[k], ms[k + 1]);
    ThreadStep(ms[k], steps[k], ms[k + 1], rid);
    if rid in ms[k].threads && IsDecided(ms[k].threads[rid].pc) {
      a, j := RunRefines(ms, steps, k, rid);
    } else {
      NotYetDecided(ms, steps, k, rid);
      a := Arrived(ms, steps, k, rid);
      j := k;
      assert Decides(ms, steps, j, rid);
      MovesAbs(ms, steps, j);
    }
  }
}
