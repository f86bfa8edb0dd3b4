/** One tablet as the rest of the system sees it: every request is served in a single atomic step.
    `TxManager.dfy` shows that the lock-level transaction manager refines this view. */
module Tablets {

  type Addr = string

  /** Identity of a client statement; its SQL text plays no part in the protocol. */
  type Stmt = nat

  /** A gate transaction: a session together with the number of BEGINs that reopened it. */
  datatype GTx = GTx(sid: nat, epoch: nat)

  /** Requests of the tablet service. The client stub sends BEGIN as an Execute that carries id 0. */
  datatype Req =
    | BeginReq
    | ExecReq(id: nat, stmt: Stmt)
    | PrepareReq(id: nat)
    | CommitReq(id: nat)
    | RollbackReq(id: nat)

  /** A request on the wire; `gtx` and `attempt` are history only, the tablet never looks at them. */
  datatype Msg = Msg(gtx: GTx, attempt: nat, addr: Addr, body: Req)

  datatype Reply = Begun(id: nat) | Okay | Refused

  /** The history of one local transaction: who caused it, the statements that ran in it and every
      commit that took effect on it, by request number. */
  datatype Local = Local(owner: GTx, stmts: seq<Stmt>, commits: seq<nat>, aborted: bool)

  /** `live` holds the ids whose pgx handle is still open; `locals` remembers every id ever begun;
      `auto` logs statements that ran outside any local transaction. */
  datatype Tablet = Tablet(live: set<nat>, locals: map<nat, Local>, auto: seq<(GTx, Stmt)>)

  /** What the database decides: the id handed out, whether the operation took effect, and whether
      the tablet heard a clean answer for it. */
  datatype Choice = Choice(id: nat, applied: bool, ok: bool)

  const EmptyTablet := Tablet({}, map[], [])

  function Ended(t: Tablet, id: nat, l: Local): (r: Tablet)
  {
    t.(live := t.live - {id}, locals := t.locals[id := l])
  }

  function Answer(ok: bool): (r: Reply) {
    if ok then Okay else Refused
  }

  /** The handler's answer to one request. Ids that are not live are unknown to the transaction
      manager, id 0 means "no transaction". A commit can fail before or after it took effect; a
      rollback always ends the transaction, whatever it returns. */
  function Serve(t: Tablet, rid: nat, m: Msg, c: Choice): (r: (Tablet, Reply))
  {
    match m.body
    case BeginReq =>
      if c.ok && c.id != 0 && c.id !in t.locals
      then (t.(live := t.live + {c.id}, locals := t.locals[c.id := Local(m.gtx, [], [], false)]), Begun(c.id))
      else (t, Refused)
    case ExecReq(id, stmt) =>
      if id == 0 then (if c.ok then t.(auto := t.auto + [(m.gtx, stmt)]) else t, Answer(c.ok))
      else if id in t.live && id in t.locals && c.ok
      then (t.(locals := t.locals[id := t.locals[id].(stmts := t.locals[id].stmts + [stmt])]), Okay)
      else (t, Refused)
    case PrepareReq(id) =>
      (t, Answer(id == 0 || (id in t.live && c.ok)))
    case CommitReq(id) =>
      if id == 0 then (t, Okay)
      else if id in t.live && id in t.locals then
        var l := t.locals[id];
        (Ended(t, id, if c.applied then l.(commits := l.commits + [rid]) else l.(aborted := true)),
         Answer(c.applied && c.ok))
      else (t, Refused)
    case RollbackReq(id) =>
      if id == 0 then (t, Okay)
      else if id in t.live && id in t.locals
      then (Ended(t, id, t.locals[id].(aborted := true)), Answer(c.ok))
      else (t, Refused)
  }

  /** What every tablet keeps: id 0 is never handed out, an id is live exactly until it commits or
      aborts, never does both, and commits at most once. */
  ghost predicate TabletOk(t: Tablet)
  {
    && 0 !in t.locals
    && t.live <= t.locals.Keys
    && forall id | id in t.locals ::
         var l := t.locals[id];
         && |l.commits| <= 1
         && (id in t.live <==> l.commits == [] && !l.aborted)
         && (l.commits != [] ==> !l.aborted)
  }

  /** How a tablet may evolve: ids keep their owner, statements are only added, and an id that has
      ended keeps its outcome and never becomes live again. */
  ghost predicate Grows(t: Tablet, t': Tablet)
  {
    && t.locals.Keys <= t'.locals.Keys
    && forall id | id in t.locals ::
         && t'.locals[id].owner == t.locals[id].owner
         && t.locals[id].stmts <= t'.locals[id].stmts
         && t.locals[id].commits <= t'.locals[id].commits
         && (id !in t.live ==> id !in t'.live && t'.locals[id] == t.locals[id])
  }

  /** Replacing the history of one live id, and retiring the id if it ended, keeps both. */
  lemma UpdateKeeps(t: Tablet, id: nat, l: Local)
    requires TabletOk(t) && id in t.live
    requires l.owner == t.locals[id].owner && t.locals[id].stmts <= l.stmts
    requires |l.commits| <= 1 && (l.commits != [] ==> !l.aborted)
    ensures l.commits == [] && !l.aborted ==>
              TabletOk(t.(locals := t.locals[id := l])) && Grows(t, t.(locals := t.locals[id := l]))
    ensures l.commits != [] || l.aborted ==> TabletOk(Ended(t, id, l)) && Grows(t, Ended(t, id, l))
  {
  }

  lemma FreshKeeps(t: Tablet, id: nat, owner: GTx)
    requires TabletOk(t) && id != 0 && id !in t.locals
    ensures var t' := t.(live := t.live + {id}, locals := t.locals[id := Local(owner, [], [], false)]);
            TabletOk(t') && Grows(t, t')
  {
  }

  lemma LiveIsOpen(t: Tablet)
    requires TabletOk(t)
    ensures Grows(t, t)
    ensures forall id | id in t.live :: id in t.locals && t.locals[id].commits == [] && !t.locals[id].aborted
  {
  }

  lemma ServeKeeps(t: Tablet, rid: nat, m: Msg, c: Choice)
    requires TabletOk(t)
    ensures TabletOk(Serve(t, rid, m, c).0)
    ensures Grows(t, Serve(t, rid, m, c).0)
  {
    hide TabletOk, Grows;
    LiveIsOpen(t);
    match m.body
    case BeginReq =>
      if c.ok && c.id != 0 && c.id !in t.locals {
        FreshKeeps(t, c.id, m.gtx);
      }
    case PrepareReq(_) =>
    case ExecReq(id, stmt) =>
      if id == 0 {
        AutoKeeps(t, t.auto + [(m.gtx, stmt)]);
      } else if id in t.live {
        UpdateKeeps(t, id, t.locals[id].(stmts := t.locals[id].stmts + [stmt]));
      }
    case CommitReq(id) =>
      if id in t.live {
        UpdateKeeps(t, id, t.locals[id].(commits := t.locals[id].commits + [rid]));
        UpdateKeeps(t, id, t.locals[id].(aborted := true));
      }
    case RollbackReq(id) =>
      if id in t.live {
        UpdateKeeps(t, id, t.locals[id].(aborted := true));
      }
  }

  lemma AutoKeeps(t: Tablet, auto: seq<(GTx, Stmt)>)
    requires TabletOk(t)
    ensures TabletOk(t.(auto := auto)) && Grows(t, t.(auto := auto))
  {
  }

  /** What an affirmative answer is worth: a begun id is new and owned by the caller, an executed
      statement is in the transaction it named, a prepared transaction is live, and a commit is
      answered Okay only if this very request committed a transaction that was still live. */
  lemma AffirmativeAnswers(t: Tablet, rid: nat, m: Msg, c: Choice)
    requires TabletOk(t)
    ensures var (t', r) := Serve(t, rid, m, c);
            match m.body
            case BeginReq => r.Refused? ||
              (r.Begun? && r.id != 0 && r.id !in t.locals && r.id in t'.live && t'.locals[r.id].owner == m.gtx)
            case ExecReq(id, stmt) => r.Okay? && id != 0 ==>
              id in t.live && id in t'.live && stmt in t'.locals[id].stmts
            case PrepareReq(id) => r.Okay? && id != 0 ==> id in t.live && t' == t
            case CommitReq(id) => r.Okay? && id != 0 ==>
              id in t.live && id !in t'.live && t.locals[id].commits == [] && t'.locals[id].commits == [rid]
            case RollbackReq(id) => r.Okay? && id != 0 ==>
              id in t.live && id !in t'.live && t'.locals[id].aborted && t'.locals[id].commits == []
  {
  }
}
