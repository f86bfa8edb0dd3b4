/** Which requests an operation of the coordinator sent, and what it heard of them. A log speaks of a run `ss`: its
    last state is the present one. */
module CallLog {
  import opened Tablets
  import opened Protocol
  import opened ProtocolInvariant
  import opened ProtocolSteps

  /** The environment's choice: is the reply to this request back before the caller gives up on it? */
  type Env = nat -> bool

  /** An operation on attempt `n` of `g` that began in state `from` of the run. */
  datatype Op = Op(env: Env, from: nat, g: GTx, n: nat)

  ghost function Last(ss: seq<State>): (st: State)
    requires ss != []
  {
    ss[|ss| - 1]
  }

  /** The operation sent `req` to `a` as request number `rid`. */
  ghost predicate SentIn(op: Op, ss: seq<State>, rid: nat, a: Addr, req: Req)
    requires op.from < |ss|
  {
    rid !in ss[op.from].sent && IsSent(Last(ss), rid, Msg(op.g, op.n, a, req))
  }

  /** The operation sent `req` to `a`, and if the reply comes back in time it is there. */
  ghost predicate Asked(op: Op, ss: seq<State>, rid: nat, a: Addr, req: Req)
    requires op.from < |ss|
  {
    SentIn(op, ss, rid, a, req) && Settled(op.env, Last(ss), rid)
  }

  ghost predicate Settled(env: Env, st: State, rid: nat) {
    env(rid) ==> rid in st.replies
  }

  /** The reply came back in time, and it is affirmative. */
  ghost predicate Good(env: Env, st: State, rid: nat) {
    env(rid) && rid in st.replies && st.replies[rid].Okay?
  }

  ghost predicate GoodBegin(env: Env, st: State, rid: nat) {
    env(rid) && rid in st.replies && st.replies[rid].Begun?
  }

  /** What the caller hears. */
  ghost function ReplyTo(env: Env, st: State, rid: nat): (r: Reply) {
    if env(rid) && rid in st.replies then st.replies[rid] else Refused
  }

  /** At some point of the operation tablet `a` had no client. */
  ghost predicate LostClient(op: Op, ss: seq<State>, a: Addr) {
    exists k :: op.from <= k < |ss| && a !in ss[k].clients
  }

  /** Each tablet of `reqs` was sent its request, and the caller waited for the reply, or it had no client. */
  ghost predicate Called(op: Op, ss: seq<State>, reqs: map<Addr, Req>, rids: map<Addr, nat>)
    requires op.from < |ss|
  {
    && rids.Keys <= reqs.Keys
    && forall a | a in reqs :: if a in rids then Asked(op, ss, rids[a], a, reqs[a]) else LostClient(op, ss, a)
  }

  /** Each of these tablets was called and answered well in time. */
  ghost predicate AllGood(env: Env, st: State, addrs: set<Addr>, rids: map<Addr, nat>) {
    forall a | a in addrs :: a in rids && Good(env, st, rids[a])
  }

  /** One call of a fan-out on its way. */
  ghost predicate CallLogged(op: Op, ss: seq<State>, a: Addr, req: Req, c: Call, rids: map<Addr, nat>)
    requires op.from < |ss|
  {
    match c
    case Unsent => a !in rids
    case Waiting(rid) => a in rids && rids[a] == rid && SentIn(op, ss, rid, a, req)
    case Done(ok) =>
      if a in rids then Asked(op, ss, rids[a], a, req) && (ok <==> Good(op.env, Last(ss), rids[a]))
      else !ok && LostClient(op, ss, a)
  }

  ghost predicate FanLogged(op: Op, ss: seq<State>, reqs: map<Addr, Req>, calls: map<Addr, Call>, rids: map<Addr, nat>)
    requires op.from < |ss|
  {
    && calls.Keys == reqs.Keys && rids.Keys <= reqs.Keys
    && forall a | a in calls :: CallLogged(op, ss, a, reqs[a], calls[a], rids)
  }

  // ----- logs only grow -----

  lemma LastExtends(ss: seq<State>, ss': seq<State>, ls': seq<Label>)
    requires ss != [] && ss <= ss' && IsRun(ss', ls')
    ensures Extends(Last(ss), Last(ss'))
  {
    hide Enabled, Apply, Init, Extends;
    RunExtends(ss', ls', |ss| - 1, |ls'|);
  }

  lemma FromExtends(ss: seq<State>, ls: seq<Label>, from: nat, from': nat)
    requires from <= from' < |ss| && IsRun(ss, ls)
    ensures Extends(ss[from], ss[from'])
  {
    hide Enabled, Apply, Init, Extends;
    RunExtends(ss, ls, from, from');
  }

  /** A request of the operation, seen from later on. */
  lemma SentLater(op: Op, ss: seq<State>, ss': seq<State>, ls': seq<Label>, rid: nat, a: Addr, req: Req)
    requires op.from < |ss| && ss <= ss' && IsRun(ss', ls') && SentIn(op, ss, rid, a, req)
    ensures SentIn(op, ss', rid, a, req)
  {
    LastExtends(ss, ss', ls');
    hide IsRun;
  }

  lemma AskedLater(op: Op, ss: seq<State>, ss': seq<State>, ls': seq<Label>, rid: nat, a: Addr, req: Req)
    requires op.from < |ss| && ss <= ss' && IsRun(ss', ls') && Asked(op, ss, rid, a, req)
    ensures Asked(op, ss', rid, a, req) && (Good(op.env, Last(ss), rid) <==> Good(op.env, Last(ss'), rid))
    ensures GoodBegin(op.env, Last(ss), rid) <==> GoodBegin(op.env, Last(ss'), rid)
    ensures op.env(rid) ==> rid in Last(ss).replies && rid in Last(ss').replies
                              && Last(ss').replies[rid] == Last(ss).replies[rid]
  {
    SentLater(op, ss, ss', ls', rid, a, req);
    LastExtends(ss, ss', ls');
    hide IsRun, SentIn;
  }

  lemma LostLater(op: Op, ss: seq<State>, ss': seq<State>, a: Addr)
    requires ss <= ss' && LostClient(op, ss, a)
    ensures LostClient(op, ss', a)
  {
    var k :| op.from <= k < |ss| && a !in ss[k].clients;
    assert ss'[k] == ss[k];
  }

  lemma CalledLater(op: Op, ss: seq<State>, ss': seq<State>, ls': seq<Label>, reqs: map<Addr, Req>,
                    rids: map<Addr, nat>)
    requires op.from < |ss| && ss <= ss' && IsRun(ss', ls') && Called(op, ss, reqs, rids)
    ensures Called(op, ss', reqs, rids)
    ensures AllGood(op.env, Last(ss), reqs.Keys, rids) <==> AllGood(op.env, Last(ss'), reqs.Keys, rids)
  {
    hide IsRun, Asked, Good, LostClient;
    forall a | a in reqs
      ensures if a in rids then
                && Asked(op, ss', rids[a], a, reqs[a])
                && (Good(op.env, Last(ss), rids[a]) <==> Good(op.env, Last(ss'), rids[a]))
              else LostClient(op, ss', a)
    {
      if a in rids {
        AskedLater(op, ss, ss', ls', rids[a], a, reqs[a]);
      } else {
        LostLater(op, ss, ss', a);
      }
    }
  }

  lemma CallLater(op: Op, ss: seq<State>, ss': seq<State>, ls': seq<Label>, a: Addr, req: Req, c: Call,
                  rids: map<Addr, nat>)
    requires op.from < |ss| && ss <= ss' && IsRun(ss', ls') && CallLogged(op, ss, a, req, c, rids)
    ensures CallLogged(op, ss', a, req, c, rids)
  {
    hide IsRun, Asked, SentIn, Good, LostClient;
    if a !in rids {
      if c.Done? {
        LostLater(op, ss, ss', a);
      }
    } else if c.Waiting? {
      SentLater(op, ss, ss', ls', rids[a], a, req);
    } else if c.Done? {
      AskedLater(op, ss, ss', ls', rids[a], a, req);
    }
  }

  lemma FanLater(op: Op, ss: seq<State>, ss': seq<State>, ls': seq<Label>, reqs: map<Addr, Req>,
                 calls: map<Addr, Call>, rids: map<Addr, nat>)
    requires op.from < |ss| && ss <= ss' && IsRun(ss', ls') && FanLogged(op, ss, reqs, calls, rids)
    ensures FanLogged(op, ss', reqs, calls, rids)
  {
    hide IsRun, CallLogged;
    forall a | a in calls ensures CallLogged(op, ss', a, reqs[a], calls[a], rids) {
      CallLater(op, ss, ss', ls', a, reqs[a], calls[a], rids);
    }
  }

  // ----- a fan-out, call by call -----

  lemma FanBegins(op: Op, ss: seq<State>, reqs: map<Addr, Req>, calls: map<Addr, Call>)
    requires op.from < |ss| && calls.Keys == reqs.Keys && forall a | a in calls :: calls[a].Unsent?
    ensures FanLogged(op, ss, reqs, calls, map[])
  {
  }

  lemma FanNote(op: Op, ss: seq<State>, reqs: map<Addr, Req>, calls: map<Addr, Call>, rids: map<Addr, nat>, a: Addr,
                c: Call, rids': map<Addr, nat>)
    requires op.from < |ss| && FanLogged(op, ss, reqs, calls, rids) && a in calls
    requires rids' == rids || (a in rids' && rids' == rids[a := rids'[a]])
    requires CallLogged(op, ss, a, reqs[a], c, rids')
    ensures FanLogged(op, ss, reqs, calls[a := c], rids')
  {
  }

  lemma FanEnds(op: Op, ss: seq<State>, reqs: map<Addr, Req>, calls: map<Addr, Call>, rids: map<Addr, nat>)
    requires op.from < |ss| && FanLogged(op, ss, reqs, calls, rids) && AllDone(calls)
    ensures Called(op, ss, reqs, rids) && (AllOk(calls) <==> AllGood(op.env, Last(ss), reqs.Keys, rids))
  {
    hide Asked, Good, LostClient;
    forall a | a in reqs
      ensures CallLogged(op, ss, a, reqs[a], calls[a], rids) && calls[a].Done?
      ensures calls[a] == Done(true) <==> a in rids && Good(op.env, Last(ss), rids[a])
    {
    }
  }

  // ----- what the replies to rollbacks say -----

  /** Once a rollback request has been answered, its local transaction has ended. */
  lemma RollbackEnds(st: State, rid: nat, g: GTx, n: nat, a: Addr, id: nat)
    requires Inv(st) && IsSent(st, rid, Msg(g, n, a, RollbackReq(id))) && rid in st.replies
    ensures HasEnded(st, a, id)
  {
    hide BasicOk, TabletsOk, MsgsOk, AttemptsOk, SessionsOk, AllToldOk, HasEnded;
  }

  /** A request that was sent and not answered can still be delivered. */
  lemma StillComes(st: State, rid: nat)
    requires Inv(st) && rid in st.sent && rid !in st.replies
    ensures CanDeliver(st, rid)
  {
    hide Inv;
    InvBasic(st);
    MsgAt(st, rid);
  }
}
