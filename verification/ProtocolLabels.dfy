/** Each label of the protocol with the function that carries it out. */
module ProtocolLabels {
  import opened Tablets
  import opened Protocol

  lemma IsOpen(st: State)
    ensures Enabled(st, OpenSession) && Apply(st, OpenSession) == DoOpen(st)
  {
  }

  lemma IsRebegin(st: State, sid: nat)
    requires Ready(st, sid)
    ensures Enabled(st, Rebegin(sid)) && Apply(st, Rebegin(sid)) == DoRebegin(st, sid)
  {
  }

  lemma IsExecute(st: State, sid: nat, job: Job)
    requires CanStart(st, sid) && forall a | a in job.targets :: a in st.clients
    ensures Enabled(st, StartExecute(sid, job)) && Apply(st, StartExecute(sid, job)) == DoStartExecute(st, sid, job)
  {
  }

  lemma IsStart(st: State, sid: nat)
    requires CanStart(st, sid)
    ensures Enabled(st, StartCommit(sid)) && Apply(st, StartCommit(sid)) == DoStartCommit(st, sid)
    ensures Enabled(st, StartRollback(sid)) && Apply(st, StartRollback(sid)) == DoStartRollback(st, sid)
  {
  }

  lemma IsSend(st: State, sid: nat, a: Addr)
    requires CanSend(st, sid, a)
    ensures Enabled(st, Send(sid, a)) && Apply(st, Send(sid, a)) == DoSend(st, sid, a)
  {
  }

  lemma IsMiss(st: State, sid: nat, a: Addr)
    requires CanMiss(st, sid, a)
    ensures Enabled(st, NoClient(sid, a)) && Apply(st, NoClient(sid, a)) == DoMiss(st, sid, a)
  {
  }

  lemma IsDeliver(st: State, rid: nat, c: Choice)
    requires CanDeliver(st, rid)
    ensures Enabled(st, Deliver(rid, c)) && Apply(st, Deliver(rid, c)) == DoDeliver(st, rid, c)
  {
  }

  lemma IsReceive(st: State, sid: nat, a: Addr)
    requires IsWaiting(st, sid, a) && CallOf(st.sessions[sid].pc, a).rid in st.replies
    ensures Enabled(st, Receive(sid, a))
    ensures Apply(st, Receive(sid, a)) == Resolve(st, sid, a, st.replies[CallOf(st.sessions[sid].pc, a).rid])
  {
  }

  lemma IsGiveUp(st: State, sid: nat, a: Addr)
    requires IsWaiting(st, sid, a)
    ensures Enabled(st, GiveUp(sid, a)) && Apply(st, GiveUp(sid, a)) == Resolve(st, sid, a, Refused)
  {
  }

  lemma IsAdvance(st: State, sid: nat, mergeOk: bool)
    requires sid in st.sessions && CanAdvance(st.sessions[sid])
    ensures Enabled(st, Advance(sid, mergeOk)) && Apply(st, Advance(sid, mergeOk)) == Moved(st, sid, mergeOk)
  {
  }

  lemma IsReap(st: State, a: Addr, id: nat)
    requires a in st.tablets
    ensures Enabled(st, Reap(a, id)) && Apply(st, Reap(a, id)) == DoReap(st, a, id)
  {
  }

  lemma IsSetClients(st: State, clients: set<Addr>)
    requires clients <= st.tablets.Keys
    ensures Enabled(st, SetClients(clients)) && Apply(st, SetClients(clients)) == st.(clients := clients)
  {
  }
}
