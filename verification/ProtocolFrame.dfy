/** What a step leaves alone: other sessions, and the replies already given. */
module ProtocolFrame {
  import opened Tablets
  import opened Protocol

  /** Steps the coordinator takes on behalf of session `sid`; all others are somebody else's. */
  predicate StepOf(l: Label, sid: nat) {
    match l
    case Rebegin(x) => x == sid
    case StartExecute(x, _) => x == sid
    case StartCommit(x) => x == sid
    case StartRollback(x) => x == sid
    case Send(x, _) => x == sid
    case NoClient(x, _) => x == sid
    case Receive(x, _) => x == sid
    case GiveUp(x, _) => x == sid
    case Advance(x, _) => x == sid
    case _ => false
  }

  /** The session is as it was, except that the manager may have dropped it. */
  ghost predicate Same(s: Session, s': Session) {
    s' == s.(registered := s'.registered)
  }

  ghost predicate Spares(st: State, st': State, sid: nat)
    requires sid in st.sessions
  {
    sid in st'.sessions && st'.sessions[sid] == st.sessions[sid]
  }

  lemma ResolveSpares(st: State, x: nat, a: Addr, r: Reply, sid: nat)
    requires x in st.sessions && HasCall(st.sessions[x].pc, a) && sid in st.sessions && sid != x
    ensures Spares(st, Resolve(st, x, a, r), sid)
  {
    hide HasCall, Noted;
  }

  lemma LoopMovedSpares(st: State, x: nat, mergeOk: bool, sid: nat)
    requires x in st.sessions && sid in st.sessions && sid != x && !st.sessions[x].pc.FanOut?
    ensures Spares(st, Moved(st, x, mergeOk), sid)
  {
    hide Fresh, Tell;
    TellSpares(st, x, sid);
  }

  lemma FanMovedSpares(st: State, x: nat, mergeOk: bool, sid: nat)
    requires x in st.sessions && sid in st.sessions && sid != x && st.sessions[x].pc.FanOut?
    ensures Spares(st, Moved(st, x, mergeOk), sid)
  {
    hide AllOk, Fresh, Tell;
    TellSpares(st, x, sid);
  }

  lemma TellSpares(st: State, x: nat, sid: nat)
    requires x in st.sessions && sid in st.sessions && sid != x
    ensures forall s, v :: Spares(st, Tell(st, x, s, v), sid)
  {
  }

  lemma MovedSpares(st: State, x: nat, mergeOk: bool, sid: nat)
    requires x in st.sessions && sid in st.sessions && sid != x
    ensures Spares(st, Moved(st, x, mergeOk), sid)
  {
    hide Moved;
    if st.sessions[x].pc.FanOut? {
      FanMovedSpares(st, x, mergeOk, sid);
    } else {
      LoopMovedSpares(st, x, mergeOk, sid);
    }
  }

  lemma MissSpares(st: State, x: nat, a: Addr, sid: nat)
    requires CanMiss(st, x, a) && sid in st.sessions && sid != x
    ensures Spares(st, DoMiss(st, x, a), sid)
  {
    ResolveSpares(st, x, a, Refused, sid);
    hide Resolve;
  }

  lemma CommitSpares(st: State, x: nat, sid: nat)
    requires CanStart(st, x) && sid in st.sessions && sid != x
    ensures Spares(st, DoStartCommit(st, x), sid)
  {
  }

  lemma OthersSpare(st: State, l: Label, sid: nat)
    requires Enabled(st, l) && sid in st.sessions && sid <= st.nextSid && !StepOf(l, sid)
    ensures sid in Apply(st, l).sessions && Same(st.sessions[sid], Apply(st, l).sessions[sid])
  {
    hide Serve, CanAdvance, HasCall, CallOf, Resolve, Moved, DoMiss, DoStartCommit;
    match l
    case Receive(x, a) => ResolveSpares(st, x, a, st.replies[CallOf(st.sessions[x].pc, a).rid], sid);
    case GiveUp(x, a) => ResolveSpares(st, x, a, Refused, sid);
    case Advance(x, mergeOk) => MovedSpares(st, x, mergeOk, sid);
    case NoClient(x, a) => MissSpares(st, x, a, sid);
    case StartCommit(x) => CommitSpares(st, x, sid);
    case _ =>
  }

  /** Replies only come from deliveries. */
  lemma OnlyDeliverReplies(st: State, l: Label)
    requires Enabled(st, l) && !l.Deliver?
    ensures Apply(st, l).replies == st.replies && (!l.Reap? ==> Apply(st, l).tablets == st.tablets)
  {
    hide Serve, CanAdvance, HasCall, CallOf, Resolve, Moved, DoMiss, DoStartCommit;
    match l
    case Receive(x, a) => ResolveReplies(st, x, a, st.replies[CallOf(st.sessions[x].pc, a).rid]);
    case GiveUp(x, a) => ResolveReplies(st, x, a, Refused);
    case Advance(x, mergeOk) => MovedReplies(st, x, mergeOk);
    case NoClient(x, a) => MissReplies(st, x, a);
    case StartCommit(x) => CommitReplies(st, x);
    case _ =>
  }

  /** Tablets and network are as they were. */
  ghost predicate SameWire(st: State, st': State) {
    st'.tablets == st.tablets && st'.replies == st.replies && st'.sent == st.sent && st'.net == st.net
  }

  lemma PutWire(st: State, x: nat)
    ensures forall s :: SameWire(st, Put(st, x, s))
    ensures x in st.sessions ==> forall s, v :: SameWire(st, Tell(st, x, s, v))
  {
  }

  lemma ResolveReplies(st: State, x: nat, a: Addr, r: Reply)
    requires x in st.sessions && HasCall(st.sessions[x].pc, a)
    ensures SameWire(st, Resolve(st, x, a, r))
  {
    hide Noted, Fresh, Tell, Put;
    PutWire(st, x);
    if st.sessions[x].pc.FanOut? {
      FanResolveReplies(st, x, a, r);
    }
  }

  lemma FanResolveReplies(st: State, x: nat, a: Addr, r: Reply)
    requires x in st.sessions && HasCall(st.sessions[x].pc, a) && st.sessions[x].pc.FanOut?
    ensures SameWire(st, Resolve(st, x, a, r))
  {
    hide Noted;
  }

  lemma MovedReplies(st: State, x: nat, mergeOk: bool)
    requires x in st.sessions
    ensures SameWire(st, Moved(st, x, mergeOk))
  {
    hide AllOk, Fresh, Tell, Put;
    PutWire(st, x);
    PutWire(Decided(st, AttemptId(x, st.sessions[x].attempt)), x);
  }

  lemma MissReplies(st: State, x: nat, a: Addr)
    requires CanMiss(st, x, a)
    ensures SameWire(st, DoMiss(st, x, a))
  {
    ResolveReplies(st, x, a, Refused);
    hide Resolve;
  }

  lemma CommitReplies(st: State, x: nat)
    requires CanStart(st, x)
    ensures SameWire(st, DoStartCommit(st, x))
  {
  }

  /** Requests only enter the network by being sent. */
  lemma OnlySendSends(st: State, l: Label)
    requires Enabled(st, l) && !l.Send?
    ensures Apply(st, l).sent == st.sent && Apply(st, l).net <= st.net
  {
    hide Serve, CanAdvance, HasCall, CallOf, Resolve, Moved, DoMiss, DoStartCommit;
    match l
    case Receive(x, a) => ResolveReplies(st, x, a, st.replies[CallOf(st.sessions[x].pc, a).rid]);
    case GiveUp(x, a) => ResolveReplies(st, x, a, Refused);
    case Advance(x, mergeOk) => MovedReplies(st, x, mergeOk);
    case NoClient(x, a) => MissReplies(st, x, a);
    case StartCommit(x) => CommitReplies(st, x);
    case _ =>
  }
}
