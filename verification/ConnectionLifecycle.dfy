/** createDataLinkConn and disconnectConnOriented, run by any number of threads against each other, against the
    stack's callback thread and against every other change of the registry.  A thread that waits may wake at
    any moment, so the results hold whatever woke it: an answer, a disconnect, NFC going off, or nothing.  The
    one mutex that spans several steps, mDisconnectMutex, is explicit. */
module ConnectionLifecycle {
  import opened Options
  import opened PeerRegistry
  import opened PeerRegistryRuns
  import Conservation = ConnectionConservation
  import opened Reachability

  /** Where a JNI thread is.  Each point lies between two sections under a mutex. */
  datatype Pc =
    | AtRest
    // createDataLinkConn
    | Located(k: nat, jni: nat)                            // findClient has answered
    | Requested(k: nat, jni: nat)                          // waits on mConnectingEvent
    | Refused(k: nat, jni: nat)                            // the stack turned the request down
    | Awake(k: nat, jni: nat)                              // has returned from the wait
    | Linked(k: nat, jni: nat, h: int)                     // read a valid handle
    | Unlinked(k: nat, jni: nat)                           // read an invalid one, or was refused
    | ConnectDone(k: nat, jni: nat, ok: bool, h: int)
    // disconnectConnOriented
    | Target(c: nat, jni: nat)                             // findConnection has answered
    | Suspect(c: nat, jni: nat, client: Option<nat>)       // findClient has answered too
    | Closing(c: nat, jni: nat)                            // has woken senders and receivers
    | AwaitDisc(c: nat, jni: nat)                          // waits on mDisconnectingEvent
    | Leaving(jni: nat)                                    // about to lock mDisconnectMutex
    | Removing(jni: nat)
    | Removed(jni: nat)                                    // removeConn done, mutex still held
    | DisconnectDone(jni: nat)
    | Poked(jni: nat)                                      // only woke the connecting thread, and returned true

  /** The disconnect callback, from locking mDisconnectMutex to unlocking it. */
  datatype Stage = Quiet | Marking | Notifying(told: nat)

  const NOTIFICATIONS := 3 // mDisconnectingEvent, mCongEvent, mReadEvent

  datatype Owner = Nobody | Jni(t: nat) | Stack

  datatype State = State(w: World, pcs: map<nat, Pc>, owner: Owner, stage: Stage)

  datatype Step =
    | Env(a: Action)
    | Connect(t: nat, jni: nat)
    | Request(t: nat, accepted: bool)
    | Wake(t: nat)
    | Check(t: nat)
    | Finish(t: nat)
    | Disconnect(t: nat, jni: nat)
    | LookForClient(t: nat)
    | Decide(t: nat)
    | Hang(t: nat, accepted: bool)
    | TakeMutex(t: nat)
    | Remove(t: nat)
    | DropMutex(t: nat)
    | Rest(t: nat)
    | LockDisc
    | MarkDisc
    | NotifyDisc
    | UnlockDisc

  function At(s: State, t: nat): Pc { if t in s.pcs then s.pcs[t] else AtRest }

  predicate Connecting(pc: Pc, k: nat) {
    match pc
    case Located(x, _) => x == k
    case Requested(x, _) => x == k
    case Refused(x, _) => x == k
    case Awake(x, _) => x == k
    case Linked(x, _, _) => x == k
    case Unlinked(x, _) => x == k
    case ConnectDone(x, _, _, _) => x == k
    case _ => false
  }

  /** What other code and the stack may do.  The flag mIsConnecting is the connecting thread's, and the
      disconnect event's write is below. */
  predicate Ambient(a: Action, stage: Stage) {
    && !a.BeginConnect? && !a.EndConnect? && !a.StoreDisconnect?
    && (a.RegServerEvt? || a.ConnReqEvt? || a.RegClientEvt? || a.ConnectedEvt? || a.DiscEvt? ==> stage == Quiet)
  }

  /** When a step is possible.  A client has one connecting thread at a time. */
  ghost predicate Can(s: State, step: Step)
    requires Wf(s.w.reg)
  {
    match step
    case Env(a) => Ambient(a, s.stage) && PeerRegistryRuns.Can(s.w, a)
    case Connect(t, jni) =>
      && At(s, t) == AtRest
      && forall u <- s.pcs :: FindClient(s.w.reg, ByJni(jni)).Some? ==>
           !Connecting(s.pcs[u], FindClient(s.w.reg, ByJni(jni)).value)
    case Request(t, _) => At(s, t).Located?
    case Wake(t) => At(s, t).Requested? || At(s, t).AwaitDisc?
    case Check(t) => At(s, t).Awake? || At(s, t).Refused?
    case Finish(t) => At(s, t).Linked? || At(s, t).Unlinked?
    case Disconnect(t, _) => At(s, t) == AtRest
    case LookForClient(t) => At(s, t).Target?
    case Decide(t) => At(s, t).Suspect?
    case Hang(t, _) => At(s, t).Closing?
    case TakeMutex(t) => At(s, t).Leaving? && s.owner == Nobody
    case Remove(t) => At(s, t).Removing?
    case DropMutex(t) => At(s, t).Removed?
    case Rest(t) => At(s, t).ConnectDone? || At(s, t).DisconnectDone? || At(s, t).Poked?
    case LockDisc => s.w.cb.Disc? && s.stage == Quiet && s.owner == Nobody
    case MarkDisc => s.w.cb.Disc? && s.stage == Marking
    case NotifyDisc => s.stage.Notifying? && s.stage.told < NOTIFICATIONS
    case UnlockDisc => s.stage == Notifying(NOTIFICATIONS)
  }

  /** The objects a thread holds references to exist. */
  predicate Refers(w: World, pc: Pc) {
    match pc
    case Located(k, _) => k in w.reg.clients
    case Awake(k, _) => k in w.reg.clients && w.reg.clients[k].conn in w.reg.conns
    case Linked(k, _, _) => k in w.reg.clients
    case Suspect(_, _, client) => client.Some? ==> client.value in w.reg.clients
    case Closing(c, _) => c in w.reg.conns
    case _ => true
  }

  /** The registry section a thread's step is, if it is one. */
  function Section(s: State, step: Step): Option<Action> {
    match step
    case Env(a) => Some(a)
    case Request(t, _) => if At(s, t).Located? then Some(BeginConnect(At(s, t).k)) else None
    case Finish(t) =>
      if At(s, t).Linked? then Some(EndConnect(At(s, t).k))
      else if At(s, t).Unlinked? then Some(RemoveConnAct(At(s, t).jni)) else None
    case Remove(t) => if At(s, t).Removing? then Some(RemoveConnAct(At(s, t).jni)) else None
    case MarkDisc => Some(StoreDisconnect)
    case _ => None
  }

  predicate IsThreadStep(step: Step) {
    !step.Env? && !step.LockDisc? && !step.MarkDisc? && !step.NotifyDisc? && !step.UnlockDisc?
  }

  /** Where the thread is after its step. */
  ghost function Goes(s: State, step: Step): Pc
    requires Wf(s.w.reg) && Can(s, step) && IsThreadStep(step) && Refers(s.w, At(s, step.t))
  {
    var r, pc := s.w.reg, At(s, step.t);
    match step
    case Connect(_, jni) =>
      (match FindClient(r, ByJni(jni)) case Some(k) => Located(k, jni) case None => AtRest)
    case Request(_, accepted) => if accepted then Requested(pc.k, pc.jni) else Refused(pc.k, pc.jni)
    case Wake(_) => if pc.Requested? then Awake(pc.k, pc.jni) else Leaving(pc.jni)
    case Check(_) =>
      if pc.Refused? || r.conns[r.clients[pc.k].conn].nfa == INVALID then Unlinked(pc.k, pc.jni)
      else Linked(pc.k, pc.jni, r.conns[r.clients[pc.k].conn].nfa)
    case Finish(_) =>
      if pc.Linked? then ConnectDone(pc.k, pc.jni, true, pc.h) else ConnectDone(pc.k, pc.jni, false, INVALID)
    case Disconnect(_, jni) =>
      (match FindConnection(r, ByJni(jni)) case Some(c) => Target(c, jni) case None => AtRest)
    case LookForClient(_) => Suspect(pc.c, pc.jni, FindClient(r, ByJni(pc.jni)))
    case Decide(_) =>
      if pc.client.Some? && r.clients[pc.client.value].connecting then Poked(pc.jni) else Closing(pc.c, pc.jni)
    case Hang(_, accepted) =>
      if r.conns[pc.c].nfa != INVALID && accepted then AwaitDisc(pc.c, pc.jni) else Leaving(pc.jni)
    case TakeMutex(_) => Removing(pc.jni)
    case Remove(_) => Removed(pc.jni)
    case DropMutex(_) => DisconnectDone(pc.jni)
    case Rest(_) => AtRest
  }

  ghost predicate Possible(s: State, step: Step) {
    && Wf(s.w.reg) && Refs(s.w) && Can(s, step)
    && (IsThreadStep(step) ==> Refers(s.w, At(s, step.t)))
    && (Section(s, step).Some? ==> PeerRegistryRuns.Can(s.w, Section(s, step).value))
  }

  ghost function Next(s: State, step: Step): State
    requires Possible(s, step)
  {
    s.(w := if Section(s, step).Some? then Do(s.w, Section(s, step).value) else s.w,
       pcs := if IsThreadStep(step) then s.pcs[step.t := Goes(s, step)] else s.pcs,
       owner := match step
                case TakeMutex(t) => Jni(t)
                case LockDisc => Stack
                case DropMutex(_) => Nobody
                case UnlockDisc => Nobody
                case _ => s.owner,
       stage := match step
                case LockDisc => Marking
                case MarkDisc => Notifying(0)
                case NotifyDisc => Notifying(s.stage.told + 1)
                case UnlockDisc => Quiet
                case _ => s.stage)
  }

  const BEGIN := State(START, map[], Nobody, Quiet)

  /** Runs.  In a reachable state whatever Can allows is possible (ReachableCanIsPossible). */
  ghost predicate Legal(s: State, run: seq<Step>)
    decreases run
  {
    run == [] || (Possible(s, run[0]) && Legal(Next(s, run[0]), run[1..]))
  }

  ghost function After(s: State, run: seq<Step>): State
    requires Legal(s, run)
    decreases run
  {
    if run == [] then s else After(Next(s, run[0]), run[1..])
  }

  // ---- what a removal leaves behind ----

  /** No connection of the tables has this JNI handle, which has been given out. */
  ghost predicate Gone(w: World, jni: nat) {
    jni in w.jnis && forall c <- Members(w.reg) :: w.reg.conns[c].jni != jni
  }

  /** What stays: objects, their JNI handles, the JNI handles given out and the connection handles delivered. */
  ghost predicate Onward(w: World, w': World) {
    && w.jnis <= w'.jnis && w.delivered <= w'.delivered
    && w.reg.conns.Keys <= w'.reg.conns.Keys && w.reg.clients.Keys <= w'.reg.clients.Keys
    && (forall c <- w.reg.conns :: w'.reg.conns[c].jni == w.reg.conns[c].jni)
    && (forall k <- w.reg.clients :: w'.reg.clients[k].conn == w.reg.clients[k].conn)
    && (forall c <- w'.reg.conns :: c in w.reg.conns || w'.reg.conns[c].jni !in w.jnis)
  }

  lemma {:induction false} TableChangeIsOnward(w: World, a: Action)
    requires Wf(w.reg) && Refs(w) && PeerRegistryRuns.Can(w, a) && ChangesTables(a)
    ensures Onward(w, Do(w, a))
  {
    if a.RemoveConnAct? { RemoveConnTouchesOneSlot(w.reg, a.jni); }
  }

  lemma {:induction false} DoIsOnward(w: World, a: Action)
    requires Wf(w.reg) && Refs(w) && PeerRegistryRuns.Can(w, a)
    ensures Onward(w, Do(w, a))
  {
    if ChangesTables(a) { TableChangeIsOnward(w, a); }
  }

  lemma {:induction false} TablesOnlyByMaking(w: World, a: Action)
    requires Inv(w) && PeerRegistryRuns.Can(w, a) && ChangesTables(a)
    ensures forall c <- Members(Do(w, a).reg) :: c in Members(w.reg) || c !in w.reg.conns
  {
    match a {
      case RegisterServerAct(jni, name, s) => RegisterServerMembers(w.reg, jni, name, s);
      case RemoveServerAct(jni) => RemoveServerMembers(w.reg, jni);
      case RemoveConnAct(jni) => RemoveConnMembers(w.reg, jni);
      case DropServerConnAct(s, jni) => RemoveServerConnectionMembers(w.reg, s, jni);
      case TurnOn => NfcOnMembers(w.reg);
      case TurnOff => NfcOffMembers(w.reg);
      case CreateClientAct(jni, miu, rw, k, c) => CreateClientMembers(w.reg, jni, miu, rw, k, c);
      case AllocateAct(s, jni, c) => AllocateConnectionMembers(w.reg, s, jni, c);
    }
  }

  lemma {:induction false} HandleStoresKeepMembers(w: World, a: Action)
    requires Inv(w) && PeerRegistryRuns.Can(w, a) && StoresHandle(a)
    ensures Members(Do(w, a).reg) == Members(w.reg)
  {
    match a {
      case StoreDisconnect => SetConnHandleMembers(w.reg, w.cb.c, INVALID);
      case StoreServerHandle => StoreServerKeepsInv(w);
      case StoreConnRequest(miu, rw) => StoreKeepsInv(w, w.cb.c, miu, rw);
      case StoreConnected(miu, rw) => StoreKeepsInv(w, w.reg.clients[w.cb.k].conn, miu, rw);
    }
  }

  lemma {:induction false} MembersOnlyByMaking(w: World, a: Action)
    requires Inv(w) && PeerRegistryRuns.Can(w, a)
    ensures forall c <- Members(Do(w, a).reg) :: c in Members(w.reg) || c !in w.reg.conns
  {
    if ChangesTables(a) {
      TablesOnlyByMaking(w, a);
    } else if StoresHandle(a) {
      HandleStoresKeepMembers(w, a);
    } else if Marks(a) {
      MarkKeepsInv(w, a);
    } else {
      LookupKeepsInv(w, a);
    }
  }

  /** JNI handles are never given out twice, so what is gone stays gone. */
  lemma {:induction false} GoneStaysGone(w: World, a: Action, jni: nat)
    requires Inv(w) && PeerRegistryRuns.Can(w, a) && Gone(w, jni)
    ensures Gone(Do(w, a), jni)
  {
    DoIsOnward(w, a);
    MembersOnlyByMaking(w, a);
  }

  lemma {:induction false} RemovalMakesGone(w: World, jni: nat)
    requires Inv(w) && jni in w.jnis
    ensures Gone(Do(w, RemoveConnAct(jni)), jni)
  {
    RemoveConnMembers(w.reg, jni);
    RemoveConnKeepsConns(w.reg, jni);
    ScanFindsAMember(w.reg, ByJni(jni));
  }

  lemma {:induction false} GoneIsNotFound(w: World, jni: nat)
    requires Wf(w.reg) && Gone(w, jni)
    ensures FindConnection(w.reg, ByJni(jni)) == None && FindClient(w.reg, ByJni(jni)) == None
  {
    ScanFindsAMember(w.reg, ByJni(jni));
  }

  lemma {:induction false} HeldClientIsMember(r: Reg, k: nat)
    requires Wf(r) && k in r.clients && Holds(r.clientSlots, k)
    ensures r.clients[k].conn in Members(r)
  {
    assert ViaClient(r, r.clients[k].conn);
  }

  lemma {:induction false} GoneClientIsOut(w: World, k: nat, jni: nat)
    requires Wf(w.reg) && Gone(w, jni) && Names(w, k, jni)
    ensures !Holds(w.reg.clientSlots, k)
  {
    if Holds(w.reg.clientSlots, k) {
      HeldClientIsMember(w.reg, k);
    }
  }

  // ---- the invariant ----

  ghost predicate Names(w: World, k: nat, jni: nat) {
    && jni in w.jnis && k in w.reg.clients && w.reg.clients[k].conn in w.reg.conns
    && w.reg.conns[w.reg.clients[k].conn].jni == jni
  }

  /** What each thread may count on where it is. */
  ghost predicate PcOk(w: World, pc: Pc) {
    match pc
    case AtRest => true
    case Located(k, jni) => Names(w, k, jni)
    case Requested(k, jni) => Names(w, k, jni)
    case Refused(k, jni) => Names(w, k, jni)
    case Awake(k, jni) => Names(w, k, jni)
    case Unlinked(k, jni) => Names(w, k, jni)
    case Linked(k, jni, h) => Names(w, k, jni) && h != INVALID && h in w.delivered
    case ConnectDone(k, jni, ok, h) =>
      Names(w, k, jni) && if ok then !w.reg.clients[k].connecting && h != INVALID && h in w.delivered else Gone(w, jni)
    case Target(c, jni) => jni in w.jnis && c in w.reg.conns
    case Suspect(c, jni, client) => jni in w.jnis && c in w.reg.conns
                                    && (client.Some? ==> client.value in w.reg.clients)
    case Closing(c, jni) => jni in w.jnis && c in w.reg.conns
    case AwaitDisc(c, jni) => jni in w.jnis
    case Leaving(jni) => jni in w.jnis
    case Removing(jni) => jni in w.jnis
    case Removed(jni) => Gone(w, jni)
    case DisconnectDone(jni) => Gone(w, jni)
    case Poked(jni) => jni in w.jnis
  }

  predicate HoldsMutex(pc: Pc) { pc.Removing? || pc.Removed? }

  ghost predicate Exclusive(s: State) {
    && (s.owner == Stack <==> s.stage != Quiet)
    && (s.stage == Marking ==> s.w.cb.Disc?)
    && (s.owner.Jni? ==> s.owner.t in s.pcs)
    && forall t <- s.pcs :: HoldsMutex(s.pcs[t]) <==> s.owner == Jni(t)
  }

  ghost predicate OneConnector(s: State) {
    forall t <- s.pcs :: forall u <- s.pcs :: forall k <- s.w.reg.clients ::
      Connecting(s.pcs[t], k) && Connecting(s.pcs[u], k) ==> t == u
  }

  /** Every handle a connection has was delivered by the stack. */
  ghost predicate Genuine(w: World) {
    forall c <- w.reg.conns :: w.reg.conns[c].nfa == INVALID || w.reg.conns[c].nfa in w.delivered
  }

  lemma {:induction false} StaysGenuine(w: World, a: Action)
    requires Wf(w.reg) && Refs(w) && PeerRegistryRuns.Can(w, a) && Genuine(w)
    ensures Genuine(Do(w, a))
  {
    if a.RemoveConnAct? { RemoveConnKeepsConns(w.reg, a.jni); }
  }

  ghost predicate Sound(s: State) {
    && Inv(s.w) && Genuine(s.w) && Exclusive(s) && OneConnector(s)
    && forall t <- s.pcs :: PcOk(s.w, s.pcs[t])
  }

  /** Another thread's section, or the stack's, leaves a thread what it counts on. */
  lemma {:induction false} PcStaysOk(w: World, a: Action, pc: Pc)
    requires Inv(w) && PeerRegistryRuns.Can(w, a) && PcOk(w, pc)
    requires a.BeginConnect? ==> !Connecting(pc, a.k)
    ensures PcOk(Do(w, a), pc)
  {
    DoIsOnward(w, a);
    match pc {
      case ConnectDone(k, jni, ok, h) =>
        if ok { FlagStaysDown(w, a, k); } else { GoneStaysGone(w, a, jni); }
      case Removed(jni) => GoneStaysGone(w, a, jni);
      case DisconnectDone(jni) => GoneStaysGone(w, a, jni);
      case _ =>
    }
  }

  lemma {:induction false} FlagStaysDown(w: World, a: Action, k: nat)
    requires Wf(w.reg) && Refs(w) && PeerRegistryRuns.Can(w, a) && k in w.reg.clients && !w.reg.clients[k].connecting
    requires a != BeginConnect(k)
    ensures k in Do(w, a).reg.clients && !Do(w, a).reg.clients[k].connecting
  {
    if a.RemoveConnAct? { RemoveConnTouchesOneSlot(w.reg, a.jni); }
  }

  lemma {:induction false} CanIsPossible(s: State, step: Step)
    requires Sound(s) && Can(s, step)
    ensures Possible(s, step)
  {
    if IsThreadStep(step) { ThreadCanMove(s, step, At(s, step.t)); }
  }

  lemma {:induction false} ThreadCanMove(s: State, step: Step, pc: Pc)
    requires Wf(s.w.reg) && Can(s, step) && IsThreadStep(step) && pc == At(s, step.t) && PcOk(s.w, pc)
    ensures Refers(s.w, pc)
    ensures Section(s, step).Some? ==> PeerRegistryRuns.Can(s.w, Section(s, step).value)
  {
  }

  lemma {:induction false} FoundClientIsNamed(w: World, jni: nat)
    requires Inv(w)
    ensures FindClient(w.reg, ByJni(jni)).Some? ==> Names(w, FindClient(w.reg, ByJni(jni)).value, jni)
  {
  }

  lemma {:induction false} FoundConnIsNamed(w: World, jni: nat)
    requires Inv(w)
    ensures FindConnection(w.reg, ByJni(jni)).Some? ==>
              FindConnection(w.reg, ByJni(jni)).value in w.reg.conns && jni in w.jnis
  {
    ScanFindsAMember(w.reg, ByJni(jni));
  }

  /** The thread that moved: after a lookup, ... */
  lemma {:induction false} LookedUpOk(s: State, step: Step)
    requires Inv(s.w) && Possible(s, step) && IsThreadStep(step) && PcOk(s.w, At(s, step.t))
    requires step.Connect? || step.Disconnect? || step.LookForClient?
    ensures PcOk(s.w, Goes(s, step))
  {
    match step {
      case Connect(_, jni) => FoundClientIsNamed(s.w, jni);
      case Disconnect(_, jni) => FoundConnIsNamed(s.w, jni);
      case LookForClient(t) => FoundClientIsNamed(s.w, At(s, t).jni);
    }
  }

  /** ... after a step that only reads, ... */
  lemma {:induction false} MovedOk(s: State, step: Step)
    requires Possible(s, step) && IsThreadStep(step) && PcOk(s.w, At(s, step.t))
    requires !step.Connect? && !step.Disconnect? && !step.LookForClient? && Section(s, step) == None
    requires Genuine(s.w)
    ensures PcOk(s.w, Goes(s, step))
  {
  }

  /** ... and after a step that changes the registry. */
  lemma {:induction false} ChangerOk(s: State, step: Step)
    requires Inv(s.w) && Possible(s, step) && IsThreadStep(step) && PcOk(s.w, At(s, step.t)) && Section(s, step).Some?
    ensures PcOk(Do(s.w, Section(s, step).value), Goes(s, step))
  {
    var pc := At(s, step.t);
    DoIsOnward(s.w, Section(s, step).value);
    if pc.Unlinked? || pc.Removing? { RemovalMakesGone(s.w, pc.jni); }
  }

  lemma {:induction false} MoverOk(s: State, step: Step)
    requires Sound(s) && Possible(s, step) && IsThreadStep(step)
    ensures PcOk(Next(s, step).w, Goes(s, step))
  {
    assert PcOk(s.w, At(s, step.t));
    if Section(s, step).Some? {
      ChangerOk(s, step);
    } else if step.Connect? || step.Disconnect? || step.LookForClient? {
      LookedUpOk(s, step);
    } else {
      MovedOk(s, step);
    }
  }

  lemma {:induction false} OtherStaysOk(s: State, step: Step, t: nat)
    requires Sound(s) && Possible(s, step) && t in s.pcs && !(IsThreadStep(step) && t == step.t)
    ensures PcOk(Next(s, step).w, s.pcs[t])
  {
    if Section(s, step).Some? {
      if step.Request? { assert PcOk(s.w, s.pcs[step.t]); }
      PcStaysOk(s.w, Section(s, step).value, s.pcs[t]);
    }
  }

  lemma {:induction false} ThreadsStayOk(s: State, step: Step)
    requires Sound(s) && Possible(s, step)
    ensures forall t <- Next(s, step).pcs :: PcOk(Next(s, step).w, Next(s, step).pcs[t])
  {
    forall t | t in Next(s, step).pcs ensures PcOk(Next(s, step).w, Next(s, step).pcs[t]) {
      if IsThreadStep(step) && t == step.t { MoverOk(s, step); } else { OtherStaysOk(s, step, t); }
    }
  }

  lemma {:induction false} StageStaysOwned(s: State, step: Step)
    requires Exclusive(s) && Possible(s, step)
    ensures Next(s, step).owner == Stack <==> Next(s, step).stage != Quiet
    ensures Next(s, step).stage == Marking ==> Next(s, step).w.cb.Disc?
  {
    if Section(s, step).Some? && s.stage == Marking && !step.MarkDisc? {
      DiscStays(s.w, Section(s, step).value);
    }
  }

  lemma {:induction false} MutexStaysExclusive(s: State, step: Step)
    requires Exclusive(s) && Possible(s, step)
    ensures Exclusive(Next(s, step))
  {
    StageStaysOwned(s, step);
  }

  lemma {:induction false} DiscStays(w: World, a: Action)
    requires Wf(w.reg) && Refs(w) && PeerRegistryRuns.Can(w, a) && w.cb.Disc? && !a.StoreDisconnect?
    ensures Do(w, a).cb == w.cb
  {
  }

  lemma {:induction false} StillOneConnector(s: State, step: Step)
    requires Sound(s) && Possible(s, step)
    ensures OneConnector(Next(s, step))
  {
    var s' := Next(s, step);
    forall t, u, k | t in s'.pcs && u in s'.pcs && k in s'.w.reg.clients && Connecting(s'.pcs[t], k)
      && Connecting(s'.pcs[u], k)
      ensures t == u
    {
      SameConnector(s, step, t, k);
      SameConnector(s, step, u, k);
    }
  }

  /** Who is connecting a client after a step was before it, or has just found it. */
  lemma {:induction false} SameConnector(s: State, step: Step, t: nat, k: nat)
    requires Sound(s) && Possible(s, step) && t in Next(s, step).pcs && Connecting(Next(s, step).pcs[t], k)
    ensures k in s.w.reg.clients
    ensures (t in s.pcs && Connecting(s.pcs[t], k))
            || (step.Connect? && step.t == t && forall u <- s.pcs :: !Connecting(s.pcs[u], k))
  {
    if step.Connect? && step.t == t {
      FoundClientIsNamed(s.w, step.jni);
    } else {
      assert t in s.pcs;
      ConnectorStays(s, step, t, k);
    }
  }

  lemma {:induction false} ConnectorStays(s: State, step: Step, t: nat, k: nat)
    requires Possible(s, step) && t in s.pcs && Connecting(Next(s, step).pcs[t], k) && !(step.Connect? && step.t == t)
    requires PcOk(s.w, s.pcs[t])
    ensures k in s.w.reg.clients && Connecting(s.pcs[t], k)
  {
  }

  lemma {:induction false} NextIsSound(s: State, step: Step)
    requires Sound(s) && Possible(s, step)
    ensures Sound(Next(s, step))
  {
    if Section(s, step).Some? {
      DoKeepsInv(s.w, Section(s, step).value);
      StaysGenuine(s.w, Section(s, step).value);
    }
    ThreadsStayOk(s, step);
    MutexStaysExclusive(s, step);
    StillOneConnector(s, step);
  }

  lemma {:induction false} AfterIsSound(s: State, run: seq<Step>)
    requires Sound(s) && Legal(s, run)
    ensures Sound(After(s, run))
    decreases run
  {
    if run == [] {
    } else {
      NextIsSound(s, run[0]);
      AfterIsSound(Next(s, run[0]), run[1..]);
    }
  }

  // ---- the results ----

  /** Connect outcome, in every interleaving: createDataLinkConn returns true with mIsConnecting cleared and a
      valid handle read from its connection; when it returns false for a client it knew, the client is out of
      the table and the JNI handle finds nothing. */
  lemma {:induction false} ConnectOutcome(run: seq<Step>, t: nat)
    requires Legal(BEGIN, run) && At(After(BEGIN, run), t).ConnectDone?
    ensures var s := After(BEGIN, run);
            var pc := At(s, t);
            && pc.k in s.w.reg.clients
            && (pc.ok ==> !s.w.reg.clients[pc.k].connecting && pc.h != INVALID && pc.h in s.w.delivered)
            && (!pc.ok ==> !Holds(s.w.reg.clientSlots, pc.k)
                           && FindClient(s.w.reg, ByJni(pc.jni)) == None
                           && FindConnection(s.w.reg, ByJni(pc.jni)) == None)
  {
    StartIsSound();
    AfterIsSound(BEGIN, run);
    SoundMeansOutcome(After(BEGIN, run), t);
  }

  lemma {:induction false} SoundMeansOutcome(s: State, t: nat)
    requires Sound(s) && At(s, t).ConnectDone?
    ensures var pc := At(s, t);
            && pc.k in s.w.reg.clients
            && (pc.ok ==> !s.w.reg.clients[pc.k].connecting && pc.h != INVALID && pc.h in s.w.delivered)
            && (!pc.ok ==> !Holds(s.w.reg.clientSlots, pc.k)
                           && FindClient(s.w.reg, ByJni(pc.jni)) == None
                           && FindConnection(s.w.reg, ByJni(pc.jni)) == None)
  {
    var pc := s.pcs[t];
    assert PcOk(s.w, pc);
    if !pc.ok {
      GoneIsNotFound(s.w, pc.jni);
      GoneClientIsOut(s.w, pc.k, pc.jni);
    }
  }

  /** Disconnect exclusion: while a disconnecting thread is at its removeConn, no disconnect event is between
      its write and its last notification; and once the removal is done, the JNI handle finds nothing, for as
      long as the thread and everything else go on. */
  lemma {:induction false} DisconnectExclusion(run: seq<Step>, t: nat)
    requires Legal(BEGIN, run)
    ensures var s := After(BEGIN, run);
            && (At(s, t).Removing? || At(s, t).Removed? ==> s.stage == Quiet)
            && (At(s, t).Removed? || At(s, t).DisconnectDone? ==> FindConnection(s.w.reg, ByJni(At(s, t).jni)) == None)
  {
    StartIsSound();
    AfterIsSound(BEGIN, run);
    SoundMeansExclusion(After(BEGIN, run), t);
  }

  lemma {:induction false} SoundMeansExclusion(s: State, t: nat)
    requires Sound(s)
    ensures At(s, t).Removing? || At(s, t).Removed? ==> s.stage == Quiet
    ensures At(s, t).Removed? || At(s, t).DisconnectDone? ==> FindConnection(s.w.reg, ByJni(At(s, t).jni)) == None
  {
    if t in s.pcs {
      assert PcOk(s.w, s.pcs[t]);
      if s.pcs[t].Removed? || s.pcs[t].DisconnectDone? { GoneIsNotFound(s.w, s.pcs[t].jni); }
    }
  }

  lemma {:induction false} GoneForever(s: State, run: seq<Step>, jni: nat)
    requires Sound(s) && Legal(s, run) && Gone(s.w, jni)
    ensures FindConnection(After(s, run).w.reg, ByJni(jni)) == None
    decreases run
  {
    if run == [] {
      GoneIsNotFound(s.w, jni);
    } else {
      if Section(s, run[0]).Some? { GoneStaysGone(s.w, Section(s, run[0]).value, jni); }
      NextIsSound(s, run[0]);
      GoneForever(Next(s, run[0]), run[1..], jni);
    }
  }

  // ---- exactly when a disconnect takes the connection out ----

  /** The branch of disconnectConnOriented that only wakes the connecting thread */
  ghost predicate StillConnecting(s: State, t: nat)
    requires At(s, t).Suspect?
  {
    var k := At(s, t).client;
    k.Some? && k.value in s.w.reg.clients && s.w.reg.clients[k.value].connecting
  }

  /** The calls under way: thread t has not started another. */
  predicate SameCall(run: seq<Step>, t: nat) { Rest(t) !in run }

  predicate Returned(pc: Pc) { pc.DisconnectDone? || pc.Poked? }

  predicate TearingDown(pc: Pc, jni: nat) {
    match pc
    case Closing(_, j) => j == jni
    case AwaitDisc(_, j) => j == jni
    case Leaving(j) => j == jni
    case Removing(j) => j == jni
    case Removed(j) => j == jni
    case DisconnectDone(j) => j == jni
    case _ => false
  }

  lemma {:induction false} TeardownGoesOn(s: State, run: seq<Step>, t: nat, jni: nat)
    requires Legal(s, run) && SameCall(run, t) && TearingDown(At(s, t), jni)
    ensures TearingDown(At(After(s, run), t), jni)
    decreases run
  {
    if run == [] {
    } else {
      assert run[0] in run && forall x <- run[1..] :: x in run;
      TeardownGoesOn(Next(s, run[0]), run[1..], t, jni);
    }
  }

  lemma {:induction false} PokedStays(s: State, run: seq<Step>, t: nat)
    requires Legal(s, run) && SameCall(run, t) && At(s, t).Poked?
    ensures At(After(s, run), t) == At(s, t)
    ensures forall x <- run :: IsThreadStep(x) ==> x.t != t
    decreases run
  {
    if run == [] {
    } else {
      assert run[0] in run && forall x <- run[1..] :: x in run;
      PokedStays(Next(s, run[0]), run[1..], t);
      assert forall x <- run :: x == run[0] || x in run[1..];
    }
  }

  /** One step of any thread, of the stack's callback, or of the rest of the code */
  ghost predicate Moves(s: State, s': State) { exists step :: Possible(s, step) && Next(s, step) == s' }

  lemma {:induction false} ReachableIsSound(s: State)
    requires Reaches(Moves, BEGIN, s)
    ensures Sound(s)
  {
    StartIsSound();
    forall a, b | Sound(a) && Moves(a, b) ensures Sound(b) {
      var step :| Possible(a, step) && Next(a, step) == b;
      NextIsSound(a, step);
    }
    Kept(Moves, Sound, BEGIN, s);
  }

  /** No thread is ever stuck for want of the object its next step refers to. */
  lemma {:induction false} ReachableCanIsPossible(s: State, step: Step)
    requires Reaches(Moves, BEGIN, s)
    ensures Wf(s.w.reg) && (Can(s, step) ==> Possible(s, step))
  {
    ReachableIsSound(s);
    if Can(s, step) { CanIsPossible(s, step); }
  }

  lemma {:induction false} DecisionBranches(s: State, t: nat)
    requires Sound(s) && At(s, t).Suspect? && Possible(s, Decide(t))
    ensures var s1 := Next(s, Decide(t));
            && s1.w == s.w && At(s, t).jni in s.w.jnis
            && At(s1, t) == if StillConnecting(s, t) then Poked(At(s, t).jni) else Closing(At(s, t).c, At(s, t).jni)
  {
    assert PcOk(s.w, s.pcs[t]);
  }

  lemma {:induction false} TornDownIsGone(s: State, run: seq<Step>, t: nat, jni: nat)
    requires Sound(s) && Legal(s, run) && SameCall(run, t) && TearingDown(At(s, t), jni)
             && Returned(At(After(s, run), t))
    ensures At(After(s, run), t) == DisconnectDone(jni) && FindConnection(After(s, run).w.reg, ByJni(jni)) == None
  {
    AfterIsSound(s, run);
    TeardownGoesOn(s, run, t, jni);
    SoundMeansExclusion(After(s, run), t);
  }

  /** Every call that gets as far as looking at mIsConnecting, whatever goes on until it returns: it goes through
      its removal, and leaves nothing to find, exactly when the client it found was not connecting.  Otherwise no
      step of the call changes the registry, then or later. */
  lemma {:induction false} DisconnectRemovesExactly(s: State, t: nat, rest: seq<Step>)
    requires Reaches(Moves, BEGIN, s) && At(s, t).Suspect? && Possible(s, Decide(t))
    requires Legal(Next(s, Decide(t)), rest) && SameCall(rest, t) && Returned(At(After(Next(s, Decide(t)), rest), t))
    ensures var done := After(Next(s, Decide(t)), rest);
            && (At(done, t).DisconnectDone? <==> !StillConnecting(s, t))
            && (!StillConnecting(s, t) ==> FindConnection(done.w.reg, ByJni(At(s, t).jni)) == None)
            && (StillConnecting(s, t) ==>
                  Next(s, Decide(t)).w == s.w && forall x <- rest :: IsThreadStep(x) ==> x.t != t)
  {
    var s1 := Next(s, Decide(t));
    ReachableIsSound(s);
    DecisionBranches(s, t);
    if StillConnecting(s, t) {
      PokedStays(s1, rest, t);
    } else {
      NextIsSound(s, Decide(t));
      TornDownIsGone(s1, rest, t, At(s, t).jni);
    }
  }

  /** The handle the connecting thread is about to read */
  ghost function HandleToRead(s: State, t: nat): int
    requires At(s, t).Awake? && Refers(s.w, At(s, t))
  {
    s.w.reg.conns[s.w.reg.clients[At(s, t).k].conn].nfa
  }

  /** The connecting thread has only to finish. */
  predicate Concluding(pc: Pc, k: nat, jni: nat, ok: bool, h: int) {
    pc == ConnectDone(k, jni, ok, h) || (if ok then pc == Linked(k, jni, h) else pc == Unlinked(k, jni) && h == INVALID)
  }

  lemma {:induction false} ConclusionStays(s: State, run: seq<Step>, t: nat, k: nat, jni: nat, ok: bool, h: int)
    requires Legal(s, run) && SameCall(run, t) && Concluding(At(s, t), k, jni, ok, h)
    ensures Concluding(At(After(s, run), t), k, jni, ok, h)
    decreases run
  {
    if run == [] {
    } else {
      assert run[0] in run && forall x <- run[1..] :: x in run;
      ConclusionStays(Next(s, run[0]), run[1..], t, k, jni, ok, h);
    }
  }

  /** Whatever goes on until it returns, createDataLinkConn succeeds exactly when the stack had not refused the call and
      the handle it reads after its wait is a valid one, and it returns with that handle. */
  lemma {:induction false} ConnectSucceedsExactly(s: State, t: nat, rest: seq<Step>)
    requires Reaches(Moves, BEGIN, s) && (At(s, t).Awake? || At(s, t).Refused?) && Possible(s, Check(t))
    requires Legal(Next(s, Check(t)), rest) && SameCall(rest, t) && At(After(Next(s, Check(t)), rest), t).ConnectDone?
    ensures var done := At(After(Next(s, Check(t)), rest), t);
            && (done.ok <==> At(s, t).Awake? && HandleToRead(s, t) != INVALID)
            && (done.ok ==> done.h == HandleToRead(s, t))
  {
    var s1, pc := Next(s, Check(t)), At(s, t);
    var ok := pc.Awake? && HandleToRead(s, t) != INVALID;
    ConclusionStays(s1, rest, t, pc.k, pc.jni, ok, if ok then HandleToRead(s, t) else INVALID);
  }

  /** disconnectConnOriented waits for its disconnect exactly when the connection is up and the stack accepts. */
  lemma {:induction false} DisconnectWaitsExactly(s: State, t: nat, accepted: bool)
    requires Reaches(Moves, BEGIN, s) && At(s, t).Closing? && Possible(s, Hang(t, accepted))
    ensures At(Next(s, Hang(t, accepted)), t).AwaitDisc? <==> s.w.reg.conns[At(s, t).c].nfa != INVALID && accepted
    ensures Next(s, Hang(t, accepted)).w == s.w
  {
  }

  /** Whenever this call returns, nothing is found under the JNI handle. */
  ghost predicate AlwaysLeavesNothing(s: State, t: nat, jni: nat) {
    forall rest :: Legal(s, rest) && SameCall(rest, t) && Returned(At(After(s, rest), t)) ==>
      FindConnection(After(s, rest).w.reg, ByJni(jni)) == None
  }

  /** A call to disconnect is sure to leave nothing to find exactly when the client was not connecting, or somebody
      else had taken the connection out already. */
  lemma {:induction false} DisconnectIsSureExactly(s: State, t: nat)
    requires Reaches(Moves, BEGIN, s) && At(s, t).Suspect?
    ensures Possible(s, Decide(t))
    ensures AlwaysLeavesNothing(Next(s, Decide(t)), t, At(s, t).jni)
            <==> !StillConnecting(s, t) || FindConnection(s.w.reg, ByJni(At(s, t).jni)) == None
  {
    ReachableIsSound(s);
    CanIsPossible(s, Decide(t));
    var jni, s1 := At(s, t).jni, Next(s, Decide(t));
    DecisionBranches(s, t);
    if !StillConnecting(s, t) {
      forall rest | Legal(s1, rest) && SameCall(rest, t) && Returned(At(After(s1, rest), t))
        ensures FindConnection(After(s1, rest).w.reg, ByJni(jni)) == None
      {
        DisconnectRemovesExactly(s, t, rest);
      }
    } else if FindConnection(s.w.reg, ByJni(jni)) == None {
      StaysNotFound(s, t, jni);
    } else {
      assert Legal(s1, []) && After(s1, []) == s1 && SameCall([], t);
    }
  }

  lemma {:induction false} StaysNotFound(s: State, t: nat, jni: nat)
    requires Sound(s) && At(s, t).Suspect? && At(s, t).jni == jni && Possible(s, Decide(t))
    requires FindConnection(s.w.reg, ByJni(jni)) == None
    ensures AlwaysLeavesNothing(Next(s, Decide(t)), t, jni)
  {
    var s1 := Next(s, Decide(t));
    NextIsSound(s, Decide(t));
    DecisionBranches(s, t);
    ScanFindsAMember(s.w.reg, ByJni(jni));
    forall rest | Legal(s1, rest) ensures FindConnection(After(s1, rest).w.reg, ByJni(jni)) == None {
      GoneForever(s1, rest, jni);
    }
  }

  // ---- a disconnect that does not disconnect ----

  lemma {:induction false} Takes(s: State, step: Step)
    requires Possible(s, step)
    ensures Reaches(Moves, s, Next(s, step))
  {
    OneStep(Moves, s, Next(s, step));
  }

  lemma {:induction false} AmbientTakes(w: World, a: Action, w': World)
    requires Wf(w.reg) && Refs(w) && PeerRegistryRuns.Can(w, a) && Do(w, a) == w' && Ambient(a, Quiet)
    ensures Reaches(Moves, BEGIN.(w := w), BEGIN.(w := w'))
  {
    Takes(BEGIN.(w := w), Env(a));
  }

  lemma {:induction false} ClientComesUp()
    ensures Reaches(Moves, BEGIN, BEGIN.(w := Conservation.Registered(false, INVALID, {})))
  {
    var made, asked, up := Conservation.Created(), Conservation.Registering(),
        Conservation.Registered(false, INVALID, {});
    Conservation.ClientIsMade();
    Conservation.ClientIsAsked();
    AmbientTakes(START, Conservation.CREATE, made);
    AmbientTakes(made, RegClientEvt(7), asked);
    AmbientTakes(asked, StoreClientHandle, up);
    assert BEGIN.(w := START) == BEGIN;
    ReachesOn(Moves, BEGIN, BEGIN.(w := made), BEGIN.(w := asked));
    ReachesOn(Moves, BEGIN, BEGIN.(w := asked), BEGIN.(w := up));
  }

  /** The world with the connect request out. */
  function Asking(): World { Conservation.Registered(true, INVALID, {}).(outstanding := {0}) }

  /** A step that moves one thread and leaves the registry alone. */
  lemma {:induction false} MoveReaches(s: State, step: Step)
    requires Possible(s, step) && IsThreadStep(step) && Section(s, step) == None && !step.TakeMutex? && !step.DropMutex?
    ensures Reaches(Moves, s, s.(pcs := s.pcs[step.t := Goes(s, step)]))
  {
    Takes(s, step);
  }

  lemma {:induction false} ChangeReaches(s: State, step: Step, w: World)
    requires Possible(s, step) && IsThreadStep(step) && Section(s, step).Some? && !step.TakeMutex? && !step.DropMutex?
    requires w == Do(s.w, Section(s, step).value)
    ensures Reaches(Moves, s, s.(w := w, pcs := s.pcs[step.t := Goes(s, step)]))
  {
    Takes(s, step);
  }

  lemma {:induction false} RequestGoesOut(s: State)
    requires s == BEGIN.(w := Conservation.Registered(false, INVALID, {}))
    ensures Reaches(Moves, s, s.(w := Asking(), pcs := map[1 := Requested(0, 1)]))
  {
    ClientOneIsFound(false, INVALID);
    MoveReaches(s, Connect(1, 1));
    var s1 := s.(pcs := s.pcs[1 := Located(0, 1)]);
    RequestIsMade(s1);
    ReachesOn(Moves, s, s1, s.(w := Asking(), pcs := map[1 := Requested(0, 1)]));
  }

  lemma {:induction false} RequestIsMade(s: State)
    requires s == BEGIN.(w := Conservation.Registered(false, INVALID, {}), pcs := map[1 := Located(0, 1)])
    ensures Reaches(Moves, s, s.(w := Asking(), pcs := map[1 := Requested(0, 1)]))
  {
    ClientOneIsFound(false, INVALID);
    assert Do(s.w, BeginConnect(0)) == Asking();
    ChangeReaches(s, Request(1, true), Asking());
    assert s.pcs[1 := Requested(0, 1)] == map[1 := Requested(0, 1)];
  }

  lemma {:induction false} ClientOneIsFound(connecting: bool, h: int)
    ensures var r := Conservation.OneClient(7, connecting, h);
            && Wf(r) && FindClient(r, ByJni(1)) == Some(0) && FindConnection(r, ByJni(1)) == Some(0)
  {
    var r := Conservation.OneClient(7, connecting, h);
    assert 0 in ConnHits(r, ByJni(1));
    assert 0 in ClientHits(r, ByJni(1));
    assert r.clientSlots[0] == Some(0);
  }

  /** Threads 1 and 2 at these points */
  function Two(one: Pc, two: Pc): map<nat, Pc> { map[1 := one, 2 := two] }

  lemma {:induction false} TargetIsFound(s: State)
    requires s == BEGIN.(w := Asking(), pcs := map[1 := Requested(0, 1)])
    ensures Reaches(Moves, s, s.(pcs := Two(Requested(0, 1), Target(0, 1))))
  {
    ClientOneIsFound(true, INVALID);
    MoveReaches(s, Disconnect(2, 1));
    assert s.pcs[2 := Target(0, 1)] == Two(Requested(0, 1), Target(0, 1));
  }

  lemma {:induction false} ClientIsSuspected(s: State)
    requires s == BEGIN.(w := Asking(), pcs := Two(Requested(0, 1), Target(0, 1)))
    ensures Reaches(Moves, s, s.(pcs := Two(Requested(0, 1), Suspect(0, 1, Some(0)))))
  {
    ClientOneIsFound(true, INVALID);
    MoveReaches(s, LookForClient(2));
    assert s.pcs[2 := Suspect(0, 1, Some(0))] == Two(Requested(0, 1), Suspect(0, 1, Some(0)));
  }

  lemma {:induction false} ClientIsPoked(s: State)
    requires s == BEGIN.(w := Asking(), pcs := Two(Requested(0, 1), Suspect(0, 1, Some(0))))
    ensures Reaches(Moves, s, s.(pcs := Two(Requested(0, 1), Poked(1))))
  {
    ClientOneIsFound(true, INVALID);
    MoveReaches(s, Decide(2));
    assert s.pcs[2 := Poked(1)] == Two(Requested(0, 1), Poked(1));
  }

  lemma {:induction false} DisconnectOnlyPokes(s: State)
    requires s == BEGIN.(w := Asking(), pcs := map[1 := Requested(0, 1)])
    ensures Reaches(Moves, s, s.(pcs := Two(Requested(0, 1), Poked(1))))
  {
    var s1 := s.(pcs := Two(Requested(0, 1), Target(0, 1)));
    var s2 := s.(pcs := Two(Requested(0, 1), Suspect(0, 1, Some(0))));
    TargetIsFound(s);
    ClientIsSuspected(s1);
    ReachesOn(Moves, s, s1, s2);
    ClientIsPoked(s2);
    ReachesOn(Moves, s, s2, s.(pcs := Two(Requested(0, 1), Poked(1))));
  }

  /** The world with the answer on its way */
  function Answered(): World { Asking().(handles := {7, 20}, cb := ConnectAnswer(0, 20)) }

  lemma {:induction false} AnswerIsSent(s: State)
    requires s.w == Asking() && s.stage == Quiet
    ensures Reaches(Moves, s, s.(w := Answered()))
  {
    Conservation.OneClientLookups(7, true, INVALID);
    assert {7} + {20} == {7, 20};
    assert Do(s.w, ConnectedEvt(7, 20)) == Answered();
    Takes(s, Env(ConnectedEvt(7, 20)));
  }

  lemma {:induction false} AnswerIsStored(s: State)
    requires s.w == Answered() && s.stage == Quiet
    ensures Reaches(Moves, s, s.(w := Conservation.Registered(true, 20, {20})))
  {
    Conservation.OneClientLookups(7, true, INVALID);
    assert {7, 20} == {7} + {20} && {0} - {0} == {} && {} + {20} == {20};
    assert Do(s.w, StoreConnected(128, 1)) == Conservation.Registered(true, 20, {20});
    Takes(s, Env(StoreConnected(128, 1)));
  }

  lemma {:induction false} AnswerComes(s: State)
    requires s.w == Asking() && s.stage == Quiet
    ensures Reaches(Moves, s, s.(w := Conservation.Registered(true, 20, {20})))
  {
    var s1 := s.(w := Answered());
    AnswerIsSent(s);
    AnswerIsStored(s1);
    ReachesOn(Moves, s, s1, s.(w := Conservation.Registered(true, 20, {20})));
  }

  lemma {:induction false} ConnectWakes(s: State)
    requires s == BEGIN.(w := Conservation.Registered(true, 20, {20}), pcs := Two(Requested(0, 1), Poked(1)))
    ensures Reaches(Moves, s, s.(pcs := Two(Awake(0, 1), Poked(1))))
  {
    ClientOneIsFound(true, 20);
    MoveReaches(s, Wake(1));
    assert s.pcs[1 := Awake(0, 1)] == Two(Awake(0, 1), Poked(1));
  }

  lemma {:induction false} ConnectChecks(s: State)
    requires s == BEGIN.(w := Conservation.Registered(true, 20, {20}), pcs := Two(Awake(0, 1), Poked(1)))
    ensures Reaches(Moves, s, s.(pcs := Two(Linked(0, 1, 20), Poked(1))))
  {
    ClientOneIsFound(true, 20);
    MoveReaches(s, Check(1));
    assert s.pcs[1 := Linked(0, 1, 20)] == Two(Linked(0, 1, 20), Poked(1));
  }

  lemma {:induction false} ConnectFinishes(s: State)
    requires s == BEGIN.(w := Conservation.Registered(true, 20, {20}), pcs := Two(Linked(0, 1, 20), Poked(1)))
    ensures Reaches(Moves, s, s.(w := Conservation.Registered(false, 20, {20}),
                                 pcs := Two(ConnectDone(0, 1, true, 20), Poked(1))))
  {
    Conservation.ConnectEnds(20, {20});
    assert Section(s, Finish(1)) == Some(EndConnect(0));
    ChangeReaches(s, Finish(1), Conservation.Registered(false, 20, {20}));
    assert s.pcs[1 := ConnectDone(0, 1, true, 20)] == Two(ConnectDone(0, 1, true, 20), Poked(1));
  }

  /** A disconnect asked for while the client is still connecting only wakes the connecting thread.  When the
      stack's answer arrives before that thread looks, both calls return true and the connection is up. */
  lemma {:induction false} DisconnectCanBeSwallowed()
    ensures exists s :: Reaches(Moves, BEGIN, s) && At(s, 2) == Poked(1) && At(s, 1) == ConnectDone(0, 1, true, 20)
                        && FindConnection(s.w.reg, ByJni(1)) == Some(0) && s.w.reg.conns[0].nfa == 20
  {
    var a := BEGIN.(w := Conservation.Registered(false, INVALID, {}));
    var b := BEGIN.(w := Asking(), pcs := map[1 := Requested(0, 1)]);
    var c := b.(pcs := Two(Requested(0, 1), Poked(1)));
    var d := c.(w := Conservation.Registered(true, 20, {20}));
    var e := d.(pcs := Two(Awake(0, 1), Poked(1)));
    var f := d.(pcs := Two(Linked(0, 1, 20), Poked(1)));
    var g := d.(w := Conservation.Registered(false, 20, {20}), pcs := Two(ConnectDone(0, 1, true, 20), Poked(1)));
    ClientComesUp();
    RequestGoesOut(a);
    ReachesOn(Moves, BEGIN, a, b);
    DisconnectOnlyPokes(b);
    ReachesOn(Moves, BEGIN, b, c);
    AnswerComes(c);
    ReachesOn(Moves, BEGIN, c, d);
    ConnectWakes(d);
    ReachesOn(Moves, BEGIN, d, e);
    ConnectChecks(e);
    ReachesOn(Moves, BEGIN, e, f);
    ConnectFinishes(f);
    ReachesOn(Moves, BEGIN, f, g);
    ClientOneIsFound(false, 20);
  }
}
