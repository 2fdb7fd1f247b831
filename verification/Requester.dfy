/**
 The requesting agent next to the broker: a ResourceRequest goes through its reconciler, the
 HTTP client's retries, the broker's handler and the creation of a ReservationInstruction.
 The broker is the whole state machine of Protocol; all workers of both sides interleave.
 */
module Requester {
  import opened Quantities
  import opened Decision
  import opened Protocol
  import opened Safety

  /** The client sends a request at most this many times after the first. */
  const MAX_RETRIES: nat := 3

  /** The phases "", Pending, Reserved and Failed of a ResourceRequest. */
  datatype Stage = Untouched | Waiting | Granted | Refused

  datatype Status = Status(stage: Stage, target: ClusterId, reservation: nat)

  const NEW := Status(Untouched, NO_ID, 0)
  const FAILED := Status(Refused, NO_ID, 0)

  datatype Request = Request(
    agent: ClusterId, namespace: nat, amount: Amount, duration: Option<int>, priority: int, versions: seq<Status>)

  datatype Key = Key(agent: ClusterId, namespace: nat, reservation: nat)

  datatype Instruction = Instruction(target: ClusterId, amount: Amount)

  datatype CallPc =
    | Announcing
    | Calling(tries: nat, handler: Option<nat>)
    | Noting(reply: Reply)
    | Settling(status: Status)
    | Over

  /** One run of the request reconciler, on version `ver` of request `q`. */
  datatype Call = Call(pc: CallPc, q: nat, ver: nat)

  datatype System = System(
    broker: State, requests: seq<Request>, calls: seq<Call>, instructions: map<Key, Instruction>)

  const START := System(INIT, [], [], map[])

  predicate Final(stage: Stage) {
    stage == Granted || stage == Refused
  }

  function KeyOf(r: Request, reply: Reply): Key {
    Key(r.agent, r.namespace, reply.rid)
  }

  datatype Happening =
    | Elsewhere(e: Event)
    | Submit(agent: ClusterId, namespace: nat, amount: Amount, duration: Option<int>, priority: int)
    | Begin(q: nat, ver: nat, configured: bool)
    | Announce(c: nat, ok: bool)
    | Send(c: nat, view: seq<Candidate>)
    | LoseRequest(c: nat)
    | Receive(c: nat)
    | Reject(c: nat)
    | Cancel(c: nat)
    | Note(c: nat, ok: bool)
    | Settle(c: nat, ok: bool)
    | Crash(c: nat)

  function Caller(e: Happening): Option<nat> {
    match e
    case Announce(c, _) => Some(c)
    case Send(c, _) => Some(c)
    case LoseRequest(c) => Some(c)
    case Receive(c) => Some(c)
    case Reject(c) => Some(c)
    case Cancel(c) => Some(c)
    case Note(c, _) => Some(c)
    case Settle(c, _) => Some(c)
    case Crash(c) => Some(c)
    case _ => None
  }

  predicate CallAt(s: System, c: nat) {
    c < |s.calls| && s.calls[c].q < |s.requests|
  }

  function Move(s: System, c: nat, pc: CallPc): System
    requires c < |s.calls|
  {
    s.(calls := s.calls[c := s.calls[c].(pc := pc)])
  }

  /** The status write: it succeeds only on the version the call holds. */
  function Update(s: System, c: nat, ok: bool, status: Status, pc: CallPc): System
    requires CallAt(s, c)
  {
    var call := s.calls[c];
    var r := s.requests[call.q];
    if ok && call.ver + 1 == |r.versions| then
      s.(requests := s.requests[call.q := r.(versions := r.versions + [status])],
         calls := s.calls[c := call.(pc := pc, ver := |r.versions|)])
    else Move(s, c, Over)
  }

  function DoBegin(s: System, q: nat, ver: nat, configured: bool): System {
    if q >= |s.requests| || ver >= |s.requests[q].versions| || Final(s.requests[q].versions[ver].stage) then s
    else
      var pc := if !configured then Settling(FAILED)
                else if s.requests[q].versions[ver].stage == Untouched then Announcing
                else Calling(0, None);
      s.(calls := s.calls + [Call(pc, q, ver)])
  }

  function DoAnnounce(s: System, c: nat, ok: bool): System {
    if !CallAt(s, c) || s.calls[c].pc != Announcing then s
    else Update(s, c, ok, Status(Waiting, NO_ID, 0), Calling(0, None))
  }

  /** One attempt that reaches the broker. A refusal there is an error status, which is not retried. */
  function DoSend(s: System, c: nat, view: seq<Candidate>): System {
    if !CallAt(s, c) || !s.calls[c].pc.Calling? || s.calls[c].pc.tries > MAX_RETRIES then s
    else
      var r := s.requests[s.calls[c].q];
      var broker := Next(s.broker, HandlerBegin(r.agent, r.amount, r.duration, r.priority, view));
      if |broker.workers| == |s.broker.workers| then Move(s, c, Settling(FAILED))
      else Move(s.(broker := broker), c, Calling(s.calls[c].pc.tries + 1, Some(|s.broker.workers|)))
  }

  /** One attempt that does not reach it. */
  function DoLoseRequest(s: System, c: nat): System {
    if !CallAt(s, c) || !s.calls[c].pc.Calling? || s.calls[c].pc.tries > MAX_RETRIES then s
    else Move(s, c, Calling(s.calls[c].pc.tries + 1, None))
  }

  /** The answer to the latest attempt arrives. */
  function DoReceive(s: System, c: nat): System {
    if !CallAt(s, c) || !s.calls[c].pc.Calling? || s.calls[c].pc.handler.None? then s
    else
      var h := s.calls[c].pc.handler.value;
      if h >= |s.broker.workers| || !s.broker.workers[h].Keeper? || !s.broker.workers[h].answered then s
      else Move(s, c, Noting(ReplyOf(s.broker.workers[h])))
  }

  /** An error answer from the latest attempt's handler, or no attempts left. */
  function DoReject(s: System, c: nat): System {
    if !CallAt(s, c) || !s.calls[c].pc.Calling? then s
    else
      var h := s.calls[c].pc.handler;
      var refused := h.Some? && h.value < |s.broker.workers| && s.broker.workers[h.value].Keeper?
                     && !s.broker.workers[h.value].answered;
      if refused || s.calls[c].pc.tries > MAX_RETRIES then Move(s, c, Settling(FAILED)) else s
  }

  /** The context is cancelled while the client waits to try again. */
  function DoCancel(s: System, c: nat): System {
    if !CallAt(s, c) || !s.calls[c].pc.Calling? then s else Move(s, c, Settling(FAILED))
  }

  /** Create the instruction unless one of that name is there. */
  function DoNote(s: System, c: nat, ok: bool): System {
    if !CallAt(s, c) || !s.calls[c].pc.Noting? then s
    else
      var reply := s.calls[c].pc.reply;
      var key := KeyOf(s.requests[s.calls[c].q], reply);
      if !ok then Move(s, c, Settling(Status(Refused, reply.target, reply.rid)))
      else
        var noted := if key in s.instructions then s.instructions
                     else s.instructions[key := Instruction(reply.target, reply.request)];
        Move(s.(instructions := noted), c, Settling(Status(Granted, reply.target, reply.rid)))
  }

  function DoSettle(s: System, c: nat, ok: bool): System {
    if !CallAt(s, c) || !s.calls[c].pc.Settling? then s
    else Update(s, c, ok, s.calls[c].pc.status, Over)
  }

  function Advance(s: System, e: Happening): System {
    match e
    case Elsewhere(b) => s.(broker := Next(s.broker, b))
    case Submit(agent, namespace, amount, duration, priority) =>
      s.(requests := s.requests + [Request(agent, namespace, amount, duration, priority, [NEW])])
    case Begin(q, ver, configured) => DoBegin(s, q, ver, configured)
    case Announce(c, ok) => DoAnnounce(s, c, ok)
    case Send(c, view) => DoSend(s, c, view)
    case LoseRequest(c) => DoLoseRequest(s, c)
    case Receive(c) => DoReceive(s, c)
    case Reject(c) => DoReject(s, c)
    case Cancel(c) => DoCancel(s, c)
    case Note(c, ok) => DoNote(s, c, ok)
    case Settle(c, ok) => DoSettle(s, c, ok)
    case Crash(c) => if c < |s.calls| then Move(s, c, Over) else s
  }

  function Unfold(s: System, events: seq<Happening>): System {
    if |events| == 0 then s else Advance(Unfold(s, events[..|events| - 1]), Last(events))
  }

  // ----- handlers and their answers -----

  predicate Handler(broker: State, h: nat) {
    h < |broker.workers| && broker.workers[h].Keeper? && broker.workers[h].handler
  }

  /** Handler h has answered `reply` to a request of `amount` by `agent`, and is over. */
  predicate Answers(broker: State, h: nat, agent: ClusterId, amount: Amount, reply: Reply) {
    && Handler(broker, h) && broker.workers[h].answered && broker.workers[h].pc == Idle
    && broker.workers[h].snap.requester == agent
    && ReplyOf(broker.workers[h]) == reply && reply.request == amount
  }

  ghost predicate Answered(broker: State, agent: ClusterId, amount: Amount, reply: Reply) {
    exists h: nat :: Answers(broker, h, agent, amount, reply)
  }

  predicate KeeperDone(broker: State, w: nat)
    requires w < |broker.workers|
  {
    broker.workers[w].Keeper? ==>
      && broker.workers[w].rid < |broker.reservations|
      && (broker.workers[w].answered ==> broker.workers[w].handler && broker.workers[w].pc == Idle)
  }

  /** Answered handlers are over, and no two handlers share a reservation. */
  ghost predicate HandlersOK(broker: State) {
    && (forall w :: 0 <= w < |broker.workers| ==> KeeperDone(broker, w))
    && (forall h: nat, g: nat :: SameReservation(broker, h, g) ==> h == g)
  }

  predicate SameReservation(broker: State, h: nat, g: nat) {
    Handler(broker, h) && Handler(broker, g) && broker.workers[h].rid == broker.workers[g].rid
  }

  lemma AnsweredIsOver(s: State, e: Event, w: nat)
    requires w < |s.workers| && s.workers[w].Keeper? && s.workers[w].pc == Idle && Actor(e) == Some(w)
    ensures w < |Next(s, e).workers| && Next(s, e).workers[w] == s.workers[w]
    ensures |Next(s, e).reservations| == |s.reservations|
  {
  }

  lemma MarkIsOver(s: State, w: nat, ok: bool, now: int)
    requires w < |s.workers| && s.workers[w].Keeper? && KeeperDone(s, w)
    ensures w < |DoMark(s, w, ok, now).workers| && KeeperDone(DoMark(s, w, ok, now), w)
    ensures |DoMark(s, w, ok, now).reservations| == |s.reservations|
  {
  }

  lemma ReadsAreUnanswered(s: State, e: Event, w: nat)
    requires w < |s.workers| && s.workers[w].Keeper? && Actor(e) == Some(w) && KeeperDone(s, w)
    requires s.workers[w].pc != Idle
    requires e.LockRead? || e.LockGiveUp? || e.FreeRead? || e.Abort?
    ensures w < |Next(s, e).workers| && KeeperDone(Next(s, e), w)
    ensures |Next(s, e).reservations| == |s.reservations|
  {
  }

  lemma WritesAreUnanswered(s: State, e: Event, w: nat)
    requires w < |s.workers| && s.workers[w].Keeper? && Actor(e) == Some(w) && KeeperDone(s, w)
    requires s.workers[w].pc != Idle
    requires e.Finalize? || e.Retarget? || e.Unfinalize? || e.LockCommit? || e.FreeCommit?
    ensures w < |Next(s, e).workers| && KeeperDone(Next(s, e), w)
    ensures |Next(s, e).reservations| == |s.reservations|
  {
  }

  lemma StepKeeperDone(s: State, e: Event, w: nat)
    requires w < |s.workers| && s.workers[w].Keeper? && Actor(e) == Some(w) && KeeperDone(s, w)
    ensures w < |Next(s, e).workers| && KeeperDone(Next(s, e), w)
    ensures |Next(s, e).reservations| == |s.reservations|
  {
    if s.workers[w].pc == Idle {
      AnsweredIsOver(s, e, w);
    } else if e.Mark? {
      MarkIsOver(s, w, e.ok, e.now);
    } else if e.Finalize? || e.Retarget? || e.Unfinalize? || e.LockCommit? || e.FreeCommit? {
      WritesAreUnanswered(s, e, w);
    } else if e.LockRead? || e.LockGiveUp? || e.FreeRead? || e.Abort? {
      ReadsAreUnanswered(s, e, w);
    }
  }

  /** What one event does to a worker that was there before. */
  lemma OldWorker(s: State, e: Event, w: nat)
    requires w < |s.workers| && KeeperDone(s, w)
    ensures w < |Next(s, e).workers| && KeeperDone(Next(s, e), w)
    ensures Handler(Next(s, e), w) <==> Handler(s, w)
    ensures Handler(s, w) ==> Next(s, e).workers[w].rid == s.workers[w].rid
    ensures Handler(s, w) && s.workers[w].answered ==> Next(s, e).workers[w] == s.workers[w]
  {
    ReservationsGrow(s, e);
    if Actor(e) != Some(w) {
      OthersKeepWorker(s, e, w);
    } else if s.workers[w].Keeper? {
      StepKeepsRequest(s, e, w);
      StepKeeperDone(s, e, w);
      if s.workers[w].pc == Idle {
        AnsweredIsOver(s, e, w);
      }
    } else {
      OtherKindsStay(s, e, w);
    }
  }

  lemma ReservationsGrow(s: State, e: Event)
    ensures |s.reservations| <= |Next(s, e).reservations|
  {
  }

  /** A handler that has just begun has a reservation of its own. */
  lemma NewWorker(s: State, e: Event)
    requires e.UserCreate? || e.UserSignal? || e.UserDelete? || e.HandlerBegin? || e.ReconcileBegin?
          || e.PublishBegin? || e.RecalcBegin?
    ensures |Next(s, e).workers| <= |s.workers| + 1
    ensures |Next(s, e).workers| == |s.workers| + 1 ==>
      && KeeperDone(Next(s, e), |s.workers|)
      && (Handler(Next(s, e), |s.workers|) ==>
            e.HandlerBegin? && Next(s, e).workers[|s.workers|].rid == |s.reservations|)
  {
  }

  lemma NoNewWorker(s: State, e: Event)
    requires Actor(e).Some?
    ensures |Next(s, e).workers| == |s.workers|
  {
  }

  lemma AnyNewWorker(s: State, e: Event)
    ensures |Next(s, e).workers| <= |s.workers| + 1
    ensures |Next(s, e).workers| == |s.workers| + 1 ==>
      && KeeperDone(Next(s, e), |s.workers|)
      && (Handler(Next(s, e), |s.workers|) ==> Next(s, e).workers[|s.workers|].rid == |s.reservations|)
  {
    if Actor(e).Some? {
      NoNewWorker(s, e);
    } else {
      NewWorker(s, e);
    }
  }

  lemma HandlersStayApart(s: State, e: Event)
    requires HandlersOK(s)
    ensures HandlersOK(Next(s, e))
  {
    var s' := Next(s, e);
    forall w | 0 <= w < |s'.workers| ensures KeeperDone(s', w) {
      NextKeeperDone(s, e, w);
    }
    forall h: nat, g: nat | SameReservation(s', h, g) ensures h == g {
      TwoHandlersApart(s, e, h, g);
    }
  }

  lemma NextKeeperDone(s: State, e: Event, w: nat)
    requires HandlersOK(s) && w < |Next(s, e).workers|
    ensures KeeperDone(Next(s, e), w)
  {
    if w < |s.workers| {
      OldWorker(s, e, w);
    } else {
      AnyNewWorker(s, e);
    }
  }

  lemma TwoHandlersApart(s: State, e: Event, h: nat, g: nat)
    requires HandlersOK(s) && SameReservation(Next(s, e), h, g)
    ensures h == g
  {
    AnyNewWorker(s, e);
    if h < |s.workers| {
      OldWorker(s, e, h);
    }
    if g < |s.workers| {
      OldWorker(s, e, g);
    }
    assert h < |s.workers| && g < |s.workers| ==> SameReservation(s, h, g);
  }

  /** A given answer stays given. */
  lemma AnsweredStays(s: State, e: Event, agent: ClusterId, amount: Amount, reply: Reply)
    requires HandlersOK(s) && Answered(s, agent, amount, reply)
    ensures Answered(Next(s, e), agent, amount, reply)
  {
    var h: nat :| Answers(s, h, agent, amount, reply);
    OldWorker(s, e, h);
    assert Answers(Next(s, e), h, agent, amount, reply);
  }

  // ----- the invariant of the whole system -----

  /** What a granted status promises: an answered handler call for this request, and its instruction. */
  ghost predicate Kept(s: System, r: Request, status: Status) {
    && Answered(s.broker, r.agent, r.amount, Reply(status.reservation, status.target, r.amount))
    && Key(r.agent, r.namespace, status.reservation) in s.instructions
    && s.instructions[Key(r.agent, r.namespace, status.reservation)] == Instruction(status.target, r.amount)
  }

  ghost predicate RequestOK(s: System, r: Request) {
    && |r.versions| > 0
    && (forall i :: 0 <= i < |r.versions| - 1 ==> !Final(r.versions[i].stage))
    && (Last(r.versions).stage == Granted ==> Kept(s, r, Last(r.versions)))
  }

  predicate Asked(broker: State, h: nat, r: Request) {
    && Handler(broker, h)
    && broker.workers[h].snap.requester == r.agent && broker.workers[h].snap.request == r.amount
  }

  ghost predicate CallOK(s: System, call: Call) {
    && call.q < |s.requests| && call.ver < |s.requests[call.q].versions|
    && (call.pc == Over || !Final(s.requests[call.q].versions[call.ver].stage))
    && match call.pc
      case Calling(tries, handler) =>
        tries <= MAX_RETRIES + 1 && (handler.Some? ==> Asked(s.broker, handler.value, s.requests[call.q]))
      case Noting(reply) => Answered(s.broker, s.requests[call.q].agent, s.requests[call.q].amount, reply)
      case Settling(status) => Final(status.stage) && (status.stage == Granted ==> Kept(s, s.requests[call.q], status))
      case _ => true
  }

  ghost predicate InstructionOK(s: System, key: Key)
    requires key in s.instructions
  {
    var i := s.instructions[key];
    Answered(s.broker, key.agent, i.amount, Reply(key.reservation, i.target, i.amount))
  }

  ghost predicate RequestsOK(s: System) {
    forall q :: 0 <= q < |s.requests| ==> RequestOK(s, s.requests[q])
  }

  ghost predicate CallsOK(s: System) {
    forall c :: 0 <= c < |s.calls| ==> CallOK(s, s.calls[c])
  }

  ghost predicate InstructionsOK(s: System) {
    forall key :: key in s.instructions ==> InstructionOK(s, key)
  }

  ghost predicate SystemInv(s: System) {
    Reachable(s.broker) && HandlersOK(s.broker) && RequestsOK(s) && CallsOK(s) && InstructionsOK(s)
  }

  lemma BrokerMoves(s: System, e: Event)
    requires SystemInv(s)
    ensures SystemInv(s.(broker := Next(s.broker, e)))
  {
    var s' := s.(broker := Next(s.broker, e));
    assert Did(s.broker, e, s'.broker);
    DidLeads(INIT, s.broker, e, s'.broker);
    HandlersStayApart(s.broker, e);
    forall q | 0 <= q < |s'.requests| ensures RequestOK(s', s'.requests[q]) {
      assert RequestOK(s, s.requests[q]);
      if Last(s.requests[q].versions).stage == Granted {
        KeptStays(s, e, s.requests[q], Last(s.requests[q].versions));
      }
    }
    forall c | 0 <= c < |s'.calls| ensures CallOK(s', s'.calls[c]) {
      CallStays(s, e, s.calls[c]);
    }
    forall key | key in s'.instructions ensures InstructionOK(s', key) {
      var i := s.instructions[key];
      assert InstructionOK(s, key);
      AnsweredStays(s.broker, e, key.agent, i.amount, Reply(key.reservation, i.target, i.amount));
    }
  }

  lemma KeptStays(s: System, e: Event, r: Request, status: Status)
    requires HandlersOK(s.broker) && Kept(s, r, status)
    ensures Kept(s.(broker := Next(s.broker, e)), r, status)
  {
    AnsweredStays(s.broker, e, r.agent, r.amount, Reply(status.reservation, status.target, r.amount));
  }

  lemma CallStays(s: System, e: Event, call: Call)
    requires HandlersOK(s.broker) && CallOK(s, call)
    ensures CallOK(s.(broker := Next(s.broker, e)), call)
  {
    var r := s.requests[call.q];
    match call.pc
    case Calling(_, handler) =>
      if handler.Some? {
        OldWorker(s.broker, e, handler.value);
        StepKeepsRequest(s.broker, e, handler.value);
      }
    case Noting(reply) => AnsweredStays(s.broker, e, r.agent, r.amount, reply);
    case Settling(status) =>
      if status.stage == Granted {
        KeptStays(s, e, r, status);
      }
    case _ =>
  }

  lemma CallMoves(s: System, c: nat, pc: CallPc)
    requires SystemInv(s) && c < |s.calls| && CallOK(s, s.calls[c].(pc := pc))
    ensures SystemInv(Move(s, c, pc))
  {
    var s' := Move(s, c, pc);
    forall d | 0 <= d < |s'.calls| ensures CallOK(s', s'.calls[d]) {
      assert CallOK(s, s'.calls[d]);
    }
    forall q | 0 <= q < |s'.requests| ensures RequestOK(s', s'.requests[q]) {
      assert RequestOK(s, s.requests[q]);
    }
    forall key | key in s'.instructions ensures InstructionOK(s', key) {
      assert InstructionOK(s, key);
    }
  }

  /** More requests, more versions or more instructions invalidate nothing said about a call. */
  lemma CallOKGrows(s: System, s': System, call: Call)
    requires CallOK(s, call) && s'.broker == s.broker
    requires call.q < |s'.requests| && s'.requests[call.q].(versions := []) == s.requests[call.q].(versions := [])
    requires s.requests[call.q].versions <= s'.requests[call.q].versions
    requires forall key :: key in s.instructions ==>
      key in s'.instructions && s'.instructions[key] == s.instructions[key]
    ensures CallOK(s', call)
  {
    var r, r' := s.requests[call.q], s'.requests[call.q];
    assert r'.(versions := []).agent == r.agent && r'.(versions := []).namespace == r.namespace;
    assert r'.(versions := []).amount == r.amount;
    assert r'.versions[call.ver] == r.versions[call.ver];
  }

  lemma StatusWritten(s: System, c: nat, ok: bool, status: Status, pc: CallPc)
    requires SystemInv(s) && CallAt(s, c) && s.calls[c].pc != Over
    requires status.stage == Granted ==> Kept(s, s.requests[s.calls[c].q], status)
    requires pc == Over || (pc == Calling(0, None) && !Final(status.stage))
    ensures SystemInv(Update(s, c, ok, status, pc))
  {
    var call := s.calls[c];
    assert CallOK(s, call);
    var r := s.requests[call.q];
    if ok && call.ver + 1 == |r.versions| {
      var s' := Update(s, c, ok, status, pc);
      forall d | 0 <= d < |s'.calls| ensures CallOK(s', s'.calls[d]) {
        if d != c {
          CallOKGrows(s, s', s.calls[d]);
        }
      }
      forall q | 0 <= q < |s'.requests| ensures RequestOK(s', s'.requests[q]) {
        assert RequestOK(s, s.requests[q]);
      }
      forall key | key in s'.instructions ensures InstructionOK(s', key) {
        assert InstructionOK(s, key);
      }
    } else {
      CallMoves(s, c, Over);
    }
  }

  lemma RequestsBegin(s: System, e: Happening)
    requires SystemInv(s) && (e.Submit? || e.Begin?)
    ensures SystemInv(Advance(s, e))
  {
    var s' := Advance(s, e);
    forall d | 0 <= d < |s'.calls| ensures CallOK(s', s'.calls[d]) {
      if d < |s.calls| {
        CallOKGrows(s, s', s.calls[d]);
      }
    }
    forall q | 0 <= q < |s'.requests| ensures RequestOK(s', s'.requests[q]) {
      if q < |s.requests| {
        assert RequestOK(s, s.requests[q]);
      }
    }
    forall key | key in s'.instructions ensures InstructionOK(s', key) {
      assert InstructionOK(s, key);
    }
  }

  lemma SendKeeps(s: System, c: nat, view: seq<Candidate>)
    requires SystemInv(s)
    ensures SystemInv(DoSend(s, c, view))
  {
    if CallAt(s, c) && s.calls[c].pc.Calling? && s.calls[c].pc.tries <= MAX_RETRIES {
      assert CallOK(s, s.calls[c]);
      var r := s.requests[s.calls[c].q];
      var e := HandlerBegin(r.agent, r.amount, r.duration, r.priority, view);
      if |Next(s.broker, e).workers| == |s.broker.workers| {
        CallMoves(s, c, Settling(FAILED));
      } else {
        BrokerMoves(s, e);
        var s1 := s.(broker := Next(s.broker, e));
        assert Asked(s1.broker, |s.broker.workers|, r);
        CallMoves(s1, c, Calling(s.calls[c].pc.tries + 1, Some(|s.broker.workers|)));
      }
    }
  }

  lemma ReceiveKeeps(s: System, c: nat)
    requires SystemInv(s)
    ensures SystemInv(DoReceive(s, c))
  {
    if CallAt(s, c) && DoReceive(s, c) != s {
      var call := s.calls[c];
      assert CallOK(s, call);
      var h := call.pc.handler.value;
      assert KeeperDone(s.broker, h);
      var r := s.requests[call.q];
      assert Answers(s.broker, h, r.agent, r.amount, ReplyOf(s.broker.workers[h]));
      CallMoves(s, c, Noting(ReplyOf(s.broker.workers[h])));
    }
  }

  /** A reservation has one handler, hence one answer. */
  lemma OneAnswer(broker: State, agent: ClusterId, a: Amount, b: Amount, r: Reply, t: Reply)
    requires HandlersOK(broker) && Answered(broker, agent, a, r) && Answered(broker, agent, b, t) && r.rid == t.rid
    ensures r == t && a == b
  {
    var h: nat :| Answers(broker, h, agent, a, r);
    var g: nat :| Answers(broker, g, agent, b, t);
    assert SameReservation(broker, h, g);
  }

  lemma NoteKeeps(s: System, c: nat, ok: bool)
    requires SystemInv(s)
    ensures SystemInv(DoNote(s, c, ok))
  {
    if CallAt(s, c) && s.calls[c].pc.Noting? {
      var call := s.calls[c];
      assert CallOK(s, call);
      var r, reply := s.requests[call.q], call.pc.reply;
      var key := KeyOf(r, reply);
      if !ok {
        CallMoves(s, c, Settling(Status(Refused, reply.target, reply.rid)));
      } else if key in s.instructions {
        var i := s.instructions[key];
        assert InstructionOK(s, key);
        OneAnswer(s.broker, r.agent, r.amount, i.amount, reply, Reply(key.reservation, i.target, i.amount));
        CallMoves(s, c, Settling(Status(Granted, reply.target, reply.rid)));
      } else {
        InstructionCreated(s, key, reply);
        CallMoves(s.(instructions := s.instructions[key := Instruction(reply.target, reply.request)]), c,
                  Settling(Status(Granted, reply.target, reply.rid)));
      }
    }
  }

  lemma InstructionCreated(s: System, key: Key, reply: Reply)
    requires SystemInv(s) && key !in s.instructions && key.reservation == reply.rid
    requires Answered(s.broker, key.agent, reply.request, reply)
    ensures SystemInv(s.(instructions := s.instructions[key := Instruction(reply.target, reply.request)]))
  {
    var s' := s.(instructions := s.instructions[key := Instruction(reply.target, reply.request)]);
    forall d | 0 <= d < |s'.calls| ensures CallOK(s', s'.calls[d]) {
      CallOKGrows(s, s', s.calls[d]);
    }
    forall q | 0 <= q < |s'.requests| ensures RequestOK(s', s'.requests[q]) {
      assert RequestOK(s, s.requests[q]);
    }
    forall k | k in s'.instructions ensures InstructionOK(s', k) {
      if k != key {
        assert InstructionOK(s, k);
      }
    }
  }

  lemma AdvanceKeeps(s: System, e: Happening)
    requires SystemInv(s)
    ensures SystemInv(Advance(s, e))
  {
    if Caller(e).Some? && CallAt(s, Caller(e).value) {
      assert CallOK(s, s.calls[Caller(e).value]);
    }
    match e
    case Elsewhere(b) => BrokerMoves(s, b);
    case Submit(_, _, _, _, _) => RequestsBegin(s, e);
    case Begin(_, _, _) => RequestsBegin(s, e);
    case Announce(c, ok) =>
      if CallAt(s, c) && s.calls[c].pc == Announcing {
        StatusWritten(s, c, ok, Status(Waiting, NO_ID, 0), Calling(0, None));
      }
    case Send(c, view) => SendKeeps(s, c, view);
    case LoseRequest(c) =>
      if DoLoseRequest(s, c) != s {
        CallMoves(s, c, Calling(s.calls[c].pc.tries + 1, None));
      }
    case Receive(c) => ReceiveKeeps(s, c);
    case Reject(c) =>
      if DoReject(s, c) != s {
        CallMoves(s, c, Settling(FAILED));
      }
    case Cancel(c) =>
      if DoCancel(s, c) != s {
        CallMoves(s, c, Settling(FAILED));
      }
    case Note(c, ok) => NoteKeeps(s, c, ok);
    case Settle(c, ok) =>
      if CallAt(s, c) && s.calls[c].pc.Settling? {
        StatusWritten(s, c, ok, s.calls[c].pc.status, Over);
      }
    case Crash(c) =>
      if c < |s.calls| {
        assert CallOK(s, s.calls[c]);
        CallMoves(s, c, Over);
      }
  }

  lemma {:induction false} EverySystemRunKeeps(events: seq<Happening>)
    ensures SystemInv(Unfold(START, events))
  {
    if |events| == 0 {
      Stays(INIT);
    } else {
      EverySystemRunKeeps(events[..|events| - 1]);
      AdvanceKeeps(Unfold(START, events[..|events| - 1]), Last(events));
    }
  }

  // ----- end to end -----

  /**
   A granted request: one handler call, whose reservation the status names, committed exactly
   one lock of exactly the requested amount, on the named cluster, which is not the agent's own;
   and the instruction for that reservation is there with the same target and amount.
   */
  lemma GrantedMeansOneLock(events: seq<Happening>, q: nat, i: nat) returns (h: nat)
    requires var s := Unfold(START, events);
      q < |s.requests| && i < |s.requests[q].versions| && s.requests[q].versions[i].stage == Granted
    ensures var s := Unfold(START, events);
      var r := s.requests[q];
      var t := r.versions[i].target;
      var key := Key(r.agent, r.namespace, r.versions[i].reservation);
      && Handler(s.broker, h) && s.broker.workers[h].rid == r.versions[i].reservation
      && ExactlyOneLock(s.broker, h, t, r.amount) && t != r.agent
      && key in s.instructions && s.instructions[key] == Instruction(t, r.amount)
      && i == |r.versions| - 1
  {
    EverySystemRunKeeps(events);
    var s := Unfold(START, events);
    var r := s.requests[q];
    assert RequestOK(s, r);
    var status := Last(r.versions);
    assert i == |r.versions| - 1;
    h :| Answers(s.broker, h, r.agent, r.amount, Reply(status.reservation, status.target, r.amount));
    KeeperInPlace(s.broker, h);
    AnsweredMeansOneLock(s.broker, h);
  }
}
