/**
 The requesting agent's reconciler and HTTP client as code. Everyone else, the broker's
 handlers included, runs between any two of its calls. Each method is a run of the system
 of Requester.dfy, so the end-to-end theorem holds of it.
 */
module RequestController {
  import opened Quantities
  import opened Decision
  import opened Protocol
  import opened Safety
  import opened Requester

  /** One attempt: what others do first, whether it reaches the broker, what they do then, whether an answer returns. */
  datatype Try = Try(before: seq<Happening>, reaches: bool, view: seq<Candidate>, during: seq<Happening>, arrives: bool)

  predicate NotMine(events: seq<Happening>, c: nat) {
    forall i :: 0 <= i < |events| ==> Caller(events[i]) != Some(c)
  }

  /** Quantified so that a proof unfolds the step only where it names one. */
  ghost predicate Advanced(s: System, e: Happening, s': System) {
    forall x {:trigger Advance(s, x)} :: x == e ==> Advance(s, x) == s'
  }

  ghost predicate Unfolds(s: System, events: seq<Happening>, s': System) {
    forall t {:trigger Unfold(s, t)} :: t == events ==> Unfold(s, t) == s'
  }

  /** Not a crash, not a failing status write; cancelled only where patience may end. */
  predicate Earnest(e: Happening, patient: bool) {
    match e
    case Crash(_) => false
    case Announce(_, ok) => ok
    case Settle(_, ok) => ok
    case Cancel(_) => !patient
    case _ => true
  }

  predicate AllEarnest(events: seq<Happening>, c: nat, patient: bool) {
    forall i :: 0 <= i < |events| && Caller(events[i]) == Some(c) ==> Earnest(events[i], patient)
  }

  /** Some happenings take s to s', and call c's own among them are its work; others may do anything. */
  ghost predicate Labours(c: nat, patient: bool, s: System, s': System) {
    exists events: seq<Happening> :: Unfolds(s, events, s') && AllEarnest(events, c, patient)
  }

  lemma LaboursStays(c: nat, patient: bool, s: System)
    ensures Labours(c, patient, s, s)
  {
    assert Unfold(s, []) == s;
    assert Unfolds(s, [], s) && AllEarnest([], c, patient);
  }

  /** One more step, which keeps the invariant too. */
  lemma Onward(c: nat, patient: bool, a: System, b: System, e: Happening, d: System)
    requires Labours(c, patient, a, b) && Advanced(b, e, d)
    requires Caller(e) == Some(c) ==> Earnest(e, patient)
    ensures Labours(c, patient, a, d)
    ensures SystemInv(b) ==> SystemInv(d)
  {
    var before: seq<Happening> :| Unfolds(a, before, b) && AllEarnest(before, c, patient);
    assert Unfold(a, before) == b && Advance(b, e) == d;
    if SystemInv(b) {
      AdvanceKeeps(b, e);
    }
    assert (before + [e])[..|before|] == before;
    assert Unfolds(a, before + [e], d) && AllEarnest(before + [e], c, patient);
  }

  lemma LaboursOn(c: nat, patient: bool, a: System, b: System, d: System)
    requires Labours(c, patient, a, b) && (Labours(c, patient, b, d) || Labours(c, true, b, d))
    ensures Labours(c, patient, a, d)
  {
    var before: seq<Happening> :| Unfolds(a, before, b) && AllEarnest(before, c, patient);
    var after: seq<Happening> :| Unfolds(b, after, d) && (AllEarnest(after, c, patient) || AllEarnest(after, c, true));
    UnfoldsOn(a, before, b, after, d);
    if AllEarnest(after, c, true) {
      assert forall e :: Earnest(e, true) ==> Earnest(e, patient);
    }
    assert AllEarnest(before + after, c, patient);
  }

  lemma UnfoldsOn(a: System, before: seq<Happening>, b: System, after: seq<Happening>, d: System)
    requires Unfolds(a, before, b) && Unfolds(b, after, d)
    ensures Unfolds(a, before + after, d)
  {
    assert Unfold(a, before) == b && Unfold(b, after) == d;
    UnfoldConcat(a, before, after);
  }

  lemma UnfoldsStep(a: System, before: seq<Happening>, b: System, e: Happening, d: System)
    requires Unfolds(a, before, b) && Advanced(b, e, d)
    ensures Unfolds(a, before + [e], d)
  {
    assert Unfold(a, before) == b && Advance(b, e) == d;
    assert (before + [e])[..|before|] == before;
  }

  lemma {:induction false} UnfoldConcat(s: System, first: seq<Happening>, second: seq<Happening>)
    ensures Unfold(s, first + second) == Unfold(Unfold(s, first), second)
  {
    if |second| == 0 {
      assert first + second == first;
    } else {
      var n := |second| - 1;
      UnfoldConcat(s, first, second[..n]);
      assert (first + second)[..|first| + n] == first + second[..n];
    }
  }

  /** What others do leaves call c where it is and its request the one it was. */
  lemma OthersKeepCall(s: System, e: Happening, c: nat)
    requires CallAt(s, c) && Caller(e) != Some(c)
    ensures CallAt(Advance(s, e), c) && Advance(s, e).calls[c] == s.calls[c]
  {
  }

  /** Call c still works for the same request. */
  predicate SameAsk(s: System, s': System, c: nat)
    requires CallAt(s, c) && CallAt(s', c)
  {
    && s'.calls[c].q == s.calls[c].q
    && s'.requests[s.calls[c].q].(versions := []) == s.requests[s.calls[c].q].(versions := [])
  }

  lemma RequestsPersist(s: System, e: Happening, q: nat)
    requires q < |s.requests|
    ensures q < |Advance(s, e).requests|
    ensures Advance(s, e).requests[q].(versions := []) == s.requests[q].(versions := [])
  {
  }

  // ----- when an answer comes -----

  /** Only the broker and its other clients are at work, nobody on requests or instructions. */
  predicate BrokerOnly(events: seq<Happening>) {
    forall i :: 0 <= i < |events| ==> events[i].Elsewhere?
  }

  lemma ElsewhereKeeps(s: System, e: Happening)
    requires e.Elsewhere?
    ensures var s' := Advance(s, e);
      s'.requests == s.requests && s'.calls == s.calls && s'.instructions == s.instructions
  {
  }

  /** From s, the attempt reaches a handler, which has answered by the time the answer arrives. */
  predicate ServesNow(s: System, c: nat, turn: Try) {
    var s1 := Unfold(s, turn.before);
    var s2 := Advance(s1, Requester.Send(c, turn.view));
    var s3 := Unfold(s2, turn.during);
    var h := |s1.broker.workers|;
    && turn.reaches && turn.arrives && |s2.broker.workers| > h
    && h < |s3.broker.workers| && s3.broker.workers[h].Keeper? && s3.broker.workers[h].answered
  }

  /** Quantified, like what follows, so that a proof unfolds it only where it names it. */
  ghost predicate Serves(s: System, c: nat, turn: Try) {
    forall t {:trigger ServesNow(s, c, t)} :: t == turn ==> ServesNow(s, c, t)
  }

  /** The state after an attempt that gets no answer. */
  function Lost(s: System, c: nat, turn: Try): System {
    var s1 := Unfold(s, turn.before);
    if turn.reaches then Unfold(Advance(s1, Requester.Send(c, turn.view)), turn.during)
    else Advance(s1, LoseRequest(c))
  }

  ghost predicate Loses(s: System, c: nat, turn: Try, s': System) {
    forall t {:trigger Lost(s, c, t)} :: t == turn ==> Lost(s, c, t) == s'
  }

  /** The broker refuses the attempt before a handler begins. */
  predicate RefusedNow(s: System, c: nat, turn: Try) {
    var s1 := Unfold(s, turn.before);
    turn.reaches && |Advance(s1, Requester.Send(c, turn.view)).broker.workers| <= |s1.broker.workers|
  }

  /** The attempt is the last one: an answer arrives, or it is refused. */
  ghost predicate Ends(s: System, c: nat, turn: Try) {
    (turn.reaches && turn.arrives) || forall t {:trigger RefusedNow(s, c, t)} :: t == turn ==> RefusedNow(s, c, t)
  }

  /** One of the first n attempts is answered, and no answer to an earlier one arrives. */
  ghost predicate ServedBy(s: System, c: nat, tries: seq<Try>, n: nat)
    decreases n
  {
    && n > 0 && |tries| > 0
    && (Serves(s, c, tries[0])
        || (!Ends(s, c, tries[0])
            && exists s' :: Loses(s, c, tries[0], s') && ServedBy(s', c, tries[1..], n - 1)))
  }

  lemma NotReached(s: System, c: nat, turn: Try, s1: System, s': System)
    requires Unfolds(s, turn.before, s1) && Advanced(s1, LoseRequest(c), s') && !turn.reaches
    ensures Loses(s, c, turn, s') && !Serves(s, c, turn)
  {
    assert Unfold(s, turn.before) == s1 && Advance(s1, LoseRequest(c)) == s';
    assert !ServesNow(s, c, turn);
  }

  lemma Unserved(s: System, c: nat, turn: Try, s1: System, s2: System)
    requires Unfolds(s, turn.before, s1) && Advanced(s1, Requester.Send(c, turn.view), s2)
    requires turn.reaches && |s2.broker.workers| <= |s1.broker.workers|
    ensures !Serves(s, c, turn) && Ends(s, c, turn)
  {
    assert Unfold(s, turn.before) == s1 && Advance(s1, Requester.Send(c, turn.view)) == s2;
    assert !ServesNow(s, c, turn);
  }

  lemma Reached(s: System, c: nat, turn: Try, s1: System, s2: System, s3: System)
    requires Unfolds(s, turn.before, s1) && Advanced(s1, Requester.Send(c, turn.view), s2) && turn.reaches
    requires Unfolds(s2, turn.during, s3)
    ensures Loses(s, c, turn, s3)
    ensures Serves(s, c, turn) ==>
      var h := |s1.broker.workers|;
      && turn.arrives && h < |s3.broker.workers| && s3.broker.workers[h].Keeper? && s3.broker.workers[h].answered
  {
    assert Unfold(s, turn.before) == s1 && Advance(s1, Requester.Send(c, turn.view)) == s2;
    assert Unfold(s2, turn.during) == s3;
    if Serves(s, c, turn) {
      assert ServesNow(s, c, turn);
    }
  }

  lemma LosesOnce(s: System, c: nat, turn: Try, a: System, b: System)
    requires Loses(s, c, turn, a) && Loses(s, c, turn, b)
    ensures a == b
  {
    assert Lost(s, c, turn) == a;
  }

  /** After one unanswered attempt the rest has to serve. */
  lemma ServedLater(s: System, c: nat, tries: seq<Try>, n: nat, s': System)
    requires ServedBy(s, c, tries, n) && !Serves(s, c, tries[0]) && Loses(s, c, tries[0], s')
    ensures n > 0 && |tries| > 0 && ServedBy(s', c, tries[1..], n - 1)
  {
    var x :| Loses(s, c, tries[0], x) && ServedBy(x, c, tries[1..], n - 1);
    LosesOnce(s, c, tries[0], x, s');
  }

  predicate QuietTries(tries: seq<Try>) {
    forall i :: 0 <= i < |tries| ==> BrokerOnly(tries[i].before) && BrokerOnly(tries[i].during)
  }

  /** What one turn leaves of the promise that some attempt is answered. */
  lemma TurnTaken(s: System, c: nat, tries: seq<Try>, n: nat, over: bool, reply: Option<Reply>, s': System)
    requires |tries| > 0 && (Serves(s, c, tries[0]) ==> reply.Some?) && (reply.Some? ==> over)
    requires !over ==> Loses(s, c, tries[0], s')
    requires over && reply.None? ==> Ends(s, c, tries[0])
    ensures ServedBy(s, c, tries, n) && over ==> reply.Some?
    ensures ServedBy(s, c, tries, n) && !over ==> n > 0 && ServedBy(s', c, tries[1..], n - 1)
  {
    if ServedBy(s, c, tries, n) && !Serves(s, c, tries[0]) {
      if !over {
        ServedLater(s, c, tries, n, s');
      }
    }
  }

  /** The state in which the client starts to call. */
  function Readied(s: System, q: nat, ver: nat, early: seq<Happening>): System {
    var s1 := Advance(s, Begin(q, ver, true));
    if q < |s.requests| && ver < |s.requests[q].versions| && s.requests[q].versions[ver].stage == Untouched
    then Advance(Unfold(s1, early), Announce(|s.calls|, true)) else s1
  }

  ghost predicate Readies(s: System, q: nat, ver: nat, early: seq<Happening>, s': System) {
    forall e {:trigger Readied(s, q, ver, e)} :: e == early ==> Readied(s, q, ver, e) == s'
  }

  lemma ReadiesOnce(s: System, q: nat, ver: nat, early: seq<Happening>, a: System, b: System)
    requires Readies(s, q, ver, early, a) && Readies(s, q, ver, early, b)
    ensures a == b
  {
    assert Readied(s, q, ver, early) == a;
  }

  ghost predicate Announces(s: System, c: nat, early: seq<Happening>, s': System) {
    exists m :: Unfolds(s, early, m) && Advanced(m, Announce(c, true), s')
  }

  lemma AnnouncedIsReadied(s: System, q: nat, ver: nat, early: seq<Happening>, s1: System, s2: System)
    requires q < |s.requests| && ver < |s.requests[q].versions| && Advanced(s, Begin(q, ver, true), s1)
    requires if s.requests[q].versions[ver].stage == Untouched then Announces(s1, |s.calls|, early, s2) else s2 == s1
    ensures Readies(s, q, ver, early, s2)
  {
    assert Advance(s, Begin(q, ver, true)) == s1;
    if s.requests[q].versions[ver].stage == Untouched {
      var m :| Unfolds(s1, early, m) && Advanced(m, Announce(|s.calls|, true), s2);
      assert Unfold(s1, early) == m && Advance(m, Announce(|s.calls|, true)) == s2;
    }
  }

  /** What the last status says, by what the broker answered. */
  function Verdict(configured: bool, reply: Option<Reply>, noted: bool): Status {
    if configured && reply.Some? then Status(if noted then Granted else Refused, reply.value.target, reply.value.rid)
    else Status(Refused, 0, 0)
  }

  class RequestController {
    var broker: State
    var requests: seq<Request>
    var calls: seq<Call>
    var instructions: map<Key, Instruction>

    constructor ()
      ensures View() == START
    {
      broker, requests, calls, instructions := INIT, [], [], map[];
    }

    function View(): System
      reads this
    {
      System(broker, requests, calls, instructions)
    }

    /** Everyone else, in the given order. */
    method Yield(c: nat, events: seq<Happening>)
      requires SystemInv(View()) && CallAt(View(), c) && NotMine(events, c)
      modifies this
      ensures SystemInv(View()) && Labours(c, true, old(View()), View()) && Unfolds(old(View()), events, View())
      ensures CallAt(View(), c) && calls[c] == old(calls[c]) && SameAsk(old(View()), View(), c)
      ensures BrokerOnly(events) ==> requests == old(requests) && instructions == old(instructions)
    {
      ghost var s0 := View();
      LaboursStays(c, true, s0);
      assert Unfold(s0, events[..0]) == s0;
      for i := 0 to |events|
        invariant SystemInv(View()) && Labours(c, true, s0, View()) && Unfolds(s0, events[..i], View())
        invariant CallAt(View(), c) && calls[c] == s0.calls[c] && SameAsk(s0, View(), c)
        invariant BrokerOnly(events) ==> requests == s0.requests && instructions == s0.instructions
      {
        ghost var s := View();
        Pass(c, events[i]);
        Onward(c, true, s0, s, events[i], View());
        UnfoldsStep(s0, events[..i], s, events[i], View());
        assert events[..i + 1] == events[..i] + [events[i]];
      }
      assert events[..|events|] == events;
    }

    method Pass(c: nat, e: Happening)
      requires CallAt(View(), c) && Caller(e) != Some(c)
      modifies this
      ensures Advanced(old(View()), e, View()) && CallAt(View(), c) && calls[c] == old(calls[c])
      ensures SameAsk(old(View()), View(), c)
      ensures e.Elsewhere? ==> requests == old(requests) && instructions == old(instructions)
    {
      OthersKeepCall(View(), e, c);
      RequestsPersist(View(), e, calls[c].q);
      var s' := Advance(View(), e);
      broker, requests, calls, instructions := s'.broker, s'.requests, s'.calls, s'.instructions;
    }

    method SetCall(c: nat, pc: CallPc)
      requires c < |calls|
      modifies this`calls
      ensures View() == Move(old(View()), c, pc)
    {
      calls := calls[c := calls[c].(pc := pc)];
    }

    /** The fields are assigned and written; a conflict is returned as an error and ends the reconcile. */
    method UpdateStatus(c: nat, status: Status, onward: CallPc) returns (ok: bool)
      requires CallAt(View(), c)
      modifies this`requests, this`calls
      ensures View() == Update(old(View()), c, true, status, onward) && CallAt(View(), c)
      ensures calls[c].q == old(calls[c].q)
      ensures ok ==> UpToDate(c)
      ensures ok <==> old(calls[c].ver + 1 == |requests[calls[c].q].versions|)
      ensures ok ==>
        && calls[c].pc == onward
        && |requests[calls[c].q].versions| > 0 && Last(requests[calls[c].q].versions) == status
      ensures !ok ==> calls[c].pc == Over && requests == old(requests)
    {
      var call := calls[c];
      var r := requests[call.q];
      ok := call.ver + 1 == |r.versions|;
      if ok {
        requests := requests[call.q := r.(versions := r.versions + [status])];
        calls := calls[c := call.(pc := onward, ver := |r.versions|)];
      } else {
        SetCall(c, Over);
      }
    }

    /** One POST. Some handler may start; a refusal before that is an error status. */
    method Post(c: nat, view: seq<Candidate>) returns (handler: Option<nat>)
      requires CallAt(View(), c) && calls[c].pc.Calling? && calls[c].pc.tries <= MAX_RETRIES
      modifies this
      ensures Advanced(old(View()), Requester.Send(c, view), View())
      ensures CallAt(View(), c) && SameAsk(old(View()), View(), c)
      ensures calls[c].pc == if handler.Some? then Calling(old(calls[c].pc.tries) + 1, handler) else Settling(FAILED)
      ensures handler.Some? <==> |broker.workers| > old(|broker.workers|)
      ensures handler.Some? ==> handler.value == old(|broker.workers|)
      ensures requests == old(requests) && instructions == old(instructions) && calls[c].ver == old(calls[c].ver)
    {
      var r := requests[calls[c].q];
      var served := Next(broker, HandlerBegin(r.agent, r.amount, r.duration, r.priority, view));
      if |served.workers| == |broker.workers| {
        SetCall(c, Settling(FAILED));
        handler := None;
      } else {
        handler := Some(|broker.workers|);
        SetCall(c, Calling(calls[c].pc.tries + 1, handler));
        broker := served;
      }
    }

    /** An attempt that gets no answer. */
    method Lose(c: nat)
      requires CallAt(View(), c) && calls[c].pc.Calling? && calls[c].pc.tries <= MAX_RETRIES
      modifies this`calls
      ensures Advanced(old(View()), LoseRequest(c), View())
      ensures CallAt(View(), c) && SameAsk(old(View()), View(), c)
      ensures calls[c].pc == Calling(old(calls[c].pc.tries) + 1, None)
      ensures calls[c].ver == old(calls[c].ver)
    {
      SetCall(c, Calling(calls[c].pc.tries + 1, None));
    }

    /** The answer of handler h: a reply, or an error status below 500, which is not retried. */
    method Response(c: nat, h: nat) returns (reply: Option<Reply>)
      requires CallAt(View(), c) && calls[c].pc.Calling? && calls[c].pc.handler == Some(h)
      requires h < |broker.workers| && broker.workers[h].Keeper?
      modifies this`calls
      ensures Advanced(old(View()), if reply.Some? then Receive(c) else Reject(c), View())
      ensures CallAt(View(), c) && SameAsk(old(View()), View(), c)
      ensures reply.Some? <==> broker.workers[h].answered
      ensures calls[c].ver == old(calls[c].ver)
      ensures calls[c].pc == if reply.Some? then Noting(reply.value) else Settling(FAILED)
    {
      if broker.workers[h].answered {
        reply := Some(ReplyOf(broker.workers[h]));
        SetCall(c, Noting(reply.value));
      } else {
        reply := None;
        SetCall(c, Settling(FAILED));
      }
    }

    /** Nothing came of it: no attempts left, or cancelled before that. */
    method Fail(c: nat)
      requires CallAt(View(), c) && calls[c].pc.Calling?
      modifies this`calls
      ensures Advanced(old(View()), if old(calls[c].pc.tries) > MAX_RETRIES then Reject(c) else Cancel(c), View())
      ensures CallAt(View(), c) && SameAsk(old(View()), View(), c) && calls[c].pc == Settling(FAILED)
      ensures calls[c].ver == old(calls[c].ver)
    {
      SetCall(c, Settling(FAILED));
    }

    /** One turn of the retry loop. */
    method Attempt(c: nat, turn: Try) returns (reply: Option<Reply>, over: bool)
      requires SystemInv(View()) && CallAt(View(), c) && calls[c].pc.Calling? && calls[c].pc.tries <= MAX_RETRIES
      requires NotMine(turn.before, c) && NotMine(turn.during, c)
      modifies this
      ensures SystemInv(View()) && Labours(c, true, old(View()), View())
      ensures CallAt(View(), c) && SameAsk(old(View()), View(), c)
      ensures reply.Some? ==> over
      ensures over ==> calls[c].pc == if reply.Some? then Noting(reply.value) else Settling(FAILED)
      ensures !over ==> calls[c].pc.Calling? && calls[c].pc.tries == old(calls[c].pc.tries) + 1
      ensures !over ==> !turn.reaches || !turn.arrives
      ensures !over ==> Loses(old(View()), c, turn, View())
      ensures Serves(old(View()), c, turn) ==> reply.Some?
      ensures over && reply.None? ==> Ends(old(View()), c, turn)
      ensures calls[c].ver == old(calls[c].ver)
      ensures BrokerOnly(turn.before) && BrokerOnly(turn.during) ==>
        requests == old(requests) && instructions == old(instructions)
    {
      ghost var s0 := View();
      Yield(c, turn.before);
      ghost var s1 := View();
      reply, over := None, false;
      if !turn.reaches {
        Lose(c);
        Onward(c, true, s0, s1, LoseRequest(c), View());
        NotReached(s0, c, turn, s1, View());
        return;
      }
      var handler := Post(c, turn.view);
      ghost var s2 := View();
      Onward(c, true, s0, s1, Requester.Send(c, turn.view), s2);
      if handler.None? {
        Unserved(s0, c, turn, s1, s2);
        return None, true;
      }
      Yield(c, turn.during);
      ghost var s3 := View();
      LaboursOn(c, true, s0, s2, s3);
      Reached(s0, c, turn, s1, s2, s3);
      if turn.arrives {
        assert CallOK(s3, s3.calls[c]);
        reply := Response(c, handler.value);
        Onward(c, true, s0, s3, if reply.Some? then Receive(c) else Reject(c), View());
        over := true;
      }
    }

    /**
     RequestReservation: up to four attempts, each a new request to the broker; a shorter list of
     turns is a cancelled context. A reply is the latest attempt's; the locks of earlier attempts
     whose answers were lost stay.
     */
    method RequestReservation(c: nat, tries: seq<Try>) returns (reply: Option<Reply>)
      requires SystemInv(View()) && CallAt(View(), c) && calls[c].pc == Calling(0, None)
      requires forall i :: 0 <= i < |tries| ==> NotMine(tries[i].before, c) && NotMine(tries[i].during, c)
      modifies this
      ensures SystemInv(View()) && Labours(c, |tries| > MAX_RETRIES, old(View()), View())
      ensures CallAt(View(), c) && SameAsk(old(View()), View(), c)
      ensures calls[c].pc == if reply.Some? then Noting(reply.value) else Settling(FAILED)
      ensures ServedBy(old(View()), c, tries, 4) ==> reply.Some?
      ensures calls[c].ver == old(calls[c].ver)
      ensures QuietTries(tries) ==> requests == old(requests) && instructions == old(instructions)
    {
      ghost var s0 := View();
      LaboursStays(c, |tries| > MAX_RETRIES, s0);
      assert tries[0..] == tries;
      var attempt := 0;
      while attempt <= MAX_RETRIES && attempt < |tries|
        invariant attempt <= MAX_RETRIES + 1 && attempt <= |tries|
        invariant SystemInv(View()) && Labours(c, |tries| > MAX_RETRIES, s0, View())
        invariant CallAt(View(), c) && SameAsk(s0, View(), c)
        invariant calls[c].pc.Calling? && calls[c].pc.tries == attempt && calls[c].ver == s0.calls[c].ver
        invariant ServedBy(s0, c, tries, 4) ==> ServedBy(View(), c, tries[attempt..], 4 - attempt)
        invariant QuietTries(tries) ==> requests == s0.requests && instructions == s0.instructions
      {
        ghost var s1 := View();
        var over;
        reply, over := Attempt(c, tries[attempt]);
        TurnTaken(s1, c, tries[attempt..], 4 - attempt, over, reply, View());
        assert tries[attempt..][1..] == tries[attempt + 1..];
        LaboursOn(c, |tries| > MAX_RETRIES, s0, s1, View());
        if over {
          return;
        }
        attempt := attempt + 1;
      }
      ghost var s2 := View();
      Fail(c);
      Onward(c, |tries| > MAX_RETRIES, s0, s2, if attempt > MAX_RETRIES then Reject(c) else Cancel(c), View());
      reply := None;
    }

    /** createReservationInstruction: nothing to do when one of that name exists. */
    method CreateInstruction(c: nat, reply: Reply, ok: bool) returns (status: Status)
      requires CallAt(View(), c) && calls[c].pc == Noting(reply)
      modifies this`instructions, this`calls
      ensures Advanced(old(View()), Note(c, ok), View()) && CallAt(View(), c)
      ensures status == Status(if ok then Granted else Refused, reply.target, reply.rid)
      ensures calls[c] == old(calls[c]).(pc := Settling(status)) && requests == old(requests)
    {
      status := Status(Refused, reply.target, reply.rid);
      if ok {
        var r := requests[calls[c].q];
        var key := Key(r.agent, r.namespace, reply.rid);
        if key !in instructions {
          instructions := instructions[key := Instruction(reply.target, reply.request)];
        }
        status := status.(stage := Granted);
      }
      SetCall(c, Settling(status));
    }

    /** The call's version is the newest of its request, so its next status write is stored. */
    predicate UpToDate(c: nat)
      reads this
      requires CallAt(View(), c)
    {
      calls[c].ver + 1 == |requests[calls[c].q].versions|
    }

    /**
     One Reconcile of request q from its (possibly stale) read. `granted` reports a stored Reserved
     status, `reply` what the broker answered. While others leave requests and instructions alone
     and the read was current, the outcome is settled by the two and by whether the instruction
     could be stored.
     */
    method Reconcile(q: nat, ver: nat, configured: bool, early: seq<Happening>, tries: seq<Try>,
                     middle: seq<Happening>, noted: bool, late: seq<Happening>)
      returns (granted: bool, reply: Option<Reply>)
      requires SystemInv(View()) && q < |requests| && ver < |requests[q].versions|
      requires NotMine(early, |calls|) && NotMine(middle, |calls|) && NotMine(late, |calls|)
      requires forall i :: 0 <= i < |tries| ==> NotMine(tries[i].before, |calls|) && NotMine(tries[i].during, |calls|)
      modifies this
      ensures SystemInv(View()) && Labours(old(|calls|), |tries| > MAX_RETRIES, old(View()), View()) && q < |requests|
      ensures old(requests[q].versions[ver].stage == Granted || requests[q].versions[ver].stage == Refused) ==>
        !granted && reply.None? && View() == old(View())
      ensures old(requests[q].versions[ver].stage == Untouched || requests[q].versions[ver].stage == Waiting) ==>
        CallAt(View(), old(|calls|)) && calls[old(|calls|)].pc == Over && calls[old(|calls|)].q == q
      ensures granted ==>
        && |requests[q].versions| > 0 && Last(requests[q].versions).stage == Granted
        && Kept(View(), requests[q], Last(requests[q].versions))
      ensures old(ver + 1 == |requests[q].versions| && !Final(requests[q].versions[ver].stage)) && BrokerOnly(early) ==>
        && (QuietTries(tries) && BrokerOnly(middle) && BrokerOnly(late) ==>
              && (granted <==> configured && reply.Some? && noted)
              && |requests[q].versions| > 0 && Last(requests[q].versions) == Verdict(configured, reply, noted))
        && (configured ==>
              forall s2 :: Readies(old(View()), q, ver, early, s2) && ServedBy(s2, old(|calls|), tries, 4) ==>
                reply.Some?)
    {
      ghost var s0 := View();
      ghost var patient := |tries| > MAX_RETRIES;
      LaboursStays(|calls|, patient, s0);
      granted, reply := false, None;
      var c := |calls|;
      var stage := requests[q].versions[ver].stage;
      if stage == Granted || stage == Refused {
        return;
      }
      Start(q, ver, configured);
      Onward(c, patient, s0, s0, Begin(q, ver, configured), View());
      ghost var s1 := View();
      if calls[c].pc.Announcing? {
        Prepare(c, early);
        LaboursOn(c, patient, s0, s1, View());
      }
      ghost var s2 := View();
      if configured {
        AnnouncedIsReadied(s0, q, ver, early, s1, s2);
      }
      if calls[c].pc.Over? {
        return;
      }
      granted, reply := Carry(c, tries, middle, noted, late);
      LaboursOn(c, patient, s0, s2, View());
      forall x | configured && Readies(s0, q, ver, early, x) && ServedBy(x, c, tries, 4) ensures x == s2 {
        ReadiesOnce(s0, q, ver, early, x, s2);
      }
    }

    /** From the first call to the broker, if there is one, to the last status write. */
    method Carry(c: nat, tries: seq<Try>, middle: seq<Happening>, noted: bool, late: seq<Happening>)
      returns (granted: bool, reply: Option<Reply>)
      requires SystemInv(View()) && CallAt(View(), c)
      requires calls[c].pc == Calling(0, None) || calls[c].pc == Settling(FAILED)
      requires NotMine(middle, c) && NotMine(late, c)
      requires forall i :: 0 <= i < |tries| ==> NotMine(tries[i].before, c) && NotMine(tries[i].during, c)
      modifies this
      ensures SystemInv(View()) && Labours(c, |tries| > MAX_RETRIES, old(View()), View())
      ensures CallAt(View(), c) && calls[c].pc == Over && calls[c].q == old(calls[c].q)
      ensures var r := requests[calls[c].q];
        granted ==> |r.versions| > 0 && Last(r.versions).stage == Granted && Kept(View(), r, Last(r.versions))
      ensures QuietTries(tries) && BrokerOnly(middle) && BrokerOnly(late) && old(UpToDate(c)) ==>
        && (granted <==> reply.Some? && noted)
        && |requests[calls[c].q].versions| > 0 && Last(requests[calls[c].q].versions) == Verdict(true, reply, noted)
      ensures old(calls[c].pc == Settling(FAILED)) ==> reply.None?
      ensures old(calls[c].pc == Calling(0, None)) && ServedBy(old(View()), c, tries, 4) ==> reply.Some?
    {
      ghost var s0 := View();
      LaboursStays(c, |tries| > MAX_RETRIES, s0);
      reply := None;
      if calls[c].pc.Calling? {
        reply := AskAndStore(c, tries, middle, noted);
      }
      ghost var s1 := View();
      granted := Finish(c, late);
      LaboursOn(c, |tries| > MAX_RETRIES, s0, s1, View());
    }

    /** The call to the broker, and the instruction if it answered. */
    method AskAndStore(c: nat, tries: seq<Try>, middle: seq<Happening>, noted: bool) returns (reply: Option<Reply>)
      requires SystemInv(View()) && CallAt(View(), c) && calls[c].pc == Calling(0, None) && NotMine(middle, c)
      requires forall i :: 0 <= i < |tries| ==> NotMine(tries[i].before, c) && NotMine(tries[i].during, c)
      modifies this
      ensures SystemInv(View()) && Labours(c, |tries| > MAX_RETRIES, old(View()), View())
      ensures CallAt(View(), c) && calls[c].q == old(calls[c].q)
      ensures calls[c].pc == Settling(Verdict(true, reply, noted))
      ensures reply.Some? && noted ==>
        var r := requests[calls[c].q];
        var key := Key(r.agent, r.namespace, reply.value.rid);
        key in instructions && instructions[key] == Instruction(reply.value.target, r.amount)
      ensures ServedBy(old(View()), c, tries, 4) ==> reply.Some?
      ensures QuietTries(tries) && BrokerOnly(middle) && old(UpToDate(c)) ==> UpToDate(c)
    {
      ghost var s0 := View();
      reply := RequestReservation(c, tries);
      if reply.Some? {
        ghost var s1 := View();
        Store(c, reply.value, middle, noted);
        LaboursOn(c, |tries| > MAX_RETRIES, s0, s1, View());
      }
    }

    method Start(q: nat, ver: nat, configured: bool)
      requires q < |requests| && ver < |requests[q].versions| && !Final(requests[q].versions[ver].stage)
      modifies this`calls
      ensures Advanced(old(View()), Begin(q, ver, configured), View())
      ensures |calls| == old(|calls|) + 1 && CallAt(View(), old(|calls|))
      ensures Last(calls).q == q && Last(calls).ver == ver
      ensures Last(calls).pc == if !configured then Settling(FAILED)
                                else if requests[q].versions[ver].stage == Untouched then Announcing
                                else Calling(0, None)
    {
      var pc := Calling(0, None);
      if !configured {
        pc := Settling(FAILED);
      } else if requests[q].versions[ver].stage == Untouched {
        pc := Announcing;
      }
      calls := calls + [Call(pc, q, ver)];
    }

    /** Mark as Pending. A conflict ends the reconcile with an error. */
    method Prepare(c: nat, early: seq<Happening>)
      requires SystemInv(View()) && CallAt(View(), c) && calls[c].pc == Announcing && NotMine(early, c)
      modifies this
      ensures SystemInv(View()) && Labours(c, true, old(View()), View())
      ensures CallAt(View(), c) && calls[c].q == old(calls[c].q)
      ensures calls[c].pc == Calling(0, None) || calls[c].pc == Over
      ensures Announces(old(View()), c, early, View())
      ensures BrokerOnly(early) && old(UpToDate(c)) ==> calls[c].pc == Calling(0, None) && UpToDate(c)
    {
      ghost var s0 := View();
      Yield(c, early);
      ghost var s1 := View();
      var ok := UpdateStatus(c, Status(Waiting, NO_ID, 0), Calling(0, None));
      Onward(c, true, s0, s1, Announce(c, true), View());
    }

    method Store(c: nat, reply: Reply, middle: seq<Happening>, noted: bool)
      requires SystemInv(View()) && CallAt(View(), c) && calls[c].pc == Noting(reply) && NotMine(middle, c)
      modifies this
      ensures SystemInv(View()) && Labours(c, true, old(View()), View())
      ensures CallAt(View(), c) && calls[c].q == old(calls[c].q)
      ensures calls[c].pc == Settling(Status(if noted then Granted else Refused, reply.target, reply.rid))
      ensures noted ==>
        var r := requests[calls[c].q];
        var key := Key(r.agent, r.namespace, reply.rid);
        key in instructions && instructions[key] == Instruction(reply.target, r.amount)
      ensures BrokerOnly(middle) && old(UpToDate(c)) ==> UpToDate(c)
    {
      ghost var s0 := View();
      Yield(c, middle);
      ghost var s1 := View();
      var status := CreateInstruction(c, reply, noted);
      Onward(c, true, s0, s1, Note(c, noted), View());
      assert CallOK(View(), calls[c]);
    }

    /** The last status write. */
    method Finish(c: nat, late: seq<Happening>) returns (granted: bool)
      requires SystemInv(View()) && CallAt(View(), c) && calls[c].pc.Settling? && NotMine(late, c)
      modifies this
      ensures SystemInv(View()) && Labours(c, true, old(View()), View())
      ensures CallAt(View(), c) && calls[c].pc == Over && calls[c].q == old(calls[c].q)
      ensures var r := requests[calls[c].q];
        granted ==> |r.versions| > 0 && Last(r.versions).stage == Granted && Kept(View(), r, Last(r.versions))
      ensures BrokerOnly(late) && old(UpToDate(c)) ==>
        && (granted <==> old(calls[c].pc.status.stage == Granted))
        && |requests[calls[c].q].versions| > 0
        && Last(requests[calls[c].q].versions) == old(calls[c].pc.status)
    {
      ghost var s0 := View();
      Yield(c, late);
      ghost var s1 := View();
      var status := calls[c].pc.status;
      var ok := UpdateStatus(c, status, Over);
      Onward(c, true, s0, s1, Settle(c, true), View());
      granted := ok && status.stage == Granted;
      assert RequestOK(View(), requests[calls[c].q]);
    }
  }
}
