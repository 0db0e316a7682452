/** Nonce issue under concurrent sends: reserveNonce and send of node/internal/chain/chain.go. */
module Nonces {
  import opened Common

  /** What a send meets; each answer is the adversary's to choose. */
  datatype Reply = Accepted | AcceptedReplyLost | Rejected

  datatype Answer = Answer(ok: bool, reply: Reply)

  /** The fields nextNonce and haveNonce. */
  datatype Counter = Counter(next: nat, have: bool)

  // ----- many sends at once

  /** How far one call of send has come. */
  datatype Pc =
    | Starting
    | ReadingFees
    | Locking
    | Reserving
    | Signing(nonce: nat)
    | Submitting(nonce: nat)
    | Recording(nonce: nat, ok: bool)
    | Releasing(res: Option<nat>)
    | Returned(res: Option<nat>)

  /**
   The client, its calls in progress, and the chain: the account's pending count and the nonces of
   the transactions the chain took, in order.
   */
  datatype Machine = Machine(counter: Counter, holder: Option<nat>, calls: seq<Pc>, pending: nat, taken: seq<nat>)

  function Begun(origin: nat, calls: nat): Machine {
    Machine(Counter(0, false), None, seq(calls, _ => Starting), origin, [])
  }

  function At(m: Machine, t: nat, pc: Pc): Machine
    requires t < |m.calls|
  {
    m.(calls := m.calls[t := pc])
  }

  /** A transaction numbered above or below the pending count is kept too, but does not move the count. */
  function Take(m: Machine, nonce: nat): Machine {
    m.(taken := m.taken + [nonce], pending := if nonce == m.pending then m.pending + 1 else m.pending)
  }

  /** One step of call `t`; a call that waits for the mutex does not move. */
  function Step(m: Machine, t: nat, a: Answer): Machine {
    if t >= |m.calls| then m
    else
      match m.calls[t]
      case Starting => At(m, t, if a.ok then ReadingFees else Returned(None))
      case ReadingFees => At(m, t, if a.ok then Locking else Returned(None))
      case Locking => if m.holder.None? then At(m.(holder := Some(t)), t, Reserving) else m
      case Reserving =>
        if m.counter.have then At(m, t, Signing(m.counter.next))
        else if a.ok then At(m.(counter := Counter(m.pending, true)), t, Signing(m.pending))
        else At(m, t, Releasing(None))
      case Signing(nonce) => At(m, t, if a.ok then Submitting(nonce) else Releasing(None))
      case Submitting(nonce) =>
        At(if a.reply.Rejected? then m else Take(m, nonce), t, Recording(nonce, a.reply.Accepted?))
      case Recording(nonce, ok) =>
        At(m.(counter := if ok then m.counter.(next := nonce + 1) else m.counter.(have := false)), t,
          Releasing(if ok then Some(nonce) else None))
      case Releasing(res) => At(m.(holder := None), t, Returned(res))
      case Returned(res) => m
  }

  type Schedule = seq<(nat, Answer)>

  function Run(m: Machine, s: Schedule): Machine {
    if s == [] then m else var k := |s| - 1; Step(Run(m, s[..k]), s[k].0, s[k].1)
  }

  // ----- what every step keeps

  predicate InLock(pc: Pc) {
    pc.Reserving? || pc.Signing? || pc.Submitting? || pc.Recording? || pc.Releasing?
  }

  /** What the counter says while a call stands at `pc` with the mutex held. */
  predicate CounterFits(pc: Pc, c: Counter, pending: nat) {
    match pc
    case Signing(n) => c.have && n == c.next == pending
    case Submitting(n) => c.have && n == c.next == pending
    case Recording(n, ok) => c.have && n == c.next && (pending == n + 1 || (!ok && pending == n))
    case _ => c.have ==> c.next == pending
  }

  /** The nonce of a transaction that a call reports, or is about to report, as sent. */
  function Reports(pc: Pc): Option<nat> {
    match pc
    case Recording(n, ok) => if ok then Some(n) else None
    case Releasing(res) => res
    case Returned(res) => res
    case _ => None
  }

  /** Exactly the call that holds the mutex is inside it. */
  ghost predicate LockHeld(m: Machine) {
    && (m.holder.Some? ==> m.holder.value < |m.calls|)
    && (forall t | 0 <= t < |m.calls| :: InLock(m.calls[t]) <==> m.holder == Some(t))
  }

  ghost predicate CounterTrue(m: Machine) {
    CounterFits(if m.holder.Some? && m.holder.value < |m.calls| then m.calls[m.holder.value] else Starting,
      m.counter, m.pending)
  }

  /** The chain took the nonces from `origin` on, each once, in order. */
  ghost predicate Consecutive(origin: nat, m: Machine) {
    && m.pending == origin + |m.taken|
    && (forall k | 0 <= k < |m.taken| :: m.taken[k] == origin + k)
  }

  /** What is reported was taken, and no two calls report the same transaction. */
  ghost predicate ReportsDiffer(origin: nat, m: Machine) {
    && (forall t | 0 <= t < |m.calls| ::
          Reports(m.calls[t]).Some? ==> origin <= Reports(m.calls[t]).value < m.pending)
    && (forall t, u | 0 <= t < |m.calls| && 0 <= u < |m.calls| && t != u ::
          Reports(m.calls[t]).Some? ==> Reports(m.calls[t]) != Reports(m.calls[u]))
  }

  ghost predicate Inv(origin: nat, m: Machine) {
    LockHeld(m) && CounterTrue(m) && Consecutive(origin, m) && ReportsDiffer(origin, m)
  }

  lemma BegunInv(origin: nat, calls: nat)
    ensures Inv(origin, Begun(origin, calls))
  {}

  lemma {:induction false} StepTouchesOne(m: Machine, t: nat, a: Answer)
    requires t < |m.calls|
    ensures var after := Step(m, t, a); after.calls == m.calls[t := after.calls[t]]
  {}

  lemma StepKeepsLock(m: Machine, t: nat, a: Answer)
    requires LockHeld(m) && t < |m.calls|
    ensures LockHeld(Step(m, t, a))
  {
    var after := Step(m, t, a);
    assert InLock(m.calls[t]) <==> m.holder == Some(t);
    assert InLock(after.calls[t]) <==> after.holder == Some(t);
    assert after.holder == m.holder || (m.holder == None && after.holder == Some(t)) || (m.holder == Some(t) && after.holder == None);
    StepTouchesOne(m, t, a);
    hide Step;
  }

  lemma StepKeepsCounter(m: Machine, t: nat, a: Answer)
    requires LockHeld(m) && CounterTrue(m) && t < |m.calls|
    ensures CounterTrue(Step(m, t, a))
  {
    assert InLock(m.calls[t]) <==> m.holder == Some(t);
  }

  /** The transaction handed to the chain carries the pending count. */
  lemma SubmitsPending(m: Machine, t: nat)
    requires LockHeld(m) && CounterTrue(m) && t < |m.calls|
    ensures m.calls[t].Submitting? ==> m.calls[t].nonce == m.pending
    ensures m.calls[t].Recording? && m.calls[t].ok ==> m.calls[t].nonce + 1 == m.pending
  {
    assert InLock(m.calls[t]) <==> m.holder == Some(t);
  }

  lemma StepKeepsOrder(origin: nat, m: Machine, t: nat, a: Answer)
    requires LockHeld(m) && CounterTrue(m) && Consecutive(origin, m) && t < |m.calls|
    ensures Consecutive(origin, Step(m, t, a))
  {
    SubmitsPending(m, t);
    hide LockHeld, CounterTrue;
  }

  /** Only a transaction the chain takes at this step can be newly reported. */
  lemma StepReports(m: Machine, t: nat, a: Answer)
    requires LockHeld(m) && CounterTrue(m) && t < |m.calls|
    ensures var after := Step(m, t, a);
            && after.pending >= m.pending
            && (Reports(after.calls[t]) in {None, Reports(m.calls[t])}
                || (Reports(after.calls[t]) == Some(m.pending) && after.pending == m.pending + 1))
  {
    SubmitsPending(m, t);
    hide LockHeld, CounterTrue;
  }

  lemma StepKeepsReports(origin: nat, m: Machine, t: nat, a: Answer)
    requires Inv(origin, m) && t < |m.calls|
    ensures ReportsDiffer(origin, Step(m, t, a))
  {
    StepReports(m, t, a);
    StepTouchesOne(m, t, a);
    assert origin <= m.pending;
    assert Reports(m.calls[t]).Some? ==> origin <= Reports(m.calls[t]).value < m.pending;
    hide Step, LockHeld, CounterTrue, Consecutive, Reports;
  }

  lemma StepKeepsInv(origin: nat, m: Machine, t: nat, a: Answer)
    requires Inv(origin, m)
    ensures Inv(origin, Step(m, t, a))
  {
    if t < |m.calls| {
      StepKeepsLock(m, t, a);
      StepKeepsCounter(m, t, a);
      StepKeepsOrder(origin, m, t, a);
      StepKeepsReports(origin, m, t, a);
      hide Step, LockHeld, CounterTrue, Consecutive, ReportsDiffer;
    }
  }

  /**
   Any number of calls, in any interleaving, meeting any failures: the chain has taken exactly the
   nonces from the first pending count on, each once, even where an error hid that it had; whenever
   the mutex is free a counter in use is the pending count; no two calls report the same nonce.
   */
  lemma {:induction false} AnySchedule(origin: nat, calls: nat, s: Schedule)
    ensures var m := Run(Begun(origin, calls), s);
            && Inv(origin, m)
            && m.pending == origin + |m.taken|
            && (forall k | 0 <= k < |m.taken| :: m.taken[k] == origin + k)
            && (m.holder.None? && m.counter.have ==> m.counter.next == m.pending)
            && (forall t, u | 0 <= t < u < |m.calls| && m.calls[t].Returned? && m.calls[u].Returned? ::
                  m.calls[t].res.Some? ==> m.calls[t].res != m.calls[u].res)
    decreases |s|
  {
    if s == [] {
      BegunInv(origin, calls);
    } else {
      var k := |s| - 1;
      AnySchedule(origin, calls, s[..k]);
      StepKeepsInv(origin, Run(Begun(origin, calls), s[..k]), s[k].0, s[k].1);
    }
  }

  // ----- one send by itself

  /** What one call of send meets, question by question. */
  datatype Meets = Meets(key: bool, fees: bool, rpc: bool, sign: bool, reply: Reply)

  function Alone(c: Counter, pending: nat): Machine {
    Machine(c, None, [Starting], pending, [])
  }

  function Answers(e: Meets): Schedule {
    var yes := Answer(true, e.reply);
    [(0, Answer(e.key, e.reply)), (0, Answer(e.fees, e.reply)), (0, yes), (0, Answer(e.rpc, e.reply)),
     (0, Answer(e.sign, e.reply)), (0, yes), (0, yes), (0, yes)]
  }

  /** The machine with one call that nobody interrupts. */
  function Uninterrupted(c: Counter, pending: nat, e: Meets): Machine {
    var s := Answers(e);
    var m := Step(Step(Step(Step(Alone(c, pending), 0, s[0].1), 0, s[1].1), 0, s[2].1), 0, s[3].1);
    Step(Step(Step(Step(m, 0, s[4].1), 0, s[5].1), 0, s[6].1), 0, s[7].1)
  }

  lemma RunStep(m: Machine, s: Schedule, t: nat, a: Answer)
    ensures Run(m, s + [(t, a)]) == Step(Run(m, s), t, a)
  {
    assert (s + [(t, a)])[..|s|] == s;
    hide Step;
  }

  lemma FourSteps(m: Machine, s: Schedule, a: Answer, b: Answer, c: Answer, d: Answer)
    ensures Run(m, s + [(0, a), (0, b), (0, c), (0, d)]) == Step(Step(Step(Step(Run(m, s), 0, a), 0, b), 0, c), 0, d)
  {
    hide Step, Run;
    RunStep(m, s, 0, a);
    RunStep(m, s + [(0, a)], 0, b);
    RunStep(m, s + [(0, a)] + [(0, b)], 0, c);
    RunStep(m, s + [(0, a)] + [(0, b)] + [(0, c)], 0, d);
    assert s + [(0, a)] + [(0, b)] + [(0, c)] + [(0, d)] == s + [(0, a), (0, b), (0, c), (0, d)];
  }

  lemma UninterruptedRuns(c: Counter, pending: nat, e: Meets)
    ensures Run(Alone(c, pending), Answers(e)) == Uninterrupted(c, pending, e)
  {
    var m, s := Alone(c, pending), Answers(e);
    assert Run(m, []) == m;
    assert s == ([] + [(0, s[0].1), (0, s[1].1), (0, s[2].1), (0, s[3].1)]) + [(0, s[4].1), (0, s[5].1), (0, s[6].1), (0, s[7].1)];
    hide Step, Run, Answers;
    FourSteps(m, [], s[0].1, s[1].1, s[2].1, s[3].1);
    FourSteps(m, [] + [(0, s[0].1), (0, s[1].1), (0, s[2].1), (0, s[3].1)], s[4].1, s[5].1, s[6].1, s[7].1);
  }

  /** A send gets as far as having a nonce, and as far as submitting. */
  predicate GetsNonce(c: Counter, e: Meets) { e.key && e.fees && (c.have || e.rpc) }

  predicate Submits(c: Counter, e: Meets) { GetsNonce(c, e) && e.sign }

  /**
   One send reports success exactly when its transaction was accepted and the answer came back; the
   chain then holds it, and also when only the answer was lost; any other send left no trace there.
   A failed submission makes the next send ask the chain again.
   */
  lemma SendOutcome(c: Counter, pending: nat, e: Meets)
    requires c.have ==> c.next == pending
    ensures var m := Uninterrupted(c, pending, e);
      && m.calls == [Returned(if Submits(c, e) && e.reply == Accepted then Some(pending) else None)]
      && m.taken == (if Submits(c, e) && e.reply != Rejected then [pending] else []) && m.pending == pending + |m.taken|
      && (if Submits(c, e) then
            m.counter.have == (e.reply == Accepted) && (m.counter.have ==> m.counter.next == pending + 1)
          else if GetsNonce(c, e) then m.counter == Counter(pending, true)
          else m.counter == c)
  {
    var s := Answers(e);
    var m := Step(Step(Step(Step(Alone(c, pending), 0, s[0].1), 0, s[1].1), 0, s[2].1), 0, s[3].1);
    NonceInHand(c, pending, e);
    if GetsNonce(c, e) {
      FromSigning(m, pending, s[4].1, s[5].1, s[6].1, s[7].1);
    } else {
      FromRefusal(m, s[4].1, s[5].1, s[6].1, s[7].1);
    }
    hide Step;
  }

  lemma NonceInHand(c: Counter, pending: nat, e: Meets)
    requires c.have ==> c.next == pending
    ensures var s := Answers(e);
      var m := Step(Step(Step(Step(Alone(c, pending), 0, s[0].1), 0, s[1].1), 0, s[2].1), 0, s[3].1);
      && m.taken == [] && m.pending == pending
      && if GetsNonce(c, e) then m.calls == [Signing(pending)] && m.counter == Counter(pending, true)
         else (m.calls == [Returned(None)] || m.calls == [Releasing(None)]) && m.counter == c
  {}

  lemma FromSigning(m: Machine, pending: nat, sign: Answer, submit: Answer, record: Answer, release: Answer)
    requires m.calls == [Signing(pending)] && m.counter == Counter(pending, true) && m.taken == [] && m.pending == pending
    ensures var v := Step(Step(Step(Step(m, 0, sign), 0, submit), 0, record), 0, release);
      && v.calls == [Returned(if sign.ok && submit.reply == Accepted then Some(pending) else None)]
      && v.taken == (if sign.ok && submit.reply != Rejected then [pending] else []) && v.pending == pending + |v.taken|
      && (if sign.ok then v.counter.have == (submit.reply == Accepted) && (v.counter.have ==> v.counter.next == pending + 1)
          else v.counter == m.counter)
  {}

  lemma FromRefusal(m: Machine, sign: Answer, submit: Answer, record: Answer, release: Answer)
    requires (m.calls == [Returned(None)] || m.calls == [Releasing(None)]) && m.taken == []
    ensures var v := Step(Step(Step(Step(m, 0, sign), 0, submit), 0, record), 0, release);
      v.calls == [Returned(None)] && v.taken == [] && v.counter == m.counter && v.pending == m.pending
  {}

  /** One send leaves a counter in use at the pending count, whatever it met. */
  lemma SendLeavesPending(c: Counter, pending: nat, e: Meets)
    requires c.have ==> c.next == pending
    ensures var m := Uninterrupted(c, pending, e);
            && |m.calls| == 1 && m.calls[0].Returned?
            && (m.counter.have ==> m.counter.next == m.pending)
            && (m.calls[0].res.Some? ==> m.taken == [m.calls[0].res.value] == [pending])
  {
    SendOutcome(c, pending, e);
    hide *;
  }

  class Client {
    var nextNonce: nat
    var haveNonce: bool

    constructor ()
      ensures Value() == Counter(0, false)
    {
      nextNonce, haveNonce := 0, false;
    }

    function Value(): Counter reads this { Counter(nextNonce, haveNonce) }

    /** `pending` is the chain's answer; it is asked for only when there is no counter to trust. */
    method ReserveNonce(pending: Option<nat>) returns (nonce: Option<nat>)
      modifies this
      ensures nonce == if old(haveNonce) then Some(old(nextNonce)) else pending
      ensures Value() == if old(haveNonce) || pending.None? then old(Value()) else Counter(pending.value, true)
    {
      if !haveNonce {
        if pending.None? { return None; }
        nextNonce, haveNonce := pending.value, true;
        return pending;
      }
      return Some(nextNonce);
    }

    /** `taken` is what the chain then holds of this call, known to the chain alone. */
    method Send(e: Meets, pending: nat) returns (res: Option<nat>, ghost taken: Option<nat>)
      modifies this
      ensures var m := Uninterrupted(old(Value()), pending, e);
              && Value() == m.counter && m.calls == [Returned(res)]
              && m.taken == (if taken.Some? then [taken.value] else [])
    {
      if !e.key { return None, None; }
      if !e.fees { return None, None; }
      var nonce := ReserveNonce(if e.rpc then Some(pending) else None);
      if nonce.None? || !e.sign { return None, None; }
      var n := nonce.value;
      if !e.reply.Accepted? {
        haveNonce := false;
        return None, if e.reply.AcceptedReplyLost? then Some(n) else None;
      }
      nextNonce := n + 1;
      return Some(n), Some(n);
    }
  }
}
