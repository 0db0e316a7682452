/**
 What one operator node gets done: a session with enough shares is published.

 A thread that finds its session ready goes on to the chain in a few steps of its own; no handler of
 a session that became ready ends before the gate was passed for its request; every handler ends.
 */
module Progress {
  import opened Common
  import opened Blsvrf
  import Session
  import Threshold
  import Memory
  import Nonces
  import opened Publishing
  import opened PublishOnce

  ghost function After(d: Setup, m: Machine, events: seq<Event>): Machine {
    if events == [] then m else Step(d, After(d, m, events[..|events| - 1]), events[|events| - 1])
  }

  // ----- the gate, whatever the others do

  /** Nothing but other threads, new handlers, and the log stream. */
  predicate Away(events: seq<Event>, t: nat) {
    forall k | 0 <= k < |events| :: !(events[k].Advance? && events[k].thread == t)
  }

  /** What any step leaves: sessions keep their shares, ids stay published. */
  ghost predicate Grows(s: Shared, s': Shared) {
    HeapKept(s.heap, s'.heap) && s.published <= s'.published
  }

  lemma StepGrows(d: Setup, m: Machine, ev: Event)
    requires Inv(d, m) && Deployed(d)
    ensures Grows(m.shared, Step(d, m, ev).shared)
  {
    if ev.Advance? && ev.thread < |m.threads| {
      var pc := m.threads[ev.thread];
      assert PcOk(d, m.shared, pc);
      hide Next, SharedOk, PcOk, Allowed, Owns, HeapKept, ThreadsOk, Apply;
      Moves(d, m.shared, pc, ev.c);
      EffectKeeps(d, m.shared, Next(d, m.shared, pc, ev.c).1);
    } else {
      hide Next;
      HeapSelf(m.shared.heap);
    }
  }

  lemma HeapSelf(heap: seq<Cell>)
    ensures HeapKept(heap, heap)
  {}

  lemma GrowsStep(s: Shared, s': Shared, s'': Shared)
    requires Grows(s, s') && Grows(s', s'')
    ensures Grows(s, s'')
  {
    forall i | 0 <= i < |s.heap| ensures CellKept(s.heap[i], s''.heap[i]) {
      assert CellKept(s.heap[i], s'.heap[i]) && CellKept(s'.heap[i], s''.heap[i]);
    }
  }

  lemma {:induction false} Undisturbed(d: Setup, m: Machine, events: seq<Event>, t: nat)
    requires Inv(d, m) && Deployed(d) && t < |m.threads| && Away(events, t)
    ensures var v := After(d, m, events);
      Inv(d, v) && t < |v.threads| && v.threads[t] == m.threads[t] && Grows(m.shared, v.shared)
    decreases |events|
  {
    hide *;
    if events == [] {
      GrowsSelf(d, m);
    } else {
      var k := |events| - 1;
      var v := After(d, m, events[..k]);
      AfterIs(d, m, events, t);
      Undisturbed(d, m, events[..k], t);
      StepKeeps(d, v, events[k]);
      StepGrows(d, v, events[k]);
      GrowsStep(m.shared, v.shared, Step(d, v, events[k]).shared);
      OthersStay(d, v, events[k], t);
    }
  }

  lemma GrowsSelf(d: Setup, m: Machine)
    ensures After(d, m, []) == m && Grows(m.shared, m.shared)
  {}

  lemma AfterIs(d: Setup, m: Machine, events: seq<Event>, t: nat)
    requires events != [] && Away(events, t)
    ensures var k := |events| - 1;
      && After(d, m, events) == Step(d, After(d, m, events[..k]), events[k])
      && Away(events[..k], t) && !(events[k].Advance? && events[k].thread == t)
  {
    hide Step;
  }

  lemma OthersStay(d: Setup, m: Machine, ev: Event, t: nat)
    requires t < |m.threads| && !(ev.Advance? && ev.thread == t)
    ensures var v := Step(d, m, ev); t < |v.threads| && v.threads[t] == m.threads[t]
  {
    hide Next, Apply;
  }

  /**
   A handler that asks whether its session is ready, and it is, has seen to the gate after its own next
   two steps, whatever happens before, between and after them.
   */
  lemma PassesGate(d: Setup, m: Machine, t: nat, f: Frame, c: Choice, between: seq<Event>, c': Choice)
    requires Inv(d, m) && Deployed(d) && t < |m.threads|
    requires m.threads[t] == AskingReady(f) && ReadyCell(d, m.shared, f.cell) && Away(between, t)
    ensures var v := Step(d, After(d, Step(d, m, Advance(t, c)), between), Advance(t, c'));
      f.id in v.shared.published && f.id in v.shared.passed
  {
    hide *;
    var u := Step(d, m, Advance(t, c));
    var x := After(d, u, between);
    FindsReady(d, m, t, f, c);
    StepKeeps(d, m, Advance(t, c));
    Undisturbed(d, u, between, t);
    StepKeeps(d, x, Advance(t, c'));
    Gates(d, x, t, f, c');
  }

  lemma FindsReady(d: Setup, m: Machine, t: nat, f: Frame, c: Choice)
    requires t < |m.threads| && m.threads[t] == AskingReady(f) && ReadyCell(d, m.shared, f.cell)
    ensures var u := Step(d, m, Advance(t, c)); |u.threads| == |m.threads| && u.threads[t] == AtGate(f)
  {
    hide ReadyCell;
  }

  lemma Gates(d: Setup, m: Machine, t: nat, f: Frame, c: Choice)
    requires t < |m.threads| && m.threads[t] == AtGate(f) && Inv(d, Step(d, m, Advance(t, c)))
    ensures var v := Step(d, m, Advance(t, c)); f.id in v.shared.published && f.id in v.shared.passed
  {
    var v := Step(d, m, Advance(t, c));
    assert f.id in v.shared.published;
    hide Step, ThreadsOk, Exclusive, HeapOk, SessionsOk, CallsOk, BudgetOk;
  }

  // ----- a thread by itself

  ghost function Alone(d: Setup, s: Shared, pc: Pc, c: Choice, steps: nat): (Shared, Pc)
    decreases steps
  {
    if steps == 0 then (s, pc)
    else
      var (before, at) := Alone(d, s, pc, c, steps - 1);
      var (next, e) := Next(d, before, at, c);
      (Apply(d, before, e), next)
  }

  /** Whether this operator waits for others to publish before it does. */
  predicate Waits(d: Setup, id: Key) { Memory.PublishRank(id, d.index, d.operators) > 0 && d.publishDelay > 0 }

  function GasFor(s: Shared, id: Key): nat { if id in s.callbackGas then s.callbackGas[id] else 0 }

  /**
   With nothing settled, nothing cancelled and the chain saying the request is open, a thread that finds
   its session ready offers the chain the group's signature, and changes nothing else but the gate.
   */
  lemma AloneOffers(d: Setup, s: Shared, f: Frame, c: Choice)
    requires SharedOk(d, s) && PcOk(d, s, AskingReady(f)) && Deployed(d)
    requires ReadyCell(d, s, f.cell) && f.id !in s.published && f.id !in s.settled.known && c.yes
    requires Session.ReadOrder(d.SessionConfig(s.heap[f.cell].seed), s.heap[f.cell].state, c.order, c.pick)
    ensures Alone(d, s, AskingReady(f), c, if Waits(d, f.id) then 8 else 7).0
      == s.(published := s.published + {f.id}, passed := s.passed + [f.id],
            sent := s.sent + [Sent(f.id, f.cell, d.Signed(s.heap[f.cell].seed), GasFor(s, f.id), c.reply)])
  {
    var passed := s.(published := s.published + {f.id}, passed := s.passed + [f.id]);
    var signature := d.Signed(s.heap[f.cell].seed);
    AloneSigns(d, s, f, c);
    hide SharedOk, PcOk, Session.ReadOrder, ReadyCell, Alone;
    AloneSends(d, s, passed, f, c, signature);
  }

  lemma AloneSigns(d: Setup, s: Shared, f: Frame, c: Choice)
    requires SharedOk(d, s) && PcOk(d, s, AskingReady(f)) && Deployed(d)
    requires ReadyCell(d, s, f.cell) && f.id !in s.published
    requires Session.ReadOrder(d.SessionConfig(s.heap[f.cell].seed), s.heap[f.cell].state, c.order, c.pick)
    ensures Alone(d, s, AskingReady(f), c, 3)
      == (s.(published := s.published + {f.id}, passed := s.passed + [f.id]),
          AskingLogs(f, d.Signed(s.heap[f.cell].seed), false))
  {
    hide *;
    ReadyHere(d, s, f.cell);
    var passed := s.(published := s.published + {f.id}, passed := s.passed + [f.id]);
    var signature := d.Signed(s.heap[f.cell].seed);
    AloneBegins(d, s, AskingReady(f), c);
    SignsNow(d, s, passed, f, c);
    AloneStep(d, s, AskingReady(f), c, 0, s, AskingReady(f));
    AloneStep(d, s, AskingReady(f), c, 1, s, AtGate(f));
    AloneStep(d, s, AskingReady(f), c, 2, passed, Aggregating(f));
  }

  lemma ReadyHere(d: Setup, s: Shared, cell: nat)
    requires ReadyCell(d, s, cell)
    ensures cell < |s.heap|
  {}

  /** The gate is free and the session ready: the thread takes the one and signs with the other. */
  lemma SignsNow(d: Setup, s: Shared, passed: Shared, f: Frame, c: Choice)
    requires SharedOk(d, s) && PcOk(d, s, AskingReady(f)) && Deployed(d)
    requires ReadyCell(d, s, f.cell) && f.id !in s.published
    requires passed == s.(published := s.published + {f.id}, passed := s.passed + [f.id])
    requires Session.ReadOrder(d.SessionConfig(s.heap[f.cell].seed), s.heap[f.cell].state, c.order, c.pick)
    ensures Next(d, s, AskingReady(f), c) == (AtGate(f), Nothing) && Apply(d, s, Nothing) == s
    ensures Next(d, s, AtGate(f), c) == (Aggregating(f), Pass(f.id)) && Apply(d, s, Pass(f.id)) == passed
    ensures Next(d, passed, Aggregating(f), c) == (AskingLogs(f, d.Signed(s.heap[f.cell].seed), false), Nothing)
    ensures Apply(d, passed, Nothing) == passed
  {
    assert CellOk(d, s.heap[f.cell]);
    hide Session.Inv, Session.Signature, Session.GroupSignature, Session.ReadOrder, SharedOk, PcOk, CellOk;
    Session.ReadySessionSigns(d.SessionConfig(s.heap[f.cell].seed), s.heap[f.cell].state, c.order, c.pick);
  }

  lemma AloneBegins(d: Setup, s: Shared, pc: Pc, c: Choice)
    ensures Alone(d, s, pc, c, 0) == (s, pc)
  {}

  lemma AloneStep(d: Setup, s: Shared, pc: Pc, c: Choice, n: nat, before: Shared, at: Pc)
    requires Alone(d, s, pc, c, n) == (before, at)
    ensures Alone(d, s, pc, c, n + 1) == (Apply(d, before, Next(d, before, at, c).1), Next(d, before, at, c).0)
  {
    hide Next, Apply;
  }

  /** What maybePublish does from the signature on, with nothing in its way. */
  lemma Unhindered(d: Setup, s: Shared, f: Frame, signature: int, c: Choice)
    requires f.id !in s.settled.known && c.yes
    ensures Next(d, s, AskingLogs(f, signature, false), c)
      == (if Waits(d, f.id) then Waiting(f, signature) else AskingLogs(f, signature, true), Nothing)
    ensures Next(d, s, Waiting(f, signature), c) == (AskingLogs(f, signature, true), Nothing)
    ensures Next(d, s, AskingLogs(f, signature, true), c) == (AskingChain(f, signature), Nothing)
    ensures Next(d, s, AskingChain(f, signature), c) == (Sending(f, signature, 0), Nothing)
  {
    hide Memory.PublishRank;
  }

  lemma SendsNow(d: Setup, s: Shared, f: Frame, signature: int, c: Choice)
    ensures Next(d, s, Sending(f, signature, 0), c).1 == Send(Sent(f.id, f.cell, signature, GasFor(s, f.id), c.reply))
    ensures Apply(d, s, Nothing) == s
    ensures forall call: Sent :: Apply(d, s, Send(call)) == s.(sent := s.sent + [call])
  {}

  lemma AloneSends(d: Setup, s: Shared, u: Shared, f: Frame, c: Choice, signature: int)
    requires Alone(d, s, AskingReady(f), c, 3) == (u, AskingLogs(f, signature, false))
    requires f.id !in u.settled.known && c.yes
    ensures Alone(d, s, AskingReady(f), c, if Waits(d, f.id) then 8 else 7).0
      == u.(sent := u.sent + [Sent(f.id, f.cell, signature, GasFor(u, f.id), c.reply)])
  {
    hide *;
    Unhindered(d, u, f, signature, c);
    SendsNow(d, u, f, signature, c);
    var n: nat := if Waits(d, f.id) then 5 else 4;
    AloneStep(d, s, AskingReady(f), c, 3, u, AskingLogs(f, signature, false));
    if Waits(d, f.id) { AloneStep(d, s, AskingReady(f), c, 4, u, Waiting(f, signature)); }
    AloneStep(d, s, AskingReady(f), c, n, u, AskingLogs(f, signature, true));
    AloneStep(d, s, AskingReady(f), c, n + 1, u, AskingChain(f, signature));
    AloneStep(d, s, AskingReady(f), c, n + 2, u, Sending(f, signature, 0));
  }

  // ----- no ready session is left behind

  /** A thread that has yet to look, or to see to the gate, for this session. */
  predicate WillCheck(pc: Pc, cell: nat) {
    match pc
    case TakingHeld(f, _) => f.cell == cell
    case FilingHeld(f, _, _) => f.cell == cell
    case Chasing(f, _) => f.cell == cell
    case AskingPublished(f, _) => f.cell == cell
    case AskingReady(f) => f.cell == cell
    case AtGate(f) => f.cell == cell
    case _ => false
  }

  ghost predicate Minded(m: Machine, cell: nat)
    requires cell < |m.shared.heap|
  {
    m.shared.heap[cell].id in m.shared.published || exists t :: 0 <= t < |m.threads| && WillCheck(m.threads[t], cell)
  }

  ghost predicate AllMinded(d: Setup, m: Machine) {
    forall cell: nat | cell < |m.shared.heap| && ReadyCell(d, m.shared, cell) :: Minded(m, cell)
  }

  /** Only a share that is not refused makes a session ready. */
  lemma FiledMakesReady(d: Setup, s: Shared, e: Effect, cell: nat)
    requires d.threshold >= 1 && ReadyCell(d, Apply(d, s, e), cell) && !ReadyCell(d, s, cell)
    ensures e.File? && e.cell == cell && !Filing(d, s, cell, e.claim).Refused?
  {
    if e.File? && e.cell == cell && cell < |s.heap| { RefusedFilesNothing(d, s, cell, e.claim); }
    hide Session.Add, Memory.Park, Memory.Take;
  }

  lemma RefusedFilesNothing(d: Setup, s: Shared, cell: nat, claim: Session.Claim)
    requires cell < |s.heap|
    ensures Filing(d, s, cell, claim).Refused? ==> (ReadyCell(d, Apply(d, s, File(cell, claim)), cell) <==> ReadyCell(d, s, cell))
  {}

  /** Whoever files a share goes on to look. */
  lemma FilerLooks(d: Setup, s: Shared, pc: Pc, c: Choice)
    requires var e := Next(d, s, pc, c).1; e.File? && !Filing(d, s, e.cell, e.claim).Refused?
    ensures WillCheck(Next(d, s, pc, c).0, Next(d, s, pc, c).1.cell)
  {
    hide Filing, ReadyCell, Session.Signature, Session.ReadOrder, Memory.PublishRank;
  }

  /** The thread that was to look at a ready session still is, or the gate has been passed. */
  lemma CheckingMinds(d: Setup, s: Shared, pc: Pc, c: Choice, cell: nat)
    requires PcOk(d, s, pc) && WillCheck(pc, cell) && ReadyCell(d, s, cell)
    ensures WillCheck(Next(d, s, pc, c).0, cell)
      || s.heap[cell].id in Apply(d, s, Next(d, s, pc, c).1).published
  {
    hide OwnerOk, Filing, Session.Ready, Memory.HeldFor;
  }

  lemma StepMinds(d: Setup, m: Machine, ev: Event)
    requires Inv(d, m) && AllMinded(d, m) && Deployed(d) && d.threshold >= 1
    ensures AllMinded(d, Step(d, m, ev))
  {
    var v := Step(d, m, ev);
    StepGrows(d, m, ev);
    forall cell: nat | cell < |v.shared.heap| && ReadyCell(d, v.shared, cell) ensures Minded(v, cell) {
      hide Inv, AllMinded, ReadyCell, Step, Deployed;
      if ev.Advance? && ev.thread < |m.threads| {
        AdvanceMinds(d, m, ev.thread, ev.c, cell);
      } else {
        QuietMinds(d, m, ev, cell);
      }
    }
  }

  lemma QuietMinds(d: Setup, m: Machine, ev: Event, cell: nat)
    requires AllMinded(d, m) && (ev.Advance? ==> ev.thread >= |m.threads|) && ReadyCell(d, Step(d, m, ev).shared, cell)
    ensures Minded(Step(d, m, ev), cell)
  {
    var v := Step(d, m, ev);
    assert ReadyCell(d, m.shared, cell) && Minded(m, cell);
    if t :| 0 <= t < |m.threads| && WillCheck(m.threads[t], cell) {
      assert WillCheck(v.threads[t], cell);
    }
  }

  lemma AdvanceMinds(d: Setup, m: Machine, t: nat, c: Choice, cell: nat)
    requires Inv(d, m) && AllMinded(d, m) && d.threshold >= 1 && t < |m.threads|
    requires Grows(m.shared, Step(d, m, Advance(t, c)).shared)
    requires ReadyCell(d, Step(d, m, Advance(t, c)).shared, cell)
    ensures Minded(Step(d, m, Advance(t, c)), cell)
  {
    var s, v := m.shared, Step(d, m, Advance(t, c));
    var (pc, e) := Next(d, s, m.threads[t], c);
    assert v == Machine(Apply(d, s, e), m.threads[t := pc]);
    assert PcOk(d, s, m.threads[t]);
    if ReadyCell(d, s, cell) {
      assert Minded(m, cell);
      assert v.shared.heap[cell].id == s.heap[cell].id by {
        assert CellKept(s.heap[cell], v.shared.heap[cell]);
      }
      hide Inv, AllMinded, ReadyCell, Next, Apply, WillCheck, PcOk, Step;
      if s.heap[cell].id !in s.published {
        var u :| 0 <= u < |m.threads| && WillCheck(m.threads[u], cell);
        if u == t {
          CheckingMinds(d, s, m.threads[t], c, cell);
        }
        assert u != t ==> v.threads[u] == m.threads[u];
        assert v.threads[t] == pc;
      }
    } else {
      hide Inv, AllMinded, ReadyCell, Next, Apply, WillCheck, PcOk, Step, Grows, Filing;
      FiledMakesReady(d, s, e, cell);
      FilerLooks(d, s, m.threads[t], c);
      assert v.threads[t] == pc;
    }
  }

  lemma {:induction false} RunMinds(d: Setup, events: seq<Event>)
    requires Deployed(d) && d.threshold >= 1
    ensures AllMinded(d, Run(d, events))
    decreases |events|
  {
    if events != [] {
      var k := |events| - 1;
      RunKeeps(d, events[..k]);
      RunMinds(d, events[..k]);
      hide Inv, AllMinded, Step;
      StepMinds(d, Run(d, events[..k]), events[k]);
    }
  }

  predicate Quiet(threads: seq<Pc>) { forall t | 0 <= t < |threads| :: threads[t].Done? }

  /**
   In any run, once every handler has ended, the gate has been passed for the request of every session
   that holds enough shares: whoever filed last looked, and nobody gave up in between.
   */
  lemma ReadyIsPassed(d: Setup, events: seq<Event>, cell: nat)
    requires Deployed(d) && d.threshold >= 1
    requires var m := Run(d, events); Quiet(m.threads) && ReadyCell(d, m.shared, cell)
    ensures Run(d, events).shared.heap[cell].id in Run(d, events).shared.passed
  {
    var m := Run(d, events);
    RunMinds(d, events);
    RunKeeps(d, events);
    assert Minded(m, cell);
    assert GateOk(m.shared);
    hide Run, HeapOk, CallsOk, BudgetOk, SessionsOk, ThreadsOk, Exclusive;
  }

  // ----- what passed the gate is offered

  /** Nobody else settles the request, nothing is cancelled, and the chain says it is open. */
  predicate Favours(ev: Event, id: Key) { ev != Report(id) && (ev.Advance? ==> ev.c.yes) }

  predicate Favourable(events: seq<Event>, id: Key) { forall k | 0 <= k < |events| :: Favours(events[k], id) }

  /** Past the gate for this request, with the call still to come. */
  predicate OnItsWay(pc: Pc, id: Key) { Owns(pc) == Some(id) && Made(pc) == Some(0) }

  ghost predicate Offered(m: Machine, id: Key) {
    && id !in m.shared.settled.known
    && (id in m.shared.published ==>
          Calls(m.shared.sent, id) >= 1 || exists t :: 0 <= t < |m.threads| && OnItsWay(m.threads[t], id))
  }

  lemma ApplyOnly(d: Setup, s: Shared, e: Effect, id: Key)
    ensures var s' := Apply(d, s, e);
      && s'.settled == s.settled
      && (id in s'.published <==> id in s.published || e == Pass(id))
      && Calls(s'.sent, id) == Calls(s.sent, id) + (if e.Send? && e.call.id == id then 1 else 0)
  {
    hide *;
    SentOnly(d, s, e);
    if e.Send? { CallAdded(s.sent, e.call, id); }
  }

  lemma SentOnly(d: Setup, s: Shared, e: Effect)
    ensures var s' := Apply(d, s, e);
      && s'.settled == s.settled
      && s'.published == (if e.Pass? then s.published + {e.id} else s.published)
      && s'.sent == (if e.Send? then s.sent + [e.call] else s.sent)
  {
    hide Session.Add, Memory.Park, Memory.Take;
  }

  /** Whoever passes the gate is on its way. */
  lemma PassingStarts(d: Setup, s: Shared, pc: Pc, c: Choice, id: Key)
    requires Next(d, s, pc, c).1 == Pass(id)
    ensures OnItsWay(Next(d, s, pc, c).0, id)
  {
    hide Filing, ReadyCell, Session.Signature, Session.ReadOrder, Memory.PublishRank;
  }

  lemma WayIs(pc: Pc, id: Key)
    requires OnItsWay(pc, id)
    ensures Publishes(pc) && FrameOf(pc).Some? && FrameOf(pc).value.id == id
    ensures pc.Aggregating? || pc.AskingLogs? || pc.Waiting? || pc.AskingChain? || (pc.Sending? && pc.attempt == 0)
  {}

  lemma OnlyPublishes(d: Setup, s: Shared, pc: Pc, c: Choice)
    requires Publishes(pc)
    ensures Next(d, s, pc, c) == MaybePublish(d, s, pc, c)
  {
    hide MaybePublish;
  }

  lemma LogsAhead(f: Frame, signature: int)
    ensures OnItsWay(AskingLogs(f, signature, false), f.id)
  {}

  /** Whoever is on its way stays so until it has called. */
  lemma WayGoesOn(d: Setup, s: Shared, pc: Pc, c: Choice, id: Key)
    requires SharedOk(d, s) && PcOk(d, s, pc) && Deployed(d)
    requires OnItsWay(pc, id) && id !in s.settled.known && c.yes
    ensures var (pc', e) := Next(d, s, pc, c);
      OnItsWay(pc', id) || (e.Send? && e.call.id == id)
  {
    WayIs(pc, id);
    if pc.Aggregating? {
      AggregatingMoves(d, s, pc, c);
      OnlyPublishes(d, s, pc, c);
      hide *;
      if MaybePublish(d, s, pc, c).0 != pc { LogsAhead(pc.f, d.Signed(s.heap[pc.f.cell].seed)); }
    } else {
      hide SharedOk, PcOk, Memory.PublishRank, OnRequest, OnPeerShare, ReadyCell, Filing;
    }
  }

  lemma StepOffers(d: Setup, m: Machine, ev: Event, id: Key)
    requires Inv(d, m) && Offered(m, id) && Deployed(d) && Favours(ev, id)
    ensures Offered(Step(d, m, ev), id)
  {
    if ev.Advance? && ev.thread < |m.threads| {
      hide *;
      AdvanceOffers(d, m, ev.thread, ev.c, id);
      FavoursIs(ev, id);
    } else {
      QuietOffers(d, m, ev, id);
    }
  }

  lemma FavoursIs(ev: Event, id: Key)
    requires Favours(ev, id) && ev.Advance?
    ensures ev.c.yes
  {}

  lemma SettlesOnly(s: Memory.Settled, key: Key, id: Key)
    requires id !in s.known && id != key
    ensures id !in Memory.Settle(s, key).known
  {
    if key !in s.known { TrimDrops(Memory.Settled(s.known + {key}, s.order + [key])); }
  }

  lemma {:induction false} TrimDrops(s: Memory.Settled)
    ensures Memory.Trim(s).known <= s.known
    decreases |s.order|
  {
    if |s.order| > Memory.MAX_SETTLED { TrimDrops(Memory.Settled(s.known - {s.order[0]}, s.order[1..])); }
  }

  lemma QuietOffers(d: Setup, m: Machine, ev: Event, id: Key)
    requires Offered(m, id) && Favours(ev, id) && (ev.Advance? ==> ev.thread >= |m.threads|)
    ensures Offered(Step(d, m, ev), id)
  {
    var v := Step(d, m, ev);
    if ev.Report? { SettlesOnly(m.shared.settled, ev.id, id); }
    hide OnItsWay, Memory.Settle, Calls;
    if t :| 0 <= t < |m.threads| && OnItsWay(m.threads[t], id) {
      assert v.threads[t] == m.threads[t];
    }
  }

  lemma AdvanceOffers(d: Setup, m: Machine, t: nat, c: Choice, id: Key)
    requires Inv(d, m) && Offered(m, id) && Deployed(d) && t < |m.threads| && c.yes
    ensures Offered(Step(d, m, Advance(t, c)), id)
  {
    var s, v := m.shared, Step(d, m, Advance(t, c));
    var (pc, e) := Next(d, s, m.threads[t], c);
    assert v == Machine(Apply(d, s, e), m.threads[t := pc]) && v.threads[t] == pc;
    assert SharedOk(d, s) && PcOk(d, s, m.threads[t]);
    hide Inv, Next, Apply, Step, OnItsWay, PcOk, SharedOk, Calls;
    ApplyOnly(d, s, e, id);
    if e == Pass(id) {
      PassingStarts(d, s, m.threads[t], c, id);
    } else if id in s.published && Calls(s.sent, id) == 0 {
      var u :| 0 <= u < |m.threads| && OnItsWay(m.threads[u], id);
      if u == t { WayGoesOn(d, s, m.threads[t], c, id); } else { assert v.threads[u] == m.threads[u]; }
    }
  }

  lemma {:induction false} RunOffers(d: Setup, events: seq<Event>, id: Key)
    requires Deployed(d) && Favourable(events, id)
    ensures Offered(Run(d, events), id)
    decreases |events|
  {
    if events != [] {
      var k := |events| - 1;
      assert Favourable(events[..k], id) && Favours(events[k], id);
      RunKeeps(d, events[..k]);
      RunOffers(d, events[..k], id);
      hide Inv, Offered, Step, Favours;
      StepOffers(d, Run(d, events[..k]), events[k], id);
    }
  }

  /** A call of Fulfill for a request, with the group's signature on the seed of one of its sessions. */
  ghost predicate OfferedWell(d: Setup, s: Shared, id: Key) {
    exists j :: 0 <= j < |s.sent| && SignedFor(d, s, s.sent[j], id)
  }

  ghost predicate SignedFor(d: Setup, s: Shared, call: Sent, id: Key) {
    call.id == id && Refers(s.heap, id, call.cell) && call.signature == d.Signed(s.heap[call.cell].seed)
  }

  lemma {:induction false} FirstCall(sent: seq<Sent>, id: Key) returns (j: nat)
    requires Calls(sent, id) >= 1
    ensures j < |sent| && sent[j].id == id
    decreases |sent|
  {
    var n := |sent| - 1;
    if sent[n].id == id { j := n; } else { j := FirstCall(sent[..n], id); }
  }

  /**
   In any run in which nobody else settles a request, nothing is cancelled and the chain says it is open:
   once every handler has ended, a session of that request that holds enough shares has led to a call of
   Fulfill with the group's signature.
   */
  lemma ReadyIsOffered(d: Setup, events: seq<Event>, cell: nat)
    requires Deployed(d) && d.threshold >= 1
    requires var m := Run(d, events); Quiet(m.threads) && ReadyCell(d, m.shared, cell) && Favourable(events, m.shared.heap[cell].id)
    ensures var s := Run(d, events).shared; OfferedWell(d, s, s.heap[cell].id)
  {
    var m := Run(d, events);
    var id := m.shared.heap[cell].id;
    ReadyIsPassed(d, events, cell);
    RunOffers(d, events, id);
    RunKeeps(d, events);
    assert GateOk(m.shared) && CallsOk(d, m.shared);
    hide Run, HeapOk, BudgetOk, SessionsOk, ThreadsOk, Exclusive, ReadyCell, Calls;
    var j := FirstCall(m.shared.sent, id);
    assert CallOk(d, m.shared.heap, m.shared.sent[j]);
    assert SignedFor(d, m.shared, m.shared.sent[j], id);
  }

  // ----- every handler ends

  /** Retries still to come after the given attempt, three steps each. */
  function Retrying(d: Setup, attempt: nat): nat {
    if attempt < d.sendRetries then 3 * (d.sendRetries - attempt) else 0
  }

  /** The most steps maybePublish takes. */
  function Publication(d: Setup): nat { Retrying(d, 0) + 9 }

  /** The most steps chaseQuorum and what follows it take from the given attempt on. */
  function Chase(d: Setup, attempt: nat): nat
    decreases d.rebroadcastAttempts - attempt
  {
    Publication(d) + 2 + if attempt < d.rebroadcastAttempts then Chase(d, attempt + 1) else 0
  }

  function Back(d: Setup, f: Frame): nat { if f.again.Some? then Chase(d, f.again.value) else 0 }

  /** The most steps a handler still has before it. */
  function Left(d: Setup, pc: Pc): nat {
    var held: nat := if d.operators > 0 then d.operators else 0;
    match pc
    case Announced(_) => Chase(d, 0) + held + 6
    case AskingSettled(_) => Chase(d, 0) + held + 5
    case OpeningSession(_) => Chase(d, 0) + held + 4
    case FilingOwn(f, _) => Chase(d, 0) + held + 3 + Back(d, f)
    case TakingHeld(f, _) => Chase(d, 0) + held + 2 + Back(d, f)
    case FilingHeld(f, _, rest) => Chase(d, 0) + |rest| + 1 + Back(d, f)
    case Chasing(_, attempt) => Chase(d, attempt)
    case AskingPublished(_, attempt) => Publication(d) + 1 + Chase(d, attempt + 1)
    case Received(_) => Publication(d) + 2
    case Parking(_, _) => 1
    case FilingPeer(f, _) => Publication(d) + Back(d, f) + 1
    case AskingReady(f) => Publication(d) + Back(d, f)
    case AtGate(f) => Retrying(d, 0) + 8 + Back(d, f)
    case Aggregating(f) => Retrying(d, 0) + 7 + Back(d, f)
    case AskingLogs(f, _, waited) => Retrying(d, 0) + (if waited then 4 else 6) + Back(d, f)
    case Waiting(f, _) => Retrying(d, 0) + 5 + Back(d, f)
    case AskingChain(f, _) => Retrying(d, 0) + 3 + Back(d, f)
    case Sending(f, _, attempt) => Retrying(d, attempt) + 2 + Back(d, f)
    case Backing(f, _, attempt) => Retrying(d, attempt + 1) + 4 + Back(d, f)
    case Rechecking(f, _, attempt) => Retrying(d, attempt + 1) + 3 + Back(d, f)
    case Forgetting(f) => 1 + Back(d, f)
    case Done => 0
  }

  /** A step that moves a thread brings it nearer its end. */
  lemma StepsDown(d: Setup, s: Shared, pc: Pc, c: Choice)
    requires MemoriesOk(d, s) && d.operators >= 1
    ensures var pc' := Next(d, s, pc, c).0; pc' == pc || Left(d, pc') < Left(d, pc)
  {
    if pc.TakingHeld? {
      HeldWithin(d, s, pc.f.id);
      hide MemoriesOk, Memory.HeldFor, MaybePublish, OnPeerShare, Chase;
    } else if Publishes(pc) {
      PublishingDown(d, s, pc, c);
    } else if pc.FilingHeld? || pc.Chasing? || pc.AskingPublished? {
      ChasingDown(d, s, pc, c);
    } else if pc.Received? || pc.Parking? || pc.FilingPeer? {
      hide MemoriesOk, MaybePublish, OnRequest, Filing, Retrying;
    } else {
      hide MemoriesOk, MaybePublish, OnPeerShare, Filing, ReadyCell, Retrying, Memory.HeldFor, Chase;
    }
  }

  lemma ChasingDown(d: Setup, s: Shared, pc: Pc, c: Choice)
    requires pc.FilingHeld? || pc.Chasing? || pc.AskingPublished?
    ensures Left(d, Next(d, s, pc, c).0) < Left(d, pc)
  {
    hide MaybePublish, OnPeerShare, ReadyCell, Retrying;
  }

  lemma HeldWithin(d: Setup, s: Shared, id: Key)
    requires MemoriesOk(d, s) && d.operators >= 1
    ensures |Memory.HeldFor(s.parked, id)| <= d.operators
  {}

  lemma PublishingDown(d: Setup, s: Shared, pc: Pc, c: Choice)
    requires Publishes(pc)
    ensures var pc' := Next(d, s, pc, c).0; pc' == pc || Left(d, pc') < Left(d, pc)
  {
    OnlyPublishes(d, s, pc, c);
    hide Chase, Next, Filing, ReadyCell, Session.Signature, Session.ReadOrder, Memory.PublishRank;
    if pc.Sending? || pc.Backing? || pc.Rechecking? {
      SendingDown(d, s, pc, c);
    } else if pc.AskingReady? || pc.AtGate? || pc.Aggregating? {
      GateDown(d, s, pc, c);
    } else {
      hide Retrying;
    }
  }

  lemma SendingDown(d: Setup, s: Shared, pc: Pc, c: Choice)
    requires pc.Sending? || pc.Backing? || pc.Rechecking?
    ensures Left(d, MaybePublish(d, s, pc, c).0) < Left(d, pc)
  {
    hide Chase;
  }

  lemma GateDown(d: Setup, s: Shared, pc: Pc, c: Choice)
    requires pc.AskingReady? || pc.AtGate? || pc.Aggregating?
    ensures var pc' := MaybePublish(d, s, pc, c).0; pc' == pc || Left(d, pc') < Left(d, pc)
  {
    hide Chase, Retrying, ReadyCell, Session.Signature, Session.ReadOrder;
  }

  /** How often a step moved its thread. */
  ghost function Moved(d: Setup, events: seq<Event>): nat {
    if events == [] then 0
    else
      var m, ev := Run(d, events[..|events| - 1]), events[|events| - 1];
      Moved(d, events[..|events| - 1])
        + if ev.Advance? && ev.thread < |m.threads| && Step(d, m, ev).threads != m.threads then 1 else 0
  }

  function AllLeft(d: Setup, threads: seq<Pc>): nat {
    if threads == [] then 0 else AllLeft(d, threads[..|threads| - 1]) + Left(d, threads[|threads| - 1])
  }

  lemma {:induction false} LeftUpdate(d: Setup, threads: seq<Pc>, t: nat, pc: Pc)
    requires t < |threads|
    ensures AllLeft(d, threads[t := pc]) == AllLeft(d, threads) - Left(d, threads[t]) + Left(d, pc)
    decreases |threads|
  {
    hide Left;
    var n := |threads| - 1;
    if t < n {
      assert threads[t := pc][..n] == threads[..n][t := pc];
      LeftUpdate(d, threads[..n], t, pc);
    } else {
      assert threads[t := pc][..n] == threads[..n];
    }
  }

  /** The most steps any handler takes. */
  function Most(d: Setup): nat { Left(d, Announced(Request(0, 0, 0, 0))) }

  lemma BeginsWithin(d: Setup, req: Request, e: Envelope)
    ensures Left(d, Announced(req)) <= Most(d) && Left(d, Received(e)) <= Most(d)
  {}

  lemma StepLeft(d: Setup, m: Machine, ev: Event)
    requires MemoriesOk(d, m.shared) && d.operators >= 1
    ensures var v := Step(d, m, ev);
      && (ev.Announce? || ev.Receive? ==>
            |v.threads| == |m.threads| + 1 && AllLeft(d, v.threads) <= AllLeft(d, m.threads) + Most(d))
      && (!(ev.Announce? || ev.Receive?) ==> |v.threads| == |m.threads| && AllLeft(d, v.threads) <= AllLeft(d, m.threads))
      && (ev.Advance? && ev.thread < |m.threads| && v.threads != m.threads ==> AllLeft(d, v.threads) < AllLeft(d, m.threads))
  {
    hide Left, Next, Apply, MemoriesOk, Most;
    match ev
    case Announce(req) =>
      BeginsWithin(d, req, Envelope(None, None, 0, None));
      assert (m.threads + [Announced(req)])[..|m.threads|] == m.threads;
    case Receive(e) =>
      BeginsWithin(d, Request(0, 0, 0, 0), e);
      assert (m.threads + [Received(e)])[..|m.threads|] == m.threads;
    case Report(_) =>
    case Advance(t, c) =>
      if t < |m.threads| {
        StepsDown(d, m.shared, m.threads[t], c);
        LeftUpdate(d, m.threads, t, Next(d, m.shared, m.threads[t], c).0);
      }
  }

  /**
   Every handler ends: whatever happens in a run, its handlers together make no more steps than their
   number times a bound that depends on the configuration alone.
   */
  lemma {:induction false} HandlersEnd(d: Setup, events: seq<Event>)
    requires d.operators >= 1
    ensures Moved(d, events) + AllLeft(d, Run(d, events).threads) <= |Run(d, events).threads| * Most(d)
    decreases |events|
  {
    hide *;
    MovedIs(d, events);
    if events != [] {
      var k := |events| - 1;
      var m, v := Run(d, events[..k]), Run(d, events);
      HandlersEnd(d, events[..k]);
      MemoriesBounded(d, events[..k]);
      StepLeft(d, m, events[k]);
      Product(|m.threads|, Most(d));
    }
  }

  lemma MovedIs(d: Setup, events: seq<Event>)
    ensures events == [] ==> Moved(d, events) == 0 && Run(d, events).threads == [] && AllLeft(d, Run(d, events).threads) == 0
    ensures events != [] ==>
      var m, ev := Run(d, events[..|events| - 1]), events[|events| - 1];
      && Run(d, events) == Step(d, m, ev)
      && Moved(d, events) == Moved(d, events[..|events| - 1])
           + (if ev.Advance? && ev.thread < |m.threads| && Step(d, m, ev).threads != m.threads then 1 else 0)
  {
    hide Step, Left;
  }

  lemma Product(n: nat, k: nat)
    ensures (n + 1) * k == n * k + k
  {}

  /** Some way of reading a map with these keys. */
  lemma {:induction false} SomeOrder(keys: set<nat>) returns (order: seq<nat>)
    ensures Session.Enumerates(order, keys)
    decreases |keys|
  {
    if keys == {} {
      order := [];
    } else {
      var k :| k in keys;
      var rest := SomeOrder(keys - {k});
      order := rest + [k];
      assert k !in rest;
    }
  }

  lemma SomeReading(cfg: Session.Config, state: Session.State) returns (order: seq<nat>, pick: seq<nat>)
    ensures Session.ReadOrder(cfg, state, order, pick)
  {
    order := SomeOrder(state.partials.Keys);
    pick := seq(|order|, k => k);
  }

  /** No handler is ever stuck: until it has ended there is a favourable step that moves it. */
  lemma CanMove(d: Setup, m: Machine, t: nat) returns (c: Choice)
    requires Inv(d, m) && Deployed(d) && t < |m.threads| && !m.threads[t].Done?
    ensures c.yes && Step(d, m, Advance(t, c)).threads != m.threads
  {
    hide *;
    var s, pc := m.shared, m.threads[t];
    c := Choice(true, Nonces.Accepted, [], []);
    if pc.Aggregating? {
      CellHere(d, m, t);
      var cell := s.heap[pc.f.cell];
      var order, pick := SomeReading(d.SessionConfig(cell.seed), cell.state);
      c := Choice(true, Nonces.Accepted, order, pick);
    }
    MovesOn(d, s, pc, c);
    MoveShows(d, m, t, c);
  }

  lemma CellHere(d: Setup, m: Machine, t: nat)
    requires Inv(d, m) && t < |m.threads| && m.threads[t].Aggregating?
    ensures m.threads[t].f.cell < |m.shared.heap|
  {
    assert PcOk(d, m.shared, m.threads[t]);
    hide SharedOk, Exclusive, OwnerOk, ReadyCell;
  }

  lemma MoveShows(d: Setup, m: Machine, t: nat, c: Choice)
    requires t < |m.threads| && Next(d, m.shared, m.threads[t], c).0 != m.threads[t]
    ensures Step(d, m, Advance(t, c)).threads != m.threads
  {
    hide Next, Apply;
    assert Step(d, m, Advance(t, c)).threads[t] == Next(d, m.shared, m.threads[t], c).0;
  }

  lemma MovesOn(d: Setup, s: Shared, pc: Pc, c: Choice)
    requires !pc.Done? && c.yes
    requires pc.Aggregating? ==> pc.f.cell < |s.heap|
    requires pc.Aggregating? ==> Session.ReadOrder(d.SessionConfig(s.heap[pc.f.cell].seed), s.heap[pc.f.cell].state, c.order, c.pick)
    ensures Next(d, s, pc, c).0 != pc
  {
    hide Filing, ReadyCell, Session.ReadOrder, Session.Signature, Memory.PublishRank, Memory.HeldFor;
  }

  /** From any run on, the handlers at work can all end in favourable steps of their own. */
  lemma {:induction false} CanFinish(d: Setup, events: seq<Event>) returns (more: seq<Event>)
    requires Deployed(d) && d.operators >= 1
    ensures forall k | 0 <= k < |more| :: more[k].Advance? && more[k].c.yes
    ensures Quiet(Run(d, events + more).threads)
    decreases AllLeft(d, Run(d, events).threads)
  {
    hide *;
    var m := Run(d, events);
    var t := Unfinished(m.threads);
    if t == |m.threads| {
      assert events + [] == events;
      more := [];
    } else {
      RunKeeps(d, events);
      MemoriesBounded(d, events);
      var c := CanMove(d, m, t);
      RunOneMore(d, events, Advance(t, c));
      StepLeft(d, m, Advance(t, c));
      var rest := CanFinish(d, events + [Advance(t, c)]);
      more := [Advance(t, c)] + rest;
      assert events + more == events + [Advance(t, c)] + rest;
    }
  }

  lemma {:induction false} Unfinished(threads: seq<Pc>) returns (t: nat)
    ensures t <= |threads| && (if t == |threads| then Quiet(threads) else !threads[t].Done?)
    decreases |threads|
  {
    if threads == [] {
      t := 0;
    } else {
      var n := |threads| - 1;
      t := Unfinished(threads[..n]);
      if t == n && threads[n].Done? { t := n + 1; }
    }
  }

  lemma RunOneMore(d: Setup, events: seq<Event>, ev: Event)
    ensures Run(d, events + [ev]) == Step(d, Run(d, events), ev)
  {
    assert (events + [ev])[..|events|] == events;
    hide Step;
  }

  // ----- shares are filed

  /** The announced request is being handled, or this operator's own share for it has been tried. */
  ghost predicate Tended(d: Setup, m: Machine, req: Request) {
    && req.id !in m.shared.settled.known
    && ((exists t :: 0 <= t < |m.threads| && Tends(m.threads[t], req))
        || exists cell: nat :: OwnTried(d, m.shared, cell, req.id))
  }

  predicate Tends(pc: Pc, req: Request) {
    pc == Announced(req) || pc == AskingSettled(req) || pc == OpeningSession(req)
    || (pc.FilingOwn? && pc.f.id == req.id)
  }

  predicate OwnTried(d: Setup, s: Shared, cell: nat, id: Key) {
    Refers(s.heap, id, cell) && d.index in s.heap[cell].state.spent
  }

  lemma TriedStays(d: Setup, s: Shared, s': Shared, cell: nat, id: Key)
    requires Grows(s, s') && OwnTried(d, s, cell, id)
    ensures OwnTried(d, s', cell, id)
  {
    assert CellKept(s.heap[cell], s'.heap[cell]);
  }

  lemma TendsOn(d: Setup, s: Shared, pc: Pc, c: Choice, req: Request)
    requires SharedOk(d, s) && PcOk(d, s, pc) && Tends(pc, req) && req.id !in s.settled.known
    requires d.derive(req.id, req.consumer) == req.seed && d.index < d.operators
    ensures var (pc', e) := Next(d, s, pc, c);
      Tends(pc', req) || exists cell: nat :: OwnTried(d, Apply(d, s, e), cell, req.id)
  {
    if pc.FilingOwn? {
      OwnFiled(d, s, pc.f, pc.seed, c);
    }
    hide SharedOk, PcOk, Filing;
  }

  /** Filing the own share leaves it tried, if it was not before. */
  lemma OwnFiled(d: Setup, s: Shared, f: Frame, seed: Seed, c: Choice)
    requires SharedOk(d, s) && PcOk(d, s, FilingOwn(f, seed)) && d.index < d.operators
    ensures OwnTried(d, Apply(d, s, Next(d, s, FilingOwn(f, seed), c).1), f.cell, f.id)
  {
    assert CellOk(d, s.heap[f.cell]);
    hide SharedOk, Threshold.ValidPartial, Session.ValidEvidence, OwnerOk;
  }

  lemma StepTends(d: Setup, m: Machine, ev: Event, req: Request)
    requires Inv(d, m) && Deployed(d) && Tended(d, m, req) && ev != Report(req.id)
    requires d.derive(req.id, req.consumer) == req.seed && d.index < d.operators
    ensures Tended(d, Step(d, m, ev), req)
  {
    hide *;
    StepGrows(d, m, ev);
    if ev.Advance? && ev.thread < |m.threads| {
      AdvanceTends(d, m, ev.thread, ev.c, req);
    } else {
      QuietTends(d, m, ev, req);
    }
  }

  lemma QuietTends(d: Setup, m: Machine, ev: Event, req: Request)
    requires Tended(d, m, req) && ev != Report(req.id) && (ev.Advance? ==> ev.thread >= |m.threads|)
    requires Grows(m.shared, Step(d, m, ev).shared)
    ensures Tended(d, Step(d, m, ev), req)
  {
    var v := Step(d, m, ev);
    if ev.Report? { SettlesOnly(m.shared.settled, ev.id, req.id); }
    hide Tends, Memory.Settle, OwnTried, Grows;
    if t :| 0 <= t < |m.threads| && Tends(m.threads[t], req) {
      assert v.threads[t] == m.threads[t];
    } else {
      var cell: nat :| OwnTried(d, m.shared, cell, req.id);
      TriedStays(d, m.shared, v.shared, cell, req.id);
    }
  }

  lemma AdvanceTends(d: Setup, m: Machine, t: nat, c: Choice, req: Request)
    requires Inv(d, m) && Deployed(d) && t < |m.threads| && Tended(d, m, req)
    requires d.derive(req.id, req.consumer) == req.seed && d.index < d.operators
    requires Grows(m.shared, Step(d, m, Advance(t, c)).shared)
    ensures Tended(d, Step(d, m, Advance(t, c)), req)
  {
    var s, v := m.shared, Step(d, m, Advance(t, c));
    var (pc, e) := Next(d, s, m.threads[t], c);
    assert v == Machine(Apply(d, s, e), m.threads[t := pc]) && v.threads[t] == pc;
    assert SharedOk(d, s) && PcOk(d, s, m.threads[t]);
    hide Inv, Next, Apply, Step, Tends, OwnTried, PcOk, SharedOk, Grows;
    ApplyOnly(d, s, e, req.id);
    if u :| 0 <= u < |m.threads| && Tends(m.threads[u], req) {
      if u == t { TendsOn(d, s, m.threads[t], c, req); } else { assert v.threads[u] == m.threads[u]; }
    } else {
      var cell: nat :| OwnTried(d, s, cell, req.id);
      TriedStays(d, s, v.shared, cell, req.id);
    }
  }

  lemma Unreported(d: Setup, m: Machine, ev: Event, id: Key)
    requires id !in m.shared.settled.known && ev != Report(id)
    ensures id !in Step(d, m, ev).shared.settled.known
  {
    if ev.Report? { SettlesOnly(m.shared.settled, ev.id, id); }
    if ev.Advance? && ev.thread < |m.threads| {
      ApplyOnly(d, m.shared, Next(d, m.shared, m.threads[ev.thread], ev.c).1, id);
    }
    hide Next, Apply, Memory.Settle;
  }

  lemma {:induction false} RunTends(d: Setup, events: seq<Event>, req: Request)
    requires Deployed(d) && d.derive(req.id, req.consumer) == req.seed && d.index < d.operators
    requires forall k | 0 <= k < |events| :: events[k] != Report(req.id)
    ensures req.id !in Run(d, events).shared.settled.known
    ensures Announce(req) in events ==> Tended(d, Run(d, events), req)
    decreases |events|
  {
    if events != [] {
      var k := |events| - 1;
      var m := Run(d, events[..k]);
      RunTends(d, events[..k], req);
      RunKeeps(d, events[..k]);
      Unreported(d, m, events[k], req.id);
      hide Inv;
      if Announce(req) in events[..k] {
        hide Tended, Step;
        StepTends(d, m, events[k], req);
      } else if events[k] == Announce(req) {
        assert Tends(Step(d, m, events[k]).threads[|m.threads|], req);
      } else {
        assert forall ev | ev in events :: ev in events[..k] || ev == events[k];
      }
    }
  }

  /**
   A request announced with the seed its id derives, and not reported settled, has a session in which
   this operator's own share was tried, once every handler has ended.
   */
  lemma AnnouncedIsShared(d: Setup, events: seq<Event>, req: Request)
    requires Deployed(d) && d.derive(req.id, req.consumer) == req.seed && d.index < d.operators
    requires Announce(req) in events && forall k | 0 <= k < |events| :: events[k] != Report(req.id)
    requires Quiet(Run(d, events).threads)
    ensures exists cell: nat :: OwnTried(d, Run(d, events).shared, cell, req.id)
  {
    RunTends(d, events, req);
    hide Run, OwnTried;
  }

  /** A peer's share for an announced request with the right seed is filed in its session by two steps of its handler. */
  lemma PeerShareFiled(d: Setup, s: Shared, e: Envelope, cell: nat, c: Choice)
    requires e.id.Some? && d.Decode(e).Some? && e.id.value in s.sessions
    requires s.sessions[e.id.value] == cell < |s.heap| && s.heap[cell].seed == d.Decode(e).value.0
    ensures Alone(d, s, Received(e), c, 2).0 == WithState(s, cell,
      Session.Add(d.SessionConfig(s.heap[cell].seed), s.heap[cell].state, d.Decode(e).value.1).0)
  {
    hide Session.Add;
    AloneBegins(d, s, Received(e), c);
    AloneStep(d, s, Received(e), c, 0, s, Received(e));
    AloneStep(d, s, Received(e), c, 1, s, FilingPeer(Frame(e.id.value, cell, None), d.Decode(e).value.1));
  }

  /** One session has moved on. */
  function WithState(s: Shared, cell: nat, state: Session.State): Shared
    requires cell < |s.heap|
  {
    s.(heap := s.heap[cell := s.heap[cell].(state := state)])
  }

  /** One for a request not announced yet is held, and is there when the announcement comes to look. */
  lemma PeerShareHeld(d: Setup, s: Shared, e: Envelope, c: Choice)
    requires e.id.Some? && d.Decode(e).Some? && e.id.value !in s.sessions
    requires |Memory.HeldFor(s.parked, e.id.value)| < d.operators
    ensures var s' := Alone(d, s, Received(e), c, 2).0;
      Memory.HeldFor(s'.parked, e.id.value) == Memory.HeldFor(s.parked, e.id.value) + [e]
  {
    AloneBegins(d, s, Received(e), c);
    AloneStep(d, s, Received(e), c, 0, s, Received(e));
    AloneStep(d, s, Received(e), c, 1, s, Parking(e.id.value, e));
  }

  /** The claims among what was held that carry the right seed. */
  function Fitting(d: Setup, held: seq<Envelope>, seed: Seed): seq<Session.Claim> {
    if held == [] then []
    else
      var claim := d.Decode(held[0]);
      (if claim.Some? && claim.value.0 == seed then [claim.value.1] else []) + Fitting(d, held[1..], seed)
  }

  /** A handler files everything that was held for its request, in the order it came. */
  lemma {:induction false} HeldIsFiled(d: Setup, s: Shared, f: Frame, seed: Seed, held: seq<Envelope>, c: Choice)
    requires f.cell < |s.heap|
    ensures Alone(d, s, FilingHeld(f, seed, held), c, |held|)
      == (WithState(s, f.cell, Session.Run(d.SessionConfig(s.heap[f.cell].seed), s.heap[f.cell].state, Fitting(d, held, seed))),
          FilingHeld(f, seed, []))
    decreases |held|
  {
    hide *;
    AloneBegins(d, s, FilingHeld(f, seed, held), c);
    NothingHeld(d, s, f, seed);
    if held != [] {
      FilesFirst(d, s, f, seed, held, c);
      var next := Apply(d, s, Next(d, s, FilingHeld(f, seed, held), c).1);
      HeldIsFiled(d, next, f, seed, held[1..], c);
      AloneFirst(d, s, FilingHeld(f, seed, held), c, |held| - 1);
    }
  }

  lemma NothingHeld(d: Setup, s: Shared, f: Frame, seed: Seed)
    requires f.cell < |s.heap|
    ensures WithState(s, f.cell, Session.Run(d.SessionConfig(s.heap[f.cell].seed), s.heap[f.cell].state, Fitting(d, [], seed))) == s
  {}

  lemma FilesFirst(d: Setup, s: Shared, f: Frame, seed: Seed, held: seq<Envelope>, c: Choice)
    requires f.cell < |s.heap| && held != []
    ensures var cell, next := s.heap[f.cell], Apply(d, s, Next(d, s, FilingHeld(f, seed, held), c).1);
      && Next(d, s, FilingHeld(f, seed, held), c).0 == FilingHeld(f, seed, held[1..])
      && |next.heap| == |s.heap| && next.heap[f.cell].seed == cell.seed
      && WithState(next, f.cell, Session.Run(d.SessionConfig(cell.seed), next.heap[f.cell].state, Fitting(d, held[1..], seed)))
           == WithState(s, f.cell, Session.Run(d.SessionConfig(cell.seed), cell.state, Fitting(d, held, seed)))
  {
    var claim, rest := d.Decode(held[0]), Fitting(d, held[1..], seed);
    if claim.Some? && claim.value.0 == seed {
      assert Fitting(d, held, seed) == [claim.value.1] + rest;
      assert ([claim.value.1] + rest)[1..] == rest;
    } else {
      assert Fitting(d, held, seed) == rest;
    }
    hide Session.Add, Fitting, MaybePublish, OnPeerShare;
  }

  lemma {:induction false} AloneFirst(d: Setup, s: Shared, pc: Pc, c: Choice, n: nat)
    ensures Alone(d, s, pc, c, n + 1) == Alone(d, Apply(d, s, Next(d, s, pc, c).1), Next(d, s, pc, c).0, c, n)
    decreases n
  {
    hide Next, Apply;
    AloneBegins(d, s, pc, c);
    if n > 0 { AloneFirst(d, s, pc, c, n - 1); }
  }

  // ----- the gas a call is given

  /** Every announcement of this request names the same gas limit. */
  predicate NamesGas(events: seq<Event>, id: Key, gas: nat) {
    forall k | 0 <= k < |events| :: events[k].Announce? && events[k].req.id == id ==> events[k].req.callbackGasLimit == gas
  }

  /** Where a handler stands, its request's limit is known or about to be recorded. */
  predicate GasAt(s: Shared, pc: Pc, id: Key, gas: nat) {
    && (pc.Announced? && pc.req.id == id ==> pc.req.callbackGasLimit == gas)
    && ((pc.AskingSettled? || pc.OpeningSession?) && pc.req.id == id ==> id in s.callbackGas)
  }

  ghost predicate GasKnown(s: Shared, id: Key, gas: nat) {
    && (id in s.callbackGas ==> s.callbackGas[id] == gas)
    && (forall i | 0 <= i < |s.heap| :: s.heap[i].id == id ==> id in s.callbackGas)
    && (forall j | 0 <= j < |s.sent| :: s.sent[j].id == id ==> s.sent[j].gas == gas)
  }

  ghost predicate GasOk(m: Machine, id: Key, gas: nat) {
    GasKnown(m.shared, id, gas) && forall t | 0 <= t < |m.threads| :: GasAt(m.shared, m.threads[t], id, gas)
  }

  lemma ThreadKeepsGas(d: Setup, s: Shared, pc: Pc, c: Choice, id: Key, gas: nat)
    requires FrameOk(d, s, pc) && GasKnown(s, id, gas) && GasAt(s, pc, id, gas)
    ensures var (pc', e) := Next(d, s, pc, c);
      var s' := Apply(d, s, e);
      GasKnown(s', id, gas) && GasAt(s', pc', id, gas) && s.callbackGas.Keys <= s'.callbackGas.Keys
  {
    if Publishes(pc) {
      OnlyPublishes(d, s, pc, c);
      hide Next, Apply, FrameOk, GasKnown;
      PublisherKeepsGas(d, s, pc, c, id, gas);
    } else {
      hide Filing, Session.Add, MaybePublish, Session.Ready, Memory.HeldFor, Memory.Park, Memory.Take, Session.GroupSignature;
    }
  }

  lemma PublisherKeepsGas(d: Setup, s: Shared, pc: Pc, c: Choice, id: Key, gas: nat)
    requires FrameOk(d, s, pc) && GasKnown(s, id, gas) && Publishes(pc)
    ensures var (pc', e) := MaybePublish(d, s, pc, c);
      var s' := Apply(d, s, e);
      GasKnown(s', id, gas) && GasAt(s', pc', id, gas) && s.callbackGas == s'.callbackGas
  {
    hide Session.Signature, Session.ReadOrder, Session.Ready, Memory.PublishRank, Session.GroupSignature;
  }

  lemma StepKeepsGas(d: Setup, m: Machine, ev: Event, id: Key, gas: nat)
    requires Inv(d, m) && GasOk(m, id, gas)
    requires ev.Announce? && ev.req.id == id ==> ev.req.callbackGasLimit == gas
    ensures GasOk(Step(d, m, ev), id, gas)
  {
    if ev.Advance? && ev.thread < |m.threads| {
      assert PcOk(d, m.shared, m.threads[ev.thread]);
      hide Inv, OwnerOk, RequestOk, FrameOk, Next, Apply, GasKnown;
      ThreadKeepsGas(d, m.shared, m.threads[ev.thread], ev.c, id, gas);
    } else {
      hide Inv, Next, Apply;
    }
  }

  /** Every call of Fulfill for a request is given the gas limit the request was announced with. */
  lemma CallsCarryGas(d: Setup, events: seq<Event>, id: Key, gas: nat)
    requires Deployed(d) && NamesGas(events, id, gas)
    ensures forall j | 0 <= j < |Run(d, events).shared.sent| ::
      Run(d, events).shared.sent[j].id == id ==> Run(d, events).shared.sent[j].gas == gas
  {
    RunKeepsGas(d, events, id, gas);
    hide Run;
  }

  lemma {:induction false} RunKeepsGas(d: Setup, events: seq<Event>, id: Key, gas: nat)
    requires Deployed(d) && NamesGas(events, id, gas)
    ensures GasOk(Run(d, events), id, gas)
    decreases |events|
  {
    if events != [] {
      var k := |events| - 1;
      assert NamesGas(events[..k], id, gas);
      RunKeeps(d, events[..k]);
      RunKeepsGas(d, events[..k], id, gas);
      hide Inv, Step, GasOk;
      StepKeepsGas(d, Run(d, events[..k]), events[k], id, gas);
    }
  }
}
