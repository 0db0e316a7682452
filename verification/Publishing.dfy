/**
 One operator node under concurrency: node/internal/node/node.go.  Every handler is a thread; one
 step of a thread is what the source does under one hold of a mutex, or one answer from outside.
 */
module Publishing {
  import opened Common
  import opened Blsvrf
  import Session
  import Memory
  import Nonces

  type Key = Memory.Key

  datatype Request = Request(id: Key, consumer: nat, seed: Seed, callbackGasLimit: nat)

  /** A peer's message; a field that does not parse, or a point outside the group, is None. */
  datatype Envelope = Envelope(id: Option<Key>, seed: Option<Seed>, index: nat, partial: Option<int>)

  datatype Setup = Setup(
    suite: Suite,
    commits: seq<int>,
    threshold: int,
    operators: int,
    index: nat,
    secret: int,
    derive: (Key, nat) -> Seed,
    sendRetries: int,
    sendRetryInterval: int,
    rebroadcastInterval: int,
    rebroadcastAttempts: int,
    publishDelay: int)
  {
    function SessionConfig(seed: Seed): Session.Config {
      Session.Config(suite, seed, commits, threshold, operators)
    }

    /** The one signature of the group on a seed. */
    function Signed(seed: Seed): int { Session.GroupSignature(SessionConfig(seed)) }

    function Decode(e: Envelope): Option<(Seed, Session.Claim)> {
      if e.seed.Some? && e.partial.Some? && suite.IsPoint(e.partial.value)
      then Some((e.seed.value, Session.Claim(e.index, e.partial)))
      else None
    }

    /** How often Fulfill may be tried for one request. */
    function Tries(): nat { if sendRetries <= 0 || sendRetryInterval <= 0 then 1 else sendRetries + 1 }
  }

  // ----- what the threads share

  /** A session; handlers keep a reference to it after the node has forgotten it. */
  datatype Cell = Cell(id: Key, consumer: nat, seed: Seed, state: Session.State)

  /** One call of Fulfill; the chain may have taken the transaction and the call still report an error. */
  datatype Sent = Sent(id: Key, cell: nat, signature: int, gas: nat, reply: Nonces.Reply)

  datatype Shared = Shared(
    heap: seq<Cell>,
    sessions: map<Key, nat>,
    published: set<Key>,
    callbackGas: map<Key, nat>,
    parked: Memory.Parked<Envelope>,
    settled: Memory.Settled,
    passed: seq<Key>,   // the ids whose gate was passed, in order
    sent: seq<Sent>)    // the calls of Fulfill, in order

  const BEGIN := Shared([], map[], {}, map[], Memory.Nothing(), Memory.Settled({}, []), [], [])

  // ----- where a thread stands

  /** The session a thread works on, and where maybePublish returns to inside chaseQuorum. */
  datatype Frame = Frame(id: Key, cell: nat, again: Option<nat>)

  datatype Pc =
    | Announced(req: Request)
    | AskingSettled(req: Request)
    | OpeningSession(req: Request)
    | FilingOwn(f: Frame, seed: Seed)
    | TakingHeld(f: Frame, seed: Seed)
    | FilingHeld(f: Frame, seed: Seed, held: seq<Envelope>)
    | Chasing(f: Frame, attempt: nat)
    | AskingPublished(f: Frame, attempt: nat)
    | Received(e: Envelope)
    | Parking(id: Key, e: Envelope)
    | FilingPeer(f: Frame, claim: Session.Claim)
    | AskingReady(f: Frame)
    | AtGate(f: Frame)
    | Aggregating(f: Frame)
    | AskingLogs(f: Frame, signature: int, waited: bool)
    | Waiting(f: Frame, signature: int)
    | AskingChain(f: Frame, signature: int)
    | Sending(f: Frame, signature: int, attempt: nat)
    | Backing(f: Frame, signature: int, attempt: nat)
    | Rechecking(f: Frame, signature: int, attempt: nat)
    | Forgetting(f: Frame)
    | Done

  /** What a step meets: a yes or no from outside, the fate of a call, and how the map of partials is read. */
  datatype Choice = Choice(yes: bool, reply: Nonces.Reply, order: seq<nat>, pick: seq<nat>)

  /** What a step does to the shared state. */
  datatype Effect =
    | Nothing
    | RecordGas(id: Key, gas: nat)
    | OpenSession(id: Key, consumer: nat, seed: Seed)
    | File(cell: nat, claim: Session.Claim)
    | TakeHeld(id: Key)
    | Park(id: Key, e: Envelope)
    | Pass(id: Key)
    | Send(call: Sent)
    | Forget(id: Key)

  ghost function Apply(d: Setup, s: Shared, e: Effect): Shared {
    match e
    case Nothing => s
    case RecordGas(id, gas) => s.(callbackGas := s.callbackGas[id := gas])
    case OpenSession(id, consumer, seed) =>
      if id in s.sessions then s
      else s.(heap := s.heap + [Cell(id, consumer, seed, Session.FRESH)], sessions := s.sessions[id := |s.heap|])
    case File(cell, claim) =>
      if cell < |s.heap| then
        var c := s.heap[cell];
        s.(heap := s.heap[cell := c.(state := Session.Add(d.SessionConfig(c.seed), c.state, claim).0)])
      else s
    case TakeHeld(id) => s.(parked := Memory.Take(s.parked, id))
    case Park(id, e) => s.(parked := Memory.Park(s.parked, id, e, d.operators))
    case Pass(id) => s.(published := s.published + {id}, passed := s.passed + [id])
    case Send(call) => s.(sent := s.sent + [call])
    case Forget(id) => s.(sessions := s.sessions - {id})
  }

  /** What filing a claim returns. */
  function Filing(d: Setup, s: Shared, cell: nat, claim: Session.Claim): Session.Outcome {
    if cell < |s.heap| then Session.Add(d.SessionConfig(s.heap[cell].seed), s.heap[cell].state, claim).1
    else Session.NotNeeded
  }

  predicate ReadyCell(d: Setup, s: Shared, cell: nat) {
    cell < |s.heap| && Session.Ready(d.SessionConfig(s.heap[cell].seed), s.heap[cell].state)
  }

  /** Back to chaseQuorum, or the end of the handler. */
  function Return(f: Frame): Pc {
    if f.again.Some? then Chasing(f.(again := None), f.again.value) else Done
  }

  // ----- one step

  ghost function OnRequest(d: Setup, s: Shared, pc: Pc, c: Choice): (Pc, Effect) {
    match pc
    case Announced(req) =>
      (if d.derive(req.id, req.consumer) == req.seed then AskingSettled(req) else Done,
       RecordGas(req.id, req.callbackGasLimit))
    case AskingSettled(req) => (if req.id in s.settled.known then Done else OpeningSession(req), Nothing)
    case OpeningSession(req) =>
      (FilingOwn(Frame(req.id, if req.id in s.sessions then s.sessions[req.id] else |s.heap|, None), req.seed),
       OpenSession(req.id, req.consumer, req.seed))
    case FilingOwn(f, seed) =>
      var own := Session.Claim(d.index, Some(d.suite.Sign(d.secret, seed)));
      (if Filing(d, s, f.cell, own).Refused? then Done else TakingHeld(f, seed), File(f.cell, own))
    case TakingHeld(f, seed) => (FilingHeld(f, seed, Memory.HeldFor(s.parked, f.id)), TakeHeld(f.id))
    case FilingHeld(f, seed, held) =>
      if held == [] then
        // yes: there are peers to broadcast to
        (if c.yes && d.rebroadcastInterval > 0 && d.rebroadcastAttempts > 0 then Chasing(f, 0) else AskingReady(f),
         Nothing)
      else
        var claim := d.Decode(held[0]);
        (FilingHeld(f, seed, held[1..]),
         if claim.Some? && claim.value.0 == seed then File(f.cell, claim.value.1) else Nothing)
    case Chasing(f, attempt) =>
      // yes: not cancelled while waiting
      (if attempt < d.rebroadcastAttempts && c.yes && !ReadyCell(d, s, f.cell) then AskingPublished(f, attempt)
       else AskingReady(f.(again := None)),
       Nothing)
    case AskingPublished(f, attempt) =>
      (AskingReady(f.(again := if f.id in s.published then None else Some(attempt + 1))), Nothing)
    case _ => (pc, Nothing)
  }

  ghost function OnPeerShare(d: Setup, s: Shared, pc: Pc): (Pc, Effect) {
    match pc
    case Received(e) =>
      var claim := d.Decode(e);
      if claim.None? || e.id.None? then (Done, Nothing)
      else if e.id.value !in s.sessions then (Parking(e.id.value, e), Nothing)
      else
        var cell := s.sessions[e.id.value];
        if cell < |s.heap| && s.heap[cell].seed == claim.value.0
        then (FilingPeer(Frame(e.id.value, cell, None), claim.value.1), Nothing)
        else (Done, Nothing)
    case Parking(id, e) => (Done, Park(id, e))
    case FilingPeer(f, claim) =>
      (if Filing(d, s, f.cell, claim).Refused? then Done else AskingReady(f), File(f.cell, claim))
    case _ => (pc, Nothing)
  }

  ghost function MaybePublish(d: Setup, s: Shared, pc: Pc, c: Choice): (Pc, Effect) {
    match pc
    case AskingReady(f) => (if ReadyCell(d, s, f.cell) then AtGate(f) else Return(f), Nothing)
    case AtGate(f) => if f.id in s.published then (Return(f), Nothing) else (Aggregating(f), Pass(f.id))
    case Aggregating(f) =>
      if f.cell >= |s.heap| then (pc, Nothing)
      else
        var cfg, state := d.SessionConfig(s.heap[f.cell].seed), s.heap[f.cell].state;
        if !Session.ReadOrder(cfg, state, c.order, c.pick) then (pc, Nothing)
        else
          var res := Session.Signature(cfg, state, c.order, c.pick);
          (if res.Ok? then AskingLogs(f, res.value, false) else Forgetting(f), Nothing)
    case AskingLogs(f, signature, waited) =>
      (if f.id in s.settled.known then Forgetting(f)
       else if waited then AskingChain(f, signature)
       else if Memory.PublishRank(f.id, d.index, d.operators) > 0 && d.publishDelay > 0 then Waiting(f, signature)
       else AskingLogs(f, signature, true),
       Nothing)
    case Waiting(f, signature) => (if c.yes then AskingLogs(f, signature, true) else Forgetting(f), Nothing)
    case AskingChain(f, signature) => (if c.yes then Sending(f, signature, 0) else Forgetting(f), Nothing)
    case Sending(f, signature, attempt) =>
      var gas := if f.id in s.callbackGas then s.callbackGas[f.id] else 0;
      (if c.reply.Accepted? || attempt >= d.sendRetries || d.sendRetryInterval <= 0 then Forgetting(f)
       else Backing(f, signature, attempt),
       Send(Sent(f.id, f.cell, signature, gas, c.reply)))
    case Backing(f, signature, attempt) => (if c.yes then Rechecking(f, signature, attempt) else Forgetting(f), Nothing)
    case Rechecking(f, signature, attempt) =>
      (if c.yes then Sending(f, signature, attempt + 1) else Forgetting(f), Nothing)
    case Forgetting(f) => (Return(f), Forget(f.id))
    case _ => (pc, Nothing)
  }

  ghost function Next(d: Setup, s: Shared, pc: Pc, c: Choice): (Pc, Effect) {
    if pc.Received? || pc.Parking? || pc.FilingPeer? then OnPeerShare(d, s, pc)
    else if Publishes(pc) then MaybePublish(d, s, pc, c)
    else OnRequest(d, s, pc, c)
  }

  predicate Publishes(pc: Pc) { pc.AskingReady? || pc.AtGate? || PastGate(pc) }

  /** Inside maybePublish with the test-and-set behind it. */
  predicate PastGate(pc: Pc) {
    pc.Aggregating? || pc.AskingLogs? || pc.Waiting? || pc.AskingChain? || pc.Sending? || pc.Backing? ||
    pc.Rechecking? || pc.Forgetting?
  }

  // ----- any run

  datatype Machine = Machine(shared: Shared, threads: seq<Pc>)

  datatype Event = Announce(req: Request) | Receive(e: Envelope) | Report(id: Key) | Advance(thread: nat, c: Choice)

  ghost function Step(d: Setup, m: Machine, ev: Event): Machine {
    match ev
    case Announce(req) => m.(threads := m.threads + [Announced(req)])
    case Receive(e) => m.(threads := m.threads + [Received(e)])
    case Report(id) => m.(shared := m.shared.(settled := Memory.Settle(m.shared.settled, id)))
    case Advance(t, c) =>
      if t >= |m.threads| then m
      else
        var (pc, e) := Next(d, m.shared, m.threads[t], c);
        Machine(Apply(d, m.shared, e), m.threads[t := pc])
  }

  ghost function Run(d: Setup, events: seq<Event>): Machine {
    if events == [] then Machine(BEGIN, [])
    else Step(d, Run(d, events[..|events| - 1]), events[|events| - 1])
  }
}
