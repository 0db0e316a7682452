/** What every interleaving of a node's handlers keeps: one pass of the gate for each request id. */
module PublishOnce {
  import opened Common
  import opened Blsvrf
  import Session
  import Memory
  import opened Publishing

  // ----- counting the calls of Fulfill

  function Calls(sent: seq<Sent>, id: Key): nat {
    if sent == [] then 0
    else Calls(sent[..|sent| - 1], id) + if sent[|sent| - 1].id == id then 1 else 0
  }

  /** The calls that reported success. */
  function Confirmed(sent: seq<Sent>, id: Key): nat {
    if sent == [] then 0
    else Confirmed(sent[..|sent| - 1], id) + if sent[|sent| - 1].id == id && sent[|sent| - 1].reply.Accepted? then 1 else 0
  }

  /** The calls whose transaction the chain took, whatever they reported. */
  function Taken(sent: seq<Sent>, id: Key): nat {
    if sent == [] then 0
    else Taken(sent[..|sent| - 1], id) + if sent[|sent| - 1].id == id && !sent[|sent| - 1].reply.Rejected? then 1 else 0
  }

  lemma {:induction false} TakenWithin(sent: seq<Sent>, id: Key)
    ensures Confirmed(sent, id) <= Taken(sent, id) <= Calls(sent, id)
    decreases |sent|
  {
    if sent != [] { TakenWithin(sent[..|sent| - 1], id); }
  }

  lemma CallAdded(sent: seq<Sent>, call: Sent, id: Key)
    ensures Calls(sent + [call], id) == Calls(sent, id) + if call.id == id then 1 else 0
    ensures Confirmed(sent + [call], id) == Confirmed(sent, id) + if call.id == id && call.reply.Accepted? then 1 else 0
  {
    assert (sent + [call])[..|sent|] == sent;
  }

  // ----- the invariant of the shared state

  ghost predicate CellOk(d: Setup, c: Cell) {
    c.seed == d.derive(c.id, c.consumer) && Session.Inv(d.SessionConfig(c.seed), c.state)
  }

  ghost predicate HeapOk(d: Setup, heap: seq<Cell>) { forall i | 0 <= i < |heap| :: CellOk(d, heap[i]) }

  predicate Refers(heap: seq<Cell>, id: Key, cell: nat) { cell < |heap| && heap[cell].id == id }

  ghost predicate SessionsOk(s: Shared) { forall k | k in s.sessions :: Refers(s.heap, k, s.sessions[k]) }

  /** Each id passed the gate once, and the set remembers all that did. */
  ghost predicate GateOk(s: Shared) { Memory.Listed(s.passed, s.published) }

  /** What goes to the chain is the group's one signature on the seed of that request. */
  ghost predicate CallOk(d: Setup, heap: seq<Cell>, call: Sent) {
    && Refers(heap, call.id, call.cell)
    && call.signature == d.Signed(heap[call.cell].seed)
  }

  ghost predicate CallsOk(d: Setup, s: Shared) { forall j | 0 <= j < |s.sent| :: CallOk(d, s.heap, s.sent[j]) }

  ghost predicate WithinBudget(d: Setup, s: Shared, id: Key) {
    && Calls(s.sent, id) <= d.Tries() && Confirmed(s.sent, id) <= 1
    && (id !in s.published ==> Calls(s.sent, id) == 0 && Confirmed(s.sent, id) == 0)
  }

  ghost predicate BudgetOk(d: Setup, s: Shared) { forall id: Key :: WithinBudget(d, s, id) }

  ghost predicate SharedOk(d: Setup, s: Shared) {
    HeapOk(d, s.heap) && SessionsOk(s) && GateOk(s) && CallsOk(d, s) && BudgetOk(d, s)
  }

  // ----- what a thread may rely on

  function FrameOf(pc: Pc): Option<Frame> {
    match pc
    case FilingOwn(f, _) => Some(f)
    case TakingHeld(f, _) => Some(f)
    case FilingHeld(f, _, _) => Some(f)
    case Chasing(f, _) => Some(f)
    case AskingPublished(f, _) => Some(f)
    case FilingPeer(f, _) => Some(f)
    case AskingReady(f) => Some(f)
    case AtGate(f) => Some(f)
    case Aggregating(f) => Some(f)
    case AskingLogs(f, _, _) => Some(f)
    case Waiting(f, _) => Some(f)
    case AskingChain(f, _) => Some(f)
    case Sending(f, _, _) => Some(f)
    case Backing(f, _, _) => Some(f)
    case Rechecking(f, _, _) => Some(f)
    case Forgetting(f) => Some(f)
    case _ => None
  }

  function SignatureOf(pc: Pc): Option<int> {
    match pc
    case AskingLogs(_, signature, _) => Some(signature)
    case Waiting(_, signature) => Some(signature)
    case AskingChain(_, signature) => Some(signature)
    case Sending(_, signature, _) => Some(signature)
    case Backing(_, signature, _) => Some(signature)
    case Rechecking(_, signature, _) => Some(signature)
    case _ => None
  }

  /** How many calls of Fulfill a thread has made that may still make another. */
  function Made(pc: Pc): Option<nat> {
    match pc
    case Aggregating(_) => Some(0)
    case AskingLogs(_, _, _) => Some(0)
    case Waiting(_, _) => Some(0)
    case AskingChain(_, _) => Some(0)
    case Sending(_, _, attempt) => Some(attempt)
    case Backing(_, _, attempt) => Some(attempt + 1)
    case Rechecking(_, _, attempt) => Some(attempt + 1)
    case _ => None
  }

  /** The id for which a thread holds the right to publish. */
  function Owns(pc: Pc): Option<Key> {
    if PastGate(pc) && FrameOf(pc).Some? then Some(FrameOf(pc).value.id) else None
  }

  ghost predicate FrameOk(d: Setup, s: Shared, pc: Pc) {
    FrameOf(pc).Some? ==>
      var f := FrameOf(pc).value;
      && Refers(s.heap, f.id, f.cell)
      && (pc.AtGate? || pc.Aggregating? ==> ReadyCell(d, s, f.cell))
      && (SignatureOf(pc).Some? ==> SignatureOf(pc).value == d.Signed(s.heap[f.cell].seed))
  }

  ghost predicate OwnerOk(d: Setup, s: Shared, pc: Pc) {
    && (Owns(pc).Some? ==> Owns(pc).value in s.published)
    && (Owns(pc).Some? && Made(pc).Some? ==>
          Calls(s.sent, Owns(pc).value) == Made(pc).value < d.Tries() && Confirmed(s.sent, Owns(pc).value) == 0)
  }

  /** A request that is being worked on carries the seed of its id, and a claim is a point. */
  predicate RequestOk(d: Setup, pc: Pc) {
    match pc
    case AskingSettled(req) => d.derive(req.id, req.consumer) == req.seed
    case OpeningSession(req) => d.derive(req.id, req.consumer) == req.seed
    case FilingPeer(_, claim) => claim.sig.Some? ==> d.suite.IsPoint(claim.sig.value)
    case _ => true
  }

  ghost predicate PcOk(d: Setup, s: Shared, pc: Pc) {
    FrameOk(d, s, pc) && OwnerOk(d, s, pc) && RequestOk(d, pc)
  }

  ghost predicate ThreadsOk(d: Setup, s: Shared, threads: seq<Pc>) {
    forall t | 0 <= t < |threads| :: PcOk(d, s, threads[t])
  }

  /** No two threads may publish for one id. */
  ghost predicate Exclusive(threads: seq<Pc>) {
    forall t, u | 0 <= t < |threads| && 0 <= u < |threads| && t != u :: Owns(threads[t]).Some? ==> Owns(threads[t]) != Owns(threads[u])
  }

  ghost predicate Inv(d: Setup, m: Machine) {
    SharedOk(d, m.shared) && ThreadsOk(d, m.shared, m.threads) && Exclusive(m.threads)
  }

  ghost predicate CellKept(c: Cell, c': Cell) {
    c.id == c'.id && c.consumer == c'.consumer && c.seed == c'.seed && Session.Keeps(c.state, c'.state)
  }

  ghost predicate HeapKept(heap: seq<Cell>, heap': seq<Cell>) {
    |heap| <= |heap'| && forall i | 0 <= i < |heap| :: CellKept(heap[i], heap'[i])
  }

  /** What a step of one thread leaves to all others. */
  ghost predicate Rely(s: Shared, s': Shared, e: Effect) {
    && HeapKept(s.heap, s'.heap)
    && s.published <= s'.published
    && s'.sent == if e.Send? then s.sent + [e.call] else s.sent
  }

  // ----- effects

  ghost predicate Allowed(d: Setup, s: Shared, e: Effect) {
    match e
    case OpenSession(id, consumer, seed) => seed == d.derive(id, consumer)
    case File(cell, claim) => claim.sig.Some? ==> d.suite.IsPoint(claim.sig.value)
    case Pass(id) => id !in s.published
    case Send(call) =>
      CallOk(d, s.heap, call) && call.id in s.published && Calls(s.sent, call.id) < d.Tries() && Confirmed(s.sent, call.id) == 0
    case _ => true
  }

  lemma EffectKeepsHeap(d: Setup, s: Shared, e: Effect)
    requires HeapOk(d, s.heap) && Allowed(d, s, e)
    ensures HeapOk(d, Apply(d, s, e).heap) && HeapKept(s.heap, Apply(d, s, e).heap)
  {
    if e.File? && e.cell < |s.heap| {
      var c := s.heap[e.cell];
      assert CellOk(d, c);
      Session.AddKeepsInv(d.SessionConfig(c.seed), c.state, e.claim);
      hide Session.Inv, Session.Add;
    }
  }

  lemma EffectKeepsRefs(d: Setup, s: Shared, e: Effect)
    requires SessionsOk(s) && CallsOk(d, s) && Allowed(d, s, e) && HeapKept(s.heap, Apply(d, s, e).heap)
    ensures SessionsOk(Apply(d, s, e)) && CallsOk(d, Apply(d, s, e))
  {
    hide Session.Keeps, Session.Add, Memory.Take, Memory.Park, Calls, Confirmed;
  }

  lemma EffectKeepsBudget(d: Setup, s: Shared, e: Effect)
    requires GateOk(s) && BudgetOk(d, s) && Allowed(d, s, e)
    ensures GateOk(Apply(d, s, e)) && BudgetOk(d, Apply(d, s, e))
  {
    var s' := Apply(d, s, e);
    if e.Pass? { Memory.ListedGrows(s.passed, s.published, e.id); }
    forall id: Key ensures WithinBudget(d, s', id) {
      assert WithinBudget(d, s, id);
      if e.Send? { CallAdded(s.sent, e.call, id); }
      hide Calls, Confirmed;
    }
  }

  lemma EffectKeeps(d: Setup, s: Shared, e: Effect)
    requires SharedOk(d, s) && Allowed(d, s, e)
    ensures SharedOk(d, Apply(d, s, e)) && Rely(s, Apply(d, s, e), e)
  {
    EffectKeepsHeap(d, s, e);
    EffectKeepsRefs(d, s, e);
    EffectKeepsBudget(d, s, e);
    hide HeapOk, HeapKept, SessionsOk, GateOk, CallsOk, BudgetOk, Allowed;
  }

  // ----- the other threads

  lemma ReadyStays(d: Setup, s: Shared, s': Shared, cell: nat)
    requires HeapKept(s.heap, s'.heap) && ReadyCell(d, s, cell)
    ensures ReadyCell(d, s', cell)
  {
    var a, b := s.heap[cell].state.partials, s'.heap[cell].state.partials;
    assert CellKept(s.heap[cell], s'.heap[cell]);
    SubsetSize(a.Keys, b.Keys);
    assert |a| == |a.Keys| && |b| == |b.Keys|;
  }

  lemma SubsetSize(a: set<nat>, b: set<nat>)
    requires a <= b
    ensures |a| <= |b|
  {
    assert b == a + (b - a);
  }

  lemma FrameStands(d: Setup, s: Shared, s': Shared, pc: Pc)
    requires FrameOk(d, s, pc) && HeapKept(s.heap, s'.heap)
    ensures FrameOk(d, s', pc)
  {
    var f := FrameOf(pc);
    if f.Some? {
      assert CellKept(s.heap[f.value.cell], s'.heap[f.value.cell]);
      if ReadyCell(d, s, f.value.cell) { ReadyStays(d, s, s', f.value.cell); }
      hide ReadyCell, HeapKept, FrameOf, SignatureOf;
    }
  }

  lemma OwnerStands(d: Setup, s: Shared, s': Shared, e: Effect, pc: Pc)
    requires OwnerOk(d, s, pc) && s.published <= s'.published
    requires s'.sent == if e.Send? then s.sent + [e.call] else s.sent
    requires e.Send? ==> Owns(pc) != Some(e.call.id)
    ensures OwnerOk(d, s', pc)
  {
    if e.Send? && Owns(pc).Some? { CallAdded(s.sent, e.call, Owns(pc).value); }
    hide Calls, Confirmed, Owns, Made;
  }

  lemma OthersStand(d: Setup, s: Shared, s': Shared, e: Effect, pc: Pc)
    requires PcOk(d, s, pc) && Rely(s, s', e)
    requires e.Send? ==> Owns(pc) != Some(e.call.id)
    ensures PcOk(d, s', pc)
  {
    hide FrameOk, OwnerOk, HeapKept, Owns;
    FrameStands(d, s, s', pc);
    OwnerStands(d, s, s', e, pc);
  }

  // ----- the thread that moves

  /** The commitments have `threshold` coefficients and the operator indices fit the field. */
  predicate Deployed(d: Setup) { |d.commits| == d.threshold && 0 <= d.operators < d.suite.r }

  lemma RequestAllowed(d: Setup, s: Shared, pc: Pc, c: Choice)
    requires PcOk(d, s, pc)
    ensures Allowed(d, s, OnRequest(d, s, pc, c).1) && !OnRequest(d, s, pc, c).1.Send? && !OnRequest(d, s, pc, c).1.Pass?
  {
    hide FrameOk, OwnerOk, Filing, ReadyCell;
  }

  lemma ShareAllowed(d: Setup, s: Shared, pc: Pc)
    requires PcOk(d, s, pc)
    ensures Allowed(d, s, OnPeerShare(d, s, pc).1) && !OnPeerShare(d, s, pc).1.Send? && !OnPeerShare(d, s, pc).1.Pass?
  {
    hide FrameOk, OwnerOk, Filing, ReadyCell;
  }

  lemma PublishAllowed(d: Setup, s: Shared, pc: Pc, c: Choice)
    requires PcOk(d, s, pc)
    ensures var e := MaybePublish(d, s, pc, c).1;
            Allowed(d, s, e) && (e.Send? ==> Owns(pc) == Some(e.call.id))
  {
    hide Filing, ReadyCell, Calls, Confirmed, Memory.PublishRank;
  }

  lemma RefersStays(heap: seq<Cell>, heap': seq<Cell>, id: Key, cell: nat)
    requires HeapKept(heap, heap') && Refers(heap, id, cell)
    ensures Refers(heap', id, cell)
  {
    assert CellKept(heap[cell], heap'[cell]);
  }

  /** Outside maybePublish a thread needs no more than that its session is the one of its id. */
  lemma PlainPcOk(d: Setup, s: Shared, pc: Pc)
    requires !Publishes(pc) || pc.AskingReady?
    requires FrameOf(pc).Some? ==> Refers(s.heap, FrameOf(pc).value.id, FrameOf(pc).value.cell)
    requires RequestOk(d, pc)
    ensures PcOk(d, s, pc) && Owns(pc).None?
  {
    hide Refers, Calls, Confirmed, ReadyCell;
  }

  lemma {:induction false} OpenedRefers(d: Setup, s: Shared, id: Key, consumer: nat, seed: Seed)
    requires SessionsOk(s)
    ensures Refers(Apply(d, s, OpenSession(id, consumer, seed)).heap, id,
                   if id in s.sessions then s.sessions[id] else |s.heap|)
  {}

  lemma RequestMoves(d: Setup, s: Shared, pc: Pc, c: Choice)
    requires SharedOk(d, s) && PcOk(d, s, pc) && !Publishes(pc)
    ensures var (pc', e) := OnRequest(d, s, pc, c);
            PcOk(d, Apply(d, s, e), pc') && Owns(pc').None?
  {
    var (pc', e) := OnRequest(d, s, pc, c);
    RequestAllowed(d, s, pc, c);
    EffectKeepsHeap(d, s, e);
    if pc.OpeningSession? { OpenedRefers(d, s, pc.req.id, pc.req.consumer, pc.req.seed); }
    hide SharedOk, HeapKept, HeapOk, Refers, Apply, Allowed, ReadyCell, Filing, Memory.HeldFor;
    if FrameOf(pc).Some? {
      RefersStays(s.heap, Apply(d, s, e).heap, FrameOf(pc).value.id, FrameOf(pc).value.cell);
    }
    hide FrameOk, OwnerOk;
    PlainPcOk(d, Apply(d, s, e), pc');
  }

  lemma ShareMoves(d: Setup, s: Shared, pc: Pc)
    requires SharedOk(d, s) && PcOk(d, s, pc) && !Publishes(pc)
    ensures var (pc', e) := OnPeerShare(d, s, pc);
            PcOk(d, Apply(d, s, e), pc') && Owns(pc').None?
  {
    var (pc', e) := OnPeerShare(d, s, pc);
    ShareAllowed(d, s, pc);
    EffectKeepsHeap(d, s, e);
    if FrameOf(pc).Some? {
      RefersStays(s.heap, Apply(d, s, e).heap, FrameOf(pc).value.id, FrameOf(pc).value.cell);
    }
    assert pc.Received? ==> Apply(d, s, e) == s;
    assert SessionsOk(s);
    hide SharedOk, FrameOk, OwnerOk, HeapKept, Refers, Apply, Allowed, ReadyCell, Filing;
    PlainPcOk(d, Apply(d, s, e), pc');
  }

  /** A ready session gives the group signature on its seed. */
  lemma AggregatingMoves(d: Setup, s: Shared, pc: Pc, c: Choice)
    requires SharedOk(d, s) && PcOk(d, s, pc) && pc.Aggregating? && Deployed(d)
    ensures var (pc', e) := MaybePublish(d, s, pc, c);
            e.Nothing? && (pc' == pc || pc' == AskingLogs(pc.f, d.Signed(s.heap[pc.f.cell].seed), false))
  {
    var cell := s.heap[pc.f.cell];
    assert CellOk(d, cell);
    var cfg := d.SessionConfig(cell.seed);
    hide Session.Inv, Session.Signature, Session.GroupSignature, Session.ReadOrder, Calls, Confirmed;
    if Session.ReadOrder(cfg, cell.state, c.order, c.pick) {
      Session.ReadySessionSigns(cfg, cell.state, c.order, c.pick);
    }
  }

  /** A thread that holds the right to publish and the signature to offer stands well. */
  lemma OwnerPcOk(d: Setup, s: Shared, pc: Pc)
    requires PastGate(pc)
    requires FrameOf(pc).Some? && Refers(s.heap, FrameOf(pc).value.id, FrameOf(pc).value.cell)
    requires pc.Aggregating? ==> ReadyCell(d, s, FrameOf(pc).value.cell)
    requires SignatureOf(pc).Some? ==> SignatureOf(pc).value == d.Signed(s.heap[FrameOf(pc).value.cell].seed)
    requires var id := FrameOf(pc).value.id;
             id in s.published &&
             (Made(pc).Some? ==> Calls(s.sent, id) == Made(pc).value < d.Tries() && Confirmed(s.sent, id) == 0)
    ensures PcOk(d, s, pc) && Owns(pc) == Some(FrameOf(pc).value.id)
  {
    hide Refers, Calls, Confirmed, ReadyCell, Session.GroupSignature;
  }

  /** The test-and-set. */
  lemma GateMoves(d: Setup, s: Shared, f: Frame, c: Choice)
    requires SharedOk(d, s) && PcOk(d, s, AtGate(f))
    ensures var (pc', e) := MaybePublish(d, s, AtGate(f), c);
            && PcOk(d, Apply(d, s, e), pc')
            && Owns(pc') == if e.Pass? then Some(e.id) else None
  {
    var (pc', e) := MaybePublish(d, s, AtGate(f), c);
    BudgetFor(d, s, f.id);
    assert Refers(s.heap, f.id, f.cell) && ReadyCell(d, s, f.cell);
    hide SharedOk, Calls, Confirmed, PcOk, Refers, Session.Ready;
    if e.Pass? { OwnerPcOk(d, Apply(d, s, e), pc'); } else { PlainPcOk(d, s, pc'); }
  }

  lemma BudgetFor(d: Setup, s: Shared, id: Key)
    requires SharedOk(d, s)
    ensures WithinBudget(d, s, id)
  {
    hide HeapOk, CallsOk, GateOk, SessionsOk, WithinBudget;
  }

  lemma ReadyMoves(d: Setup, s: Shared, pc: Pc, c: Choice)
    requires PcOk(d, s, pc) && (pc.AskingReady? || pc.Forgetting?)
    ensures var (pc', e) := MaybePublish(d, s, pc, c);
            PcOk(d, Apply(d, s, e), pc') && Owns(pc').None? && !e.Pass?
  {
    var (pc', e) := MaybePublish(d, s, pc, c);
    assert Refers(Apply(d, s, e).heap, pc.f.id, pc.f.cell);
    if !pc'.AtGate? {
      hide Refers, ReadyCell, PcOk;
      PlainPcOk(d, Apply(d, s, e), pc');
    }
    hide Calls, Confirmed, Refers;
  }

  lemma SendMoves(d: Setup, s: Shared, pc: Pc, c: Choice)
    requires PcOk(d, s, pc) && pc.Sending?
    ensures var (pc', e) := MaybePublish(d, s, pc, c);
            && PcOk(d, Apply(d, s, e), pc')
            && Owns(pc') == Owns(pc) && !e.Pass?
  {
    var (pc', e) := MaybePublish(d, s, pc, c);
    CallAdded(s.sent, e.call, e.call.id);
    assert Apply(d, s, e).heap == s.heap && Apply(d, s, e).published == s.published;
    assert Owns(pc) == Some(pc.f.id);
    hide Calls, Confirmed, ReadyCell, Refers, Session.GroupSignature;
    OwnerPcOk(d, Apply(d, s, e), pc');
  }

  /** From the signature on, up to giving up the right to publish. */
  lemma OwnerMoves(d: Setup, s: Shared, pc: Pc, c: Choice)
    requires PcOk(d, s, pc) && SignatureOf(pc).Some? && !pc.Sending?
    ensures var (pc', e) := MaybePublish(d, s, pc, c);
            && PcOk(d, s, pc') && e.Nothing?
            && Owns(pc') == Owns(pc)
  {
    var (pc', e) := MaybePublish(d, s, pc, c);
    assert Owns(pc) == Some(FrameOf(pc).value.id);
    hide Calls, Confirmed, ReadyCell, Refers, Memory.PublishRank, Session.GroupSignature;
    OwnerPcOk(d, s, pc');
  }

  lemma SignMoves(d: Setup, s: Shared, pc: Pc, c: Choice)
    requires SharedOk(d, s) && PcOk(d, s, pc) && pc.Aggregating? && Deployed(d)
    ensures var (pc', e) := MaybePublish(d, s, pc, c);
            && PcOk(d, s, pc') && e.Nothing?
            && Owns(pc') == Owns(pc)
  {
    var (pc', e) := MaybePublish(d, s, pc, c);
    AggregatingMoves(d, s, pc, c);
    assert Owns(pc) == Some(pc.f.id);
    hide MaybePublish, SharedOk, Calls, Confirmed, ReadyCell, Refers, Session.GroupSignature;
    if pc' != pc { OwnerPcOk(d, s, pc'); }
  }

  /** A step of maybePublish: the right to publish is taken at the gate and given up at the end. */
  lemma PublishMoves(d: Setup, s: Shared, pc: Pc, c: Choice)
    requires SharedOk(d, s) && PcOk(d, s, pc) && Deployed(d) && Publishes(pc)
    ensures var (pc', e) := MaybePublish(d, s, pc, c);
            && PcOk(d, Apply(d, s, e), pc')
            && Owns(pc') in {None, Owns(pc), if e.Pass? then Some(e.id) else None}
  {
    hide MaybePublish, SharedOk, PcOk, Owns;
    if pc.Aggregating? {
      SignMoves(d, s, pc, c);
    } else if pc.AtGate? {
      GateMoves(d, s, pc.f, c);
    } else if pc.AskingReady? || pc.Forgetting? {
      ReadyMoves(d, s, pc, c);
    } else if pc.Sending? {
      SendMoves(d, s, pc, c);
    } else {
      OwnerMoves(d, s, pc, c);
    }
  }

  // ----- every step, every run

  lemma Moves(d: Setup, s: Shared, pc: Pc, c: Choice)
    requires SharedOk(d, s) && PcOk(d, s, pc) && Deployed(d)
    ensures var (pc', e) := Next(d, s, pc, c);
            && Allowed(d, s, e) && PcOk(d, Apply(d, s, e), pc')
            && (e.Send? ==> Owns(pc) == Some(e.call.id))
            && Owns(pc') in {None, Owns(pc), if e.Pass? then Some(e.id) else None}
  {
    hide OnRequest, OnPeerShare, MaybePublish, SharedOk, PcOk, Allowed, Apply, Owns;
    if pc.Received? || pc.Parking? || pc.FilingPeer? {
      ShareAllowed(d, s, pc);
      ShareMoves(d, s, pc);
    } else if Publishes(pc) {
      PublishAllowed(d, s, pc, c);
      PublishMoves(d, s, pc, c);
    } else {
      RequestAllowed(d, s, pc, c);
      RequestMoves(d, s, pc, c);
    }
  }

  /** The threads that do not move. */
  lemma OthersKeep(d: Setup, s: Shared, s': Shared, e: Effect, threads: seq<Pc>, t: nat)
    requires ThreadsOk(d, s, threads) && Exclusive(threads) && t < |threads| && Rely(s, s', e)
    requires e.Send? ==> Owns(threads[t]) == Some(e.call.id)
    ensures forall u | 0 <= u < |threads| && u != t :: PcOk(d, s', threads[u])
    ensures forall u | 0 <= u < |threads| && Owns(threads[u]).Some? :: Owns(threads[u]).value in s.published
  {
    forall u | 0 <= u < |threads|
      ensures u != t ==> PcOk(d, s', threads[u])
      ensures Owns(threads[u]).Some? ==> Owns(threads[u]).value in s.published
    {
      assert PcOk(d, s, threads[u]);
      assert Owns(threads[u]).Some? ==> Owns(threads[u]).value in s.published;
      hide PcOk, Owns, Rely;
      if u != t { OthersStand(d, s, s', e, threads[u]); }
    }
  }

  lemma AdvanceKeeps(d: Setup, m: Machine, t: nat, c: Choice)
    requires Inv(d, m) && Deployed(d) && t < |m.threads|
    ensures Inv(d, Step(d, m, Advance(t, c)))
  {
    var s := m.shared;
    var (pc, e) := Next(d, s, m.threads[t], c);
    var s' := Apply(d, s, e);
    assert PcOk(d, s, m.threads[t]);
    assert Step(d, m, Advance(t, c)) == Machine(s', m.threads[t := pc]);
    hide Next, Apply, SharedOk, Rely, Step, PcOk, Owns;
    Moves(d, s, m.threads[t], c);
    assert e.Pass? ==> e.id !in s.published;
    hide Allowed;
    EffectKeeps(d, s, e);
    OthersKeep(d, s, s', e, m.threads, t);
    MovedKeeps(d, s, s', m.threads, t, pc, if e.Pass? then Some(e.id) else None);
    hide ThreadsOk, Exclusive;
  }

  /** `passed` is the id whose gate the step has passed, if any. */
  lemma MovedKeeps(d: Setup, s: Shared, s': Shared, threads: seq<Pc>, t: nat, pc: Pc, passed: Option<Key>)
    requires Exclusive(threads) && t < |threads| && PcOk(d, s', pc)
    requires forall u | 0 <= u < |threads| && u != t :: PcOk(d, s', threads[u])
    requires forall u | 0 <= u < |threads| && Owns(threads[u]).Some? :: Owns(threads[u]).value in s.published
    requires Owns(pc) in {None, Owns(threads[t]), passed} && (passed.Some? ==> passed.value !in s.published)
    ensures ThreadsOk(d, s', threads[t := pc]) && Exclusive(threads[t := pc])
  {
    hide PcOk, Owns;
  }

  lemma StepKeeps(d: Setup, m: Machine, ev: Event)
    requires Inv(d, m) && Deployed(d)
    ensures Inv(d, Step(d, m, ev))
  {
    match ev
    case Announce(req) =>
    case Receive(e) =>
    case Report(id) =>
      var s' := m.shared.(settled := Memory.Settle(m.shared.settled, id));
      forall u | 0 <= u < |m.threads| ensures PcOk(d, s', m.threads[u]) {
        assert PcOk(d, m.shared, m.threads[u]);
      }
      forall k: Key ensures WithinBudget(d, s', k) { assert WithinBudget(d, m.shared, k); }
      hide PcOk, WithinBudget;
    case Advance(t, c) => if t < |m.threads| { AdvanceKeeps(d, m, t, c); }
  }

  lemma {:induction false} RunKeeps(d: Setup, events: seq<Event>)
    requires Deployed(d)
    ensures Inv(d, Run(d, events))
    decreases |events|
  {
    if events != [] {
      var k := |events| - 1;
      RunKeeps(d, events[..k]);
      StepKeeps(d, Run(d, events[..k]), events[k]);
      hide Inv, Step;
    }
  }

  lemma CallIsSigned(d: Setup, s: Shared, j: nat) returns (consumer: nat)
    requires SharedOk(d, s) && j < |s.sent|
    ensures s.sent[j].signature == d.Signed(d.derive(s.sent[j].id, consumer))
  {
    var call := s.sent[j];
    assert CallOk(d, s.heap, call) && CellOk(d, s.heap[call.cell]);
    consumer := s.heap[call.cell].consumer;
  }

  /**
   Whatever is announced, received, forged, repeated or reordered, and however the handlers of one
   node interleave: each request id passes the gate once at most and is offered to the chain no more
   often than the retries allow, so the chain takes no more transactions for it than that, even where
   a reply was lost; and at most one call reports success.
   */
  lemma OnePublication(d: Setup, events: seq<Event>, id: Key)
    requires Deployed(d)
    ensures var s := Run(d, events).shared;
            && Distinct(s.passed)
            && Calls(s.sent, id) <= d.Tries()
            && Confirmed(s.sent, id) <= 1
            && Confirmed(s.sent, id) <= Taken(s.sent, id) <= d.Tries()
            && (id !in s.passed ==> Calls(s.sent, id) == 0)
  {
    RunKeeps(d, events);
    var s := Run(d, events).shared;
    assert WithinBudget(d, s, id);
    assert GateOk(s);
    TakenWithin(s.sent, id);
    hide Run, Calls, Confirmed, Taken, HeapOk, CallsOk, SessionsOk, BudgetOk, ThreadsOk, Exclusive;
  }

  /** Every signature a node offers for an id is the group's one signature on a seed derived for that id. */
  lemma OnlyGroupSignatures(d: Setup, events: seq<Event>, j: nat) returns (consumer: nat)
    requires Deployed(d) && j < |Run(d, events).shared.sent|
    ensures var call := Run(d, events).shared.sent[j];
            call.signature == d.Signed(d.derive(call.id, consumer))
  {
    RunKeeps(d, events);
    hide Run, SharedOk;
    consumer := CallIsSigned(d, Run(d, events).shared, j);
  }

  // ----- what the node remembers

  ghost predicate MemoriesOk(d: Setup, s: Shared) {
    Memory.ParkedOk(s.parked, d.operators) && Memory.SettledOk(s.settled)
  }

  lemma EffectKeepsMemories(d: Setup, s: Shared, e: Effect)
    requires MemoriesOk(d, s) && d.operators >= 1
    ensures MemoriesOk(d, Apply(d, s, e))
  {
    if e.Park? { Memory.ParkKeepsIff(s.parked, e.id, e.e, d.operators); }
    if e.TakeHeld? { Memory.TakeKeeps(s.parked, e.id, d.operators); }
    hide Memory.ParkedOk, Memory.SettledOk, Memory.Park, Memory.Take, Session.Add;
  }

  /** Whoever sends what, in any interleaving: both memories stay bounded and listed without repeats. */
  lemma {:induction false} MemoriesBounded(d: Setup, events: seq<Event>)
    requires d.operators >= 1
    ensures MemoriesOk(d, Run(d, events).shared)
    decreases |events|
  {
    if events != [] {
      var k := |events| - 1;
      MemoriesBounded(d, events[..k]);
      var m, ev := Run(d, events[..k]), events[k];
      assert Run(d, events) == Step(d, m, ev);
      hide Run, Next, Apply, Memory.ParkedOk, Memory.SettledOk, Memory.Settle;
      match ev
      case Report(id) => Memory.SettleKeeps(m.shared.settled, id);
      case Advance(t, c) =>
        if t < |m.threads| {
          var (pc, e) := Next(d, m.shared, m.threads[t], c);
          hide MemoriesOk;
          EffectKeepsMemories(d, m.shared, e);
        }
      case _ =>
    }
  }
}
