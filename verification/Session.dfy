/** One node's collection of partial signatures for one seed: node/internal/session/session.go. */
module Session {
  import opened Common
  import opened Polynomial
  import opened Blsvrf
  import opened Threshold

  datatype Config = Config(suite: Suite, seed: Seed, commits: seq<int>, threshold: int, operators: int)

  /** A partial signature as it arrives; the point may be nil. */
  datatype Claim = Claim(index: nat, sig: Option<int>)

  datatype Equivocation = Equivocation(index: nat, seed: Seed, first: int, second: int)

  datatype Refusal = OutsideGroup | NilSignature | Conflicting | AttemptSpent | NotVerified

  /** What Add returns: true, false without an error, or an error. */
  datatype Outcome = Filed | NotNeeded | Refused(why: Refusal)

  datatype State = State(
    partials: map<nat, Partial>,
    spent: set<nat>,
    equivocation: Option<Equivocation>,
    verifications: nat)

  const FRESH := State(map[], {}, None, 0)

  /** A point that arrives is an element of the group. */
  predicate IsClaim(cfg: Config, p: Claim) {
    p.sig.Some? ==> cfg.suite.IsPoint(p.sig.value)
  }

  function Add(cfg: Config, s: State, p: Claim): (State, Outcome) {
    if p.index >= cfg.operators then (s, Refused(OutsideGroup))
    else if p.sig.None? then (s, Refused(NilSignature))
    else if p.index in s.partials then
      var existing := s.partials[p.index].sig;
      if existing == p.sig.value then (s, NotNeeded)
      else
        var e := Equivocation(p.index, cfg.seed, existing, p.sig.value);
        (s.(equivocation := if s.equivocation.Some? then s.equivocation else Some(e),
            spent := s.spent + {p.index}),
         Refused(Conflicting))
    else if p.index in s.spent then (s, Refused(AttemptSpent))
    else
      var tried := s.(spent := s.spent + {p.index}, verifications := s.verifications + 1);
      if !cfg.suite.VerifyPartial(cfg.commits, p.index, cfg.seed, p.sig.value) then
        (tried, Refused(NotVerified))
      else
        (tried.(partials := s.partials[p.index := Partial(p.index, p.sig.value)]), Filed)
  }

  /** Whether this Add pays for a pairing. */
  predicate Verifies(cfg: Config, s: State, p: Claim) {
    Add(cfg, s, p).0.verifications > s.verifications
  }

  ghost predicate ValidEvidence(cfg: Config, e: Equivocation) {
    && e.seed == cfg.seed
    && ValidPartial(cfg.suite, cfg.commits, cfg.seed, cfg.operators, Partial(e.index, e.first))
    && cfg.suite.IsPoint(e.second)
    && e.second != e.first
    && !cfg.suite.VerifyPartial(cfg.commits, e.index, e.seed, e.second)
  }

  ghost predicate Inv(cfg: Config, s: State) {
    && (forall i | i in s.partials :: i in s.spent && s.partials[i].index == i &&
          ValidPartial(cfg.suite, cfg.commits, cfg.seed, cfg.operators, s.partials[i]))
    && (forall i | i in s.spent :: i < cfg.operators)
    && s.verifications == |s.spent|
    && (s.equivocation.Some? ==> ValidEvidence(cfg, s.equivocation.value))
  }

  /** What no Add may undo. */
  ghost predicate Keeps(s: State, t: State) {
    && (forall i | i in s.partials :: i in t.partials && t.partials[i] == s.partials[i])
    && s.spent <= t.spent
    && (s.equivocation.Some? ==> t.equivocation == s.equivocation)
  }

  /** Two different points cannot both verify for one index and seed. */
  lemma OnlyOneVerifies(cfg: Config, index: nat, first: int, second: int)
    requires cfg.suite.IsPoint(first) && cfg.suite.IsPoint(second)
    requires cfg.suite.VerifyPartial(cfg.commits, index, cfg.seed, first)
    requires cfg.suite.VerifyPartial(cfg.commits, index, cfg.seed, second)
    ensures first == second
  {
    cfg.suite.PartialIffSigned(cfg.commits, index, cfg.seed, first);
    cfg.suite.PartialIffSigned(cfg.commits, index, cfg.seed, second);
  }

  lemma AddKeepsInv(cfg: Config, s: State, p: Claim)
    requires Inv(cfg, s) && IsClaim(cfg, p)
    ensures Inv(cfg, Add(cfg, s, p).0) && Keeps(s, Add(cfg, s, p).0)
    ensures Verifies(cfg, s, p) <==> p.index !in s.spent && p.index in Add(cfg, s, p).0.spent
  {
    if p.index in s.partials {
      assert s.spent + {p.index} == s.spent;
      if p.sig.Some? && cfg.suite.VerifyPartial(cfg.commits, p.index, cfg.seed, p.sig.value) {
        OnlyOneVerifies(cfg, p.index, s.partials[p.index].sig, p.sig.value);
      }
    }
  }

  // ----- any sequence of calls

  function Run(cfg: Config, s: State, ps: seq<Claim>): State
    decreases ps
  {
    if ps == [] then s else Run(cfg, Add(cfg, s, ps[0]).0, ps[1..])
  }

  /** How many pairings a run of calls pays for on behalf of one operator index. */
  function VerificationsFor(cfg: Config, s: State, ps: seq<Claim>, i: nat): nat
    decreases ps
  {
    if ps == [] then 0
    else
      var later := VerificationsFor(cfg, Add(cfg, s, ps[0]).0, ps[1..], i);
      if ps[0].index == i && Verifies(cfg, s, ps[0]) then later + 1 else later
  }

  /** Everything filed verifies and stays; evidence is genuine and stays; one pairing per index at most. */
  lemma {:induction false} AnyRun(cfg: Config, s: State, ps: seq<Claim>, i: nat)
    requires Inv(cfg, s) && forall k | 0 <= k < |ps| :: IsClaim(cfg, ps[k])
    ensures var t := Run(cfg, s, ps); Inv(cfg, t) && Keeps(s, t)
    ensures VerificationsFor(cfg, s, ps, i)
      == (if i !in s.spent && i in Run(cfg, s, ps).spent then 1 else 0)
    decreases ps
  {
    if ps != [] {
      hide Add, ValidPartial, ValidEvidence;
      AddKeepsInv(cfg, s, ps[0]);
      AnyRun(cfg, Add(cfg, s, ps[0]).0, ps[1..], i);
    }
  }

  /** The first point that arrives for an index. */
  function FirstFor(ps: seq<Claim>, i: nat): Option<int>
    decreases ps
  {
    if ps == [] then None
    else if ps[0].index == i && ps[0].sig.Some? then ps[0].sig
    else FirstFor(ps[1..], i)
  }

  /** The first point for an index decides: filed if it verifies, and otherwise nothing ever is. */
  ghost predicate Decided(cfg: Config, t: State, i: nat, first: Option<int>) {
    && (i in t.spent <==> first.Some?)
    && (i in t.partials <==> first.Some? && cfg.suite.VerifyPartial(cfg.commits, i, cfg.seed, first.value))
    && (i in t.partials ==> t.partials[i] == Partial(i, first.value))
  }

  lemma {:induction false} FirstDecides(cfg: Config, s: State, ps: seq<Claim>, i: nat)
    requires Inv(cfg, s) && i < cfg.operators && forall k | 0 <= k < |ps| :: IsClaim(cfg, ps[k])
    ensures var t := Run(cfg, s, ps);
            if i in s.spent
            then i in t.spent && (i in t.partials <==> i in s.partials)
                 && (i in s.partials ==> t.partials[i] == s.partials[i])
            else Decided(cfg, t, i, FirstFor(ps, i))
    decreases ps
  {
    if ps != [] {
      AddKeepsInv(cfg, s, ps[0]);
      hide Inv;
      FirstDecides(cfg, Add(cfg, s, ps[0]).0, ps[1..], i);
    }
  }

  /** After any calls on a fresh session, what is filed for an index is told by the first point for it alone. */
  lemma FiledIff(cfg: Config, ps: seq<Claim>, i: nat)
    requires i < cfg.operators && forall k | 0 <= k < |ps| :: IsClaim(cfg, ps[k])
    ensures Decided(cfg, Run(cfg, FRESH, ps), i, FirstFor(ps, i))
  {
    FirstDecides(cfg, FRESH, ps, i);
  }

  /** What a session answers, told from the claims it was given before. */
  function Answer(cfg: Config, before: seq<Claim>, p: Claim): Outcome {
    if p.index >= cfg.operators then Refused(OutsideGroup)
    else if p.sig.None? then Refused(NilSignature)
    else
      var first := FirstFor(before, p.index);
      var good := cfg.suite.VerifyPartial(cfg.commits, p.index, cfg.seed, if first.Some? then first.value else p.sig.value);
      if first.None? then (if good then Filed else Refused(NotVerified))
      else if !good then Refused(AttemptSpent)
      else if first == p.sig then NotNeeded
      else Refused(Conflicting)
  }

  /**
   The first point for an index is filed if it verifies; after a good first point the same one again is
   not needed and any other is a conflict; after a bad first point nothing is tried again.
   */
  lemma AnswerIs(cfg: Config, before: seq<Claim>, p: Claim)
    requires IsClaim(cfg, p) && forall k | 0 <= k < |before| :: IsClaim(cfg, before[k])
    ensures Add(cfg, Run(cfg, FRESH, before), p).1 == Answer(cfg, before, p)
  {
    if p.index < cfg.operators { FiledIff(cfg, before, p.index); }
    hide Run, FirstFor;
  }

  /** A point for an index whose first point verified, and another point than that. */
  predicate Conflicts(cfg: Config, before: seq<Claim>, p: Claim) {
    p.index < cfg.operators && p.sig.Some? &&
    var first := FirstFor(before, p.index);
    first.Some? && cfg.suite.VerifyPartial(cfg.commits, p.index, cfg.seed, first.value) && first != p.sig
  }

  /** What the first conflict proves. */
  function FirstConflict(cfg: Config, ps: seq<Claim>): Option<Equivocation> {
    if ps == [] then None
    else
      var n := |ps| - 1;
      var earlier := FirstConflict(cfg, ps[..n]);
      if earlier.Some? || !Conflicts(cfg, ps[..n], ps[n]) then earlier
      else Some(Equivocation(ps[n].index, cfg.seed, FirstFor(ps[..n], ps[n].index).value, ps[n].sig.value))
  }

  lemma {:induction false} RunSnoc(cfg: Config, s: State, ps: seq<Claim>, p: Claim)
    ensures Run(cfg, s, ps + [p]) == Add(cfg, Run(cfg, s, ps), p).0
    decreases ps
  {
    hide Add;
    if ps == [] {
      assert [p][1..] == [];
    } else {
      assert (ps + [p])[1..] == ps[1..] + [p];
      RunSnoc(cfg, Add(cfg, s, ps[0]).0, ps[1..], p);
    }
  }

  /** The evidence a session holds is that of the first conflict, and there is none without a conflict. */
  lemma {:induction false} EvidenceIs(cfg: Config, ps: seq<Claim>)
    requires forall k | 0 <= k < |ps| :: IsClaim(cfg, ps[k])
    ensures Run(cfg, FRESH, ps).equivocation == FirstConflict(cfg, ps)
    decreases |ps|
  {
    if ps != [] {
      var n := |ps| - 1;
      var before, p := ps[..n], ps[n];
      assert ps == before + [p];
      EvidenceIs(cfg, before);
      RunSnoc(cfg, FRESH, before, p);
      if p.index < cfg.operators { FiledIff(cfg, before, p.index); }
      hide Run, FirstFor;
    }
  }

  lemma BoundedSet(s: set<nat>, n: nat)
    requires forall i | i in s :: i < n
    ensures |s| <= n
    decreases n
  {
    if n > 0 {
      var t := s - {n - 1};
      BoundedSet(t, n - 1);
      assert s <= t + {n - 1};
      assert |s| <= |t| + 1 by { if n - 1 in s { assert s == t + {n - 1}; } else { assert s == t; } }
    } else {
      assert s == {};
    }
  }

  /** The pairings a session pays for never exceed the number of operators. */
  lemma CostBound(cfg: Config, ps: seq<Claim>)
    requires cfg.operators >= 0 && forall k | 0 <= k < |ps| :: IsClaim(cfg, ps[k])
    ensures Run(cfg, FRESH, ps).verifications <= cfg.operators
  {
    AnyRun(cfg, FRESH, ps, 0);
    BoundedSet(Run(cfg, FRESH, ps).spent, cfg.operators);
  }

  // ----- the aggregate

  /** `order` is one way of reading a map with these keys. */
  ghost predicate Enumerates(order: seq<nat>, keys: set<nat>) {
    Distinct(order) && forall k :: k in order <==> k in keys
  }

  lemma {:induction false} EnumerationLength(order: seq<nat>, keys: set<nat>)
    requires Enumerates(order, keys)
    ensures |order| == |keys|
    decreases |order|
  {
    if order == [] {
      assert forall k :: k in keys ==> k in order;
      assert keys == {};
    } else {
      var n := |order| - 1;
      var z, init := order[n], order[..n];
      forall k ensures k in init <==> k in keys - {z} {
        if k in init { var j :| 0 <= j < n && init[j] == k; assert order[j] == k; }
        if k in keys - {z} { assert k in order; }
      }
      assert z in keys;
      EnumerationLength(init, keys - {z});
    }
  }

  function Listing(partials: map<nat, Partial>, order: seq<nat>): (ps: seq<Partial>)
    requires forall k | 0 <= k < |order| :: order[k] in partials
    ensures |ps| == |order| && forall k | 0 <= k < |order| :: ps[k] == partials[order[k]]
  {
    seq(|order|, k requires 0 <= k < |order| => partials[order[k]])
  }

  ghost predicate ReadOrder(cfg: Config, s: State, order: seq<nat>, pick: seq<nat>) {
    && Enumerates(order, s.partials.Keys)
    && (cfg.threshold <= |order| ==> ValidPick(pick, |order|, cfg.threshold))
  }

  /** Signature, for one order in which the map is read and one choice made by the library. */
  ghost function Signature(cfg: Config, s: State, order: seq<nat>, pick: seq<nat>): Result<int, Error>
    requires ReadOrder(cfg, s, order, pick)
  {
    if |s.partials| < cfg.threshold then Err(NotEnough)
    else
      EnumerationLength(order, s.partials.Keys);
      assert forall k | 0 <= k < |order| :: order[k] in order;
      AggregateOutcome(cfg.suite.r, Listing(s.partials, order), cfg.threshold, pick)
  }

  predicate Ready(cfg: Config, s: State) { |s.partials| >= cfg.threshold }

  /** The one signature of the group: the constant term of the commitments times H(seed). */
  function GroupSignature(cfg: Config): int {
    cfg.suite.Sign(AtZero(cfg.commits), cfg.seed)
  }

  /** The commitments are those of a polynomial with `threshold` coefficients, and indices fit the field. */
  predicate Deployed(cfg: Config) {
    |cfg.commits| == cfg.threshold && 0 <= cfg.operators < cfg.suite.r
  }

  /** A ready session yields the group signature, whatever it holds and however the map is read. */
  lemma ReadySessionSigns(cfg: Config, s: State, order: seq<nat>, pick: seq<nat>)
    requires Deployed(cfg) && Inv(cfg, s) && Ready(cfg, s) && ReadOrder(cfg, s, order, pick)
    ensures Signature(cfg, s, order, pick) == Ok(GroupSignature(cfg))
  {
    EnumerationLength(order, s.partials.Keys);
    assert forall k | 0 <= k < |order| :: order[k] in order;
    var ps := Listing(s.partials, order);
    forall k | 0 <= k < |ps|
      ensures ps[k].index == order[k] &&
        ValidPartial(cfg.suite, cfg.commits, cfg.seed, cfg.operators, ps[k])
    {
      assert order[k] in s.partials;
    }
    forall i, j | 0 <= i < j < |ps| ensures Indices(ps)[i] != Indices(ps)[j] {}
    AnyPartialsSign(cfg.suite, cfg.commits, cfg.seed, ps, cfg.operators, pick);
  }

  // ----- the object

  class Session {
    const cfg: Config
    var partials: map<nat, Partial>
    var spent: set<nat>
    var equivocation: Option<Equivocation>
    var verifications: nat

    function View(): State
      reads this
    {
      State(partials, spent, equivocation, verifications)
    }

    constructor (cfg: Config)
      ensures this.cfg == cfg && View() == FRESH
    {
      this.cfg := cfg;
      partials, spent, equivocation, verifications := map[], {}, None, 0;
    }

    method RecordEquivocation(index: nat, first: int, second: int)
      modifies this`equivocation
      ensures equivocation == if old(equivocation).Some? then old(equivocation)
                              else Some(Equivocation(index, cfg.seed, first, second))
    {
      if equivocation.Some? { return; }
      equivocation := Some(Equivocation(index, cfg.seed, first, second));
    }

    /** Verifies a partial signature and files it.  Runs under the session's mutex. */
    method AddPartial(p: Claim) returns (outcome: Outcome)
      requires Inv(cfg, View()) && IsClaim(cfg, p)
      modifies this
      ensures (View(), outcome) == Add(cfg, old(View()), p)
      ensures Inv(cfg, View()) && Keeps(old(View()), View())
    {
      AddKeepsInv(cfg, View(), p);
      if p.index >= cfg.operators { return Refused(OutsideGroup); }
      if p.sig.None? { return Refused(NilSignature); }
      if p.index in partials {
        var existing := partials[p.index];
        if existing.sig == p.sig.value { return NotNeeded; }
        RecordEquivocation(p.index, existing.sig, p.sig.value);
        spent := spent + {p.index};
        return Refused(Conflicting);
      }
      if p.index in spent { return Refused(AttemptSpent); }
      spent := spent + {p.index};
      verifications := verifications + 1;
      if !cfg.suite.VerifyPartial(cfg.commits, p.index, cfg.seed, p.sig.value) {
        return Refused(NotVerified);
      }
      partials := partials[p.index := Partial(p.index, p.sig.value)];
      return Filed;
    }

    /** Reads the map in whatever order it comes, then recombines. */
    method Aggregated(pick: seq<nat>) returns (res: Result<int, Error>)
      requires Inv(cfg, View()) && Deployed(cfg)
      requires cfg.threshold <= |partials| ==> ValidPick(pick, |partials|, cfg.threshold)
      ensures res == if Ready(cfg, View()) then Ok(GroupSignature(cfg)) else Err(NotEnough)
    {
      var collected: seq<Partial>, rest, order: seq<nat> := [], partials.Keys, [];
      while rest != {}
        invariant rest <= partials.Keys
        invariant Enumerates(order, partials.Keys - rest)
        invariant forall k | 0 <= k < |order| :: order[k] in partials
        invariant collected == Listing(partials, order)
        decreases rest
      {
        var i :| i in rest;
        assert i !in order;
        collected := collected + [partials[i]];
        ghost var before := order;
        order := order + [i];
        rest := rest - {i};
        forall k ensures k in order <==> k in partials.Keys - rest {
          assert k in order <==> k in before || k == i;
        }
      }
      assert partials.Keys - rest == partials.Keys;
      EnumerationLength(order, partials.Keys);
      if |collected| < cfg.threshold { return Err(NotEnough); }
      ReadySessionSigns(cfg, View(), order, pick);
      res := AggregateShares(cfg.suite.r, collected, cfg.threshold, pick);
    }
  }
}
