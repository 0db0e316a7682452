/** The bounded memories of a node and its publishing rotation: node/internal/node/node.go. */
module Memory {
  import opened Common
  import opened ModArith

  /** The integer behind a request's hexadecimal key. */
  type Key = int

  const MAX_PARKED := 256
  const MAX_SETTLED := 10_000

  /** The order lists the keys, each once. */
  ghost predicate Listed(order: seq<Key>, keys: set<Key>) {
    Distinct(order) && forall k :: k in order <==> k in keys
  }

  // ----- shares held for requests not yet announced

  datatype Parked<E> = Parked(held: map<Key, seq<E>>, order: seq<Key>)

  function Nothing<E>(): Parked<E> { Parked(map[], []) }

  function HeldFor<E>(s: Parked<E>, key: Key): seq<E> { if key in s.held then s.held[key] else [] }

  function Evict<E>(s: Parked<E>): Parked<E> {
    if |s.order| >= MAX_PARKED then Parked(s.held - {s.order[0]}, s.order[1..]) else s
  }

  function Park<E>(s: Parked<E>, key: Key, e: E, operators: int): Parked<E> {
    var room := if key in s.held then s else var left := Evict(s); left.(order := left.order + [key]);
    if |HeldFor(s, key)| >= operators then room
    else room.(held := room.held[key := HeldFor(s, key) + [e]])
  }

  /** Drops the first occurrence. */
  function Without(order: seq<Key>, key: Key): seq<Key> {
    if order == [] then []
    else if order[0] == key then order[1..]
    else [order[0]] + Without(order[1..], key)
  }

  function Take<E>(s: Parked<E>, key: Key): Parked<E> {
    if key in s.held then Parked(s.held - {key}, Without(s.order, key)) else s
  }

  /** Both are bounded, and so is what each key holds. */
  ghost predicate Bounded<E>(s: Parked<E>, operators: int) {
    && |s.order| <= MAX_PARKED && |s.held| <= MAX_PARKED
    && (forall k | k in s.held :: 1 <= |s.held[k]| <= operators)
  }

  /** The order lists the keys of the map, each once, and the bounds hold. */
  ghost predicate ParkedOk<E>(s: Parked<E>, operators: int) {
    && Listed(s.order, s.held.Keys)
    && |s.order| <= MAX_PARKED
    && (forall k | k in s.held :: 1 <= |s.held[k]| <= operators)
  }

  lemma {:induction false} WithoutDrops(order: seq<Key>, key: Key)
    requires Distinct(order)
    ensures var w := Without(order, key);
            && Distinct(w) && |w| <= |order|
            && (forall k :: k in w <==> k in order && k != key)
  {
    if order != [] {
      assert forall k :: k in order <==> k == order[0] || k in order[1..];
      if order[0] != key {
        WithoutDrops(order[1..], key);
        assert order[0] !in order[1..];
      } else {
        assert key !in order[1..];
      }
    }
  }

  lemma EvictKeeps<E>(s: Parked<E>, operators: int)
    requires ParkedOk(s, operators)
    ensures ParkedOk(Evict(s), operators) && |Evict(s).order| < MAX_PARKED
  {
    if |s.order| >= MAX_PARKED {
      assert forall k :: k in s.order <==> k == s.order[0] || k in s.order[1..];
      assert s.order[0] !in s.order[1..];
    }
  }

  /** Parking keeps the order and the map in agreement, for every key and share, exactly when the group has an operator. */
  lemma ParkKeepsIff<E>(s: Parked<E>, key: Key, e: E, operators: int)
    requires ParkedOk(s, operators)
    ensures var t := Park(s, key, e, operators);
      && (Listed(t.order, t.held.Keys) <==> operators >= 1)
      && (ParkedOk(t, operators) <==> operators >= 1)
      && Bounded(t, operators)
  {
    SizeOfOrder(s.order, s.held.Keys);
    assert |s.held| == |s.held.Keys|;
    hide ParkedOk, Listed, Bounded, Park;
    if key in s.held { KnownParks(s, key, e, operators); } else { NewParks(s, key, e, operators); }
  }

  lemma KnownParks<E>(s: Parked<E>, key: Key, e: E, operators: int)
    requires ParkedOk(s, operators) && key in s.held && |s.held| == |s.order|
    ensures var t := Park(s, key, e, operators); operators >= 1 && ParkedOk(t, operators) && Listed(t.order, t.held.Keys) && Bounded(t, operators)
  {
    var t := Park(s, key, e, operators);
    assert t.held.Keys == s.held.Keys && |t.held| == |t.held.Keys| && |s.held| == |s.held.Keys|;
    hide Distinct;
  }

  lemma NewParks<E>(s: Parked<E>, key: Key, e: E, operators: int)
    requires ParkedOk(s, operators) && key !in s.held && |s.held| == |s.order|
    ensures var t := Park(s, key, e, operators);
      && (Listed(t.order, t.held.Keys) <==> operators >= 1)
      && (ParkedOk(t, operators) <==> operators >= 1)
      && Bounded(t, operators)
  {
    var t, left := Park(s, key, e, operators), Evict(s);
    EvictKeeps(s, operators);
    SizeOfOrder(left.order, left.held.Keys);
    assert forall k :: k in left.order + [key] <==> k in left.order || k == key;
    assert operators < 1 ==> key in t.order && key !in t.held;
    assert operators >= 1 ==> t.held.Keys == left.held.Keys + {key};
    assert |left.held| == |left.held.Keys| && |t.held| == |t.held.Keys|;
    hide Evict;
  }

  lemma TakeKeeps<E>(s: Parked<E>, key: Key, operators: int)
    requires ParkedOk(s, operators)
    ensures ParkedOk(Take(s, key), operators)
    ensures HeldFor(Take(s, key), key) == [] && forall k | k != key :: HeldFor(Take(s, key), k) == HeldFor(s, k)
  {
    WithoutDrops(s.order, key);
  }

  // ----- any run of parking and taking

  datatype ParkOp<E> = Offer(key: Key, e: E) | Claim(key: Key)

  function Apply<E>(s: Parked<E>, op: ParkOp<E>, operators: int): Parked<E> {
    match op
    case Offer(key, e) => Park(s, key, e, operators)
    case Claim(key) => Take(s, key)
  }

  function After<E>(ops: seq<ParkOp<E>>, operators: int): Parked<E> {
    if ops == [] then Nothing() else Apply(After(ops[..|ops| - 1], operators), ops[|ops| - 1], operators)
  }

  /** When the node began to hold what it holds for each key now. */
  function Since<E>(ops: seq<ParkOp<E>>, operators: int): (at: map<Key, nat>)
    ensures at.Keys == After(ops, operators).held.Keys
    ensures forall key | key in at :: at[key] < |ops|
  {
    if ops == [] then map[]
    else
      var k := |ops| - 1;
      var before := Since(ops[..k], operators);
      map key | key in After(ops, operators).held :: if key in before then before[key] else k
  }

  /** What was offered for `key` from operation `from` on. */
  function Offered<E>(ops: seq<ParkOp<E>>, from: nat, key: Key): seq<E> {
    if |ops| <= from then []
    else
      var k := |ops| - 1;
      Offered(ops[..k], from, key) + (if ops[k].Offer? && ops[k].key == key then [ops[k].e] else [])
  }

  function FirstOf<E>(s: seq<E>, n: int): seq<E> {
    if n <= 0 then [] else if |s| <= n then s else s[..n]
  }

  /** Oldest first. */
  ghost predicate Ascending(order: seq<Key>, at: map<Key, nat>) {
    && (forall i | 0 <= i < |order| :: order[i] in at)
    && (forall i, j | 0 <= i < j < |order| :: at[order[i]] < at[order[j]])
  }

  /** For each key, the first `operators` shares offered since it came in. */
  ghost predicate FirstOffers<E>(ops: seq<ParkOp<E>>, operators: int) {
    var s, at := After(ops, operators), Since(ops, operators);
    forall k | k in s.held :: s.held[k] == FirstOf(Offered(ops, at[k], k), operators)
  }

  /** Every key of `part` is a key of `whole`. */
  ghost predicate Among(part: seq<Key>, whole: seq<Key>) { forall i | 0 <= i < |part| :: part[i] in whole }

  lemma AmongIs(part: seq<Key>, whole: seq<Key>, key: Key)
    requires Among(part, whole) && key in part
    ensures key in whole
  {
    var i :| 0 <= i < |part| && part[i] == key;
  }

  lemma AscendingTail(order: seq<Key>, at: map<Key, nat>)
    requires Ascending(order, at) && order != []
    ensures Ascending(order[1..], at)
    ensures order[0] in at && forall k | k in order[1..] :: k in at && at[order[0]] < at[k]
  {
    var tail := order[1..];
    forall k | k in tail ensures k in at && at[order[0]] < at[k] {
      var i :| 0 <= i < |tail| && tail[i] == k;
      assert order[i + 1] == k;
    }
    assert forall i | 0 <= i < |tail| :: tail[i] == order[i + 1];
  }

  lemma {:induction false} AscendingCons(first: Key, rest: seq<Key>, at: map<Key, nat>)
    requires Ascending(rest, at) && first in at
    requires forall i | 0 <= i < |rest| :: at[first] < at[rest[i]]
    ensures Ascending([first] + rest, at)
  {}

  lemma {:induction false} AscendingWithout(order: seq<Key>, key: Key, at: map<Key, nat>)
    requires Ascending(order, at)
    ensures Ascending(Without(order, key), at) && Among(Without(order, key), order)
  {
    if order != [] {
      var tail := order[1..];
      AscendingTail(order, at);
      if order[0] != key {
        AscendingWithout(tail, key, at);
        var w := Without(tail, key);
        assert Without(order, key) == [order[0]] + w;
        forall i | 0 <= i < |w| ensures w[i] in at && at[order[0]] < at[w[i]] && w[i] in order {
          AmongIs(w, tail, w[i]);
        }
        hide Without, Ascending;
        AscendingCons(order[0], w, at);
      }
    }
  }

  /** Stamps that agree on the listed keys order them alike. */
  lemma AscendingAgrees(order: seq<Key>, at: map<Key, nat>, later: map<Key, nat>)
    requires Ascending(order, at)
    requires forall i | 0 <= i < |order| :: order[i] in later && order[i] in at && later[order[i]] == at[order[i]]
    ensures Ascending(order, later)
  {}

  lemma AscendingGrows(order: seq<Key>, key: Key, at: map<Key, nat>)
    requires Ascending(order, at) && key in at
    requires forall i | 0 <= i < |order| :: order[i] in at && at[order[i]] < at[key]
    ensures Ascending(order + [key], at)
  {
    assert forall i | 0 <= i < |order| :: (order + [key])[i] == order[i];
  }

  /** What one operation does to the order: keys leave it, and at most one new key joins at its end. */
  lemma OrderStep<E>(s: Parked<E>, op: ParkOp<E>, operators: int, at: map<Key, nat>)
    requires ParkedOk(s, operators) && operators >= 1 && Ascending(s.order, at)
    ensures var t := Apply(s, op, operators);
            ParkedOk(t, operators) &&
            if op.Offer? && op.key !in s.held
            then Ascending(Evict(s).order, at) && t.order == Evict(s).order + [op.key]
                 && (forall k | k in Evict(s).order :: k in s.order && k in t.held)
            else Ascending(t.order, at) && forall k | k in t.order :: k in s.order
  {
    match op
    case Offer(key, e) =>
      ParkKeepsIff(s, key, e, operators);
      assert forall k | k in Evict(s).order :: k in s.order;
      assert forall k | k in Evict(s).order :: k in Apply(s, op, operators).order;
    case Claim(key) =>
      TakeKeeps(s, key, operators);
      AscendingWithout(s.order, key, at);
  }

  /** In any run keys are held oldest first, so the key evicted is the one held longest. */
  lemma {:induction false} HeldOldestFirst<E>(ops: seq<ParkOp<E>>, operators: int)
    requires operators >= 1
    ensures ParkedOk(After(ops, operators), operators)
    ensures Ascending(After(ops, operators).order, Since(ops, operators))
    decreases |ops|
  {
    if ops != [] {
      var n := |ops| - 1;
      var s, at, later := After(ops[..n], operators), Since(ops[..n], operators), Since(ops, operators);
      HeldOldestFirst(ops[..n], operators);
      OrderStep(s, ops[n], operators, at);
      var t := After(ops, operators);
      if ops[n].Offer? && ops[n].key !in s.held {
        AscendingAgrees(Evict(s).order, at, later);
        AscendingGrows(Evict(s).order, ops[n].key, later);
      } else {
        AscendingAgrees(t.order, at, later);
      }
    }
  }

  lemma AscendingFirst(order: seq<Key>, at: map<Key, nat>, key: Key)
    requires Ascending(order, at) && key in order
    ensures order[0] in at && key in at && at[order[0]] <= at[key]
  {
    var i :| 0 <= i < |order| && order[i] == key;
  }

  lemma ParkEvictsFirst<E>(s: Parked<E>, at: map<Key, nat>, key: Key, e: E, operators: int)
    requires ParkedOk(s, operators) && operators >= 1 && Ascending(s.order, at)
    requires at.Keys == s.held.Keys && key !in s.held && |s.held| >= MAX_PARKED
    ensures s.order != [] && s.order[0] in s.held
    ensures forall k | k in s.held :: at[s.order[0]] <= at[k]
    ensures Park(s, key, e, operators).held == (s.held - {s.order[0]})[key := [e]]
  {
    assert forall k :: k in s.held.Keys <==> k in s.order;
    SizeOfOrder(s.order, s.held.Keys);
    assert |s.held.Keys| == |s.held|;
    assert s.order[0] in s.order;
    assert HeldFor(s, key) + [e] == [e];
    forall k | k in s.held ensures at[s.order[0]] <= at[k] { AscendingFirst(s.order, at, k); }
  }

  /** With no operator nothing is ever held; the order still grows, up to its bound. */
  lemma {:induction false} NothingHeld<E>(ops: seq<ParkOp<E>>, operators: int)
    requires operators <= 0
    ensures After(ops, operators).held == map[] && |After(ops, operators).order| <= MAX_PARKED
    decreases |ops|
  {
    if ops != [] { NothingHeld(ops[..|ops| - 1], operators); }
  }

  /** Every run stays within all bounds, whatever the size of the group. */
  lemma AlwaysBounded<E>(ops: seq<ParkOp<E>>, operators: int)
    ensures Bounded(After(ops, operators), operators)
  {
    if operators >= 1 {
      HeldOldestFirst(ops, operators);
      var s := After(ops, operators);
      SizeOfOrder(s.order, s.held.Keys);
      assert |s.held| == |s.held.Keys|;
    } else {
      NothingHeld(ops, operators);
    }
  }

  /** A new key that finds the memory full drives out the key held longest, and no other. */
  lemma EvictsTheOldest<E>(ops: seq<ParkOp<E>>, key: Key, e: E, operators: int)
    requires operators >= 1
    requires key !in After(ops, operators).held && |After(ops, operators).held| >= MAX_PARKED
    ensures var s, at, t := After(ops, operators), Since(ops, operators), After(ops + [Offer(key, e)], operators);
            && s.order != [] && s.order[0] in s.held
            && (forall k | k in s.held :: at[s.order[0]] <= at[k])
            && t.held == (s.held - {s.order[0]})[key := [e]]
  {
    var all := ops + [Offer(key, e)];
    assert all[..|all| - 1] == ops && all[|all| - 1] == Offer(key, e);
    HeldOldestFirst(ops, operators);
    assert After(all, operators) == Park(After(ops, operators), key, e, operators);
    ParkEvictsFirst(After(ops, operators), Since(ops, operators), key, e, operators);
    hide After, Since, Park, ParkedOk, Ascending;
  }

  lemma {:induction false} SizeOfOrder(order: seq<Key>, keys: set<Key>)
    requires Listed(order, keys)
    ensures |order| == |keys|
  {
    if order == [] {
      assert forall k :: k in keys ==> k in order;
      assert keys == {};
    } else {
      var first, tail := order[0], order[1..];
      assert first !in tail;
      assert forall k :: k in order <==> k == first || k in tail;
      SizeOfOrder(tail, keys - {first});
      assert first in keys;
    }
  }

  lemma FirstOfGrows<E>(s: seq<E>, e: E, n: int)
    ensures FirstOf(s + [e], n) == if |FirstOf(s, n)| < n then FirstOf(s, n) + [e] else FirstOf(s, n)
  {}

  lemma OfferedStep<E>(ops: seq<ParkOp<E>>, op: ParkOp<E>, from: nat, key: Key)
    requires from <= |ops|
    ensures Offered(ops + [op], from, key) == Offered(ops, from, key) + (if op.Offer? && op.key == key then [op.e] else [])
    ensures from == |ops| ==> Offered(ops, from, key) == []
  {
    assert (ops + [op])[..|ops|] == ops;
  }

  lemma OffersAt<E>(before: seq<ParkOp<E>>, op: ParkOp<E>, operators: int, k: Key)
    requires FirstOffers(before, operators) && ParkedOk(After(before, operators), operators) && operators >= 1
    requires k in After(before + [op], operators).held
    ensures After(before + [op], operators).held[k]
      == FirstOf(Offered(before + [op], Since(before + [op], operators)[k], k), operators)
  {
    var ops, s := before + [op], After(before, operators);
    assert ops[..|ops| - 1] == before && ops[|ops| - 1] == op;
    var from := Since(ops, operators)[k];
    assert from == if k in s.held then Since(before, operators)[k] else |before|;
    assert After(ops, operators) == Apply(s, op, operators);
    assert HeldFor(s, k) == FirstOf(Offered(before, from, k), operators) by { OfferedStep(before, op, from, k); }
    hide After, Since, FirstOffers, FirstOf, Offered, Apply;
    HeldStep(s, op, operators, k);
    OfferedStep(before, op, from, k);
    if op.Offer? { FirstOfGrows(Offered(before, from, k), op.e, operators); }
    assert Offered(before, from, k) + [] == Offered(before, from, k);
  }

  /** In any run the node holds, for each key, the first `operators` shares offered since it began to. */
  lemma {:induction false} HoldsFirstOffers<E>(ops: seq<ParkOp<E>>, operators: int)
    requires operators >= 1
    ensures FirstOffers(ops, operators)
    decreases |ops|
  {
    if ops != [] {
      var n := |ops| - 1;
      HoldsFirstOffers(ops[..n], operators);
      HeldOldestFirst(ops[..n], operators);
      assert ops[..n] + [ops[n]] == ops;
      forall k | k in After(ops, operators).held
        ensures After(ops, operators).held[k] == FirstOf(Offered(ops, Since(ops, operators)[k], k), operators)
      {
        OffersAt(ops[..n], ops[n], operators, k);
      }
      hide After, Since, Offered;
    }
  }

  lemma HeldStep<E>(s: Parked<E>, op: ParkOp<E>, operators: int, k: Key)
    requires ParkedOk(s, operators) && operators >= 1
    ensures var t := Apply(s, op, operators);
            k in t.held ==>
              t.held[k] == if op.Offer? && op.key == k && |HeldFor(s, k)| < operators then HeldFor(s, k) + [op.e]
                           else HeldFor(s, k)
  {
    assert |s.order| > 0 ==> s.order[0] in s.order;
  }

  // ----- requests known to be finished

  datatype Settled = Settled(known: set<Key>, order: seq<Key>)

  function Trim(s: Settled): Settled
    decreases |s.order|
  {
    if |s.order| > MAX_SETTLED then Trim(Settled(s.known - {s.order[0]}, s.order[1..])) else s
  }

  function Settle(s: Settled, key: Key): Settled {
    if key in s.known then s else Trim(Settled(s.known + {key}, s.order + [key]))
  }

  ghost predicate SettledOk(s: Settled) { Listed(s.order, s.known) && |s.order| <= MAX_SETTLED }

  lemma ListedGrows(order: seq<Key>, known: set<Key>, key: Key)
    requires Listed(order, known) && key !in known
    ensures Listed(order + [key], known + {key})
  {
    assert forall k :: k in order + [key] <==> k in order || k == key;
  }

  lemma ListedShrinks(order: seq<Key>, known: set<Key>)
    requires Listed(order, known) && order != []
    ensures Listed(order[1..], known - {order[0]})
  {
    assert order[0] !in order[1..];
    assert forall k :: k in order <==> k == order[0] || k in order[1..];
  }

  lemma SettleKeeps(s: Settled, key: Key)
    requires SettledOk(s)
    ensures SettledOk(Settle(s, key)) && key in Settle(s, key).known
    ensures Settle(s, key).order == if key in s.known then s.order else Recent(s.order + [key])
  {
    if key !in s.known {
      var order, known := s.order + [key], s.known + {key};
      ListedGrows(s.order, s.known, key);
      assert order[|order| - 1] == key && known - {order[0]} == if order[0] == key then s.known else s.known - {order[0]} + {key};
      var grown, left := Settled(known, order), Settled(known - {order[0]}, order[1..]);
      assert |order| > MAX_SETTLED ==> Trim(grown) == Trim(left) == left;
      assert |order| > MAX_SETTLED ==> s.order[0] in s.known by { assert |order| > MAX_SETTLED ==> s.order[0] in s.order; }
      ListedShrinks(order, known);
      hide Listed;
    }
  }

  /** The last MAX_SETTLED entries. */
  function Recent(log: seq<Key>): seq<Key> {
    if |log| <= MAX_SETTLED then log else log[|log| - MAX_SETTLED..]
  }

  /** Every report of an id that is not among the last MAX_SETTLED recorded is recorded. */
  function Recorded(ids: seq<Key>): seq<Key> {
    if ids == [] then []
    else
      var n := |ids| - 1;
      var log := Recorded(ids[..n]);
      if ids[n] in Recent(log) then log else log + [ids[n]]
  }

  function AfterReports(ids: seq<Key>): Settled {
    if ids == [] then Settled({}, []) else Settle(AfterReports(ids[..|ids| - 1]), ids[|ids| - 1])
  }

  lemma {:induction false} RecentGrows(log: seq<Key>, key: Key)
    ensures Recent(Recent(log) + [key]) == Recent(log + [key])
  {}

  /** In any run of reports the memory is the last MAX_SETTLED recorded ids, oldest first. */
  lemma {:induction false} RemembersRecent(ids: seq<Key>)
    ensures SettledOk(AfterReports(ids)) && AfterReports(ids).order == Recent(Recorded(ids))
    ensures ids != [] ==> ids[|ids| - 1] in AfterReports(ids).known
    decreases |ids|
  {
    if ids != [] {
      var n := |ids| - 1;
      RemembersRecent(ids[..n]);
      var s, log := AfterReports(ids[..n]), Recorded(ids[..n]);
      assert ids[n] in Recent(log) <==> ids[n] in s.known;
      assert AfterReports(ids) == Settle(s, ids[n]);
      assert Recorded(ids) == if ids[n] in Recent(log) then log else log + [ids[n]];
      hide AfterReports, Recorded, Recent, Settle, SettledOk;
      SettleKeeps(s, ids[n]);
      RecentGrows(log, ids[n]);
    }
  }

  lemma {:induction false} WithoutAt(order: seq<Key>, i: nat, key: Key)
    requires i <= |order| && forall j | 0 <= j < i :: order[j] != key
    requires i < |order| ==> order[i] == key
    ensures Without(order, key) == if i < |order| then order[..i] + order[i + 1..] else order
  {
    if order != [] && i > 0 {
      var tail := order[1..];
      WithoutAt(tail, i - 1, key);
      assert i < |order| ==> order[..i] + order[i + 1..] == [order[0]] + (tail[..i - 1] + tail[i..]);
    }
  }

  // ----- the memories of a node

  class Memory<E> {
    const operators: int
    var parked: map<Key, seq<E>>
    var parkedOrder: seq<Key>
    var settled: set<Key>
    var settledOrder: seq<Key>

    constructor (operators: int)
      ensures this.operators == operators && Held() == Nothing() && Finished() == Settled({}, [])
    {
      this.operators := operators;
      parked, parkedOrder, settled, settledOrder := map[], [], {}, [];
    }

    function Held(): Parked<E> reads this { Parked(parked, parkedOrder) }

    function Finished(): Settled reads this { Settled(settled, settledOrder) }

    ghost predicate Valid() reads this {
      ParkedOk(Held(), operators) && SettledOk(Finished())
    }

    method ParkShare(key: Key, e: E)
      modifies this`parked, this`parkedOrder
      ensures Held() == Park(old(Held()), key, e, operators)
      ensures old(Valid()) && operators >= 1 ==> Valid()
    {
      if Valid() { ParkKeepsIff(Held(), key, e, operators); }
      hide ParkedOk, SettledOk;
      var known := key in parked;
      var held := if known then parked[key] else [];
      if !known {
        if |parkedOrder| >= MAX_PARKED {
          var oldest := parkedOrder[0];
          parkedOrder := parkedOrder[1..];
          parked := parked - {oldest};
        }
        parkedOrder := parkedOrder + [key];
      }
      if |held| >= operators { return; }
      parked := parked[key := held + [e]];
    }

    method TakeParked(key: Key) returns (held: seq<E>)
      modifies this`parked, this`parkedOrder
      ensures held == HeldFor(old(Held()), key) && Held() == Take(old(Held()), key)
      ensures old(Valid()) ==> Valid()
    {
      if Valid() { TakeKeeps(Held(), key, operators); }
      hide ParkedOk, SettledOk;
      if key !in parked { return []; }
      held := parked[key];
      parked := parked - {key};
      hide Without;
      var i := 0;
      while i < |parkedOrder|
        invariant 0 <= i <= |parkedOrder| && parkedOrder == old(parkedOrder)
        invariant forall j | 0 <= j < i :: parkedOrder[j] != key
      {
        if parkedOrder[i] == key {
          WithoutAt(parkedOrder, i, key);
          parkedOrder := parkedOrder[..i] + parkedOrder[i + 1..];
          return;
        }
        i := i + 1;
      }
      WithoutAt(parkedOrder, i, key);
    }

    method OnFulfilled(key: Key)
      modifies this`settled, this`settledOrder
      ensures Finished() == Settle(old(Finished()), key)
      ensures old(Valid()) ==> Valid()
    {
      if Valid() { SettleKeeps(Finished(), key); }
      hide ParkedOk, SettledOk;
      if key in settled { return; }
      settled := settled + {key};
      settledOrder := settledOrder + [key];
      while |settledOrder| > MAX_SETTLED
        invariant Trim(Finished()) == Settle(old(Finished()), key)
        decreases |settledOrder|
      {
        settled := settled - {settledOrder[0]};
        settledOrder := settledOrder[1..];
      }
    }
  }

  // ----- the publishing order

  const TWO32 := 0x1_0000_0000

  function PublishRank(id: int, index: nat, operators: int): nat {
    if operators <= 0 then 0
    else
      var offset := id % operators;
      ((index + operators - offset) % operators) % TWO32
  }

  lemma ModSum(id: int, n: nat, k: nat)
    requires k < n
    ensures (id + k) % n == if id % n + k < n then id % n + k else id % n + k - n
  {
    var carry := if id % n + k < n then 0 else 1;
    DivModUnique(id + k, n, id / n + carry, id % n + k - carry * n);
  }

  lemma RankValue(id: int, index: nat, n: nat)
    requires index < n <= TWO32
    ensures PublishRank(id, index, n) == if index >= id % n then index - id % n else index + n - id % n
  {
    var o := id % n;
    DivModUnique(index + n - o, n, if index >= o then 1 else 0, if index >= o then index - o else index + n - o);
  }

  /** The rank an operator has, told by how far its index lies past the id. */
  lemma RankIs(id: int, index: nat, operators: nat, k: nat)
    requires index < operators <= TWO32 && k < operators
    ensures PublishRank(id, index, operators) == k <==> index == (id + k) % operators
  {
    RankValue(id, index, operators);
    ModSum(id, operators, k);
    hide PublishRank;
  }

  /** For each request every rank is held by exactly one operator. */
  lemma EveryRankOnce(id: int, operators: nat, k: nat) returns (i: nat)
    requires k < operators <= TWO32
    ensures i < operators
    ensures forall j: nat | j < operators :: PublishRank(id, j, operators) == k <==> j == i
  {
    i := (id + k) % operators;
    forall j: nat | j < operators ensures PublishRank(id, j, operators) == k <==> j == i {
      RankIs(id, j, operators, k);
    }
  }

  /** Over as many consecutive requests as there are operators, each operator has each rank exactly once. */
  lemma EveryTurnOnce(first: int, index: nat, operators: nat, k: nat) returns (turn: int)
    requires index < operators <= TWO32 && k < operators
    ensures first <= turn < first + operators
    ensures forall id | first <= id < first + operators ::
              PublishRank(id, index, operators) == k <==> id == turn
  {
    var x := index - k - first;
    turn := first + x % operators;
    forall id | first <= id < first + operators ensures PublishRank(id, index, operators) == k <==> id == turn {
      RankIs(id, index, operators, k);
      hide PublishRank;
      TurnIs(first, id, index, operators, k);
    }
  }

  lemma TurnIs(first: int, id: int, index: nat, n: nat, k: nat)
    requires index < n && first <= id < first + n
    ensures index == (id + k) % n <==> id == first + (index - k - first) % n
  {
    var x, y := index - k - first, id + k;
    if id == first + x % n {
      assert y == (0 - (x / n)) * n + index;
      DivModUnique(y, n, 0 - (x / n), index);
    } else if y % n == index {
      assert x == (0 - (y / n)) * n + (id - first);
      DivModUnique(x, n, 0 - (y / n), id - first);
    }
  }
}
