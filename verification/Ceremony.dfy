/**
 Who takes part in a key ceremony and the nonce that binds it: node/internal/dkg/nonce.go, with the
 two union loops of node/internal/dkg/dkg.go and node/internal/dkgnet/run.go.
 */
module Ceremony {
  import opened Common

  type Byte = x: int | 0 <= x < 256
  type Bytes = seq<Byte>

  /** A participant: its index and public key; a key that cannot be marshalled is None. */
  datatype Member = Member(index: nat, public: Option<Bytes>)

  /** An index is a uint32. */
  predicate Fits(m: Member) { m.index < Pow256(4) && m.public.Some? }

  predicate AllFit(ms: seq<Member>) { forall i | 0 <= i < |ms| :: Fits(ms[i]) }

  // ----- big-endian numbers

  function Pow256(w: nat): nat { if w == 0 then 1 else 256 * Pow256(w - 1) }

  function BigEndian(n: nat, w: nat): (b: Bytes)
    ensures |b| == w
  {
    if w == 0 then [] else BigEndian(n / 256, w - 1) + [n % 256]
  }

  lemma {:induction false} BigEndianOnce(a: nat, b: nat, w: nat)
    requires a < Pow256(w) && b < Pow256(w) && BigEndian(a, w) == BigEndian(b, w)
    ensures a == b
    decreases w
  {
    if w > 0 {
      var x, y := BigEndian(a, w), BigEndian(b, w);
      assert x[..w - 1] == BigEndian(a / 256, w - 1) && y[..w - 1] == BigEndian(b / 256, w - 1);
      assert x[w - 1] == a % 256 && y[w - 1] == b % 256;
      BigEndianOnce(a / 256, b / 256, w - 1);
    }
  }

  // ----- the order of byte strings

  predicate Leq(a: Bytes, b: Bytes) {
    a == [] || (b != [] && (a[0] < b[0] || (a[0] == b[0] && Leq(a[1..], b[1..]))))
  }

  lemma {:induction false} LeqTotal(a: Bytes, b: Bytes)
    ensures Leq(a, b) || Leq(b, a)
    decreases |a|
  {
    if a != [] && b != [] { LeqTotal(a[1..], b[1..]); }
  }

  lemma {:induction false} LeqSame(a: Bytes, b: Bytes)
    ensures Leq(a, b) && Leq(b, a) ==> a == b
    decreases |a|
  {
    if a != [] && b != [] && Leq(a, b) && Leq(b, a) {
      LeqSame(a[1..], b[1..]);
      assert a == [a[0]] + a[1..] && b == [b[0]] + b[1..];
    }
  }

  lemma {:induction false} LeqTrans(a: Bytes, b: Bytes, c: Bytes)
    requires Leq(a, b) && Leq(b, c)
    ensures Leq(a, c)
    decreases |a|
  {
    if a != [] && a[0] == b[0] == c[0] { LeqTrans(a[1..], b[1..], c[1..]); }
  }

  ghost predicate Sorted(s: seq<Bytes>) { forall i, j | 0 <= i < j < |s| :: Leq(s[i], s[j]) }

  function Insert(x: Bytes, s: seq<Bytes>): (r: seq<Bytes>)
    ensures multiset(r) == multiset(s) + multiset{x} && |r| == |s| + 1
  {
    if s == [] then [x]
    else if Leq(x, s[0]) then [x] + s
    else
      assert s == [s[0]] + s[1..];
      [s[0]] + Insert(x, s[1..])
  }

  /** The library's sort, as one way of sorting. */
  function Sort(s: seq<Bytes>): (r: seq<Bytes>)
    ensures multiset(r) == multiset(s) && |r| == |s|
  {
    if s == [] then []
    else
      assert s == s[..|s| - 1] + [s[|s| - 1]];
      Insert(s[|s| - 1], Sort(s[..|s| - 1]))
  }

  lemma SortedCons(x: Bytes, s: seq<Bytes>)
    requires Sorted(s) && forall y | y in multiset(s) :: Leq(x, y)
    ensures Sorted([x] + s)
  {
    forall j | 0 <= j < |s| ensures Leq(x, s[j]) { assert s[j] in multiset(s); }
  }

  lemma {:induction false} InsertSorts(x: Bytes, s: seq<Bytes>)
    requires Sorted(s)
    ensures Sorted(Insert(x, s))
    decreases |s|
  {
    if s != [] {
      if Leq(x, s[0]) {
        forall j | 0 <= j < |s| ensures Leq(x, s[j]) { if j > 0 { LeqTrans(x, s[0], s[j]); } }
      } else {
        var tail := s[1..];
        InsertSorts(x, tail);
        LeqTotal(x, s[0]);
        forall y | y in multiset(Insert(x, tail)) ensures Leq(s[0], y) {
          assert y == x || y in multiset(tail);
          assert y in multiset(tail) ==> y in tail;
        }
        SortedCons(s[0], Insert(x, tail));
      }
    }
  }

  lemma {:induction false} SortSorts(s: seq<Bytes>)
    ensures Sorted(Sort(s))
    decreases |s|
  {
    if s != [] {
      SortSorts(s[..|s| - 1]);
      InsertSorts(s[|s| - 1], Sort(s[..|s| - 1]));
    }
  }

  lemma SortedLeast(s: seq<Bytes>, y: Bytes)
    requires Sorted(s) && y in multiset(s)
    ensures s != [] && Leq(s[0], y)
  {
    assert y in s;
    LeqTotal(y, y);
  }

  lemma SortedTail(s: seq<Bytes>)
    requires Sorted(s) && s != []
    ensures Sorted(s[1..]) && multiset(s[1..]) == multiset(s) - multiset{s[0]}
  {
    assert s == [s[0]] + s[1..];
    assert multiset(s) == multiset{s[0]} + multiset(s[1..]);
    hide Leq;
  }

  lemma SortedHeads(s: seq<Bytes>, t: seq<Bytes>)
    requires Sorted(s) && Sorted(t) && multiset(s) == multiset(t) && s != []
    ensures t != [] && s[0] == t[0]
  {
    assert s[0] in multiset(s);
    SortedLeast(t, s[0]);
    assert t[0] in multiset(t);
    SortedLeast(s, t[0]);
    hide Leq, Sorted;
    LeqSame(s[0], t[0]);
  }

  /** There is one sorted arrangement, so which algorithm sorts does not matter. */
  lemma {:induction false} SortedOnce(s: seq<Bytes>, t: seq<Bytes>)
    requires Sorted(s) && Sorted(t) && multiset(s) == multiset(t)
    ensures s == t
    decreases |s|
  {
    hide Leq, Sorted;
    if s != [] {
      SortedHeads(s, t);
      SortedTail(s);
      SortedTail(t);
      SortedOnce(s[1..], t[1..]);
      assert s == [s[0]] + s[1..] && t == [t[0]] + t[1..];
    } else {
      assert |t| == |multiset(t)| == 0;
    }
  }

  // ----- the nonce

  /** "RH-VRF-DKG-V1" */
  const DOMAIN: Bytes := [82, 72, 45, 86, 82, 70, 45, 68, 75, 71, 45, 86, 49]

  function Encode(m: Member): Bytes
    requires m.public.Some?
  {
    BigEndian(m.index, 4) + m.public.value
  }

  predicate Marshals(ms: seq<Member>) { forall i | 0 <= i < |ms| :: ms[i].public.Some? }

  function Encodings(ms: seq<Member>): (es: seq<Bytes>)
    requires Marshals(ms)
    ensures |es| == |ms| && forall i | 0 <= i < |ms| :: es[i] == Encode(ms[i])
  {
    seq(|ms|, i requires 0 <= i < |ms| => Encode(ms[i]))
  }

  function Concat(s: seq<Bytes>): Bytes {
    if s == [] then [] else Concat(s[..|s| - 1]) + s[|s| - 1]
  }

  function Header(epoch: nat): Bytes { DOMAIN + BigEndian(epoch, 8) }

  /** What is hashed. */
  function Preimage(epoch: nat, ms: seq<Member>): Bytes
    requires Marshals(ms)
  {
    Header(epoch) + Concat(Sort(Encodings(ms)))
  }

  lemma MarshalsStep(ms: seq<Member>, i: nat)
    requires i < |ms| && Marshals(ms[..i])
    ensures if ms[i].public.None? then !Marshals(ms)
            else Marshals(ms[..i + 1]) && Encodings(ms[..i + 1]) == Encodings(ms[..i]) + [Encode(ms[i])]
  {
    hide Encode;
  }

  method EncodeMembers(members: seq<Member>) returns (encoded: Option<seq<Bytes>>)
    ensures encoded.Some? <==> Marshals(members)
    ensures encoded.Some? ==> encoded.value == Encodings(members)
  {
    var es: seq<Bytes> := [];
    for i := 0 to |members|
      invariant Marshals(members[..i]) && es == Encodings(members[..i])
    {
      hide Encode;
      MarshalsStep(members, i);
      if members[i].public.None? { return None; }
      es := es + [Encode(members[i])];
    }
    assert members[..|members|] == members;
    return Some(es);
  }

  /** The bytes written to the hash, piece by piece. */
  method Write(epoch: nat, encoded: seq<Bytes>) returns (written: Bytes)
    ensures written == Header(epoch) + Concat(encoded)
  {
    written := DOMAIN + BigEndian(epoch, 8);
    hide BigEndian;
    for i := 0 to |encoded|
      invariant written == Header(epoch) + Concat(encoded[..i])
    {
      assert encoded[..i + 1][..i] == encoded[..i];
      hide Header;
      written := written + encoded[i];
    }
    assert encoded[..|encoded|] == encoded;
  }

  method SessionNonce(hash: Bytes -> Bytes, epoch: nat, members: seq<Member>) returns (res: Option<Bytes>)
    ensures res == if Marshals(members) then Some(hash(Preimage(epoch, members))) else None
  {
    hide Marshals, Encodings, Sort, Header, Concat;
    var encoded := EncodeMembers(members);
    if encoded.None? { return None; }
    var written := Write(epoch, Sort(encoded.value));
    return Some(hash(written));
  }

  lemma EncodeOnce(a: Member, b: Member)
    requires Fits(a) && Fits(b)
    ensures Encode(a) == Encode(b) <==> a == b
  {
    if Encode(a) == Encode(b) {
      assert BigEndian(a.index, 4) == Encode(a)[..4] == Encode(b)[..4] == BigEndian(b.index, 4);
      assert a.public.value == Encode(a)[4..] == Encode(b)[4..] == b.public.value;
      BigEndianOnce(a.index, b.index, 4);
    }
  }

  lemma {:induction false} EncodingsCount(ms: seq<Member>, x: Member)
    requires AllFit(ms) && Fits(x)
    ensures multiset(Encodings(ms))[Encode(x)] == multiset(ms)[x]
    decreases |ms|
  {
    if ms != [] {
      var n := |ms| - 1;
      var init, last := ms[..n], ms[n];
      EncodingsCount(init, x);
      EncodeOnce(last, x);
      assert ms == init + [last];
      assert Encodings(ms) == Encodings(init) + [Encode(last)];
      hide Encode;
    }
  }

  lemma MembersByEncodings(a: seq<Member>, b: seq<Member>)
    requires AllFit(a) && AllFit(b)
    ensures multiset(Encodings(a)) == multiset(Encodings(b)) <==> multiset(a) == multiset(b)
  {
    if multiset(Encodings(a)) == multiset(Encodings(b)) {
      forall x ensures multiset(a)[x] == multiset(b)[x] { SameCount(a, b, x); }
    }
    if multiset(a) == multiset(b) {
      forall e ensures multiset(Encodings(a))[e] == multiset(Encodings(b))[e] {
        if e in Encodings(a) {
          var i :| 0 <= i < |a| && Encodings(a)[i] == e;
          EncodingsCount(a, a[i]);
          assert a[i] in multiset(b);
          EncodingsCount(b, a[i]);
        } else if e in Encodings(b) {
          var i :| 0 <= i < |b| && Encodings(b)[i] == e;
          EncodingsCount(b, b[i]);
          EncodingsCount(a, b[i]);
        }
      }
    }
  }

  lemma SameCount(a: seq<Member>, b: seq<Member>, x: Member)
    requires AllFit(a) && AllFit(b) && multiset(Encodings(a)) == multiset(Encodings(b))
    ensures multiset(a)[x] == multiset(b)[x]
  {
    assert x in a || x in b ==> Fits(x);
    if Fits(x) {
      EncodingsCount(a, x);
      EncodingsCount(b, x);
    }
  }

  /** Every entry has this length. */
  ghost predicate Wide(s: seq<Bytes>, width: nat) { forall e | e in multiset(s) :: |e| == width }

  lemma ConcatEnd(s: seq<Bytes>, width: nat)
    requires Wide(s, width) && s != []
    ensures var c, n := Concat(s), |s| - 1;
            && Wide(s[..n], width) && |c| >= width
            && c[..|c| - width] == Concat(s[..n]) && c[|c| - width..] == s[n]
  {
    var n := |s| - 1;
    assert s == s[..n] + [s[n]];
    assert s[n] in multiset(s);
  }

  lemma {:induction false} ConcatOnce(s: seq<Bytes>, t: seq<Bytes>, width: nat)
    requires Wide(s, width) && Wide(t, width) && width > 0 && Concat(s) == Concat(t)
    ensures s == t
    decreases |s|
  {
    if s != [] && t != [] {
      hide Wide, Concat;
      ConcatEnd(s, width);
      ConcatEnd(t, width);
      ConcatOnce(s[..|s| - 1], t[..|t| - 1], width);
      SplitLast(s);
      SplitLast(t);
    } else if s != [] {
      ConcatEnd(s, width);
    } else if t != [] {
      ConcatEnd(t, width);
    }
  }

  lemma SplitLast(s: seq<Bytes>)
    requires s != []
    ensures s == s[..|s| - 1] + [s[|s| - 1]]
  {}

  /** All keys marshal to the same number of bytes. */
  ghost predicate FixedKeys(ms: seq<Member>, length: nat) {
    forall i | 0 <= i < |ms| :: Fits(ms[i]) && |ms[i].public.value| == length
  }

  lemma EncodingsWide(ms: seq<Member>, length: nat)
    requires FixedKeys(ms, length)
    ensures Wide(Sort(Encodings(ms)), length + 4)
  {
    forall e | e in multiset(Sort(Encodings(ms))) ensures |e| == length + 4 {
      assert e in Encodings(ms);
    }
  }

  /** The hashed bytes do not depend on the order in which members are listed. */
  lemma AnyOrderSameBytes(epoch: nat, a: seq<Member>, b: seq<Member>)
    requires AllFit(a) && AllFit(b) && multiset(a) == multiset(b)
    ensures Preimage(epoch, a) == Preimage(epoch, b)
  {
    MembersByEncodings(a, b);
    SortSorts(Encodings(a));
    SortSorts(Encodings(b));
    SortedOnce(Sort(Encodings(a)), Sort(Encodings(b)));
  }

  /** With keys of one length, the bytes tell the epoch and the multiset of members, and nothing else. */
  lemma BytesTellCeremony(e: nat, a: seq<Member>, f: nat, b: seq<Member>, length: nat)
    requires FixedKeys(a, length) && FixedKeys(b, length) && e < Pow256(8) && f < Pow256(8)
    ensures Preimage(e, a) == Preimage(f, b) <==> e == f && multiset(a) == multiset(b)
  {
    if multiset(a) == multiset(b) { AnyOrderSameBytes(e, a, b); }
    if Preimage(e, a) == Preimage(f, b) {
      var x, y := Sort(Encodings(a)), Sort(Encodings(b));
      HeaderSplits(e, Concat(x), f, Concat(y));
      EncodingsWide(a, length);
      EncodingsWide(b, length);
      ConcatOnce(x, y, length + 4);
      MembersByEncodings(a, b);
    }
  }

  lemma HeaderSplits(e: nat, x: Bytes, f: nat, y: Bytes)
    requires Header(e) + x == Header(f) + y && e < Pow256(8) && f < Pow256(8)
    ensures e == f && x == y
  {
    var n := |DOMAIN| + 8;
    assert x == (Header(e) + x)[n..] && y == (Header(f) + y)[n..];
    assert BigEndian(e, 8) == (Header(e) + x)[|DOMAIN|..n] && BigEndian(f, 8) == (Header(f) + y)[|DOMAIN|..n];
    BigEndianOnce(e, f, 8);
  }

  // ----- who takes part

  predicate HasIndex(ms: seq<Member>, index: nat) { exists i | 0 <= i < |ms| :: ms[i].index == index }

  /** Old share holders first, then every newcomer whose index is not listed yet. */
  function Union(before: seq<Member>, next: seq<Member>): seq<Member> {
    if next == [] then before
    else
      var out := Union(before, next[..|next| - 1]);
      if HasIndex(out, next[|next| - 1].index) then out else out + [next[|next| - 1]]
  }

  method ContainsMember(members: seq<Member>, index: nat) returns (found: bool)
    ensures found == HasIndex(members, index)
  {
    for i := 0 to |members|
      invariant !HasIndex(members[..i], index)
    {
      if members[i].index == index { return true; }
    }
    return false;
  }

  datatype Share = Share(member: Member, secret: int)

  function MembersOf(shares: seq<Share>): (ms: seq<Member>)
    ensures |ms| == |shares| && forall i | 0 <= i < |ms| :: ms[i] == shares[i].member
  {
    seq(|shares|, i requires 0 <= i < |shares| => shares[i].member)
  }

  /** union of node/internal/dkg/dkg.go. */
  method LocalUnion(shares: seq<Share>, members: seq<Member>) returns (out: seq<Member>)
    ensures out == Union(MembersOf(shares), members)
  {
    out := MembersOf(shares);
    for i := 0 to |members|
      invariant out == Union(MembersOf(shares), members[..i])
    {
      assert members[..i + 1][..i] == members[..i];
      var listed := ContainsMember(out, members[i].index);
      if !listed { out := out + [members[i]]; }
    }
    assert members[..|members|] == members;
  }

  /** union of node/internal/dkgnet/run.go. */
  method NetworkUnion(before: seq<Member>, next: seq<Member>) returns (out: seq<Member>)
    ensures out == Union(before, next)
  {
    out := before;
    for i := 0 to |next|
      invariant out == Union(before, next[..i])
    {
      assert next[..i + 1][..i] == next[..i];
      var found := false;
      for j := 0 to |out|
        invariant !found && !HasIndex(out[..j], next[i].index)
      {
        if out[j].index == next[i].index { found := true; break; }
      }
      assert found == HasIndex(out, next[i].index);
      if !found { out := out + [next[i]]; }
    }
    assert next[..|next|] == next;
  }

  /** An index stands for one member. */
  ghost predicate Consistent(ms: seq<Member>) {
    forall i, j | 0 <= i < |ms| && 0 <= j < |ms| && ms[i].index == ms[j].index :: ms[i] == ms[j]
  }

  /**
   How often each member takes part: as often as among the old, and once more as a newcomer with an
   index of its own.  An operator listed anew under an old index, with a new key, is not added.
   */
  lemma {:induction false} UnionCount(before: seq<Member>, next: seq<Member>, x: Member)
    requires Consistent(next)
    ensures multiset(Union(before, next))[x] == multiset(before)[x] + (if x in next && !HasIndex(before, x.index) then 1 else 0)
    decreases |next|
  {
    if next != [] {
      var n := |next| - 1;
      var init, last := next[..n], next[n];
      assert next == init + [last];
      assert forall i | 0 <= i < n :: init[i] == next[i];
      UnionCount(before, init, x);
      UnionCovers(before, init, last.index);
      if HasIndex(init, last.index) {
        var i :| 0 <= i < n && init[i].index == last.index;
        assert next[i] == last;
      } else {
        assert last !in init;
      }
      hide Consistent;
    }
  }

  lemma ConsistentSame(ms: seq<Member>, a: Member, b: Member)
    requires Consistent(ms) && a in ms && b in ms && a.index == b.index
    ensures a == b
  {}

  /** Nobody is left out and no newcomer is listed twice. */
  lemma {:induction false} UnionCovers(before: seq<Member>, next: seq<Member>, index: nat)
    ensures HasIndex(Union(before, next), index) <==> HasIndex(before, index) || HasIndex(next, index)
    ensures before <= Union(before, next)
    decreases |next|
  {
    if next != [] {
      var n := |next| - 1;
      var out := Union(before, next[..n]);
      UnionCovers(before, next[..n], index);
      assert HasIndex(next, index) <==> HasIndex(next[..n], index) || next[n].index == index by {
        HasIndexSnoc(next[..n], next[n], index);
        assert next == next[..n] + [next[n]];
      }
      HasIndexSnoc(out, next[n], index);
    }
  }

  lemma HasIndexSnoc(ms: seq<Member>, m: Member, index: nat)
    ensures HasIndex(ms + [m], index) <==> HasIndex(ms, index) || m.index == index
  {
    var all := ms + [m];
    assert forall i | 0 <= i < |ms| :: all[i] == ms[i];
    assert all[|ms|] == m;
  }

  // ----- one nonce for everyone

  /** The members a networked participant binds its nonce to. */
  method NonceMembers(oldMembers: seq<Member>, members: seq<Member>) returns (chosen: seq<Member>)
    ensures chosen == if oldMembers == [] then members else Union(oldMembers, members)
  {
    chosen := members;
    if |oldMembers| > 0 { chosen := NetworkUnion(oldMembers, members); }
  }

  /**
   Participants of one resharing that list the same members, in whatever order, arrive at the same
   bytes; so does a local resharing of the same shares.  Members may keep an index under a new key.
   */
  lemma OneNonce(epoch: nat, shares: seq<Share>, members: seq<Member>, oldMembers: seq<Member>, listed: seq<Member>)
    requires AllFit(MembersOf(shares) + members) && AllFit(oldMembers + listed) && Consistent(members)
    requires multiset(MembersOf(shares)) == multiset(oldMembers) && multiset(members) == multiset(listed)
    ensures AllFit(Union(MembersOf(shares), members)) && AllFit(Union(oldMembers, listed))
    ensures Preimage(epoch, Union(MembersOf(shares), members)) == Preimage(epoch, Union(oldMembers, listed))
  {
    var before := MembersOf(shares);
    UnionPermutes(before, members, oldMembers, listed);
    UnionFits(before, members);
    UnionFits(oldMembers, listed);
    hide AllFit, Preimage, Union;
    AnyOrderSameBytes(epoch, Union(before, members), Union(oldMembers, listed));
  }

  /** Listing either part in another order lists the same participants. */
  lemma UnionPermutes(before: seq<Member>, members: seq<Member>, oldMembers: seq<Member>, listed: seq<Member>)
    requires Consistent(members) && multiset(before) == multiset(oldMembers) && multiset(members) == multiset(listed)
    ensures multiset(Union(before, members)) == multiset(Union(oldMembers, listed))
  {
    SamePool(before, oldMembers);
    SamePool(members, listed);
    forall i, j | 0 <= i < |listed| && 0 <= j < |listed| && listed[i].index == listed[j].index
      ensures listed[i] == listed[j]
    {
      assert listed[i] in members && listed[j] in members;
      ConsistentSame(members, listed[i], listed[j]);
    }
    forall x ensures multiset(Union(before, members))[x] == multiset(Union(oldMembers, listed))[x] {
      SameIndices(before, oldMembers, x.index);
      SameIndices(oldMembers, before, x.index);
      UnionCount(before, members, x);
      UnionCount(oldMembers, listed, x);
    }
  }

  lemma SameIndices(a: seq<Member>, b: seq<Member>, index: nat)
    requires forall x :: x in a ==> x in b
    ensures HasIndex(a, index) ==> HasIndex(b, index)
  {
    if HasIndex(a, index) {
      var i :| 0 <= i < |a| && a[i].index == index;
      assert a[i] in b;
    }
  }

  lemma SamePool(a: seq<Member>, b: seq<Member>)
    requires multiset(a) == multiset(b)
    ensures forall x :: x in a <==> x in b
  {
    forall x ensures x in a <==> x in b {
      assert x in a <==> x in multiset(a);
      assert x in b <==> x in multiset(b);
    }
  }

  lemma {:induction false} UnionFits(before: seq<Member>, next: seq<Member>)
    requires AllFit(before + next)
    ensures AllFit(Union(before, next))
    decreases |next|
  {
    if next == [] {
      assert before + next == before;
    } else {
      var n := |next| - 1;
      assert before + next == (before + next[..n]) + [next[n]];
      assert forall i | 0 <= i < |before + next[..n]| :: (before + next[..n])[i] == (before + next)[i];
      assert (before + next)[|before| + n] == next[n];
      UnionFits(before, next[..n]);
    }
  }
}
