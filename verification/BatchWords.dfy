/**
 The words a batch hands its members.  They are made of the batch's one signature, so whether a member
 gets the words of its own signature depends on what else is in the batch.
 */
module BatchWords {
  import ModArith
  import opened Verifier
  import opened Coordinator
  import opened Reentrancy
  import opened Invariants
  import opened BatchChecks
  import opened Always

  /** Different signatures hash differently, and so do the words made of them. */
  ghost predicate HashesDiffer(env: Env) {
    && (forall s: Signature, t: Signature :: env.signatureHash(s) == env.signatureHash(t) ==> s == t)
    && (forall x: nat, y: nat, id: RequestId, i: nat :: env.wordHash(x, id, i) == env.wordHash(y, id, i) ==> x == y)
  }

  lemma SameWordsIff(env: Env, w: World, id: RequestId, s: Signature, t: Signature)
    requires HashesDiffer(env) && id in w.tickets && w.tickets[id].req.numWords > 0
    ensures CarriedWords(env, w, id, s) == CarriedWords(env, w, id, t) <==> s == t
  {
    var a, b := CarriedWords(env, w, id, s), CarriedWords(env, w, id, t);
    if a == b { assert a[0] == b[0]; }
  }

  /**
   A member of an accepted batch is handed the words that fulfilling it singly, or retrying it, would
   hand over exactly when the hashed seeds of the batch sum to its own, so those of the others to zero.
   */
  lemma BatchWordsIff(env: Env, w: World, gas: nat, ids: seq<RequestId>, signature: Signature, k: nat)
    requires Premises(env) && NamesOk(env, w) && HashesDiffer(env) && k < |ids|
    requires CheckBatch(env, w, gas, ids, signature).None?
    ensures ids[k] in w.tickets
    ensures var v := env.verifier;
      (CarriedWords(env, w, ids[k], signature) == ExpectedWords(env, w, ids[k])) <==>
      ModArith.Cong(v.suite.r, v.HashSum(BatchSeeds(env, w, ids).value), v.suite.HashSeedToPoint(SeedOf(env, w, ids[k])))
  {
    var seeds := BatchSeeds(env, w, ids);
    assert seeds.Ok? && env.verifier.AcceptsBatch(seeds.value, signature);
    AcceptedIds(env, w, ids);
    assert ids[k] in ids;
    hide HashesDiffer, VRFVerifier.AcceptsBatch, BatchSeeds, CheckBatch;
    HasWords(env, w, ids[k]);
    hide NamesOk, CarriedWords;
    var own := env.verifier.Encode(env.verifier.suite.Sign(env.verifier.pk, SeedOf(env, w, ids[k])));
    SameWordsIff(env, w, ids[k], signature, own);
    env.verifier.SameSignatureIff(seeds.value, SeedOf(env, w, ids[k]), signature);
  }

  lemma HasWords(env: Env, w: World, id: RequestId)
    requires NamesOk(env, w) && id in w.tickets
    ensures w.tickets[id].req.numWords > 0
  {
    assert IdOk(env, w.nonces, id, w.tickets[id]);
  }

  /** A batch of one carries the request's own words. */
  lemma BatchOfOneWords(env: Env, w: World, gas: nat, id: RequestId, signature: Signature)
    requires Premises(env) && CheckBatch(env, w, gas, [id], signature).None?
    ensures id in w.tickets && CarriedWords(env, w, id, signature) == ExpectedWords(env, w, id)
  {
    AcceptedIds(env, w, [id]);
    var seeds := BatchSeeds(env, w, [id]).value;
    assert seeds == [SeedOf(env, w, id)] && id in [id];
    hide BatchSeeds, CarriedWords;
    env.verifier.BatchOfOne(seeds[0], signature);
    env.verifier.VerifyAccepts(seeds[0], signature);
  }

  /** Of two members the second carries its own words only if the first one's seed hashes to infinity. */
  lemma TwoMembersWords(env: Env, w: World, gas: nat, a: RequestId, b: RequestId, signature: Signature)
    requires Premises(env) && NamesOk(env, w) && HashesDiffer(env)
    requires CheckBatch(env, w, gas, [a, b], signature).None?
    ensures a in w.tickets && b in w.tickets
    ensures (CarriedWords(env, w, b, signature) == ExpectedWords(env, w, b)) <==>
      env.verifier.suite.HashSeedToPoint(SeedOf(env, w, a)) == 0
  {
    var ids := [a, b];
    AcceptedIds(env, w, ids);
    assert a == ids[0] && b == ids[1] && a in ids && b in ids;
    var seeds := BatchSeeds(env, w, ids).value;
    assert seeds[0] == SeedOf(env, w, ids[0]) && seeds[1] == SeedOf(env, w, ids[1]);
    assert seeds == [seeds[0], seeds[1]];
    hide NamesOk, Premises, HashesDiffer, CarriedWords, BatchSeeds, CheckBatch, ExpectedWords;
    BatchWordsIff(env, w, gas, ids, signature, 1);
    env.verifier.TwoSum(seeds[0], seeds[1]);
  }
}
