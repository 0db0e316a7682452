/** What fulfillBatch has checked when it begins to settle: the first loop of src/VRFCoordinator.sol:434-447. */
module BatchChecks {
  import opened Verifier
  import opened Coordinator
  import opened Reentrancy

  ghost predicate Ascending(ids: seq<RequestId>) {
    forall i, j | 0 <= i < j < |ids| :: ids[i] < ids[j]
  }

  /** What the first loop accepts: strictly ascending ids, hence no id twice, all of them open. */
  lemma {:induction false} AcceptedIds(env: Env, w: World, ids: seq<RequestId>)
    requires BatchSeeds(env, w, ids).Ok?
    ensures Ascending(ids)
    ensures forall id | id in ids :: id in w.tickets && Open(w.tickets[id].req)
    ensures |BatchSeeds(env, w, ids).value| == |ids|
    ensures forall k | 0 <= k < |ids| :: BatchSeeds(env, w, ids).value[k] == SeedOf(env, w, ids[k])
    decreases ids
  {
    if ids != [] {
      var n := |ids| - 1;
      BatchStep(env, w, ids);
      hide BatchSeeds, SeedOf, Ascending, Open;
      AcceptedIds(env, w, ids[..n]);
      AscendingGrows(ids);
      assert forall id | id in ids :: id in ids[..n] || id == ids[n];
      assert forall k | 0 <= k < n :: ids[..n][k] == ids[k];
    }
  }

  lemma AscendingGrows(ids: seq<RequestId>)
    requires ids != [] && Ascending(ids[..|ids| - 1]) && (|ids| > 1 ==> ids[|ids| - 2] < ids[|ids| - 1])
    ensures Ascending(ids)
  {
    var n := |ids| - 1;
    forall i, j | 0 <= i < j < |ids| ensures ids[i] < ids[j] {
      if j == n {
        assert ids[..n][i] <= ids[..n][n - 1];
      } else {
        assert ids[..n][i] < ids[..n][j];
      }
    }
  }

  lemma BatchStep(env: Env, w: World, ids: seq<RequestId>)
    requires ids != [] && BatchSeeds(env, w, ids).Ok?
    ensures var n := |ids| - 1;
      && BatchSeeds(env, w, ids[..n]).Ok? && (n > 0 ==> ids[n - 1] < ids[n])
      && ids[n] in w.tickets && Open(w.tickets[ids[n]].req)
      && BatchSeeds(env, w, ids).value == BatchSeeds(env, w, ids[..n]).value + [SeedOf(env, w, ids[n])]
  {}

  /** ... and nothing else is accepted: the first loop refuses exactly the other lists. */
  lemma {:induction false} AcceptsIds(env: Env, w: World, ids: seq<RequestId>)
    requires Ascending(ids) && forall id | id in ids :: id in w.tickets && Open(w.tickets[id].req)
    ensures BatchSeeds(env, w, ids).Ok?
    decreases ids
  {
    if ids != [] {
      var n := |ids| - 1;
      assert forall id | id in ids[..n] :: id in ids;
      AcceptsIds(env, w, ids[..n]);
      assert ids[n] in ids;
    }
  }

  /** Every member is known and its callback's whole budget is in hand. */
  ghost predicate Covered(w: World, ids: seq<RequestId>, gas: nat) {
    forall id | id in ids :: id in w.tickets && GasNeeded(w.tickets[id].req.callbackGasLimit) <= gas
  }

  lemma {:induction false} GasCovers(env: Env, w: World, ids: seq<RequestId>, gas: nat)
    requires BatchSeeds(env, w, ids).Ok? && gas >= BatchGas(w, ids)
    ensures Covered(w, ids, gas)
    decreases ids
  {
    if ids != [] {
      var n := |ids| - 1;
      GasCovers(env, w, ids[..n], gas);
      assert forall id | id in ids :: id in ids[..n] || id == ids[n];
    }
  }

  lemma BatchCovered(env: Env, w: World, gas: nat, members: Members, signature: Signature)
    requires CheckBatch(env, w, gas, Ids(members), signature).None?
    ensures Covered(w, Ids(members), gas)
  {
    GasCovers(env, w, Ids(members), gas);
  }
}
