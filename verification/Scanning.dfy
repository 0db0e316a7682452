/** Reading the log stream: chunkRange, eventsBetween and Watch of node/internal/chain/chain.go. */
module Scanning {
  import opened Common

  /** A request as announced by the coordinator's event. */
  datatype Request = Request(id: nat, consumer: nat, seed: nat, callbackGasLimit: nat)

  /** One log of the coordinator, as the decoder sees it. */
  datatype Log = NoTopics | Requested(request: Request) | Undecodable | Fulfilled(id: Option<nat>) | Other

  /** The logs of each block. */
  type Chain = nat -> seq<Log>

  const TWO64 := 0x1_0000_0000_0000_0000

  /** Arithmetic on uint64 wraps around. */
  function Wrap(x: int): nat { x % TWO64 }

  lemma WrapSmall(x: int)
    requires 0 <= x < TWO64
    ensures Wrap(x) == x
  {}

  // ----- splitting a range

  datatype Span = Span(first: nat, last: nat)

  /** Consecutive spans of one to `max` blocks that cover [from, to], each block once. */
  ghost predicate Partition(spans: seq<Span>, from: nat, to: int, max: nat) {
    && (if spans == [] then to == from - 1 else spans[0].first == from && spans[|spans| - 1].last == to)
    && (forall k | 0 <= k < |spans| :: spans[k].first <= spans[k].last < spans[k].first + max)
    && (forall k | 0 < k < |spans| :: spans[k].first == spans[k - 1].last + 1)
  }

  /** Where the last span starts. */
  function LastStart(from: nat, to: nat, max: nat): (s: nat)
    requires from <= to && max > 0
    ensures from <= s <= to < s + max
    decreases if from <= to then to - from else 0
  {
    if to - from < max then from else LastStart(from + max, to, max)
  }

  /** How many calls of at most `max` blocks a range takes; 0 stands for no limit. */
  function Calls(from: nat, to: nat, max: nat): (n: nat)
    requires from <= to
    decreases if from <= to then to - from else 0
  {
    if max == 0 || to - from < max then 1 else 1 + Calls(from + max, to, max)
  }

  predicate InOneCall(from: nat, to: nat, max: nat) {
    max == 0 || to < from || Wrap(to - from + 1) <= max
  }

  /** The loop's step past the last span does not wrap. */
  predicate SpansFit(from: nat, to: nat, max: nat) {
    InOneCall(from, to, max) || LastStart(from, to, max) + max < TWO64
  }

  function Prepend(first: Span, rest: Option<seq<Span>>): Option<seq<Span>> {
    if rest.Some? then Some([first] + rest.value) else None
  }

  /** The loop variable's next value, and where the span from `start` ends; both wrap around. */
  function Next(start: nat, max: nat): nat { Wrap(start + max) }

  function EndOf(start: nat, to: nat, max: nat): nat {
    var end := Wrap(Next(start, max) - 1);
    if end > to then to else end
  }

  lemma NextFits(start: nat, to: nat, max: nat)
    requires start + max < TWO64 && max > 0
    ensures Next(start, max) == start + max
    ensures EndOf(start, to, max) == if start + max - 1 > to then to else start + max - 1
  {
    WrapSmall(start + max);
    WrapSmall(start + max - 1);
    hide Wrap;
  }

  lemma NextWraps(start: nat, to: nat, max: nat)
    requires start <= to < TWO64 <= start + max && max < TWO64
    ensures Next(start, max) == start + max - TWO64 < start
    ensures EndOf(start, to, max) == to || EndOf(start, to, max) + 1 == Next(start, max)
  {
    assert Wrap(start + max) == start + max - TWO64;
    if start + max > TWO64 { WrapSmall(start + max - TWO64 - 1); } else { assert Wrap(0 - 1) == TWO64 - 1; }
    hide Wrap;
  }

  /** The loop's spans from `start` on, if it ends within `turns`; the loop variable wraps around. */
  function LoopSpans(start: nat, to: nat, max: nat, turns: nat): Option<seq<Span>>
    decreases turns
  {
    if start > to then Some([])
    else if turns == 0 then None
    else Prepend(Span(start, EndOf(start, to, max)), LoopSpans(Next(start, max), to, max, turns - 1))
  }

  lemma PartitionPrepend(first: Span, rest: seq<Span>, to: nat, max: nat)
    requires first.first <= first.last < first.first + max && Partition(rest, first.last + 1, to, max)
    ensures Partition([first] + rest, first.first, to, max)
  {
    var all := [first] + rest;
    assert forall k | 0 < k < |all| :: all[k] == rest[k - 1];
  }

  lemma LoopHere(start: nat, to: nat, max: nat, turns: nat)
    requires start <= to && turns > 0 && start + max < TWO64 && max > 0
    ensures LoopSpans(start, to, max, turns)
      == Prepend(Span(start, if start + max - 1 > to then to else start + max - 1),
                 LoopSpans(start + max, to, max, turns - 1))
  {
    NextFits(start, to, max);
    hide Next, EndOf;
  }

  lemma {:induction false} LoopCovers(start: nat, to: nat, max: nat)
    requires start <= to < TWO64 && 0 < max < TWO64 && LastStart(start, to, max) + max < TWO64
    ensures var spans := LoopSpans(start, to, max, Calls(start, to, max));
            spans.Some? && spans.value != [] && |spans.value| == Calls(start, to, max)
            && Partition(spans.value, start, to, max)
    decreases if start <= to then to - start else 0
  {
    LoopHere(start, to, max, Calls(start, to, max));
    if to - start < max {
      LoopDone([], start + max, to, max, 0);
      LastSpan(start, to, max);
      hide Partition, LoopSpans, LastStart;
    } else {
      hide Partition, LoopSpans;
      LoopCovers(start + max, to, max);
      PartitionPrepend(Span(start, start + max - 1),
        LoopSpans(start + max, to, max, Calls(start + max, to, max)).value, to, max);
    }
  }

  lemma LastSpan(start: nat, to: nat, max: nat)
    requires start <= to < start + max
    ensures Partition([Span(start, to)] + [], start, to, max)
  {}

  /** A span that runs backwards, or one that does not start where the last ended. */
  ghost predicate Broken(spans: seq<Span>) {
    exists k | 0 <= k < |spans| ::
      spans[k].first > spans[k].last || (k > 0 && spans[k].first != spans[k - 1].last + 1)
  }

  lemma BrokenPrepend(first: Span, rest: seq<Span>)
    requires Broken(rest)
    ensures Broken([first] + rest)
  {
    var k :| 0 <= k < |rest| && (rest[k].first > rest[k].last || (k > 0 && rest[k].first != rest[k - 1].last + 1));
    var all := [first] + rest;
    assert all[k + 1] == rest[k] && (k > 0 ==> all[k] == rest[k - 1]);
  }

  /** Once the loop variable wraps around, the spans no longer cover the range in order. */
  lemma {:induction false} WrapBreaks(start: nat, to: nat, max: nat, turns: nat)
    requires start <= to < TWO64 && 0 < max < TWO64 && LastStart(start, to, max) + max >= TWO64
    ensures LoopSpans(start, to, max, turns).Some? ==> Broken(LoopSpans(start, to, max, turns).value)
    decreases turns
  {
    if turns > 0 && LoopSpans(start, to, max, turns).Some? {
      var next := Next(start, max);
      var rest := LoopSpans(next, to, max, turns - 1).value;
      var spans := LoopSpans(start, to, max, turns).value;
      assert spans[1..] == rest && spans[0] == Span(start, EndOf(start, to, max));
      if to - start < max {
        NextWraps(start, to, max);
        hide Next, EndOf;
        assert rest != [] && rest[0].first == next == spans[1].first;
        assert spans[0].first > spans[0].last || spans[1].first != spans[0].last + 1;
      } else {
        NextFits(start, to, max);
        hide Next, EndOf;
        WrapBreaks(start + max, to, max, turns - 1);
        BrokenPrepend(spans[0], rest);
        assert spans == [spans[0]] + rest;
      }
    }
  }

  /**
   The loop covers the range, each block once, if and only if its step past the last span does not
   wrap around; a caller can tell beforehand.  Otherwise it never ends, or its spans are broken.
   */
  lemma CoversIff(from: nat, to: nat, max: nat)
    requires from <= to < TWO64 && 0 < max < TWO64
    ensures LastStart(from, to, max) + max < TWO64 <==>
            exists turns: nat :: Covered(LoopSpans(from, to, max, turns), from, to, max)
  {
    if LastStart(from, to, max) + max < TWO64 {
      LoopCovers(from, to, max);
      assert Covered(LoopSpans(from, to, max, Calls(from, to, max)), from, to, max);
    } else {
      forall turns: nat ensures !Covered(LoopSpans(from, to, max, turns), from, to, max) {
        WrapBreaks(from, to, max, turns);
      }
    }
  }

  ghost predicate Covered(spans: Option<seq<Span>>, from: nat, to: nat, max: nat) {
    spans.Some? && Partition(spans.value, from, to, max)
  }

  /** From block 1 to the last there is, in two spans: the loop comes back to where it started. */
  lemma {:induction false} NeverEnds(turns: nat)
    ensures LoopSpans(1, TWO64 - 1, TWO64 / 2, turns).None?
    ensures LoopSpans(1 + TWO64 / 2, TWO64 - 1, TWO64 / 2, turns).None?
    decreases turns
  {
    if turns > 0 {
      assert Next(1, TWO64 / 2) == 1 + TWO64 / 2 && Next(1 + TWO64 / 2, TWO64 / 2) == 1;
      NeverEnds(turns - 1);
    }
  }

  /** One turn of the loop. */
  lemma LoopTurn(out: seq<Span>, start: nat, to: nat, max: nat, turns: nat)
    requires start <= to && LoopSpans(start, to, max, turns).Some?
    ensures turns > 0
    ensures var rest := LoopSpans(Next(start, max), to, max, turns - 1);
            rest.Some? && out + LoopSpans(start, to, max, turns).value
              == (out + [Span(start, EndOf(start, to, max))]) + rest.value
  {
    hide Next, EndOf;
  }

  lemma LoopDone(out: seq<Span>, start: nat, to: nat, max: nat, turns: nat)
    requires start > to
    ensures LoopSpans(start, to, max, turns) == Some([]) && out + [] == out
  {}

  /** How many spans there are, and how wide one may be. */
  function Turns(from: nat, to: nat, max: nat): nat
    requires from <= to
  {
    if InOneCall(from, to, max) then 1 else Calls(from, to, max)
  }

  function Width(from: nat, to: nat, max: nat): nat
    requires from <= to
  {
    if InOneCall(from, to, max) then to - from + 1 else max
  }

  lemma WholeLoop(from: nat, to: nat, max: nat)
    requires from <= to < TWO64 && max < TWO64 && SpansFit(from, to, max) && !InOneCall(from, to, max)
    ensures var spans := LoopSpans(from, to, max, Turns(from, to, max));
            && spans.Some? && spans.value != [] && |spans.value| == Turns(from, to, max)
            && Partition(spans.value, from, to, Width(from, to, max))
            && [] + spans.value == spans.value
  {
    LoopCovers(from, to, max);
    hide Partition, LoopSpans, Calls, LastStart;
  }

  method ChunkRange(from: nat, to: nat, max: nat) returns (out: seq<Span>)
    requires from < TWO64 && to < TWO64 && max < TWO64 && SpansFit(from, to, max)
    ensures InOneCall(from, to, max) ==> out == [Span(from, to)]
    ensures from <= to ==> |out| == Turns(from, to, max) && Partition(out, from, to, Width(from, to, max))
    ensures !InOneCall(from, to, max) ==> LoopSpans(from, to, max, Turns(from, to, max)) == Some(out)
    ensures from <= to ==> (WithinLimit(out, max) <==> max == 0 || to - from + 1 < TWO64)
  {
    if max == 0 || to < from || Wrap(to - from + 1) <= max { return [Span(from, to)]; }
    assert from <= to && !InOneCall(from, to, max);
    WholeLoop(from, to, max);
    hide *;
    out := [];
    var start: nat := from;
    ghost var left: nat := Turns(from, to, max);
    while start <= to
      invariant LoopSpans(start, to, max, left).Some?
      invariant LoopSpans(from, to, max, Turns(from, to, max)) == Some(out + LoopSpans(start, to, max, left).value)
      decreases left
    {
      LoopTurn(out, start, to, max, left);
      NextIs(start, to, max);
      var end := Wrap(Wrap(start + max) - 1);
      if end > to { end := to; }
      out := out + [Span(start, end)];
      start := Wrap(start + max);
      left := left - 1;
    }
    LoopDone(out, start, to, max, left);
  }

  /** No call asks for more blocks than the limit, if there is one. */
  ghost predicate WithinLimit(spans: seq<Span>, max: nat) {
    max == 0 || forall k | 0 <= k < |spans| :: spans[k].last - spans[k].first < max
  }

  lemma NextIs(start: nat, to: nat, max: nat)
    ensures Next(start, max) == Wrap(start + max)
    ensures EndOf(start, to, max) == var end := Wrap(Wrap(start + max) - 1); if end > to then to else end
  {
    hide Wrap;
  }

  // ----- what a range holds

  /** The logs of `count` blocks from `from` on, in order. */
  function Logs(chain: Chain, from: nat, count: nat): seq<Log>
    decreases count
  {
    if count == 0 then [] else Logs(chain, from, count - 1) + chain(from + count - 1)
  }

  function LogsBetween(chain: Chain, from: nat, to: int): seq<Log> {
    if from <= to then Logs(chain, from, to - from + 1) else []
  }

  function RequestsIn(logs: seq<Log>): seq<Request> {
    if logs == [] then []
    else
      var n := |logs| - 1;
      if logs[n].Requested? then RequestsIn(logs[..n]) + [logs[n].request] else RequestsIn(logs[..n])
  }

  function SettledIn(logs: seq<Log>): seq<nat> {
    if logs == [] then []
    else
      var n := |logs| - 1;
      if logs[n].Fulfilled? && logs[n].id.Some? then SettledIn(logs[..n]) + [logs[n].id.value] else SettledIn(logs[..n])
  }

  lemma {:induction false} LogsJoin(chain: Chain, from: nat, a: nat, b: nat)
    ensures Logs(chain, from, a + b) == Logs(chain, from, a) + Logs(chain, from + a, b)
    decreases b
  {
    if b > 0 {
      LogsJoin(chain, from, a, b - 1);
      assert from + (a + b) - 1 == from + a + b - 1;
    }
  }

  lemma {:induction false} RequestsJoin(a: seq<Log>, b: seq<Log>)
    ensures RequestsIn(a + b) == RequestsIn(a) + RequestsIn(b)
    ensures SettledIn(a + b) == SettledIn(a) + SettledIn(b)
    decreases |b|
  {
    if b == [] {
      assert a + b == a;
    } else {
      var n := |b| - 1;
      assert (a + b)[..|a + b| - 1] == a + b[..n];
      RequestsJoin(a, b[..n]);
    }
  }

  /** Each log of each block is among them, as often as the block holds it. */
  function Logged(chain: Chain, from: nat, count: nat, log: Log): nat
    decreases count
  {
    if count == 0 then 0 else Logged(chain, from, count - 1, log) + multiset(chain(from + count - 1))[log]
  }

  lemma {:induction false} LogsCount(chain: Chain, from: nat, count: nat, log: Log)
    ensures multiset(Logs(chain, from, count))[log] == Logged(chain, from, count, log)
    decreases count
  {
    if count > 0 { LogsCount(chain, from, count - 1, log); }
  }

  /** ... and where its block puts it: after all earlier blocks, in the block's own order. */
  lemma LogsInPlace(chain: Chain, from: nat, count: nat, k: nat)
    requires k < count
    ensures var before, block := |Logs(chain, from, k)|, chain(from + k);
      before + |block| <= |Logs(chain, from, count)| && Logs(chain, from, count)[before..before + |block|] == block
  {
    hide *;
    LogsJoin(chain, from, k, count - k);
    LogsJoin(chain, from + k, 1, count - k - 1);
    OneBlock(chain, from + k);
    var before, block, rest := Logs(chain, from, k), chain(from + k), Logs(chain, from + k + 1, count - k - 1);
    assert Logs(chain, from, count) == before + (block + rest);
    Middle(before, block, rest);
  }

  lemma OneBlock(chain: Chain, b: nat)
    ensures Logs(chain, b, 1) == chain(b)
  {
    assert Logs(chain, b, 0) == [];
  }

  lemma Middle(a: seq<Log>, b: seq<Log>, c: seq<Log>)
    ensures (a + (b + c))[|a|..|a| + |b|] == b
  {}

  /** The requests of some logs are those logged, each as often as it was; likewise the ids settled. */
  lemma {:induction false} RequestsCount(logs: seq<Log>, request: Request, id: nat)
    ensures multiset(RequestsIn(logs))[request] == multiset(logs)[Requested(request)]
    ensures multiset(SettledIn(logs))[id] == multiset(logs)[Fulfilled(Some(id))]
    decreases logs
  {
    if logs != [] {
      RequestsCount(logs[..|logs| - 1], request, id);
      assert logs == logs[..|logs| - 1] + [logs[|logs| - 1]];
    }
  }

  /** Where in the logs each of them comes from. */
  ghost function RequestPlaces(logs: seq<Log>): seq<nat> {
    if logs == [] then []
    else
      var n := |logs| - 1;
      if logs[n].Requested? then RequestPlaces(logs[..n]) + [n] else RequestPlaces(logs[..n])
  }

  ghost function SettledPlaces(logs: seq<Log>): seq<nat> {
    if logs == [] then []
    else
      var n := |logs| - 1;
      if logs[n].Fulfilled? && logs[n].id.Some? then SettledPlaces(logs[..n]) + [n] else SettledPlaces(logs[..n])
  }

  ghost predicate Ascending(places: seq<nat>, below: nat) {
    (forall k | 0 <= k < |places| :: places[k] < below) && (forall i, j | 0 <= i < j < |places| :: places[i] < places[j])
  }

  lemma {:induction false} RequestsAt(logs: seq<Log>)
    ensures |RequestPlaces(logs)| == |RequestsIn(logs)| && Ascending(RequestPlaces(logs), |logs|)
    ensures forall k | 0 <= k < |RequestsIn(logs)| :: logs[RequestPlaces(logs)[k]] == Requested(RequestsIn(logs)[k])
    decreases logs
  {
    if logs != [] { RequestsAt(logs[..|logs| - 1]); }
  }

  lemma {:induction false} SettledAt(logs: seq<Log>)
    ensures |SettledPlaces(logs)| == |SettledIn(logs)| && Ascending(SettledPlaces(logs), |logs|)
    ensures forall k | 0 <= k < |SettledIn(logs)| :: logs[SettledPlaces(logs)[k]] == Fulfilled(Some(SettledIn(logs)[k]))
    decreases logs
  {
    if logs != [] { SettledAt(logs[..|logs| - 1]); }
  }

  /** What a scan of these logs reads: every request and every settled id, as often as logged and in that order. */
  ghost predicate Reads(logs: seq<Log>, requests: seq<Request>, settled: seq<nat>) {
    && (forall r: Request :: multiset(requests)[r] == multiset(logs)[Requested(r)])
    && (forall id: nat :: multiset(settled)[id] == multiset(logs)[Fulfilled(Some(id))])
    && (exists at: seq<nat> :: RequestsFrom(logs, requests, at))
    && (exists at: seq<nat> :: SettledFrom(logs, settled, at))
  }

  ghost predicate RequestsFrom(logs: seq<Log>, requests: seq<Request>, at: seq<nat>) {
    |at| == |requests| && Ascending(at, |logs|) && forall k | 0 <= k < |at| :: logs[at[k]] == Requested(requests[k])
  }

  ghost predicate SettledFrom(logs: seq<Log>, settled: seq<nat>, at: seq<nat>) {
    |at| == |settled| && Ascending(at, |logs|) && forall k | 0 <= k < |at| :: logs[at[k]] == Fulfilled(Some(settled[k]))
  }

  lemma ReadsAll(logs: seq<Log>)
    ensures Reads(logs, RequestsIn(logs), SettledIn(logs))
  {
    forall r: Request ensures multiset(RequestsIn(logs))[r] == multiset(logs)[Requested(r)] { RequestsCount(logs, r, 0); }
    forall id: nat ensures multiset(SettledIn(logs))[id] == multiset(logs)[Fulfilled(Some(id))] {
      RequestsCount(logs, Request(0, 0, 0, 0), id);
    }
    RequestsAt(logs);
    SettledAt(logs);
    assert RequestsFrom(logs, RequestsIn(logs), RequestPlaces(logs));
    assert SettledFrom(logs, SettledIn(logs), SettledPlaces(logs));
  }

  /** The endpoint refuses one of the calls a scan is split into. */
  ghost predicate CallFails(from: nat, to: nat, max: nat, failing: set<nat>)
    requires from <= to
  {
    exists k | 0 <= k < Turns(from, to, max) :: k in failing
  }

  /** A scan fails with one of its calls, or on a request that does not decode. */
  ghost predicate ScanFails(chain: Chain, from: nat, to: nat, max: nat, failing: set<nat>)
    requires from <= to
  {
    CallFails(from, to, max, failing) || Undecodable in LogsBetween(chain, from, to)
  }

  lemma BetweenJoin(chain: Chain, from: nat, mid: nat, to: int)
    requires from <= mid <= to
    ensures LogsBetween(chain, from, to) == LogsBetween(chain, from, mid - 1) + LogsBetween(chain, mid, to)
  {
    LogsJoin(chain, from, mid - from, to - mid + 1);
    hide Logs;
  }

  /** Every span starts where those before it ended. */
  lemma {:induction false} SpansAscend(spans: seq<Span>, k: nat, from: nat, to: nat, max: nat)
    requires Partition(spans, from, to, max) && k < |spans|
    ensures from <= spans[k].first <= spans[k].last
    ensures spans[k].first - 1 == if k == 0 then from - 1 else spans[k - 1].last
  {
    if k > 0 { SpansAscend(spans, k - 1, from, to, max); }
  }

  lemma ReadsNext(chain: Chain, spans: seq<Span>, i: nat, from: nat, to: nat, max: nat)
    requires Partition(spans, from, to, max) && i < |spans|
    ensures LogsBetween(chain, from, if i == 0 then from - 1 else spans[i - 1].last)
        + LogsBetween(chain, spans[i].first, spans[i].last) == LogsBetween(chain, from, spans[i].last)
  {
    hide *;
    SpansAscend(spans, i, from, to, max);
    BetweenJoin(chain, from, spans[i].first, spans[i].last);
  }

  lemma PartitionEnds(chain: Chain, spans: seq<Span>, from: nat, to: nat, max: nat)
    requires from <= to && Partition(spans, from, to, max)
    ensures spans != [] && spans[|spans| - 1].last == to
    ensures LogsBetween(chain, from, from - 1) == []
  {}

  lemma FailsIff(from: nat, to: nat, max: nat, failing: set<nat>, made: nat)
    requires from <= to && forall k | 0 <= k < made :: k !in failing
    ensures made < Turns(from, to, max) && made in failing ==> CallFails(from, to, max, failing)
    ensures made == Turns(from, to, max) ==> !CallFails(from, to, max, failing)
  {
    hide Turns;
  }

  /** The calls of one scan, one after the other, until one of them is refused. */
  method FilterLogs(chain: Chain, from: nat, to: nat, max: nat, failing: set<nat>) returns (res: Option<seq<Log>>)
    requires from <= to < TWO64 && max < TWO64 && SpansFit(from, to, max)
    ensures res.None? <==> CallFails(from, to, max, failing)
    ensures res.Some? ==> res.value == LogsBetween(chain, from, to)
  {
    hide *;
    var spans := ChunkRange(from, to, max);
    ghost var width := Width(from, to, max);
    PartitionEnds(chain, spans, from, to, width);
    var logs: seq<Log> := [];
    for i := 0 to |spans|
      invariant logs == LogsBetween(chain, from, if i == 0 then from - 1 else spans[i - 1].last)
      invariant forall k | 0 <= k < i :: k !in failing
    {
      FailsIff(from, to, max, failing, i);
      if i in failing { return None; }
      ReadsNext(chain, spans, i, from, to, width);
      logs := logs + LogsBetween(chain, spans[i].first, spans[i].last);
    }
    FailsIff(from, to, max, failing, |spans|);
    return Some(logs);
  }

  /** Reads a range: every request and every settled id in it, or nothing at all. */
  method EventsBetween(chain: Chain, from: nat, to: nat, max: nat, failing: set<nat>)
      returns (res: Option<(seq<Request>, seq<nat>)>)
    requires from <= to < TWO64 && max < TWO64 && SpansFit(from, to, max)
    ensures res.None? <==> ScanFails(chain, from, to, max, failing)
    ensures res.Some? ==> res.value == (RequestsIn(LogsBetween(chain, from, to)), SettledIn(LogsBetween(chain, from, to)))
    ensures res.Some? ==> Reads(LogsBetween(chain, from, to), res.value.0, res.value.1)
  {
    hide *;
    var found := FilterLogs(chain, from, to, max, failing);
    FailsOr(chain, from, to, max, failing);
    if found.None? { return None; }
    ReadsAll(found.value);
    res := Decode(found.value);
  }

  lemma FailsOr(chain: Chain, from: nat, to: nat, max: nat, failing: set<nat>)
    requires from <= to
    ensures ScanFails(chain, from, to, max, failing)
      <==> CallFails(from, to, max, failing) || Undecodable in LogsBetween(chain, from, to)
  {}

  /** One log after the other; a request that does not decode spoils them all. */
  method Decode(logs: seq<Log>) returns (res: Option<(seq<Request>, seq<nat>)>)
    ensures res.None? <==> Undecodable in logs
    ensures res.Some? ==> res.value == (RequestsIn(logs), SettledIn(logs))
  {
    var requests: seq<Request>, settled: seq<nat> := [], [];
    for i := 0 to |logs|
      invariant requests == RequestsIn(logs[..i]) && settled == SettledIn(logs[..i])
      invariant Undecodable !in logs[..i]
    {
      assert logs[..i + 1][..i] == logs[..i] && logs[..i + 1][i] == logs[i];
      match logs[i] {
        case Requested(request) => requests := requests + [request];
        case Undecodable => assert logs[i] in logs; return None;
        case Fulfilled(id) => if id.Some? { settled := settled + [id.value]; }
        case NoTopics =>
        case Other =>
      }
    }
    assert logs[..|logs|] == logs;
    return Some((requests, settled));
  }

  // ----- polling

  datatype Poll = HeadUnknown | Head(head: nat, failing: set<nat>)

  /** What the callbacks receive, in order. */
  datatype Handed = Settled(id: nat) | Announced(request: Request)

  /** The head and the range stay clear of the top of uint64. */
  predicate PollFits(poll: Poll, max: nat) {
    poll.Head? ==> poll.head + max < TWO64 && poll.head + 1 < TWO64
  }

  ghost predicate HeadsFit(polls: seq<Poll>, max: nat) {
    forall k | 0 <= k < |polls| :: PollFits(polls[k], max)
  }

  lemma FitsBelow(from: nat, to: nat, max: nat)
    requires from <= to && to + max < TWO64
    ensures SpansFit(from, to, max)
  {}

  function AsSettled(ids: seq<nat>): (hs: seq<Handed>)
    ensures |hs| == |ids| && forall k | 0 <= k < |ids| :: hs[k] == Settled(ids[k])
  {
    seq(|ids|, k requires 0 <= k < |ids| => Settled(ids[k]))
  }

  function AsAnnounced(requests: seq<Request>): (hs: seq<Handed>)
    ensures |hs| == |requests| && forall k | 0 <= k < |requests| :: hs[k] == Announced(requests[k])
  {
    seq(|requests|, k requires 0 <= k < |requests| => Announced(requests[k]))
  }

  /** Only a scan that succeeds moves the loop, to just past its head. */
  ghost function Moved(chain: Chain, max: nat, next: nat, poll: Poll): (after: nat)
    ensures after >= next
  {
    if poll.Head? && next <= poll.head && !ScanFails(chain, next, poll.head, max, poll.failing) then poll.head + 1
    else next
  }

  ghost function MovedBy(chain: Chain, max: nat, from: nat, polls: seq<Poll>): nat {
    if polls == [] then from
    else Moved(chain, max, MovedBy(chain, max, from, polls[..|polls| - 1]), polls[|polls| - 1])
  }

  /** The events of `count` blocks: everything settled first, then the requests. */
  function News(chain: Chain, next: nat, count: nat): seq<Handed> {
    var logs := Logs(chain, next, count);
    AsSettled(SettledIn(logs)) + AsAnnounced(RequestsIn(logs))
  }

  /** One turn of the loop: settled first, then requests; a failed poll hands out nothing and keeps its place. */
  method PollOnce(chain: Chain, max: nat, next: nat, poll: Poll) returns (after: nat, news: seq<Handed>)
    requires next < TWO64 && max < TWO64 && PollFits(poll, max)
    ensures after == Moved(chain, max, next, poll) && next <= after < TWO64
    ensures news == News(chain, next, after - next)
  {
    hide *;
    after, news := next, [];
    NoNews(chain, next);
    StaysPut(chain, max, next, poll);
    if poll.Head? && poll.head >= next {
      PollEnds(chain, max, next, poll);
      FitsBelow(next, poll.head, max);
      var events := EventsBetween(chain, next, poll.head, max, poll.failing);
      if events.Some? {
        var (requests, settled) := events.value;
        news := HandOut(settled, requests);
        after := Wrap(poll.head + 1);
      }
    }
  }

  lemma StaysPut(chain: Chain, max: nat, next: nat, poll: Poll)
    ensures !(poll.Head? && next <= poll.head) ==> Moved(chain, max, next, poll) == next
  {}

  /** Settled first: a request that came and went within one scan needs no work. */
  method HandOut(settled: seq<nat>, requests: seq<Request>) returns (news: seq<Handed>)
    ensures news == AsSettled(settled) + AsAnnounced(requests)
  {
    news := [];
    for i := 0 to |settled|
      invariant news == AsSettled(settled[..i])
    {
      news := news + [Settled(settled[i])];
    }
    assert settled[..|settled|] == settled;
    for i := 0 to |requests|
      invariant news == AsSettled(settled) + AsAnnounced(requests[..i])
    {
      news := news + [Announced(requests[i])];
    }
    assert requests[..|requests|] == requests;
  }

  lemma NoNews(chain: Chain, next: nat)
    ensures News(chain, next, 0) == []
  {}

  /** Where the loop goes after a scan of next .. head, and what there is to hand out. */
  lemma PollEnds(chain: Chain, max: nat, next: nat, poll: Poll)
    requires poll.Head? && next <= poll.head && PollFits(poll, max)
    ensures Moved(chain, max, next, poll) == if ScanFails(chain, next, poll.head, max, poll.failing) then next else poll.head + 1
    ensures Wrap(poll.head + 1) == poll.head + 1 < TWO64 && poll.head + max < TWO64
    ensures News(chain, next, poll.head + 1 - next)
      == AsSettled(SettledIn(LogsBetween(chain, next, poll.head))) + AsAnnounced(RequestsIn(LogsBetween(chain, next, poll.head)))
    ensures News(chain, next, 0) == []
  {
    WrapSmall(poll.head + 1);
    NoNews(chain, next);
    hide ScanFails, RequestsIn, SettledIn, Wrap;
  }

  /** Each request announced as often as it is logged, and each settled id as often as it is. */
  ghost predicate EachAsLogged(handed: seq<Handed>, logs: seq<Log>) {
    && (forall r: Request :: multiset(handed)[Announced(r)] == multiset(logs)[Requested(r)])
    && (forall id: nat :: multiset(handed)[Settled(id)] == multiset(logs)[Fulfilled(Some(id))])
  }

  /** The log that led to each of them: requests in the order they are logged, and so the settled ids. */
  ghost predicate InOrder(handed: seq<Handed>, logs: seq<Log>, at: seq<nat>) {
    && |at| == |handed|
    && (forall k | 0 <= k < |at| :: at[k] < |logs| && logs[at[k]] == LogOf(handed[k]))
    && (forall i, j | 0 <= i < j < |at| && handed[i].Announced? == handed[j].Announced? :: at[i] < at[j])
  }

  function LogOf(h: Handed): Log {
    match h
    case Settled(id) => Fulfilled(Some(id))
    case Announced(request) => Requested(request)
  }

  /** Just the events of blocks from .. next - 1, each as often as it is logged there, and in order. */
  ghost predicate HandedUpTo(chain: Chain, from: nat, next: nat, handed: seq<Handed>) {
    && from <= next < TWO64
    && EachAsLogged(handed, Logs(chain, from, next - from))
    && InSomeOrder(handed, Logs(chain, from, next - from))
  }

  ghost predicate InSomeOrder(handed: seq<Handed>, logs: seq<Log>) {
    exists at: seq<nat> :: InOrder(handed, logs, at)
  }

  lemma {:induction false} SettledHanded(ids: seq<nat>, id: nat)
    ensures multiset(AsSettled(ids))[Settled(id)] == multiset(ids)[id]
    decreases ids
  {
    if ids != [] {
      var n := |ids| - 1;
      SettledHanded(ids[..n], id);
      assert AsSettled(ids) == AsSettled(ids[..n]) + [Settled(ids[n])] && ids == ids[..n] + [ids[n]];
    }
  }

  lemma {:induction false} RequestsHanded(requests: seq<Request>, request: Request)
    ensures multiset(AsAnnounced(requests))[Announced(request)] == multiset(requests)[request]
    decreases requests
  {
    if requests != [] {
      var n := |requests| - 1;
      RequestsHanded(requests[..n], request);
      assert AsAnnounced(requests) == AsAnnounced(requests[..n]) + [Announced(requests[n])];
      assert requests == requests[..n] + [requests[n]];
    }
  }

  lemma NewsEach(logs: seq<Log>)
    ensures EachAsLogged(AsSettled(SettledIn(logs)) + AsAnnounced(RequestsIn(logs)), logs)
  {
    var s, a := AsSettled(SettledIn(logs)), AsAnnounced(RequestsIn(logs));
    forall r: Request ensures multiset(s + a)[Announced(r)] == multiset(logs)[Requested(r)] {
      RequestsHanded(RequestsIn(logs), r);
      RequestsCount(logs, r, 0);
      assert Announced(r) !in s;
    }
    forall id: nat ensures multiset(s + a)[Settled(id)] == multiset(logs)[Fulfilled(Some(id))] {
      SettledHanded(SettledIn(logs), id);
      RequestsCount(logs, Request(0, 0, 0, 0), id);
      assert Settled(id) !in a;
    }
  }

  lemma NewsInOrder(logs: seq<Log>)
    ensures InOrder(AsSettled(SettledIn(logs)) + AsAnnounced(RequestsIn(logs)), logs, SettledPlaces(logs) + RequestPlaces(logs))
  {
    RequestsAt(logs);
    SettledAt(logs);
    hide RequestsIn, SettledIn, RequestPlaces, SettledPlaces;
  }

  lemma EachJoin(h: seq<Handed>, news: seq<Handed>, before: seq<Log>, logs: seq<Log>)
    requires EachAsLogged(h, before) && EachAsLogged(news, logs)
    ensures EachAsLogged(h + news, before + logs)
  {}

  lemma InOrderJoin(h: seq<Handed>, news: seq<Handed>, before: seq<Log>, logs: seq<Log>, at: seq<nat>, after: seq<nat>)
    requires InOrder(h, before, at) && InOrder(news, logs, after)
    ensures InOrder(h + news, before + logs, at + Shifted(after, |before|))
  {}

  function Shifted(places: seq<nat>, offset: nat): seq<nat> {
    seq(|places|, k requires 0 <= k < |places| => places[k] + offset)
  }

  /** Handing out the events of the next blocks extends what has been handed out by just those. */
  lemma HandsOutBlocks(chain: Chain, from: nat, next: nat, count: nat, handed: seq<Handed>)
    requires HandedUpTo(chain, from, next, handed) && next + count < TWO64
    ensures HandedUpTo(chain, from, next + count, handed + News(chain, next, count))
  {
    hide *;
    HandedFrom(chain, from, next, handed);
    var before, logs := Logs(chain, from, next - from), Logs(chain, next, count);
    HandedIs(chain, from, next, handed);
    LogsJoin(chain, from, next - from, count);
    NewsIs(chain, next, count);
    NewsEach(logs);
    NewsInOrder(logs);
    EachJoin(handed, News(chain, next, count), before, logs);
    OrdersJoin(handed, News(chain, next, count), before, logs, SettledPlaces(logs) + RequestPlaces(logs));
    assert next - from + count == next + count - from;
    HandedIs(chain, from, next + count, handed + News(chain, next, count));
  }

  lemma HandedIs(chain: Chain, from: nat, next: nat, handed: seq<Handed>)
    requires from <= next
    ensures HandedUpTo(chain, from, next, handed) <==>
      next < TWO64 && EachAsLogged(handed, Logs(chain, from, next - from)) && InSomeOrder(handed, Logs(chain, from, next - from))
  {}

  lemma HandedFrom(chain: Chain, from: nat, next: nat, handed: seq<Handed>)
    requires HandedUpTo(chain, from, next, handed)
    ensures from <= next
  {}

  lemma NewsIs(chain: Chain, next: nat, count: nat)
    ensures News(chain, next, count)
      == AsSettled(SettledIn(Logs(chain, next, count))) + AsAnnounced(RequestsIn(Logs(chain, next, count)))
  {}

  lemma OrdersJoin(h: seq<Handed>, news: seq<Handed>, before: seq<Log>, logs: seq<Log>, after: seq<nat>)
    requires InSomeOrder(h, before) && InOrder(news, logs, after)
    ensures InSomeOrder(h + news, before + logs)
  {
    var at: seq<nat> :| InOrder(h, before, at);
    hide InOrder, Shifted;
    InOrderJoin(h, news, before, logs, at, after);
  }

  lemma NothingHanded(chain: Chain, from: nat)
    requires from < TWO64
    ensures HandedUpTo(chain, from, from, [])
  {
    assert Logs(chain, from, 0) == [];
    assert InOrder([], [], []);
  }

  /**
   Any number of polls.  Heads may stand still or go back, reading the head may fail, and any call
   of any scan may fail.  Whatever happened, each request logged in blocks from .. next - 1 has been
   announced exactly as often as it was logged, in that order, and nothing else; so with settled ids.
   */
  method Watch(chain: Chain, from: nat, max: nat, polls: seq<Poll>) returns (next: nat, handed: seq<Handed>)
    requires from < TWO64 && max < TWO64 && HeadsFit(polls, max)
    ensures next == MovedBy(chain, max, from, polls)
    ensures HandedUpTo(chain, from, next, handed)
  {
    hide InSomeOrder, EachAsLogged, Logs;
    next, handed := from, [];
    NothingHanded(chain, from);
    for p := 0 to |polls|
      invariant next == MovedBy(chain, max, from, polls[..p])
      invariant HandedUpTo(chain, from, next, handed)
    {
      HandedIs(chain, from, next, handed);
      assert PollFits(polls[p], max) && next < TWO64;
      assert polls[..p + 1][..p] == polls[..p];
      assert MovedBy(chain, max, from, polls[..p + 1]) == Moved(chain, max, next, polls[p]);
      hide *;
      var after, news := PollOnce(chain, max, next, polls[p]);
      HandsOutBlocks(chain, from, next, after - next, handed);
      next, handed := after, handed + news;
    }
    assert polls[..|polls|] == polls;
  }

  // ----- how far the loop gets

  /** The loop never goes back, and never past the heads it was told. */
  lemma {:induction false} NeverAhead(chain: Chain, max: nat, from: nat, polls: seq<Poll>)
    ensures from <= MovedBy(chain, max, from, polls)
    ensures MovedBy(chain, max, from, polls) == from
      || exists k | 0 <= k < |polls| :: polls[k].Head? && MovedBy(chain, max, from, polls) == polls[k].head + 1
    decreases |polls|
  {
    if polls != [] {
      var n := |polls| - 1;
      NeverAhead(chain, max, from, polls[..n]);
      hide ScanFails;
      if polls[n].Head? && MovedBy(chain, max, from, polls) == polls[n].head + 1 {
      } else if MovedBy(chain, max, from, polls[..n]) != from {
        var k :| 0 <= k < n && polls[..n][k].Head? && MovedBy(chain, max, from, polls[..n]) == polls[..n][k].head + 1;
        assert polls[k] == polls[..n][k];
      }
    }
  }

  /** A poll none of whose calls is refused catches up with its head, if every request up to there decodes. */
  lemma CatchesUp(chain: Chain, max: nat, from: nat, polls: seq<Poll>, head: nat)
    requires polls != [] && polls[|polls| - 1] == Head(head, {})
    requires forall b: nat | from <= b <= head :: Undecodable !in chain(b)
    ensures MovedBy(chain, max, from, polls) > head
  {
    var next := MovedBy(chain, max, from, polls[..|polls| - 1]);
    NeverAhead(chain, max, from, polls[..|polls| - 1]);
    if next <= head {
      AllDecode(chain, next, head - next + 1);
      hide Logs, Turns;
    }
  }

  lemma {:induction false} AllDecode(chain: Chain, from: nat, count: nat)
    requires forall b: nat | from <= b < from + count :: Undecodable !in chain(b)
    ensures Undecodable !in Logs(chain, from, count)
    decreases count
  {
    if count > 0 { AllDecode(chain, from, count - 1); }
  }

  /** A request that does not decode holds the loop up for good, at the latest at its block. */
  lemma {:induction false} HeldUp(chain: Chain, max: nat, from: nat, polls: seq<Poll>, b: nat)
    requires from <= b && Undecodable in chain(b)
    ensures MovedBy(chain, max, from, polls) <= b
    decreases |polls|
  {
    if polls != [] {
      var n := |polls| - 1;
      var next := MovedBy(chain, max, from, polls[..n]);
      HeldUp(chain, max, from, polls[..n], b);
      if polls[n].Head? && polls[n].head >= b {
        LogsInPlace(chain, next, polls[n].head - next + 1, b - next);
        InSlice(LogsBetween(chain, next, polls[n].head), |Logs(chain, next, b - next)|, chain(b), Undecodable);
      }
    }
  }

  lemma InSlice(logs: seq<Log>, before: nat, block: seq<Log>, log: Log)
    requires before + |block| <= |logs| && logs[before..before + |block|] == block && log in block
    ensures log in logs
  {}
}
