/**
 * Fetching the images of one turn: distinct URLs, at most eight, by at most three workers
 * that share a claim counter and a byte budget, each body read within a size cap.
 */
module ImagePool {
  import opened Common

  const MAX_IMAGE_BYTES: nat := 7 * 1024 * 1024
  const MAX_TOTAL_IMAGE_BYTES: nat := 12 * 1024 * 1024
  const MAX_IMAGES: nat := 8
  const FETCH_CONCURRENCY: nat := 3

  // ------------------------------------------------------------ reading one body

  /** The whole body if it fits, and nothing at all otherwise, whatever length was declared. */
  method ReadBounded(declared: Option<nat>, body: Option<seq<seq<byte>>>, max: nat) returns (bytes: Option<seq<byte>>)
    ensures bytes.Some? <==>
      !(declared.Some? && declared.value > max) && body.Some? && |Flatten(body.value)| <= max
    ensures bytes.Some? ==> bytes.value == Flatten(body.value)
  {
    if declared.Some? && declared.value > max { return None; }
    if body.None? { return None; }
    var incoming := body.value;
    var chunks: seq<seq<byte>>, total := [], 0;
    for i := 0 to |incoming|
      invariant chunks == incoming[..i] && total == |Flatten(incoming[..i])| <= max
    {
      FlattenSnoc(incoming[..i], incoming[i]);
      assert incoming[..i + 1] == incoming[..i] + [incoming[i]];
      total := total + |incoming[i]|;
      if total > max {
        FlattenPrefix(incoming, i + 1);
        return None;
      }
      chunks := chunks + [incoming[i]];
    }
    assert incoming[..|incoming|] == incoming;
    var out := new byte[total];
    var offset := 0;
    for i := 0 to |chunks|
      invariant offset == |Flatten(chunks[..i])| <= total && out[..offset] == Flatten(chunks[..i])
    {
      FlattenSnoc(chunks[..i], chunks[i]);
      assert chunks[..i + 1] == chunks[..i] + [chunks[i]];
      FlattenPrefix(chunks, i + 1);
      CopyInto(out, offset, chunks[i]);
      offset := offset + |chunks[i]|;
    }
    assert chunks[..|chunks|] == chunks;
    bytes := Some(out[..]);
  }

  /** out.set(chunk, offset) */
  method CopyInto(out: array<byte>, offset: nat, chunk: seq<byte>)
    requires offset + |chunk| <= out.Length
    modifies out
    ensures out[..offset + |chunk|] == old(out[..offset]) + chunk
  {
    for j := 0 to |chunk|
      invariant out[..offset + j] == old(out[..offset]) + chunk[..j]
    {
      out[offset + j] := chunk[j];
      assert out[..offset + j + 1] == out[..offset + j] + [chunk[j]];
    }
    assert chunk[..|chunk|] == chunk;
  }

  lemma {:induction false} FlattenPrefix(chunks: seq<seq<byte>>, n: nat)
    requires n <= |chunks|
    ensures |Flatten(chunks[..n])| <= |Flatten(chunks)|
  {
    if n < |chunks| {
      FlattenPrefix(chunks[..|chunks| - 1], n);
      assert chunks[..|chunks| - 1][..n] == chunks[..n];
    } else {
      assert chunks[..n] == chunks;
    }
  }

  // ------------------------------------------------------------ distinct URLs

  /** First occurrences, in order. */
  function Distinct(urls: seq<string>): seq<string> {
    if urls == [] then []
    else
      var earlier := Distinct(urls[..|urls| - 1]);
      if urls[|urls| - 1] in earlier then earlier else earlier + [urls[|urls| - 1]]
  }

  function Considered(mediaUrls: seq<string>): seq<string> {
    var distinct := Distinct(mediaUrls);
    if |distinct| > MAX_IMAGES then distinct[..MAX_IMAGES] else distinct
  }

  /** Where each distinct URL first occurs. */
  function FirstAt(urls: seq<string>): seq<nat> {
    if urls == [] then []
    else
      var n := |urls| - 1;
      if urls[n] in Distinct(urls[..n]) then FirstAt(urls[..n]) else FirstAt(urls[..n]) + [n]
  }

  lemma {:induction false} FirstAtLength(urls: seq<string>)
    ensures |FirstAt(urls)| == |Distinct(urls)|
  {
    if urls != [] { FirstAtLength(urls[..|urls| - 1]); }
  }

  /** Nothing is missing, nothing is repeated, and the order is that of first occurrences. */
  lemma {:induction false} DistinctKeepsOrder(urls: seq<string>, i: nat, j: nat)
    ensures
      var distinct, at := Distinct(urls), FirstAt(urls);
      && |at| == |distinct|
      && (i < |at| ==> at[i] < |urls| && urls[at[i]] == distinct[i])
      && (i < |at| && j < at[i] ==> urls[j] != distinct[i])
      && (i < j < |at| ==> at[i] < at[j] && distinct[i] != distinct[j])
  {
    FirstAtLength(urls);
    if urls != [] {
      var n := |urls| - 1;
      FirstAtLength(urls[..n]);
      DistinctKeepsOrder(urls[..n], i, j);
      if urls[n] !in Distinct(urls[..n]) && i == |FirstAt(urls[..n])| && j < n { AllDistinctKept(urls[..n], j); }
    }
  }

  lemma {:induction false} AllDistinctKept(urls: seq<string>, j: nat)
    ensures j < |urls| ==> urls[j] in Distinct(urls)
  {
    if urls != [] && j < |urls| - 1 { AllDistinctKept(urls[..|urls| - 1], j); }
  }

  // ------------------------------------------------------------ the pool

  datatype Worker = Ready | Fetching(i: nat) | Finished

  /**
   * What the workers share. Per URL, `results` holds the size accepted and `refused` the
   * size of an image that no longer fitted; `started` is the history of fetches.
   */
  datatype State = State(
    urls: nat, next: nat, committed: nat, dropped: nat,
    results: seq<Option<nat>>, refused: seq<Option<nat>>, workers: seq<Worker>, started: seq<nat>)

  /** A worker claims a URL, or its fetch comes back: a size, or nothing usable. */
  datatype Step = Claim(w: nat) | Complete(w: nat, fetched: Option<nat>)

  predicate Enabled(s: State, step: Step) {
    match step
    case Claim(w) => w < |s.workers| && s.workers[w].Ready?
    case Complete(w, fetched) =>
      && w < |s.workers| && s.workers[w].Fetching? && s.workers[w].i < |s.results| && s.workers[w].i < |s.refused|
      && (fetched.Some? ==> 0 < fetched.value <= MAX_IMAGE_BYTES)
  }

  function Apply(s: State, step: Step): State
    requires Enabled(s, step)
  {
    match step
    case Claim(w) =>
      if s.committed >= MAX_TOTAL_IMAGE_BYTES then s.(workers := s.workers[w := Finished])
      else if s.next >= s.urls then s.(next := s.next + 1, workers := s.workers[w := Finished])
      else s.(next := s.next + 1, workers := s.workers[w := Fetching(s.next)], started := s.started + [s.next])
    case Complete(w, fetched) =>
      var i := s.workers[w].i;
      var t := s.(workers := s.workers[w := Ready]);
      if fetched.None? then t
      else if s.committed + fetched.value > MAX_TOTAL_IMAGE_BYTES
      then t.(dropped := s.dropped + 1, refused := s.refused[i := fetched])
      else t.(committed := s.committed + fetched.value, results := s.results[i := fetched])
  }

  function Start(urls: nat): State {
    State(urls, 0, 0, 0, seq(urls, _ => None), seq(urls, _ => None),
      seq(if urls < FETCH_CONCURRENCY then urls else FETCH_CONCURRENCY, _ => Ready), [])
  }

  function Exec(s: State, steps: seq<Step>): Option<State> {
    if steps == [] then Some(s)
    else
      match Exec(s, steps[..|steps| - 1])
      case None => None
      case Some(t) => if Enabled(t, steps[|steps| - 1]) then Some(Apply(t, steps[|steps| - 1])) else None
  }

  /** The pool's shared variables as the workers change them. */
  class Pool {
    const urls: nat
    var next: nat
    var committed: nat
    var dropped: nat
    const results: array<Option<nat>>
    const refused: array<Option<nat>>
    var workers: seq<Worker>
    ghost var started: seq<nat>

    ghost function View(): State
      reads this, results, refused
    {
      State(urls, next, committed, dropped, results[..], refused[..], workers, started)
    }

    constructor (urls: nat)
      ensures fresh(results) && fresh(refused) && results != refused
      ensures View() == Start(urls)
    {
      this.urls := urls;
      next, committed, dropped, started := 0, 0, 0, [];
      results := new Option<nat>[urls](_ => None);
      refused := new Option<nat>[urls](_ => None);
      workers := seq(if urls < FETCH_CONCURRENCY then urls else FETCH_CONCURRENCY, _ => Ready);
    }

    /** The head of the worker loop: stop when the budget is spent or the URLs are. */
    method ClaimNext(w: nat)
      requires Enabled(View(), Claim(w))
      modifies this
      ensures View() == Apply(old(View()), Claim(w))
    {
      if committed >= MAX_TOTAL_IMAGE_BYTES { workers := workers[w := Finished]; return; }
      var i := next;
      next := next + 1;
      if i >= urls { workers := workers[w := Finished]; return; }
      workers := workers[w := Fetching(i)];
      started := started + [i];
    }

    /** Its tail, when the fetch has come back. */
    method Store(w: nat, fetched: Option<nat>)
      requires results != refused && Enabled(View(), Complete(w, fetched))
      modifies this, results, refused
      ensures View() == Apply(old(View()), Complete(w, fetched))
    {
      var i := workers[w].i;
      workers := workers[w := Ready];
      if fetched.None? { return; }
      if committed + fetched.value > MAX_TOTAL_IMAGE_BYTES {
        dropped := dropped + 1;
        refused[i] := fetched;
        return;
      }
      committed := committed + fetched.value;
      results[i] := fetched;
    }
  }

  // ------------------------------------------------------------ invariants

  function Sum(sizes: seq<Option<nat>>): nat {
    if sizes == [] then 0
    else Sum(sizes[..|sizes| - 1]) + if sizes[|sizes| - 1].Some? then sizes[|sizes| - 1].value else 0
  }

  lemma {:induction false} SumUpdate(sizes: seq<Option<nat>>, i: nat, size: nat)
    requires i < |sizes| && sizes[i].None?
    ensures Sum(sizes[i := Some(size)]) == Sum(sizes) + size
  {
    var n := |sizes| - 1;
    if i < n {
      SumUpdate(sizes[..n], i, size);
      assert sizes[i := Some(size)][..n] == sizes[..n][i := Some(size)];
    } else {
      assert sizes[i := Some(size)][..n] == sizes[..n];
    }
  }

  lemma {:induction false} SumOfNone(sizes: seq<Option<nat>>)
    requires forall i :: 0 <= i < |sizes| ==> sizes[i].None?
    ensures Sum(sizes) == 0
  {
    if sizes != [] { SumOfNone(sizes[..|sizes| - 1]); }
  }

  ghost predicate Inv(s: State) {
    && |s.results| == |s.refused| == s.urls
    && |s.workers| <= FETCH_CONCURRENCY
    && s.committed == Sum(s.results) <= MAX_TOTAL_IMAGE_BYTES
    && |s.started| == (if s.next < s.urls then s.next else s.urls)
    && (forall k :: 0 <= k < |s.started| ==> s.started[k] == k)
    && (forall w :: 0 <= w < |s.workers| && s.workers[w].Fetching? ==>
          && s.workers[w].i < |s.started|
          && s.results[s.workers[w].i].None? && s.refused[s.workers[w].i].None?)
    && (forall v, w :: 0 <= v < w < |s.workers| && s.workers[v].Fetching? && s.workers[w].Fetching? ==>
          s.workers[v].i != s.workers[w].i)
    && (forall i :: 0 <= i < s.urls && s.refused[i].Some? ==> s.committed + s.refused[i].value > MAX_TOTAL_IMAGE_BYTES)
    && (forall i :: |s.started| <= i < s.urls ==> s.results[i].None? && s.refused[i].None?)
    && (forall w :: 0 <= w < |s.workers| && s.workers[w].Finished? ==>
          s.committed >= MAX_TOTAL_IMAGE_BYTES || s.next >= s.urls)
  }

  lemma ClaimKeepsInv(s: State, w: nat)
    requires Inv(s) && Enabled(s, Claim(w))
    ensures Inv(Apply(s, Claim(w)))
  {
  }

  lemma CompleteKeepsInv(s: State, w: nat, fetched: Option<nat>)
    requires Inv(s) && Enabled(s, Complete(w, fetched))
    ensures Inv(Apply(s, Complete(w, fetched)))
  {
    if fetched.Some? { SumUpdate(s.results, s.workers[w].i, fetched.value); }
  }

  lemma InvKept(s: State, step: Step)
    requires Inv(s) && Enabled(s, step)
    ensures Inv(Apply(s, step))
  {
    match step {
      case Claim(w) => ClaimKeepsInv(s, w);
      case Complete(w, fetched) => CompleteKeepsInv(s, w, fetched);
    }
  }

  lemma {:induction false} RunsKeepInv(s: State, steps: seq<Step>)
    requires Inv(s)
    ensures Exec(s, steps).Some? ==> Inv(Exec(s, steps).value) && Exec(s, steps).value.urls == s.urls
  {
    if steps != [] {
      RunsKeepInv(s, steps[..|steps| - 1]);
      if Exec(s, steps).Some? {
        InvKept(Exec(s, steps[..|steps| - 1]).value, steps[|steps| - 1]);
      }
    }
  }

  lemma StartIsFine(urls: nat)
    ensures Inv(Start(urls))
  {
    SumOfNone(Start(urls).results);
  }

  // ------------------------------------------------------------ main results

  /**
   * For every interleaving of the workers and every outcome of the fetches: accepted
   * bytes add up to `committed` and stay within the budget, no URL is fetched twice, and
   * no more than three fetches are ever under way.
   */
  lemma PoolStaysInBounds(mediaUrls: seq<string>, steps: seq<Step>, j: nat, k: nat)
    requires Exec(Start(|Considered(mediaUrls)|), steps).Some?
    ensures
      var s := Exec(Start(|Considered(mediaUrls)|), steps).value;
      && |s.results| == |Considered(mediaUrls)| <= MAX_IMAGES
      && s.committed == Sum(s.results) <= MAX_TOTAL_IMAGE_BYTES
      && |s.workers| <= FETCH_CONCURRENCY
      && (j < k < |s.started| ==>
            && s.started[j] < |Considered(mediaUrls)| && s.started[k] < |Considered(mediaUrls)|
            && Considered(mediaUrls)[s.started[j]] != Considered(mediaUrls)[s.started[k]])
  {
    StartIsFine(|Considered(mediaUrls)|);
    RunsKeepInv(Start(|Considered(mediaUrls)|), steps);
    if j < k < |Exec(Start(|Considered(mediaUrls)|), steps).value.started| { DistinctKeepsOrder(mediaUrls, j, k); }
  }

  /**
   * When all workers have finished, every considered URL was fetched or the budget is
   * spent to the byte; and nothing that was refused would fit into what is left.
   */
  lemma RefusalsAreFinal(urls: nat, steps: seq<Step>, i: nat)
    requires Exec(Start(urls), steps).Some?
    requires urls > 0 && forall w :: 0 <= w < |Exec(Start(urls), steps).value.workers| ==>
      Exec(Start(urls), steps).value.workers[w].Finished?
    ensures
      var s := Exec(Start(urls), steps).value;
      && |s.refused| == urls
      && (|s.started| == urls || s.committed == MAX_TOTAL_IMAGE_BYTES)
      && (i < urls && s.refused[i].Some? ==> s.committed + s.refused[i].value > MAX_TOTAL_IMAGE_BYTES)
  {
    StartIsFine(urls);
    RunsKeepInv(Start(urls), steps);
    WorkersStay(Start(urls), steps);
    var s := Exec(Start(urls), steps).value;
    assert s.workers[0].Finished?;
  }

  // ------------------------------------------------------------ what becomes of a fetch

  /** Does this step bring back the fetch of URL i? */
  ghost predicate BringsBack(s: State, step: Step, i: nat) {
    step.Complete? && Enabled(s, step) && s.workers[step.w].i == i
  }

  /** What the fetch of URL i came back with on this run, if it has: a size, or nothing usable. */
  ghost function FetchOf(urls: nat, steps: seq<Step>, i: nat): Option<Option<nat>> {
    if steps == [] then None
    else
      var before := steps[..|steps| - 1];
      var s := Exec(Start(urls), before);
      if s.Some? && BringsBack(s.value, steps[|steps| - 1], i) then Some(steps[|steps| - 1].fetched)
      else FetchOf(urls, before, i)
  }

  ghost predicate UnderWay(s: State, i: nat) {
    exists w :: 0 <= w < |s.workers| && s.workers[w] == Fetching(i)
  }

  /** A URL started is under way or has come back; what came back is kept or refused. */
  ghost predicate Accounted(s: State, i: nat, fetch: Option<Option<nat>>) {
    i < s.urls && s.urls == |s.results| == |s.refused| ==>
      && (i < |s.started| <==> fetch.Some? || UnderWay(s, i))
      && (fetch.Some? ==> !UnderWay(s, i))
      && match fetch
         case Some(Some(size)) =>
           if s.results[i].Some? then s.results[i].value == size else s.refused[i] == Some(size)
         case _ => s.results[i].None? && s.refused[i].None?
  }

  lemma ClaimAccounts(s: State, w: nat, i: nat, fetch: Option<Option<nat>>)
    requires Inv(s) && Enabled(s, Claim(w)) && Accounted(s, i, fetch)
    ensures Accounted(Apply(s, Claim(w)), i, fetch)
  {
    var t := Apply(s, Claim(w));
    if UnderWay(s, i) {
      var v :| 0 <= v < |s.workers| && s.workers[v] == Fetching(i);
      assert t.workers[v] == Fetching(i);
    }
    if t.workers[w] == Fetching(i) { assert UnderWay(t, i); }
    if UnderWay(t, i) {
      var v :| 0 <= v < |t.workers| && t.workers[v] == Fetching(i);
      assert v != w ==> s.workers[v] == Fetching(i);
    }
  }

  lemma CompleteAccounts(s: State, w: nat, fetched: Option<nat>, i: nat, fetch: Option<Option<nat>>)
    requires Inv(s) && Enabled(s, Complete(w, fetched)) && Accounted(s, i, fetch)
    ensures Accounted(Apply(s, Complete(w, fetched)), i, if s.workers[w].i == i then Some(fetched) else fetch)
  {
    var t := Apply(s, Complete(w, fetched));
    if UnderWay(s, i) {
      var v :| 0 <= v < |s.workers| && s.workers[v] == Fetching(i);
      assert v != w ==> t.workers[v] == Fetching(i);
    }
    if UnderWay(t, i) {
      var v :| 0 <= v < |t.workers| && t.workers[v] == Fetching(i);
      assert v != w && s.workers[v] == Fetching(i);
    }
    if s.workers[w].i == i { assert s.workers[w] == Fetching(i); }
  }

  lemma {:induction false} RunsAccount(urls: nat, steps: seq<Step>, i: nat)
    requires Exec(Start(urls), steps).Some?
    ensures Accounted(Exec(Start(urls), steps).value, i, FetchOf(urls, steps, i))
  {
    if steps != [] {
      var before := steps[..|steps| - 1];
      RunsAccount(urls, before, i);
      StartIsFine(urls);
      RunsKeepInv(Start(urls), before);
      var s := Exec(Start(urls), before).value;
      match steps[|steps| - 1] {
        case Claim(w) => ClaimAccounts(s, w, i, FetchOf(urls, before, i));
        case Complete(w, fetched) => CompleteAccounts(s, w, fetched, i, FetchOf(urls, before, i));
      }
    }
  }

  /**
   * When all workers have finished, every fetch that was started has come back; an image
   * it brought is in the results unless it does not fit into what is left of the budget;
   * and nothing else is in the results.
   */
  lemma FetchedIsKeptExactly(urls: nat, steps: seq<Step>, i: nat)
    requires Exec(Start(urls), steps).Some? && i < urls
    requires forall w :: 0 <= w < |Exec(Start(urls), steps).value.workers| ==>
      Exec(Start(urls), steps).value.workers[w].Finished?
    ensures
      var s := Exec(Start(urls), steps).value;
      && |s.results| == urls
      && (i < |s.started| <==> FetchOf(urls, steps, i).Some?)
      && match FetchOf(urls, steps, i)
         case Some(Some(size)) =>
           s.results[i] == Some(size) || (s.results[i].None? && s.committed + size > MAX_TOTAL_IMAGE_BYTES)
         case _ => s.results[i].None?
  {
    StartIsFine(urls);
    RunsKeepInv(Start(urls), steps);
    RunsAccount(urls, steps, i);
    var s := Exec(Start(urls), steps).value;
    assert !UnderWay(s, i);
  }

  lemma {:induction false} WorkersStay(s: State, steps: seq<Step>)
    ensures Exec(s, steps).Some? ==> |Exec(s, steps).value.workers| == |s.workers|
  {
    if steps != [] { WorkersStay(s, steps[..|steps| - 1]); }
  }

  // ------------------------------------------------------------ termination

  function Busy(workers: seq<Worker>): nat {
    if workers == [] then 0
    else
      Busy(workers[..|workers| - 1]) + match workers[|workers| - 1] case Ready => 1 case Fetching(_) => 2 case Finished => 0
  }

  lemma {:induction false} BusyUpdate(workers: seq<Worker>, w: nat, worker: Worker)
    requires w < |workers|
    ensures Busy(workers[w := worker]) == Busy(workers) - Busy([workers[w]]) + Busy([worker])
  {
    var n := |workers| - 1;
    assert [workers[w]][..0] == [] && [worker][..0] == [];
    if w < n {
      BusyUpdate(workers[..n], w, worker);
      assert workers[w := worker][..n] == workers[..n][w := worker];
    } else {
      assert workers[w := worker][..n] == workers[..n];
    }
  }

  /** Twice the URLs not yet started, and the work still in the workers' hands. */
  function Measure(s: State): int {
    2 * (s.urls - |s.started|) + Busy(s.workers)
  }

  lemma EveryStepDescends(s: State, step: Step)
    requires Inv(s) && Enabled(s, step)
    ensures 0 <= Measure(Apply(s, step)) < Measure(s)
  {
    InvKept(s, step);
    var w := step.w;
    BusyUpdate(s.workers, w, Apply(s, step).workers[w]);
    assert [s.workers[w]][..0] == [] && [Apply(s, step).workers[w]][..0] == [];
  }

  /** Every run is over after two steps per URL and one more per worker. */
  lemma {:induction false} RunsAreShort(urls: nat, steps: seq<Step>)
    requires Exec(Start(urls), steps).Some?
    ensures |steps| + Measure(Exec(Start(urls), steps).value) <= 2 * urls + FETCH_CONCURRENCY
  {
    StartIsFine(urls);
    if steps == [] {
      StartBusy(Start(urls).workers);
    } else {
      RunsAreShort(urls, steps[..|steps| - 1]);
      RunsKeepInv(Start(urls), steps[..|steps| - 1]);
      EveryStepDescends(Exec(Start(urls), steps[..|steps| - 1]).value, steps[|steps| - 1]);
    }
  }

  lemma {:induction false} StartBusy(workers: seq<Worker>)
    requires forall w :: 0 <= w < |workers| ==> workers[w].Ready?
    ensures Busy(workers) == |workers|
  {
    if workers != [] { StartBusy(workers[..|workers| - 1]); }
  }

  // ------------------------------------------------------------ the output

  /** The accepted positions among the first n, in order. */
  function Accepted(results: seq<Option<nat>>, n: nat): seq<nat>
    requires n <= |results|
  {
    if n == 0 then []
    else Accepted(results, n - 1) + if results[n - 1].Some? then [n - 1] else []
  }

  /** results.filter(non-null) */
  method Collect(results: array<Option<nat>>) returns (out: seq<nat>)
    ensures out == Accepted(results[..], results.Length)
  {
    out := [];
    for i := 0 to results.Length
      invariant out == Accepted(results[..], i)
    {
      if results[i].Some? { out := out + [i]; }
    }
  }

  /** Exactly the accepted positions, in ascending order. */
  lemma {:induction false} AcceptedInOrder(results: seq<Option<nat>>, n: nat, a: nat, b: nat, i: nat)
    requires n <= |results|
    ensures
      var out := Accepted(results, n);
      && (a < |out| ==> out[a] < n)
      && (a < b < |out| ==> out[a] < out[b])
      && (i in out <==> i < n && results[i].Some?)
  {
    if n > 0 {
      AcceptedInOrder(results, n - 1, a, b, i);
      AcceptedInOrder(results, n - 1, a, a, i);
    }
  }

  /** The output is a subsequence of the input: first occurrences, in input order. */
  lemma OutputKeepsInputOrder(mediaUrls: seq<string>, results: seq<Option<nat>>) returns (at: seq<nat>)
    requires |results| == |Considered(mediaUrls)|
    ensures
      var out := Accepted(results, |results|);
      && |at| == |out|
      && (forall a :: 0 <= a < |at| ==>
            out[a] < |results| && at[a] < |mediaUrls| && mediaUrls[at[a]] == Considered(mediaUrls)[out[a]])
      && (forall a, b :: 0 <= a < b < |at| ==> at[a] < at[b])
  {
    var first := FirstAt(mediaUrls);
    var out := Accepted(results, |results|);
    forall a, b | 0 <= a < b < |out| ensures out[a] < out[b] { AcceptedInOrder(results, |results|, a, b, 0); }
    forall a | 0 <= a < |out| ensures out[a] < |results| { AcceptedInOrder(results, |results|, a, a, 0); }
    FirstAtLength(mediaUrls);
    forall i, j | 0 <= i < j < |first| ensures first[i] < first[j] { DistinctKeepsOrder(mediaUrls, i, j); }
    forall i | 0 <= i < |first| ensures first[i] < |mediaUrls| && mediaUrls[first[i]] == Distinct(mediaUrls)[i] {
      DistinctKeepsOrder(mediaUrls, i, i);
    }
    at := seq(|out|, a requires 0 <= a < |out| => first[out[a]]);
  }
}
