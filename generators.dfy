/** The generators `fibonacci` and `paginate`, each as an object whose
    `Next` method runs the generator body up to its next `yield`. */
module Generators {
  import opened Wrappers

  /** The Fibonacci numbers: F(0) = 0, F(1) = 1, F(n + 2) = F(n) + F(n + 1). */
  function Fib(n: nat): nat {
    if n < 2 then n else Fib(n - 2) + Fib(n - 1)
  }

  /** `fibonacci()`: the pair `[a, b]` starts at `[0, 1]`; each step yields
      `a` and moves to `[b, a + b]`. The generator never finishes. */
  class Fibonacci {
    var a: nat
    var b: nat
    /** How many values have been yielded so far. */
    ghost var yielded: nat

    ghost predicate Valid()
      reads this
    {
      a == Fib(yielded) && b == Fib(yielded + 1)
    }

    constructor ()
      ensures Valid() && yielded == 0
    {
      a, b := 0, 1;
      yielded := 0;
    }

    /** Yields the next Fibonacci number; there is always one. */
    method Next() returns (v: nat)
      requires Valid()
      modifies this
      ensures Valid() && yielded == old(yielded) + 1
      ensures v == Fib(old(yielded))
    {
      v := a;
      a, b := b, a + b;
      yielded := yielded + 1;
    }
  }

  /** The first `k` values a fresh `fibonacci()` yields. */
  method TakeFibonacci(k: nat) returns (values: seq<nat>)
    ensures |values| == k
    ensures forall i :: 0 <= i < k ==> values[i] == Fib(i)
    ensures forall i :: 2 <= i < k ==> values[i] == values[i - 2] + values[i - 1]
  {
    var gen := new Fibonacci();
    values := [];
    while |values| < k
      invariant |values| <= k
      invariant gen.Valid() && gen.yielded == |values|
      invariant forall i :: 0 <= i < |values| ==> values[i] == Fib(i)
    {
      var v := gen.Next();
      values := values + [v];
    }
  }

  /** The generator starts 0, 1, 1, 2, 3, 5. */
  lemma FibonacciStart()
    ensures [Fib(0), Fib(1), Fib(2), Fib(3), Fib(4), Fib(5)] == [0, 1, 1, 2, 3, 5]
  {
  }

  /** What the consumer passes back for a page: only `hasNext` steers the
      generator (the page's `items` are destructured but unused). */
  datatype PageResponse = PageResponse(hasNext: bool)

  /** Where the body of `paginate` stands: not yet entered, suspended at the
      `yield` for a page, or finished. */
  datatype PaginatorState = NotStarted | AwaitingResponse(page: int) | Closed

  /** What one call of `next(...)` produces: a yielded value, the end of the
      iteration, or the TypeError of destructuring a missing response
      (which also closes the generator). */
  datatype Step<R> = Yielded(value: R) | Finished | Threw(message: string)

  const DEFAULT_START_PAGE: int := 1
  // Stands for the TypeError the engine throws; its wording is not modelled.
  const MISSING_RESPONSE: string := "TypeError: cannot destructure an undefined response"

  /** `paginate(fetchPage, startPage)`. `requested` records, in order, the
      pages passed to `fetchPage`. */
  class Paginator<R> {
    const fetchPage: int -> R
    const startPage: int
    var state: PaginatorState
    var requested: seq<int>

    /** Pages are requested consecutively from `startPage`; a suspended
        generator waits on the last page it requested. */
    ghost predicate Valid()
      reads this
    {
      && (forall i :: 0 <= i < |requested| ==> requested[i] == startPage + i)
      && (state.NotStarted? ==> requested == [])
      && (state.AwaitingResponse? ==> |requested| > 0 && state.page == startPage + |requested| - 1)
    }

    constructor (fetchPage: int -> R, startPage: int)
      ensures Valid() && state == NotStarted && requested == []
      ensures this.fetchPage == fetchPage && this.startPage == startPage
    {
      this.fetchPage := fetchPage;
      this.startPage := startPage;
      state := NotStarted;
      requested := [];
    }

    /** `paginate(fetchPage)`: the start page defaults to 1. */
    constructor Default(fetchPage: int -> R)
      ensures Valid() && state == NotStarted && requested == []
      ensures this.fetchPage == fetchPage && startPage == DEFAULT_START_PAGE
    {
      this.fetchPage := fetchPage;
      startPage := DEFAULT_START_PAGE;
      state := NotStarted;
      requested := [];
    }

    /** `next(response)`; `None` is a call without an argument. The first
        call ignores its argument. */
    method Next(response: Option<PageResponse>) returns (step: Step<R>)
      requires Valid()
      modifies this
      ensures Valid()
      ensures old(state).NotStarted? ==>
        step == Yielded(fetchPage(startPage)) && state == AwaitingResponse(startPage)
        && requested == [startPage]
      ensures old(state).AwaitingResponse? && response.None? ==>
        step == Threw(MISSING_RESPONSE) && state == Closed && requested == old(requested)
      ensures old(state).AwaitingResponse? && response.Some? && !response.value.hasNext ==>
        step == Finished && state == Closed && requested == old(requested)
      ensures old(state).AwaitingResponse? && response.Some? && response.value.hasNext ==>
        step == Yielded(fetchPage(old(state).page + 1)) && state == AwaitingResponse(old(state).page + 1)
        && requested == old(requested) + [old(state).page + 1]
      ensures old(state).Closed? ==> step == Finished && state == Closed && requested == old(requested)
    {
      match state {
        case NotStarted =>
          state := AwaitingResponse(startPage);
          requested := [startPage];
          step := Yielded(fetchPage(startPage));
        case AwaitingResponse(page) =>
          if response.None? {
            state := Closed;
            step := Threw(MISSING_RESPONSE);
          } else if !response.value.hasNext {
            state := Closed;
            step := Finished;
          } else {
            state := AwaitingResponse(page + 1);
            requested := requested + [page + 1];
            step := Yielded(fetchPage(page + 1));
          }
        case Closed =>
          step := Finished;
      }
    }
  }

  /** Position of the first response with `hasNext` false, or the number of
      responses when there is none. */
  function FirstStopIndex(responses: seq<PageResponse>): (k: nat)
    ensures k <= |responses|
    ensures k < |responses| ==> !responses[k].hasNext
    ensures forall j :: 0 <= j < k ==> responses[j].hasNext
  {
    if responses == [] || !responses[0].hasNext then 0
    else 1 + FirstStopIndex(responses[1..])
  }

  /** Drives a fresh `paginate(fetchPage, startPage)` the way a consumer
      does: start it, then answer each yielded page with the next response
      until the generator finishes or the responses run out. */
  method DrainPages<R>(fetchPage: int -> R, startPage: int, responses: seq<PageResponse>)
    returns (pages: seq<int>, values: seq<R>, finished: bool)
    ensures |pages| == FirstStopIndex(responses) + 1
    ensures forall i :: 0 <= i < |pages| ==> pages[i] == startPage + i
    ensures |values| == |pages| && forall i :: 0 <= i < |values| ==> values[i] == fetchPage(pages[i])
    ensures finished <==> FirstStopIndex(responses) < |responses|
  {
    var gen := new Paginator(fetchPage, startPage);
    var first := gen.Next(None);
    values := [first.value];
    var j := 0;
    finished := false;
    while j < |responses| && !finished
      invariant 0 <= j <= |responses|
      invariant gen.Valid() && gen.fetchPage == fetchPage && gen.startPage == startPage
      invariant finished ==> gen.state == Closed && j > 0 && !responses[j - 1].hasNext
      invariant !finished ==> gen.state.AwaitingResponse?
      invariant forall i :: 0 <= i < j - 1 ==> responses[i].hasNext
      invariant !finished ==> forall i :: 0 <= i < j ==> responses[i].hasNext
      invariant |gen.requested| == (if finished then j else j + 1)
      invariant |values| == |gen.requested|
      invariant forall i :: 0 <= i < |values| ==> values[i] == fetchPage(gen.requested[i])
    {
      var step := gen.Next(Some(responses[j]));
      if step.Yielded? {
        values := values + [step.value];
      } else {
        finished := true;
      }
      j := j + 1;
    }
    pages := gen.requested;
    FirstStopIndexIs(responses, if finished then j - 1 else j);
  }

  /** `FirstStopIndex` is the first position whose response ends the
      iteration. */
  lemma FirstStopIndexIs(responses: seq<PageResponse>, k: nat)
    requires k <= |responses|
    requires forall j :: 0 <= j < k ==> responses[j].hasNext
    requires k < |responses| ==> !responses[k].hasNext
    ensures FirstStopIndex(responses) == k
  {
  }
}
