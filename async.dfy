/** `fetchUser` (an id guard and a user record) and `fetchWithRetry` (up to
    `retries` attempts with a linear backoff between them).

    The simulated network delay and the timers are not slept through: the
    backoff waits are returned as a list of durations in milliseconds. */
module Async {
  import opened Wrappers
  import Decimal

  datatype User = User(id: int, name: string)

  const INVALID_ID: string := "Invalid ID"
  const NAME_PREFIX: string := "User "

  /** Rejects ids below 1; otherwise builds `{ id, name: "User <id>" }`. */
  function FetchUser(id: int): (r: Result<User, string>)
    ensures r.Err? <==> id < 1
    ensures r.Err? ==> r.error == INVALID_ID
    ensures r.Ok? ==> r.value.id == id
    ensures r.Ok? ==> |r.value.name| > |NAME_PREFIX| && r.value.name[..|NAME_PREFIX|] == NAME_PREFIX
    ensures r.Ok? ==> Decimal.AllDigits(r.value.name[|NAME_PREFIX|..]) && r.value.name[|NAME_PREFIX|] != '0'
    ensures r.Ok? ==> Decimal.IsDecimalOf(r.value.name[|NAME_PREFIX|..], id)
  {
    if id < 1 then Err(INVALID_ID)
    else
      var digits := Decimal.IntToString(id);
      Decimal.IntToStringReadsBack(id);
      assert digits == Decimal.NatToString(id);
      assert (NAME_PREFIX + digits)[|NAME_PREFIX|..] == digits;
      Ok(User(id, NAME_PREFIX + digits))
  }

  lemma FetchUserExample()
    ensures FetchUser(42) == Ok(User(42, "User 42"))
  {
    assert Decimal.DigitChar(4) == '4' && Decimal.DigitChar(2) == '2';
    assert Decimal.NatToString(4) == "4";
    assert Decimal.NatToString(42) == Decimal.NatToString(4) + [Decimal.DigitChar(2)] == "42";
    assert "User " + "42" == "User 42";
  }

  const DEFAULT_RETRIES: int := 3
  const BACKOFF_STEP: nat := 100

  /** How a call of `fetchWithRetry` settles: the value of a successful
      attempt, the error of the last attempt, or `undefined` when the loop
      never ran. */
  datatype Settled<T, E> = Returned(value: T) | Threw(error: E) | ReturnedUndefined

  /** The waits after the first `n` failed attempts: 100, 200, ..., 100 * n. */
  function Backoff(n: nat): (delays: seq<nat>)
    ensures |delays| == n
    ensures forall i :: 0 <= i < n ==> delays[i] == BACKOFF_STEP * (i + 1)
  {
    if n == 0 then [] else Backoff(n - 1) + [BACKOFF_STEP * n]
  }

  function TotalWait(delays: seq<nat>): nat {
    if delays == [] then 0 else TotalWait(delays[..|delays| - 1]) + delays[|delays| - 1]
  }

  /** Waiting after n failures takes 100 + 200 + ... + 100 * n = 50 * n * (n + 1). */
  lemma {:induction false} BackoffTotal(n: nat)
    ensures TotalWait(Backoff(n)) == 50 * n * (n + 1)
  {
    if n > 0 {
      var b := Backoff(n);
      assert b[..|b| - 1] == Backoff(n - 1);
      BackoffTotal(n - 1);
    }
  }

  /** Each wait is longer than the one before it. */
  lemma BackoffIncreasing(n: nat, i: nat, j: nat)
    requires i < j < n
    ensures Backoff(n)[i] < Backoff(n)[j]
  {
  }

  /** Calls `fn` until an attempt succeeds or `retries` attempts have been
      made. `fn(i)` is what the i-th call (from 0) returns or throws; `calls`
      is how many times `fn` was called and `waits` the pauses taken. */
  method FetchWithRetry<T, E>(fn: nat -> Result<T, E>, retries: int)
    returns (result: Settled<T, E>, calls: nat, waits: seq<nat>)
    ensures retries <= 0 ==> result == ReturnedUndefined && calls == 0 && waits == []
    ensures retries > 0 ==> 1 <= calls <= retries && waits == Backoff(calls - 1)
    ensures forall i :: 0 <= i < calls - 1 ==> fn(i).Err?
    ensures result.Returned? <==> calls > 0 && fn(calls - 1).Ok?
    ensures result.Returned? ==> result.value == fn(calls - 1).value
    ensures result.Threw? <==> calls > 0 && fn(calls - 1).Err?
    ensures result.Threw? ==> calls == retries && result.error == fn(calls - 1).error
  {
    calls, waits := 0, [];
    var i := 0;
    while i < retries
      invariant retries > 0 ==> 0 <= i < retries
      invariant retries <= 0 ==> i == 0
      invariant calls == i && waits == Backoff(i)
      invariant forall j :: 0 <= j < i ==> fn(j).Err?
    {
      var attempt := fn(i);
      calls := calls + 1;
      match attempt {
        case Ok(v) =>
          return Returned(v), calls, waits;
        case Err(e) =>
          if i == retries - 1 {
            return Threw(e), calls, waits;
          }
          waits := waits + [BACKOFF_STEP * (i + 1)];
      }
      i := i + 1;
    }
    result := ReturnedUndefined;
  }

  /** An operation that fails once with "Network error" and then succeeds,
      retried with the default count: two calls, the success value, one
      wait of 100. */
  method FlakyOperationRecovers() returns (result: Settled<string, string>, calls: nat, waits: seq<nat>)
    ensures result == Returned("success") && calls == 2 && waits == [100]
  {
    var flaky := (i: nat) => if i < 1 then Err("Network error") else Ok("success");
    result, calls, waits := FetchWithRetry(flaky, DEFAULT_RETRIES);
    assert flaky(0).Err? && flaky(1).Ok? && flaky(2).Ok?;
    assert Backoff(1) == Backoff(0) + [100] == [100];
  }

  /** An operation that always fails, retried `n` times: `n` calls and the
      last attempt's error, unchanged. */
  method AlwaysFailingSurfacesLastError(n: int) returns (result: Settled<int, nat>, calls: nat)
    requires n > 0
    ensures calls == n && result == Threw(n - 1)
  {
    var failing := (i: nat) => Err(i);
    var waits;
    result, calls, waits := FetchWithRetry(failing, n);
  }
}
