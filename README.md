# JavaScript language-feature snippets, modelled in Dafny

The repository is a set of small JavaScript examples. Each one shows a single
language feature. This project models the ones with behaviour worth stating:

- the order aggregator `processOrders`: filter, add tax, apply a threshold, sort, sum;
- the retry executor `fetchWithRetry`, with linear backoff, and `fetchUser`;
- the closure counter;
- user validation and `safeExecute`;
- the proxy-based validating setter;
- the `fibonacci` and `paginate` generators;
- the mutable and immutable ways to add a user or update an address;
- destructuring helpers;
- `slugify`;
- curried multiplication and the URL an API client requests.

One Dafny module per source file:

| file | module | form |
|---|---|---|
| array_methods.dfy | `ArrayMethods` | functions and lemmas |
| async.dfy | `Async` | a function (`FetchUser`) and a method with a loop (`FetchWithRetry`) |
| closures.dfy | `Closures` | class `Counter` |
| errors.dfy | `Errors` | functions; a thrown error is an `Err` result |
| proxies.dfy | `Proxies` | class `Validator` with a guarded `Set` |
| generators.dfy | `Generators` | classes `Fibonacci` and `Paginator`, each with a `Next` method |
| immutability.dfy | `Immutability` | a method over class `UserArray` (in-place push) and functions |
| destructuring.dfy | `Destructuring` | functions |
| utils.dfy | `Utils` | functions and lemmas (`slugify` only) |
| currying.dfy | `Currying` | functions returning functions |

Three helper modules support them:
- `Wrappers` holds `Option` and `Result`.
- `Decimal` turns an integer into decimal text and reads such text back.
- `JsValues` models JavaScript values and plain objects: property read, object spread and template-literal text.

Clock readings are parameters. `Date.now()` in `addUser` becomes `now: int`. `new Date().toISOString()` in `updateUser` becomes `now: string`.

Timers are not slept through. `fetchWithRetry` returns the list of backoff durations it would have waited.

The operation given to `fetchWithRetry` or `safeExecute` is modelled by its outcome. For `fetchWithRetry` that is `fn(i)`, the outcome of the i-th call. For `safeExecute` it is the single outcome of its one call; a thrown `null` or `undefined` (as from `Promise.reject()`) is told apart from any other thrown value, because the catch block reads `err.message`.

An element of the orders array is either an order record or `null`/`undefined`, which the filter callback cannot destructure. The order total is modelled exactly. A `total` is either a finite real or a marker for "not a finite number", which covers NaN, the infinities, strings and a missing field. Dafny reals are exact, so `1 + 0.1` is exactly `1.1`, and the test's expected 165 holds exactly in the model.

## Model

| member | source | states |
|---|---|---|
| `ArrayMethods.KeepQualifyingRecords` | packages/app/src/array-methods.js:9-11 | the filter keeps exactly the orders whose status is "completed" and whose total is finite, each as often as it occurs in the input, and drops every other order |
| `ArrayMethods.ApplyTaxRecords` | packages/app/src/array-methods.js:14-26 | every derived record carries its untouched original order and `totalWithTax = total * (1 + 0.1)` of at least 10; an order whose taxed total is at least 10 yields one record per occurrence, any other order none |
| `ArrayMethods.Insert` | packages/app/src/array-methods.js:29 | inserting into a list sorted by descending taxed total keeps it sorted and one longer; the new first record is the inserted one or the old first |
| `ArrayMethods.InsertPermutes` | packages/app/src/array-methods.js:29 | inserting adds exactly the one record to the multiset of records |
| `ArrayMethods.NonIncreasingPairwise` | packages/app/src/array-methods.js:29 | a list sorted neighbour by neighbour has every earlier taxed total at least every later one |
| `ArrayMethods.SortByTaxDesc` | packages/app/src/array-methods.js:29 | the result is in non-increasing `totalWithTax` order and is a permutation (same multiset) of its argument |
| `ArrayMethods.ProcessOrders` | packages/app/src/array-methods.js:1-43 | throws a TypeError exactly when the argument is an array with a `null` or `undefined` element; on any other array the result is the independent sum `ExpectedTotal` of its orders; an absent argument (defaulting to `[]`) or a non-array returns 0 |
| `ArrayMethods.SumAppend` | packages/app/src/array-methods.js:41 | the `reduce` sum of a concatenation is the sum of the two parts |
| `ArrayMethods.SumOfPermutation` | packages/app/src/array-methods.js:29-41 | two lists with the same records have the same sum, so the sort does not change the result |
| `ArrayMethods.SumPrepend` | packages/app/src/array-methods.js:41 | adding a record in front adds its taxed total to the sum |
| `ArrayMethods.KeepQualifyingAppend` | packages/app/src/array-methods.js:9-11 | filtering a concatenation is filtering each part and concatenating, so the kept orders stay in input order |
| `ArrayMethods.ApplyTaxAppend` | packages/app/src/array-methods.js:14-26 | the `flatMap` of a concatenation is the concatenation of the two `flatMap`s, so derived records stay in input order |
| `ArrayMethods.TaxedSumMatchesExpected` | packages/app/src/array-methods.js:9-26 | summing the filtered, taxed, thresholded records gives the sum of `total * 1.1` over completed, finite orders whose taxed total is at least 10 |
| `ArrayMethods.PipelineMatchesExpected` | packages/app/src/array-methods.js:6-42 | the whole filter, flatMap, toSorted, reduce chain equals that independent sum |
| `ArrayMethods.ExpectedTotalBound` | packages/app/src/array-methods.js:18 | the result is either 0 or at least 10, because every kept taxed total is at least 10 |
| `ArrayMethods.NonQualifyingIgnored` | packages/app/src/array-methods.js:9-11 | inserting a pending or non-finite order anywhere in the input leaves the result unchanged |
| `ArrayMethods.WorkedExample` | packages/app/__tests__/array-methods.test.js:3-13 | completed 100, pending 200, completed 50 give exactly 165 |
| `ArrayMethods.NullishElementThrows` | packages/app/src/array-methods.js:9-11 | an order followed by `null` makes the call throw instead of returning a sum |
| `ArrayMethods.InvalidTotalsSkipped` | packages/app/src/array-methods.js:10 | a NaN total and a string total are skipped: completed 100 alone gives 110 |
| `ArrayMethods.ThresholdExample` | packages/app/src/array-methods.js:18 | 5 * 1.1 = 5.5 is dropped and 20 * 1.1 = 22 is kept |
| `Decimal.NatToString` | packages/app/src/async.js:6 | the text of a number is non-empty and all digits; it starts with "0" only for 0; it has one digit exactly below 10 |
| `Decimal.NatToStringRoundTrip` | packages/app/src/async.js:6 | reading the decimal text back gives the number |
| `Decimal.NatToStringInjective` | packages/app/src/async.js:6 | two different ids never get the same name |
| `Decimal.IntToStringReadsBack` | packages/app/src/async.js:6 | the text of any integer reads back as that integer: a "-" for a negative one, then digits with no leading zero other than "0" itself |
| `Decimal.IntToStringInjective` | packages/app/src/async.js:6 | two different integers never print the same |
| `JsValues.TemplateText` | packages/app/src/destructuring.js:3 | `${v}` inserts a string unchanged, "undefined" and "null" for those values, and some non-empty text for a number |
| `JsValues.TemplateTextOfNumber` | packages/app/src/destructuring.js:3 | a number is inserted as decimal text that reads back as the number |
| `JsValues.Spread` | packages/app/src/destructuring.js:10-12 | `{...base, ...over}` has the keys of both; a key in `over` takes the value from `over`; any other key keeps its value from `base` |
| `Async.FetchUser` | packages/app/src/async.js:1-7 | fails with "Invalid ID" exactly when id < 1; otherwise returns the same id and a name made of "User " followed by digits without a leading zero that read back as the id |
| `Async.FetchUserExample` | packages/app/__tests__/async.test.js:3-6 | id 42 gives `{id: 42, name: "User 42"}` |
| `Async.Backoff` | packages/app/src/async.js:15 | the i-th wait (from 0) is `100 * (i + 1)` |
| `Async.BackoffTotal` | packages/app/src/async.js:15 | after n failures the waits add up to 50 * n * (n + 1) |
| `Async.BackoffIncreasing` | packages/app/src/async.js:15 | every wait is longer than the one before |
| `Async.FetchWithRetry` | packages/app/src/async.js:9-18 | with `retries <= 0` no call is made and the result is undefined; otherwise: every call before the last failed; the result is the first success's value, or, after exactly `retries` failed calls, the last call's error unchanged; the waits are 100, 200, ... one per failed call except the last |
| `Async.FlakyOperationRecovers` | packages/app/__tests__/async.test.js:8-19 | failing once and then succeeding, with the default 3 retries, makes 2 calls, returns the success value and waits 100 once |
| `Async.AlwaysFailingSurfacesLastError` | packages/app/src/async.js:14 | an operation that always fails, given n retries, is called n times and the last call's error is thrown |
| `Closures.Counter.constructor` | packages/app/src/closures.js:1-2 | a new counter holds `initial` |
| `Closures.Counter.Default` | packages/app/src/closures.js:1 | without an argument the counter starts at 0 |
| `Closures.Counter.Increment` | packages/app/src/closures.js:5 | adds 1 and returns the new count |
| `Closures.Counter.Decrement` | packages/app/src/closures.js:6 | subtracts 1 and returns the new count |
| `Closures.Counter.GetCount` | packages/app/src/closures.js:7 | returns the count and changes nothing |
| `Closures.IncrementThenDecrement` | packages/app/src/closures.js:5-6 | an increment followed by a decrement restores the count |
| `Closures.CountersAreIndependent` | packages/app/__tests__/closures.test.js:3-12 | `createCounter(5)` incremented twice reads 7; a separate `createCounter(10)` reads 10 |
| `Errors.NewValidationError` | packages/app/src/errors.js:1-7 | the error is named "ValidationError" and carries the given message and field |
| `Errors.ValidateUser` | packages/app/src/errors.js:9-17 | it succeeds, returning true, exactly when the email contains "@" and the age is not below 18; a missing or "@"-less email gives the "Invalid email" error on field "email"; a valid email with age < 18 gives "Must be 18+" on field "age" |
| `Errors.EmailCheckedFirst` | packages/app/src/errors.js:10-15 | a bad email together with an age under 18 reports the email |
| `Errors.BoundaryAgesPass` | packages/app/src/errors.js:13-16 | age exactly 18 passes, and so does a missing age |
| `Errors.SafeExecute` | packages/app/src/errors.js:20-27 | returns the operation's value when it succeeds and the default when it throws a non-nullish value; when it throws `null` or `undefined`, reading `err.message` throws and the wrapper rejects with that TypeError |
| `Errors.SafeExecuteOrNull` | packages/app/src/errors.js:20 | with the default `defaultValue`, a non-nullish failure gives null, and a nullish one still rejects |
| `Errors.NullishRejectionEscapes` | packages/app/src/errors.js:24 | a rejection without a reason escapes both forms of the wrapper |
| `Errors.SafeExecuteGuarded` | packages/app/src/errors.js:20-27 | the wrapper with `err?.message`: it never rejects, returns the value or the default, and agrees with `SafeExecute` wherever that settles |
| `Proxies.Validator.constructor` | packages/app/src/proxies.js:1-2 | the validator wraps the given target and schema |
| `Proxies.Validator.Set` | packages/app/src/proxies.js:3-9 | a value rejected by the property's schema predicate fails with "Invalid value for <prop>" and leaves the target unchanged; any other write stores the value and reports true; no other property changes |
| `Proxies.NegativeAgeRejected` | packages/app/src/proxies.js:12-16 | with schema `age > 0`, setting age to -5 is refused and nothing is stored |
| `Proxies.UncheckedPropertyStored` | packages/app/src/proxies.js:4-8 | a property the schema does not mention is stored unchecked |
| `Generators.Fibonacci.constructor` | packages/app/src/generators.js:2 | the generator starts at the pair (F(0), F(1)) = (0, 1) |
| `Generators.Fibonacci.Next` | packages/app/src/generators.js:3-6 | every call yields a value: the n-th yields F(n), and the state moves to (F(n+1), F(n+2)) |
| `Generators.TakeFibonacci` | packages/app/src/generators.js:1-7 | the first k yielded values are F(0), ..., F(k-1); each from the third on is the sum of the two before it |
| `Generators.FibonacciStart` | packages/app/src/generators.js:2-5 | the sequence starts 0, 1, 1, 2, 3, 5 |
| `Generators.Paginator.constructor` | packages/app/src/generators.js:10-11 | a new generator has not started and has requested no page |
| `Generators.Paginator.Default` | packages/app/src/generators.js:10 | the start page defaults to 1 |
| `Generators.Paginator.Next` | packages/app/src/generators.js:10-17 | the first call requests and yields `startPage`; a response with `hasNext` true requests and yields the next page; `hasNext` false finishes with no further request; a missing response throws; a finished generator stays finished; requested pages are always startPage, startPage+1, ... |
| `Generators.FirstStopIndex` | packages/app/src/generators.js:13-14 | position of the first response with `hasNext` false (or the number of responses) |
| `Generators.DrainPages` | packages/app/src/generators.js:10-17 | driven with a list of responses, the generator requests pages startPage, startPage+1, ..., exactly one more page than the position of the first `hasNext` false; each yielded value is `fetchPage` of its page |
| `Generators.FirstStopIndexIs` | packages/app/src/generators.js:13-14 | the first position whose response has `hasNext` false is that position |
| `Immutability.AddUserBad` | packages/app/src/immutability.js:2-5 | appends the user to the caller's array in place and returns that same array |
| `Immutability.AddUser` | packages/app/src/immutability.js:8 | a new list one longer: the input as its prefix, then a copy of the user whose `id` is the clock reading and whose other fields are the user's |
| `Immutability.UpdateUserAddress` | packages/app/src/immutability.js:11-17 | throws exactly for an undefined or null user; otherwise the user's other top-level fields are kept, and the address keeps its other fields and gets `city = newCity` |
| `Immutability.NoPriorAddress` | packages/app/src/immutability.js:13-16 | without an address the result's address is just `{city: newCity}` |
| `Immutability.NullishUserThrows` | packages/app/src/immutability.js:14 | `null` and `undefined` users throw when `user.address` is read |
| `Immutability.MutableVersusImmutable` | packages/app/src/immutability.js:1-8 | on one array object, the contents `addUser` read still start the list it built, while `addUserBad` leaves the array the caller holds with the user appended |
| `Destructuring.GetUserInfo` | packages/app/src/destructuring.js:2-4 | throws exactly when the argument is undefined or null, or its `profile` is undefined or null (which includes every non-object argument) |
| `Destructuring.GetUserInfoParts` | packages/app/src/destructuring.js:2-4 | for a user object with a profile the call succeeds; the text is the name's text and " (", then the age's text, then ") - " and the email's text |
| `Destructuring.GetUserInfoAge` | packages/app/src/destructuring.js:2-4 | an integral age appears in the text as decimal text that reads back as the age |
| `Destructuring.GetUserInfoExample` | packages/app/__tests__/destructuring.test.js:7-14 | Will, will@example.com and age 35 give "Will (35) - will@example.com" |
| `Destructuring.GetUserInfoMissingProfile` | packages/app/src/destructuring.js:2 | an undefined argument, and a user without a profile, both throw |
| `Destructuring.GetFirstAndRest` | packages/app/src/destructuring.js:7 | throws exactly when the argument is neither an array nor a string; otherwise, for a non-empty iteration, `[first] + rest` is what was iterated and rest is one shorter, and for an empty one first is undefined and rest is empty |
| `Destructuring.GetFirstAndRestOfString` | packages/app/src/destructuring.js:7 | a string splits into its first character and the rest of its characters, one by one |
| `Destructuring.NonIterableThrows` | packages/app/src/destructuring.js:7 | `getFirstAndRest()`, `getFirstAndRest(null)` and a plain object throw |
| `Destructuring.UpdateUser` | packages/app/src/destructuring.js:10-14 | the result has the keys of the user, of the updates and `updatedAt`; keys in the updates take the updated values; other user keys keep theirs; `updatedAt` is always the clock reading |
| `Destructuring.UpdateUserExample` | packages/app/__tests__/destructuring.test.js:16-23 | renaming user 1 changes the name, keeps id 1 and yields a record different from the original |
| `Utils.ToLowerCase` | packages/app/src/utils.js:2 | same length, no upper-case letter left; each character is lowered in place |
| `Utils.CollapseWhitespace` | packages/app/src/utils.js:2 | the result contains no whitespace |
| `Utils.Slugify` | packages/app/src/utils.js:2 | a slug has no whitespace and no upper-case letter |
| `Utils.SkipIsSuffix` | packages/app/src/utils.js:2 | the greedy `\s+` match consumes only whitespace and leaves a suffix |
| `Utils.CollapseKeepsNoUpper` | packages/app/src/utils.js:2 | the replacement never introduces an upper-case letter |
| `Utils.CollapseWithoutWhitespace` | packages/app/src/utils.js:2 | text without whitespace is not changed by the replacement |
| `Utils.LowerWithoutUpper` | packages/app/src/utils.js:2 | text without upper-case letters is not changed by lowering |
| `Utils.SlugOfSlugText` | packages/app/src/utils.js:2 | a lower-case string without whitespace is returned unchanged |
| `Utils.SlugifyIdempotent` | packages/app/src/utils.js:2 | slugifying a slug changes nothing |
| `Utils.RunBecomesOneDash` | packages/app/src/utils.js:2 | a maximal run of whitespace becomes exactly one "-" |
| `Utils.CollapseSplits` | packages/app/src/utils.js:2 | the whitespace replacement of text that ends in a non-whitespace character is independent of what follows it, so each run is replaced on its own |
| `Utils.CollapseKeepsLetters` | packages/app/src/utils.js:2 | apart from dashes, every non-whitespace character is kept, in its original order |
| `Currying.Multiply` | packages/app/src/currying.js:2 | `multiply(a)` sends 1 to `a` and 0 to 0 and commutes with scaling: `c * multiply(a)(b) == b * multiply(a)(c)` |
| `Currying.MultiplyAdditive` | packages/app/src/currying.js:2 | `multiply(a)` distributes over addition |
| `Currying.ScalingIsMultiply` | packages/app/src/currying.js:2 | any function that sends 1 to `a` and commutes with scaling agrees with `multiply(a)` everywhere |
| `Currying.Double` | packages/app/src/currying.js:3 | `double(x)` is `2 * x` |
| `Currying.Triple` | packages/app/src/currying.js:4 | `triple(x)` is `3 * x` |
| `Currying.DoubleAndTripleOfFive` | packages/app/__tests__/currying.test.js:4-7 | `double(5)` is 10 and `triple(5)` is 15; `double(2.5)` is 5 |
| `Currying.CreateApiClient` | packages/app/src/currying.js:7-8 | the requested URL is as long as base URL and endpoint together, begins with the base URL, and the rest of it is the endpoint |
| `Currying.ClientUrlsDistinct` | packages/app/src/currying.js:7-8 | one client requests different URLs for different endpoints; clients whose base URLs differ in length request different URLs for one endpoint |
| `Currying.ApiClientExample` | packages/app/__tests__/currying.test.js:18-21 | base "https://api.example.com" with "/users" requests "https://api.example.com/users" |

## Left out

- IEEE-754 arithmetic. Order totals and the numbers given to `multiply` are exact reals, so the model does not capture the rounding of `total * 1.1`; the equality with 165 holds for the exact model only. Counters, ids, ages and Fibonacci numbers are unbounded integers, so precision loss beyond 2^53 is not modelled.
- Timers and async scheduling. The `setTimeout` delays in `fetchUser` and `fetchWithRetry` are not slept through; the backoff durations are returned instead. Every `await` is a sequential step.
- The network call in `createApiClient`. `fetch` and `res.json()` are left out; only the requested URL is modelled.
- `console.error` in `safeExecute`: the logging is output only; the read of `err.message` that feeds it is modelled.
- The `Proxy` mechanism. The set trap is an explicit `Set` method. Property names are strings, not symbols.
- Proxies.Validator.Set: `prop in schema` also sees properties inherited through the schema's prototype chain (such as "toString"); the model only looks at the schema's own entries.
- Async.FetchUser: the id is an integer. JavaScript's `id < 1` is false for `undefined`, `NaN`, `true`, plain objects and strings that do not read as a number below 1, so `fetchUser()` resolves with `{ id: undefined, name: "User undefined" }` instead of failing with "Invalid ID", and `fetchUser(1.5)` resolves with the name "User 1.5". These ids are not modelled, because they need JavaScript's conversion of strings and fractions to numbers.
- Destructuring.GetFirstAndRest: iterables other than arrays and strings (a `Map`, a `Set`, a generator) are not modelled; the value domain has none.
- Async.FetchWithRetry: `retries` is an integer; a fractional count (where `i === retries - 1` never holds) is not modelled.
- Async.FetchWithRetry: `fn` is modelled by the outcome of each call, so the model does not capture side effects of `fn` beyond the call count.
- Errors.ValidateUser: a `null` or `undefined` user (for which reading `user.email` throws a TypeError) is not modelled; the argument is always an object. An email that is an array or another non-string value, and a `null` or string age (which JavaScript coerces in `<`), are not modelled; email is an optional string and age an optional integer.
- Destructuring.GetUserInfo: a non-integer number (such as an age of 35.5) is not rendered, because record numbers are integers. A string argument is read as having no properties; since it has no `profile` either way, the call throws as in JavaScript.
- Immutability.UpdateUserAddress: spreading a string user or a string address (which copies its characters as indexed fields) is not modelled; any non-object value contributes no fields.
- The order of keys in objects is not modelled: a record is a map.
- Generators.Fibonacci.Next: the update to `[b, a + b]` happens in the call that yields `a` rather than at the start of the next call; the yielded values are the same.
- Generators.Paginator.Next: `items` in the response is destructured but unused by the generator, so a response carries only `hasNext`. `return()` and `throw()` on the generator are not modelled.
- Utils.Slugify: `toLowerCase` is ASCII only, and `\s` is restricted to space, tab, line feed, vertical tab, form feed and carriage return.
- ArrayMethods.ProcessOrders: an element that is a number, boolean or string (which destructures to an undefined status and so is filtered out) is modelled as an order whose status is not "completed".
- ArrayMethods.SortByTaxDesc: the stability of `toSorted` among equal totals is not stated; the sort is stable as written, but no contract says so.
- `formatDate`, the second copy of `createPost`, and its `import` in packages/app/src/utils.js are not part of this model. They are clock and `Date` wrappers.
- Also not part of this model: packages/app/src/modules.js, packages/app/src/event-loop.js, packages/app/src/this-binding.js, packages/app/src/promises.js and the `Button` component. They are scheduling demos, timers, console output and UI.

## Findings

| source | as written | input that shows it | evidently intended | confidence | as-written member | corrected member |
|---|---|---|---|---|---|---|
| packages/app/src/errors.js:24 | the catch block reads `err.message` on whatever was thrown | `safeExecute(() => Promise.reject())`, or an `fn` that throws `null` | `err?.message`, so the "safe" wrapper settles with `defaultValue` for every failure | medium, not executed | `Errors.NullishRejectionEscapes` | `Errors.SafeExecuteGuarded` |
