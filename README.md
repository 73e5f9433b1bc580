# easyhttp response wrapper and facade, in Dafny

This project models the two pieces of the easyhttp PHP library that have
behaviour of their own.

- **`Response`** wraps one PSR-7 response. It classifies the status code and
  offers `throw()`, a memoised `json()` decode, array-style reads of the
  decoded body (writes always raise), the body as text, and `headers()`,
  which rebuilds the header map with `mapWithKeys`.
- **`Facade`** keeps a static registry of instances keyed by `md5` of the
  subclass name. It builds an instance for a subclass on the first static
  call, and forwards every call to that instance, whose `__call` passes it
  on to the client object the instance wraps.

Modules:

- `Wrappers` (`wrappers.dfy`): `Result`, which stands for "returns or raises".
  It also stands for a read that PHP answers with null plus a warning (see
  `Responses.Response.OffsetGet` under "Left out").
- `Php` (`php.dfy`): the PHP semantics the wrapper relies on.
  - The values `json_decode($s, true)` yields.
  - Truthiness (`!$x`).
  - `isset($a[$k])` and the read `$a[$k]`.
  - The decimal text of an integer in a string.
- `Responses` (`response.dfy`):
  - `Message`, the wrapped response, with status, body and header list.
  - The `Response` class.
  - `LastWins` and `Flatten`, the specification functions of `mapWithKeys`.
- `Facades` (`facade.dfy`):
  - `Client`, the wrapped client object.
  - `Facade`, one facade object with its `$facade` slot.
  - `Registry`, the static `$instances` array with `__callStatic`.

Some parts of the source are represented by parameters:

- `json_decode` is the parameter `jsonDecode: string -> Value` of the
  `Response` constructor.
- `md5` of a class name is `Registry.keyOf`.
- The `$facade` class name that each subclass declares is
  `Registry.declaredClient`.
- A client method called through `call_user_func_array` is a
  `dispatch: (Client, string, seq<A>) -> R` argument.
- `new` on a Dafny class stands for PHP `new`. Dafny's object identity gives
  each new instance and client a fresh identity.

The wrapped response is a separate `Message` object that can change after the
wrapper is built: a PSR-7 body stream is mutable, so it can be written to,
and a non-seekable stream is used up by its first `(string)` cast. Because of
this, the model can tell apart the two behaviours of the truthiness-guarded
`json()` cache:

- A truthy cached value is returned again without reading the body.
- A falsy result (null, false, 0, 0.0, "", "0", []) is decoded again on
  every call.

The status predicates `Successful`, `Ok`, `Redirect`, `ClientError` and
`ServerError` are the source's range checks written out as they are:
`[200, 300)`, `== 200`, `[300, 400)`, `[400, 500)` and `>= 500`. Each one
states its range as its contract, and the lemmas below state how the
predicates relate to each other.

## Model

| member | source | states |
|---|---|---|
| `Php.FalsyValues` | src/Response.php:39 | the `!$this->decoded` guard sees exactly null, false, 0, 0.0, "", "0" and the empty array as falsy |
| `Php.Index` | src/Response.php:190 | `$v[$k]` yields the stored value iff `$v` is an array holding `$k`; a missing key gives the failure `UndefinedArrayKey`, which stands for PHP's warning plus null |
| `Php.IsSetIffReadNonNull` | src/Response.php:177-191 | `isset($v[$k])` holds iff the read `$v[$k]` succeeds with a non-null value |
| `Php.Decimal` | src/Response.php:165 | the interpolated status is a non-empty string of decimal digits |
| `Php.DecimalRoundTrip` | src/Response.php:165 | the status can be read back from its decimal text |
| `Responses.NextCache` | src/Response.php:39-41 | the `decoded` field after one `json()` call: a truthy cached value is kept, and a falsy one is replaced by decoding the body |
| `Responses.KeyedSingleton` | src/Response.php:62-64 | the closure `headers()` passes on returns the one pair `[$k => $v]` |
| `Responses.TruthyCacheIsKept` | src/Response.php:39-43 | a truthy cached `decoded` is returned as it is, whatever the body holds |
| `Responses.FalsyCacheIsRedecoded` | src/Response.php:39-43 | a falsy cached `decoded` is replaced by decoding the current body |
| `Responses.SecondCall` | src/Response.php:37-44 | after one `json()` call, a second call ignores the body if the first result was truthy, and decodes the new body if it was falsy |
| `Responses.RepeatedCallIsStable` | src/Response.php:37-44 | with the body unchanged, a second `json()` call returns what the first returned |
| `Responses.LastWinsBinding` | src/Response.php:232-241 | the array built by assigning pairs in order has exactly the keys that occur, each bound to the value of its last occurrence |
| `Responses.FlattenKeyedSingleton` | src/Response.php:62-64 | with the callback `[$k => $v]`, `mapWithKeys` assigns exactly the items it is given, in order |
| `Responses.Response.constructor` | src/Response.php:19-22 | the wrapper holds the given response and has nothing decoded yet |
| `Responses.Response.Body` | src/Response.php:28-31 | `body()` is the wrapped response's body text as it is at the time of the call |
| `Responses.Response.Status` | src/Response.php:71-74 | `status()` is the wrapped response's status code |
| `Responses.Response.Successful` | src/Response.php:80-83 | `successful()` holds iff 200 <= status < 300 |
| `Responses.Response.Ok` | src/Response.php:89-92 | `ok()` holds iff status == 200 |
| `Responses.Response.Redirect` | src/Response.php:98-101 | `redirect()` holds iff 300 <= status < 400 |
| `Responses.Response.ClientError` | src/Response.php:107-110 | `clientError()` holds iff 400 <= status < 500 |
| `Responses.Response.ServerError` | src/Response.php:116-119 | `serverError()` holds iff status >= 500 |
| `Responses.Response.ToString` | src/Response.php:225-228 | converting the response to text gives the wrapped body |
| `Responses.Response.Then` | src/Response.php:121-126 | `then()` returns the wrapper itself |
| `Responses.Response.Throw` | src/Response.php:162-169 | raises iff the status is at least 400 (server or client error), with a message that starts with the fixed prefix and carries the status in decimal; otherwise returns the same wrapper |
| `Responses.Response.Json` | src/Response.php:37-44 | decodes the body only when the cached value is falsy, stores the result, and returns the stored value |
| `Responses.Response.OffsetExists` | src/Response.php:177-180 | updates the cache as `json()` does, and is true iff the decoded value is an array holding the key with a non-null value |
| `Responses.Response.OffsetGet` | src/Response.php:188-191 | updates the cache as `json()` does, and returns the decoded value's entry for the key, the failure `UndefinedArrayKey(offset)` (PHP: a warning and null) if the decoded array lacks the key, and the failure `OffsetOnScalar` if the decoded value is not an array |
| `Responses.Response.OffsetSet` | src/Response.php:202-205 | always raises the LogicException "Response data may not be mutated using array access."; it changes no state |
| `Responses.Response.OffsetUnset` | src/Response.php:215-218 | always raises the same LogicException; it changes no state |
| `Responses.Response.MapWithKeys` | src/Response.php:230-243 | the nested loop leaves the map that assigning every callback pair in order gives, later keys overwriting earlier ones |
| `Responses.Response.Headers` | src/Response.php:60-65 | the header map has exactly the names of `getHeaders()`; each name is bound to the value list of its last occurrence, which is its only occurrence when names are distinct |
| `Responses.OkImpliesSuccessful` | src/Response.php:80-92 | `ok()` implies `successful()` |
| `Responses.StatusClasses` | src/Response.php:80-119 | successful, redirect, clientError and serverError are pairwise disjoint; a status below 200 is in none and any other status in exactly one |
| `Responses.ReadJsonAcrossBodyChange` | src/Response.php:37-44 | if the body changes between two `json()` calls, a truthy first result is returned again and a falsy one is replaced by decoding the new body |
| `Responses.WriteThenRead` | src/Response.php:202-205 | an array write raises, and `json()` afterwards returns what it returned before |
| `Facades.Facade.constructor` | src/Facade.php:15-18 | `$facade` changes from the declared class name to a fresh object of that class |
| `Facades.Facade.Call` | src/Facade.php:20-22 | `__call` passes the method name and the argument list, in order, to the wrapped client and returns its result unchanged |
| `Facades.Registry.constructor` | src/Facade.php:12 | the registry starts empty |
| `Facades.Registry.CallStatic` | src/Facade.php:24-30 | the first call for a subclass stores a fresh instance (wrapping a fresh client) under the subclass's key; a later call finds the entry and builds nothing; entries under other keys are never removed or changed; the call goes to the stored instance's client |
| `Facades.TwoStaticCalls` | src/Facade.php:24-30 | two static calls on one subclass reach the same client object, and the registry gains at most that subclass's key |

## Left out

- `then()` passing its callbacks on, and `wait`, `cancel`, `resolve` and `reject` (src/Response.php:121-146): these only delegate to the asynchronous promise of the HTTP client library. The model keeps only `then()` returning the wrapper.
- `header()`: joining header lines belongs to the PSR-7 library.
- `toPsrResponse()`: a plain accessor of the wrapped object.
- Reading the body stream: its `(string)` cast is modelled as a string field of `Message`, so a read is repeatable. A non-seekable stream that the first cast uses up, leaving later reads empty, is not modelled; only a change made by the stream's owner is.
- How `json_decode` parses JSON: it is a parameter of the `Response` constructor. Floats carry no NaN, because JSON has none. They carry no infinity either, although PHP decodes an out-of-range number such as `1e400` to `INF`; this costs nothing here, because `INF` is truthy, like the non-zero real the abstract decoder can return instead.
- `md5`: it is a parameter and nothing constrains it. If two subclass names share a key, `CallStatic` reuses the entry stored for the other subclass, exactly as PHP would.
- `Facades.Registry.CallStatic`: PHP calls the method on the facade instance, so a method the subclass itself defines would run instead of `__call`. The model always goes through `__call` to the client, as it does when the subclass has no method of that name.
- Dynamic dispatch through `call_user_func_array`, and the HTTP methods of the client: a call is a pure function of the client, the method name and the arguments. Side effects inside the client and the error PHP raises when the client has no such method are not modelled.
- `Responses.Response.MapWithKeys`: the source wraps the result in `new static($result)`, and `headers()` then reads its `response` field. The model returns the map itself, which is exactly what `headers()` receives.
- `Responses.Response.OffsetExists`: does not model PHP's string offsets. A decoded JSON string is treated like any other scalar, so `isset` is false on it.
- `Responses.Response.OffsetGet`: PHP answers a read of a missing array key with a warning (a notice before PHP 8) and the value null, which `offsetGet` returns. The model gives the failure `UndefinedArrayKey(k)` instead, a key-not-found failure, and drops that null. It also does not model PHP's string offsets. A read from a decoded scalar, including a string, gives the warning `OffsetOnScalar`; PHP would yield null for most scalars with a warning, or a character of a string.
- PHP arrays are ordered, but decoded JSON arrays and the result of `headers()` are Dafny maps, which lose the key order. No contract here depends on that order; the header list that `headers()` reads keeps it.
- PHP array keys are modelled as strings. PHP turns numeric-string keys into integer keys, which read the same through either spelling.
- A facade class that declares no `$facade` class name, such as the base class itself: PHP would fail at `new null`. The model gives every subclass a declared client class.
- Concurrent first access to the registry or the JSON cache: the source is sequential and does not guard against it.
