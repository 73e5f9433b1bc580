/**
 * The response wrapper: a read view over one wrapped PSR-7 response with
 * status classification, a memoised JSON decode, array-style access to the
 * decoded body and a header map rebuilt by `mapWithKeys`.
 */
module Responses {
  import opened Wrappers
  import opened Php

  /** A header name with its list of values, as `getHeaders()` enumerates them. */
  type Header = (string, seq<string>)

  /**
   * The wrapped PSR-7 response, reduced to the three parts the wrapper reads
   * (`getStatusCode()`, `getBody()`, `getHeaders()`). It is a shared object:
   * its owner may change it while a wrapper holds it.
   */
  class Message {
    var statusCode: int
    var body: string
    var headers: seq<Header>

    constructor (statusCode: int, body: string, headers: seq<Header>)
      ensures this.statusCode == statusCode && this.body == body && this.headers == headers
    {
      this.statusCode := statusCode;
      this.body := body;
      this.headers := headers;
    }
  }

  /** The exception class the wrapper raises. */
  datatype LogicException = LogicException(message: string)

  const MutationMessage: string := "Response data may not be mutated using array access."
  const ThrowPrefix: string := "888 HTTP request returned status code "

  /**
   * The message `throw()` raises for a status: the fixed prefix, the status
   * in canonical decimal (no leading zero), and a full stop.
   */
  predicate ReportsStatus(message: string, status: int) {
    && |ThrowPrefix| + 1 < |message|
    && message[..|ThrowPrefix|] == ThrowPrefix
    && message[|message| - 1] == '.'
    && var digits := message[|ThrowPrefix|..|message| - 1];
       && AllDigits(digits)
       && (|digits| > 1 ==> digits[0] != '0')
       && ParseDecimal(digits) == status
  }

  /**
   * The `decoded` field after one call of `json()`: the guard is PHP
   * truthiness, so only a truthy cached value is kept.
   */
  function NextCache(cached: Value, body: string, decode: string -> Value): (r: Value)
    ensures Truthy(cached) ==> r == cached
    ensures !Truthy(cached) ==> r == decode(body)
  {
    if Truthy(cached) then cached else decode(body)
  }

  /** A truthy cache is returned as it is, whatever the body now holds. */
  lemma TruthyCacheIsKept(cached: Value, body: string, decode: string -> Value)
    requires Truthy(cached)
    ensures NextCache(cached, body, decode) == cached
  {
  }

  /** A falsy cache (null, false, 0, 0.0, "", "0", []) is decoded afresh. */
  lemma FalsyCacheIsRedecoded(cached: Value, body: string, decode: string -> Value)
    requires !Truthy(cached)
    ensures NextCache(cached, body, decode) == decode(body)
  {
  }

  /**
   * Two calls: once the first call has cached a truthy value, the second does
   * not depend on the body; if the first left a falsy value, the second
   * decodes the body as it is then.
   */
  lemma SecondCall(cached: Value, body1: string, body2: string, decode: string -> Value)
    ensures var first := NextCache(cached, body1, decode);
      && (Truthy(first) ==> NextCache(first, body2, decode) == first)
      && (!Truthy(first) ==> NextCache(first, body2, decode) == decode(body2))
  {
  }

  /** With the body unchanged, a second call returns what the first did. */
  lemma RepeatedCallIsStable(cached: Value, body: string, decode: string -> Value)
    ensures NextCache(NextCache(cached, body, decode), body, decode) == NextCache(cached, body, decode)
  {
  }

  /** The map that assigning `pairs` in order into an empty array leaves: later keys overwrite. */
  function LastWins<K(==), V>(pairs: seq<(K, V)>): map<K, V>
    decreases |pairs|
  {
    if pairs == [] then map[]
    else LastWins(pairs[..|pairs| - 1])[pairs[|pairs| - 1].0 := pairs[|pairs| - 1].1]
  }

  /** Every key/value pair the callback returns, item by item, in order. */
  function Flatten<K, V, K2, V2>(items: seq<(K, V)>, callback: (V, K) -> seq<(K2, V2)>): seq<(K2, V2)>
    decreases |items|
  {
    if items == [] then []
    else
      var (key, value) := items[|items| - 1];
      Flatten(items[..|items| - 1], callback) + callback(value, key)
  }

  /**
   * `LastWins` keeps exactly the keys that occur, each bound to the value
   * of its last occurrence.
   */
  lemma {:induction false} LastWinsBinding<K, V>(pairs: seq<(K, V)>, k: K)
    ensures k in LastWins(pairs) <==> exists i :: 0 <= i < |pairs| && pairs[i].0 == k
    ensures forall i :: 0 <= i < |pairs| && pairs[i].0 == k
                        && (forall j :: i < j < |pairs| ==> pairs[j].0 != k)
                        ==> k in LastWins(pairs) && LastWins(pairs)[k] == pairs[i].1
    decreases |pairs|
  {
    if pairs != [] {
      var n := |pairs|;
      var init := pairs[..n - 1];
      LastWinsBinding(init, k);
      assert forall i :: 0 <= i < n - 1 ==> init[i] == pairs[i];
      if k in LastWins(pairs) && k != pairs[n - 1].0 {
        var i :| 0 <= i < n - 1 && init[i].0 == k;
        assert pairs[i].0 == k;
      }
      forall i | 0 <= i < n && pairs[i].0 == k && (forall j :: i < j < n ==> pairs[j].0 != k)
        ensures k in LastWins(pairs) && LastWins(pairs)[k] == pairs[i].1
      {
        if i < n - 1 {
          assert pairs[n - 1].0 != k;
          assert init[i].0 == k;
          assert forall j :: i < j < n - 1 ==> init[j].0 != k;
        }
      }
    }
  }

  /** The keys of `LastWins(pairs)` are the keys that occur in `pairs`. */
  lemma LastWinsKeys<K, V>(pairs: seq<(K, V)>)
    ensures LastWins(pairs).Keys == set i | 0 <= i < |pairs| :: pairs[i].0
  {
    forall k | k in LastWins(pairs) || k in (set i | 0 <= i < |pairs| :: pairs[i].0)
      ensures k in LastWins(pairs) <==> k in (set i | 0 <= i < |pairs| :: pairs[i].0)
    {
      LastWinsBinding(pairs, k);
    }
  }

  /** Each key's last occurrence in `pairs` gives its value in `LastWins(pairs)`. */
  lemma LastWinsValues<K, V>(pairs: seq<(K, V)>)
    ensures forall i :: 0 <= i < |pairs| && (forall j :: i < j < |pairs| ==> pairs[j].0 != pairs[i].0)
                        ==> pairs[i].0 in LastWins(pairs) && LastWins(pairs)[pairs[i].0] == pairs[i].1
  {
    forall i | 0 <= i < |pairs| && (forall j :: i < j < |pairs| ==> pairs[j].0 != pairs[i].0)
      ensures pairs[i].0 in LastWins(pairs) && LastWins(pairs)[pairs[i].0] == pairs[i].1
    {
      LastWinsBinding(pairs, pairs[i].0);
    }
  }

  /** The callback `headers()` passes to `mapWithKeys`: `fn ($v, $k) => [$k => $v]`. */
  function KeyedSingleton<K, V>(value: V, key: K): (r: seq<(K, V)>)
    ensures |r| == 1 && r[0] == (key, value)
  {
    [(key, value)]
  }

  /** With that callback, `mapWithKeys` sees the items themselves. */
  lemma {:induction false} FlattenKeyedSingleton<K, V>(items: seq<(K, V)>)
    ensures Flatten(items, KeyedSingleton) == items
    decreases |items|
  {
    if items != [] {
      var n := |items|;
      FlattenKeyedSingleton(items[..n - 1]);
      assert Flatten(items, KeyedSingleton)
          == Flatten(items[..n - 1], KeyedSingleton) + KeyedSingleton(items[n - 1].1, items[n - 1].0);
      assert items[..|items| - 1] + [items[|items| - 1]] == items;
    }
  }

  /** No header name occurs twice, as in the PHP array `getHeaders()` returns. */
  predicate DistinctNames(headers: seq<Header>) {
    forall i, j :: 0 <= i < j < |headers| ==> headers[i].0 != headers[j].0
  }

  class Response {
    /** The wrapped response, fixed at construction. */
    const response: Message
    /** PHP's `json_decode($text, true)`, kept abstract. */
    const jsonDecode: string -> Value
    /** The decoded JSON body, or a falsy value while nothing truthy is cached. */
    var decoded: Value

    constructor (response: Message, jsonDecode: string -> Value)
      ensures this.response == response && this.jsonDecode == jsonDecode
      ensures decoded == Null
    {
      this.response := response;
      this.jsonDecode := jsonDecode;
      decoded := Null;
    }

    /** The body as text; it is read again on every call. */
    function Body(): (r: string)
      reads response
      ensures r == response.body
    {
      response.body
    }

    function ToString(): (r: string)
      reads response
      ensures r == response.body
    {
      Body()
    }

    function Status(): (r: int)
      reads response
      ensures r == response.statusCode
    {
      response.statusCode
    }

    predicate Successful()
      reads response
      ensures Successful() <==> 200 <= Status() < 300
    {
      Status() >= 200 && Status() < 300
    }

    predicate Ok()
      reads response
      ensures Ok() <==> Status() == 200
    {
      Status() == 200
    }

    predicate Redirect()
      reads response
      ensures Redirect() <==> 300 <= Status() < 400
    {
      Status() >= 300 && Status() < 400
    }

    predicate ClientError()
      reads response
      ensures ClientError() <==> 400 <= Status() < 500
    {
      Status() >= 400 && Status() < 500
    }

    predicate ServerError()
      reads response
      ensures ServerError() <==> 500 <= Status()
    {
      Status() >= 500
    }

    /** `then()` hands the callbacks to the wrapped promise and returns the wrapper itself. */
    function Then(): (r: Response)
      ensures r == this
    {
      this
    }

    /** `throw()`: raise for a client or server error, otherwise return the wrapper unchanged. */
    function Throw(): (r: Result<Response, LogicException>)
      reads response
      ensures r.Failure? <==> Status() >= 400
      ensures r.Failure? ==> ReportsStatus(r.error.message, Status())
      ensures r.Success? ==> r.value == this
    {
      if ServerError() || ClientError() then
        var text := Decimal(Status());
        var message := ThrowPrefix + text + ".";
        assert message[..|ThrowPrefix|] == ThrowPrefix;
        assert message[|ThrowPrefix|..|message| - 1] == text;
        DecimalRoundTrip(Status());
        Failure(LogicException(message))
      else
        Success(this)
    }

    /** `json()`: decode the body unless a truthy value is cached, and keep the result. */
    method Json() returns (v: Value)
      modifies this
      ensures decoded == NextCache(old(decoded), response.body, jsonDecode)
      ensures v == decoded
    {
      if !Truthy(decoded) {
        decoded := jsonDecode(response.body);
      }
      v := decoded;
    }

    /** `isset($response[$offset])`, which goes through `json()`. */
    method OffsetExists(offset: string) returns (b: bool)
      modifies this
      ensures decoded == NextCache(old(decoded), response.body, jsonDecode)
      ensures b <==> decoded.Arr? && offset in decoded.entries && decoded.entries[offset] != Null
    {
      var json := Json();
      b := IsSet(json, offset);
    }

    /** `$response[$offset]`, which goes through `json()`. */
    method OffsetGet(offset: string) returns (r: Result<Value, ReadWarning>)
      modifies this
      ensures decoded == NextCache(old(decoded), response.body, jsonDecode)
      ensures r.Success? <==> decoded.Arr? && offset in decoded.entries
      ensures r.Success? ==> r.value == decoded.entries[offset]
      ensures decoded.Arr? && offset !in decoded.entries ==> r == Failure(UndefinedArrayKey(offset))
      ensures !decoded.Arr? ==> r == Failure(OffsetOnScalar)
    {
      var json := Json();
      r := Index(json, offset);
    }

    /** `$response[$offset] = $value` always raises and changes nothing. */
    method OffsetSet(offset: string, value: Value) returns (r: Result<(), LogicException>)
      ensures r == Failure(LogicException(MutationMessage))
    {
      r := Failure(LogicException(MutationMessage));
    }

    /** `unset($response[$offset])` always raises and changes nothing. */
    method OffsetUnset(offset: string) returns (r: Result<(), LogicException>)
      ensures r == Failure(LogicException(MutationMessage))
    {
      r := Failure(LogicException(MutationMessage));
    }

    /**
     * `mapWithKeys`: run the callback on every item and assign each pair it
     * returns into one result array, later pairs overwriting earlier ones.
     */
    method MapWithKeys<K, V, K2(==), V2>(items: seq<(K, V)>, callback: (V, K) -> seq<(K2, V2)>)
      returns (result: map<K2, V2>)
      ensures result == LastWins(Flatten(items, callback))
    {
      result := map[];
      var i := 0;
      while i < |items|
        invariant 0 <= i <= |items|
        invariant result == LastWins(Flatten(items[..i], callback))
      {
        var (key, value) := items[i];
        var assoc := callback(value, key);
        ghost var done := Flatten(items[..i], callback);
        var j := 0;
        assert done + assoc[..0] == done;
        while j < |assoc|
          invariant 0 <= j <= |assoc|
          invariant result == LastWins(done + assoc[..j])
        {
          var (mapKey, mapValue) := assoc[j];
          assert (done + assoc[..j + 1])[..|done| + j] == done + assoc[..j];
          result := result[mapKey := mapValue];
          j := j + 1;
        }
        assert items[..i + 1][..i] == items[..i];
        assert assoc[..|assoc|] == assoc;
        i := i + 1;
      }
      assert items[..|items|] == items;
    }

    /**
     * `headers()`: every header name of the wrapped response, bound to the
     * value list of its last occurrence.
     */
    method Headers() returns (h: map<string, seq<string>>)
      ensures h.Keys == set i | 0 <= i < |response.headers| :: response.headers[i].0
      ensures forall i :: 0 <= i < |response.headers|
                          && (forall j :: i < j < |response.headers| ==> response.headers[j].0 != response.headers[i].0)
                          ==> h[response.headers[i].0] == response.headers[i].1
      ensures DistinctNames(response.headers) ==>
                forall i :: 0 <= i < |response.headers| ==> h[response.headers[i].0] == response.headers[i].1
    {
      var hs := response.headers;
      h := MapWithKeys(hs, KeyedSingleton);
      FlattenKeyedSingleton(hs);
      LastWinsKeys(hs);
      LastWinsValues(hs);
    }
  }

  /** `ok()` implies `successful()`. */
  lemma OkImpliesSuccessful(r: Response)
    ensures r.Ok() ==> r.Successful()
  {
  }

  /**
   * The four status classes are pairwise disjoint; a status below 200 is
   * in none of them and any other status in exactly one.
   */
  lemma StatusClasses(r: Response)
    ensures !(r.Successful() && r.Redirect()) && !(r.Successful() && r.ClientError())
    ensures !(r.Successful() && r.ServerError()) && !(r.Redirect() && r.ClientError())
    ensures !(r.Redirect() && r.ServerError()) && !(r.ClientError() && r.ServerError())
    ensures r.Status() < 200 ==> !r.Successful() && !r.Redirect() && !r.ClientError() && !r.ServerError()
    ensures r.Status() >= 200 ==> r.Successful() || r.Redirect() || r.ClientError() || r.ServerError()
  {
  }

  /**
   * A caller that reads `json()`, lets the wrapped body change, and reads
   * again: a truthy first result is returned again, a falsy one is replaced
   * by the decoding of the new body.
   */
  method ReadJsonAcrossBodyChange(r: Response, newBody: string) returns (first: Value, second: Value)
    modifies r, r.response
    ensures Truthy(first) ==> second == first
    ensures !Truthy(first) ==> second == r.jsonDecode(newBody)
  {
    first := r.Json();
    r.response.body := newBody;
    second := r.Json();
  }

  /** A rejected array write leaves `json()` returning what it returned before. */
  method WriteThenRead(r: Response, offset: string, value: Value)
    returns (before: Value, outcome: Result<(), LogicException>, after: Value)
    modifies r
    ensures outcome.Failure?
    ensures after == before
  {
    before := r.Json();
    outcome := r.OffsetSet(offset, value);
    after := r.Json();
  }
}
