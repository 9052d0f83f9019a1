/** Values shared by the three core files: decoded JSON, the Python
    exceptions the core raises, asyncio futures as values, and the decimal
    rendering `str(n)` of a non-negative integer. */
module Values {

  datatype Option<T> = None | Some(value: T) {
    function GetOr(default: T): T {
      match this
      case Some(v) => v
      case None => default
    }
  }

  /** A decoded JSON value (what `json.loads` returns). */
  datatype Json =
    | JNull
    | JBool(b: bool)
    | JInt(i: int)
    | JStr(s: string)
    | JArray(items: seq<Json>)
    | JObject(fields: map<string, Json>)

  /** A JSON object about to be passed to `json.dumps` and sent. */
  type Payload = map<string, Json>

  /** The exceptions the core raises, by Python class. */
  datatype PyError =
    | KeyError
    | TypeError
    | IndexError
    | AttributeError
    | AssertionError
    | InvalidStateError
    | TimeoutError
    | CancelledError
    | ConnectionFailed          // IOError("RTC connection failed")
    | External(reason: string)  // raised by code outside the model (the media engine)

  /** The state of an `asyncio.Future`. */
  datatype Future<T> = Pending | Done(result: T) | Raised(error: PyError) | Cancelled {

    /** `future.done()` */
    predicate IsDone() {
      !Pending?
    }

    /** `future.set_result(v)`: the new future, or InvalidStateError when it is already done. */
    function SetResult(v: T): (r: Outcome<Future<T>>)
      ensures r.Ok? <==> !IsDone()
      ensures r.Ok? ==> r.value == Done(v) && r.value.IsDone()
      ensures r.Err? ==> r.error == InvalidStateError
    {
      if Pending? then Ok(Done(v)) else Err(InvalidStateError)
    }

    /** `future.set_exception(e)`: the new future, or InvalidStateError when it is already done. */
    function SetException(e: PyError): (r: Outcome<Future<T>>)
      ensures r.Ok? <==> !IsDone()
      ensures r.Ok? ==> r.value == Raised(e) && r.value.IsDone()
      ensures r.Err? ==> r.error == InvalidStateError
    {
      if Pending? then Ok(Raised(e)) else Err(InvalidStateError)
    }
  }

  /** The result of an operation that returns a value or raises. */
  datatype Outcome<T> = Ok(value: T) | Err(error: PyError)

  function Digit(d: nat): (c: char)
    requires d < 10
    ensures '0' <= c <= '9' && c as int - '0' as int == d
  {
    (48 + d) as char
  }

  /** `str(n)` for a non-negative integer: its decimal digits, no leading zeros. */
  function Str(n: nat): (s: string)
    ensures 1 <= |s|
    ensures s[|s| - 1] == Digit(n % 10)
  {
    if n < 10 then [Digit(n)] else Str(n / 10) + [Digit(n % 10)]
  }

  /** `int(s)` for a string of decimal digits. */
  function Num(s: string): (n: int)
    ensures (forall i :: 0 <= i < |s| ==> '0' <= s[i] <= '9') ==> 0 <= n
  {
    if s == [] then 0 else 10 * Num(s[..|s| - 1]) + (s[|s| - 1] as int - '0' as int)
  }

  /** Reading back what `str` wrote gives the number again. */
  lemma {:induction false} NumStr(n: nat)
    ensures Num(Str(n)) == n
  {
    var s := Str(n);
    if n >= 10 {
      assert s[..|s| - 1] == Str(n / 10);
      NumStr(n / 10);
    } else {
      assert s[..0] == [];
    }
  }

  /** Distinct numbers render as distinct strings, so string ids made from
      distinct counters never collide. */
  lemma StrInjective(a: nat, b: nat)
    requires Str(a) == Str(b)
    ensures a == b
  {
    NumStr(a);
    NumStr(b);
  }
}
