/** The result container `Result<T, E>`: a success value or an error value.
    This is the explicitly tagged reading of the source, in which `ok` always
    makes an `Ok` and `err` always makes an `Err`; the source's own
    constructor, which routes by truthiness, is modelled in `ResultSlots`.
    JavaScript truthiness of an error value and `toString` are foreign to the
    model and are passed in as `truthy` and `str`. */
module Results {
  import opened Outcomes

  datatype Result<T, E> = Ok(value: T) | Err(error: E)

  /** What `unwrap` throws: the stored error value itself, or a fresh
      `Error` with a message. */
  datatype Thrown<E> = Payload(payload: E) | Error(message: string)

  /** Message of the error `unwrap` synthesizes when the error value is falsy. */
  const UnwrapFailure: string := "unwrap error"

  /** The message of the errors thrown by `expect` and `expectErr`: `${msg}: ${shown}`. */
  function Panic(msg: string, shown: string): (m: string)
    ensures |m| == |msg| + 2 + |shown|
    ensures m[..|msg|] == msg && m[|msg|..|msg| + 2] == ": " && m[|msg| + 2..] == shown
  {
    msg + ": " + shown
  }

  /** `isOk`: the success slot is populated, which in a tagged result means
      the error slot is not. */
  function IsOk<T, E>(r: Result<T, E>): (b: bool)
    ensures b == !r.Err?
  {
    r.Ok?
  }

  /** `isErr`: the error slot is populated; exactly one of `isOk` and `isErr` holds. */
  function IsErr<T, E>(r: Result<T, E>): (b: bool)
    ensures b == !IsOk(r)
  {
    r.Err?
  }

  /** `expect(msg)`: the success value, or an error whose message is `msg`
      followed by the shown error value. */
  function Expect<T, E>(r: Result<T, E>, msg: string, str: E -> string): (o: Outcome<T, string>)
    ensures o.Returned? <==> IsOk(r)
    ensures o.Returned? ==> r == Ok(o.value)
    ensures o.Threw? ==> o.thrown == Panic(msg, str(r.error))
  {
    if IsErr(r) then Threw(Panic(msg, str(r.error))) else Returned(r.value)
  }

  /** `expectErr(msg)`: the error value, or an error whose message is `msg`
      followed by the shown success value. */
  function ExpectErr<T, E>(r: Result<T, E>, msg: string, str: T -> string): (o: Outcome<E, string>)
    ensures o.Returned? <==> IsErr(r)
    ensures o.Returned? ==> r == Err(o.value)
    ensures o.Threw? ==> o.thrown == Panic(msg, str(r.value))
  {
    if IsOk(r) then Threw(Panic(msg, str(r.value))) else Returned(r.error)
  }

  /** `unwrap()`: the success value; on an error, the error value itself is
      thrown when it is truthy, and an "unwrap error" otherwise. */
  function Unwrap<T, E>(r: Result<T, E>, truthy: E -> bool): (o: Outcome<T, Thrown<E>>)
    ensures o.Returned? <==> IsOk(r)
    ensures o.Returned? ==> r == Ok(o.value)
    ensures o.Threw? ==> (o.thrown == Payload(r.error) <==> truthy(r.error))
    ensures o.Threw? && !truthy(r.error) ==> o.thrown == Error(UnwrapFailure)
  {
    if IsErr(r) then
      Threw(if truthy(r.error) then Payload(r.error) else Error(UnwrapFailure))
    else
      Returned(r.value)
  }

  /** `unwrapOr(d)`: the success value, or `d` on an error; never throws. */
  function UnwrapOr<T, E>(r: Result<T, E>, d: T): (v: T)
    ensures IsOk(r) ==> r == Ok(v)
    ensures IsErr(r) ==> v == d
  {
    if IsErr(r) then d else r.value
  }

  /** Factory `ok(v)`: a success holding exactly `v`, whatever `v` is. */
  function MakeOk<T, E>(v: T): (r: Result<T, E>)
    ensures IsOk(r) && !IsErr(r)
    ensures Expect(r, "", _ => "") == Returned(v)
    ensures ExpectErr(r, "", _ => "").Threw?
  {
    Ok(v)
  }

  /** Factory `err(e)`: an error holding exactly `e`. */
  function MakeErr<T, E>(e: E): (r: Result<T, E>)
    ensures IsErr(r) && !IsOk(r)
    ensures ExpectErr(r, "", _ => "") == Returned(e)
  {
    Err(e)
  }

  /** A success unwraps to its value by every accessor. */
  lemma OkAccessors<T, E>(v: T, d: T, msg: string, showT: T -> string, showE: E -> string, truthy: E -> bool)
    ensures Unwrap(MakeOk<T, E>(v), truthy) == Returned(v)
    ensures Expect(MakeOk<T, E>(v), msg, showE) == Returned(v)
    ensures UnwrapOr(MakeOk<T, E>(v), d) == v
    ensures ExpectErr(MakeOk<T, E>(v), msg, showT) == Threw(Panic(msg, showT(v)))
  {
  }

  /** An error yields the default, is returned by `expectErr`, and makes
      `unwrap` and `expect` throw. */
  lemma ErrAccessors<T, E>(e: E, d: T, msg: string, showT: T -> string, showE: E -> string, truthy: E -> bool)
    ensures UnwrapOr(MakeErr<T, E>(e), d) == d
    ensures ExpectErr(MakeErr<T, E>(e), msg, showT) == Returned(e)
    ensures Expect(MakeErr<T, E>(e), msg, showE) == Threw(Panic(msg, showE(e)))
    ensures Unwrap(MakeErr<T, E>(e), truthy) == Threw(if truthy(e) then Payload(e) else Error(UnwrapFailure))
  {
  }

  /** `expect` and `expectErr` are mirror images: on every result exactly one
      of them returns, and what it returns is the payload. */
  lemma ExpectsAreComplementary<T, E>(r: Result<T, E>, msg: string, showT: T -> string, showE: E -> string)
    ensures Expect(r, msg, showE).Returned? != ExpectErr(r, msg, showT).Returned?
    ensures Expect(r, msg, showE).Returned? ==> r == MakeOk(Expect(r, msg, showE).value)
    ensures ExpectErr(r, msg, showT).Returned? ==> r == MakeErr(ExpectErr(r, msg, showT).value)
  {
  }

  /** `unwrapOr` returns what `unwrap` returns whenever `unwrap` returns. */
  lemma UnwrapOrAgreesWithUnwrap<T, E>(r: Result<T, E>, d: T, truthy: E -> bool)
    ensures Unwrap(r, truthy).Returned? ==> UnwrapOr(r, d) == Unwrap(r, truthy).value
    ensures Unwrap(r, truthy).Threw? ==> UnwrapOr(r, d) == d
  {
  }

  /** Worked examples on numbers, strings and booleans, including the falsy
      success values that the tagged constructor keeps as successes. */
  lemma Examples(truthy: string -> bool)
    ensures UnwrapOr(MakeOk<int, string>(42), 0) == 42
    ensures UnwrapOr(MakeErr<int, string>("boom"), 0) == 0
    ensures ExpectErr(MakeErr<int, string>("boom"), "expected error", _ => "") == Returned("boom")
    ensures IsOk(MakeOk<int, string>(0)) && Unwrap(MakeOk<int, string>(0), truthy) == Returned(0)
    ensures IsOk(MakeOk<string, string>("")) && UnwrapOr(MakeOk<string, string>(""), "x") == ""
    ensures IsOk(MakeOk<bool, string>(false))
  {
  }
}
