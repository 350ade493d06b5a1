/** The source's `Result` object as it is written: two private slots, each
    holding a value or `undefined`, filled by a constructor that routes its
    argument by JavaScript truthiness. `Options.Option` serves as a slot
    (`None` is `undefined`). Truthiness of a defined value is foreign to the
    model and passed in as `truthy`; `undefined` is always falsy.
    The accessors return the raw slot, so `Returned(None)` is a call that
    returned `undefined`. */
module ResultSlots {
  import opened Outcomes
  import Options
  import Results

  datatype Slots<T, E> = Slots(value: Options.Option<T>, err: Options.Option<E>)

  /** The test `if (slot)`: the slot is defined and its value is truthy. */
  function Truthy<T>(slot: Options.Option<T>, truthy: T -> bool): (b: bool)
    ensures b ==> Options.IsSome(slot)
  {
    match slot
    case None => false
    case Some(v) => truthy(v)
  }

  /** `isOk`: the value slot is not `undefined`. */
  function IsOk<T, E>(s: Slots<T, E>): (b: bool)
    ensures b <==> s.value != Options.None
  {
    Options.IsSome(s.value)
  }

  /** `isErr`: the error slot is not `undefined`. */
  function IsErr<T, E>(s: Slots<T, E>): (b: bool)
    ensures b <==> s.err != Options.None
  {
    Options.IsSome(s.err)
  }

  /** The constructor `new Result(value, err)`: a truthy `value` fills the
      value slot; anything else leaves it `undefined` and stores `err`. Never
      both slots, but possibly neither. */
  function New<T, E>(value: Options.Option<T>, err: Options.Option<E>, truthy: T -> bool): (s: Slots<T, E>)
    ensures !(IsOk(s) && IsErr(s))
    ensures IsOk(s) <==> Truthy(value, truthy)
    ensures IsErr(s) <==> !Truthy(value, truthy) && Options.IsSome(err)
    ensures IsOk(s) ==> s.value == value
    ensures IsErr(s) ==> s.err == err
  {
    if Truthy(value, truthy) then Slots(value, Options.None) else Slots(Options.None, err)
  }

  /** Factory `ok(v)`, as written: `new Result(v)`. */
  function MakeOk<T, E>(v: T, truthy: T -> bool): (s: Slots<T, E>)
    ensures IsOk(s) <==> truthy(v)
    ensures !IsErr(s)
    ensures IsOk(s) ==> s.value == Options.Some(v)
    ensures !IsOk(s) ==> s == Slots(Options.None, Options.None)
  {
    New(Options.Some(v), Options.None, truthy)
  }

  /** Factory `err(e)`, as written: `new Result(undefined, e)`. The value
      argument is `undefined`, so truthiness is never consulted and any
      predicate serves. */
  function MakeErr<T, E>(e: E): (s: Slots<T, E>)
    ensures IsErr(s) && !IsOk(s)
    ensures s.err == Options.Some(e)
  {
    New(Options.None, Options.Some(e), (_: T) => false)
  }

  /** `expect(msg)`: throws `${msg}: ${err}` when the error slot is defined,
      otherwise returns the value slot, defined or not. */
  function Expect<T, E>(s: Slots<T, E>, msg: string, str: E -> string): (o: Outcome<Options.Option<T>, string>)
    ensures IsErr(s) ==> o == Threw(Results.Panic(msg, str(s.err.value)))
    ensures !IsErr(s) ==> o == Returned(s.value)
  {
    if IsErr(s) then Threw(Results.Panic(msg, str(s.err.value))) else Returned(s.value)
  }

  /** `expectErr(msg)`: throws `${msg}: ${value}` when the value slot is
      defined, otherwise returns the error slot, defined or not. */
  function ExpectErr<T, E>(s: Slots<T, E>, msg: string, str: T -> string): (o: Outcome<Options.Option<E>, string>)
    ensures IsOk(s) ==> o == Threw(Results.Panic(msg, str(s.value.value)))
    ensures !IsOk(s) ==> o == Returned(s.err)
  {
    if IsOk(s) then Threw(Results.Panic(msg, str(s.value.value))) else Returned(s.err)
  }

  /** `unwrap()`: when the error slot is defined, throws it if truthy and an
      "unwrap error" otherwise; else returns the value slot. */
  function Unwrap<T, E>(s: Slots<T, E>, truthy: E -> bool): (o: Outcome<Options.Option<T>, Results.Thrown<E>>)
    ensures o.Threw? <==> IsErr(s)
    ensures o.Threw? ==> (o.thrown == Results.Payload(s.err.value) <==> Truthy(s.err, truthy))
    ensures o.Threw? && !Truthy(s.err, truthy) ==> o.thrown == Results.Error(Results.UnwrapFailure)
    ensures o.Returned? ==> o.value == s.value
  {
    if IsErr(s) then
      Threw(if Truthy(s.err, truthy) then Results.Payload(s.err.value) else Results.Error(Results.UnwrapFailure))
    else
      Returned(s.value)
  }

  /** `unwrapOr(d)`: `d` when the error slot is defined, else the value slot. */
  function UnwrapOr<T, E>(s: Slots<T, E>, d: T): (v: Options.Option<T>)
    ensures IsErr(s) ==> v == Options.Some(d)
    ensures !IsErr(s) ==> v == s.value
  {
    if IsErr(s) then Options.Some(d) else s.value
  }

  /** The slot object that stands for a tagged result. */
  function Encode<T, E>(r: Results.Result<T, E>): (s: Slots<T, E>)
    ensures IsOk(s) == Results.IsOk(r) && IsErr(s) == Results.IsErr(r)
    ensures !(IsOk(s) && IsErr(s))
  {
    match r
    case Ok(v) => Slots(Options.Some(v), Options.None)
    case Err(e) => Slots(Options.None, Options.Some(e))
  }

  /** The tagged result a slot object stands for, if exactly one slot is defined. */
  function Decode<T, E>(s: Slots<T, E>): (r: Options.Option<Results.Result<T, E>>)
    ensures Options.IsSome(r) <==> IsOk(s) != IsErr(s)
    ensures Options.IsSome(r) ==> Encode(r.value) == s
  {
    if IsOk(s) && !IsErr(s) then Options.Some(Results.Ok(s.value.value))
    else if IsErr(s) && !IsOk(s) then Options.Some(Results.Err(s.err.value))
    else Options.None
  }

  /** A returned outcome of the tagged model, seen as a returned slot. */
  function Defined<T, X>(o: Outcome<T, X>): (p: Outcome<Options.Option<T>, X>)
    ensures p.Returned? == o.Returned?
    ensures o.Returned? ==> p.value == Options.Some(o.value)
    ensures o.Threw? ==> p.thrown == o.thrown
  {
    match o
    case Returned(v) => Returned(Options.Some(v))
    case Threw(x) => Threw(x)
  }

  /** Encoding then decoding gives back the tagged result. */
  lemma DecodeEncode<T, E>(r: Results.Result<T, E>)
    ensures Decode(Encode(r)) == Options.Some(r)
  {
  }

  /** On an object with exactly one slot defined, every accessor behaves as
      the tagged model's accessor on the decoded result. */
  lemma EncodedAgrees<T, E>(r: Results.Result<T, E>, d: T, msg: string, showT: T -> string, showE: E -> string, truthy: E -> bool)
    ensures IsOk(Encode(r)) == Results.IsOk(r)
    ensures IsErr(Encode(r)) == Results.IsErr(r)
    ensures Expect(Encode(r), msg, showE) == Defined(Results.Expect(r, msg, showE))
    ensures ExpectErr(Encode(r), msg, showT) == Defined(Results.ExpectErr(r, msg, showT))
    ensures Unwrap(Encode(r), truthy) == Defined(Results.Unwrap(r, truthy))
    ensures UnwrapOr(Encode(r), d) == Options.Some(Results.UnwrapOr(r, d))
  {
  }

  /** Every object the constructor builds is either the stored form of the
      tagged result it decodes to, or the object with no slot defined; the
      latter exactly when `value` is falsy and `err` is `undefined`. */
  lemma NewIsEncodedOrEmpty<T, E>(value: Options.Option<T>, err: Options.Option<E>, truthy: T -> bool)
    ensures var s := New(value, err, truthy);
      || (Options.IsSome(Decode(s)) && Encode(Decode(s).value) == s)
      || s == Slots(Options.None, Options.None)
    ensures New(value, err, truthy) == Slots(Options.None, Options.None)
      <==> !Truthy(value, truthy) && Options.IsNone(err)
  {
  }

  /** `err(e)` as written is exactly the tagged `Err(e)`. */
  lemma ErrIsTagged<T, E>(e: E)
    ensures MakeErr<T, E>(e) == Encode(Results.MakeErr(e))
  {
  }

  /** `ok(v)` as written is the tagged `Ok(v)` exactly when `v` is truthy. */
  lemma OkIsTaggedIffTruthy<T, E>(v: T, truthy: T -> bool)
    ensures MakeOk<T, E>(v, truthy) == Encode(Results.MakeOk(v)) <==> truthy(v)
    ensures Decode(MakeOk<T, E>(v, truthy)) == Options.Some(Results.MakeOk(v)) <==> truthy(v)
  {
  }

  /** `ok(v)` of a falsy `v` fills neither slot: it is neither ok nor an
      error, and every extractor returns `undefined` instead of `v` or the
      default. */
  lemma OkOfFalsyFillsNoSlot<T, E>(v: T, truthy: T -> bool, d: T, msg: string, showT: T -> string, showE: E -> string, truthyE: E -> bool)
    requires !truthy(v)
    ensures var s := MakeOk<T, E>(v, truthy);
      && !IsOk(s) && !IsErr(s)
      && Decode(s) == Options.None
      && Unwrap(s, truthyE) == Returned(Options.None)
      && Expect(s, msg, showE) == Returned(Options.None)
      && ExpectErr(s, msg, showT) == Returned(Options.None)
      && UnwrapOr(s, d) == Options.None
  {
  }

  /** JavaScript truthiness of an integer number: every number but zero. */
  function NumberTruthy(x: int): bool
  {
    x != 0
  }

  /** There is a number whose `ok` is neither ok nor an error, and whose
      `unwrapOr(1)` yields `undefined`: so "`ok(v)` is always ok" fails. */
  lemma OkOfZeroFillsNoSlot()
    ensures exists v: int :: var s := MakeOk<int, string>(v, NumberTruthy);
      !IsOk(s) && !IsErr(s) && UnwrapOr(s, 1) == Options.None
    ensures !forall v: int :: IsOk(MakeOk<int, string>(v, NumberTruthy))
  {
    var s := MakeOk<int, string>(0, NumberTruthy);
    assert !IsOk(s) && !IsErr(s) && UnwrapOr(s, 1) == Options.None;
  }
}
