# Option and Result containers, modelled in Dafny

This project models the two Rust-style containers of the `rustode` library:

- `Option<T>` (`src/option.ts`): a value or nothing, built by `some` and
  `none`, inspected by `isSome`/`isNone`, read by `unwrap`, `expect`,
  `unwrapOr`, `unwrapOrElse`, and compared by `contains`.
- `Result<T, E>` (`src/result.ts`): a success value or an error value, built
  by `ok` and `err`, inspected by `isOk`/`isErr`, read by `unwrap`, `expect`,
  `expectErr` and `unwrapOr`.

Both are immutable values, so every operation is a Dafny function over a
datatype. An accessor that may throw returns `Outcomes.Outcome`:
`Returned(v)` for a normal return and `Threw(x)` for a throw. A thrown
`new Error(m)` is the string `m`. `Result.unwrap` can also rethrow the stored
error value itself; it returns `Results.Thrown`: `Payload(e)` or `Error(m)`.

Two things come from code outside the model, so they are parameters:

- `str`: the `toString` used in the `expect`/`expectErr` messages.
- `truthy`: JavaScript truthiness of a defined value. `undefined` is always falsy.

Modules:

- `Outcomes` (`outcomes.dfy`): the outcome of a call that may throw.
- `Options` (`option.dfy`): `Option<T>`. The source's single slot holds
  either a value or `undefined`. The datatype `None | Some(value)` is exactly
  that slot.
- `Results` (`result.dfy`): `Result<T, E>` with explicit tags. Here `ok(v)`
  is always `Ok(v)` and `err(e)` is always `Err(e)`. This is the library's
  documented intent, and it is the model the rest of the project treats as
  the container.
- `ResultSlots` (`result_slots.dfy`): the source's `Result` object as
  written. It has two `undefined`-able slots and a constructor that routes by
  truthiness. It proves where that object agrees with `Results` and exhibits
  where it does not (see "## Findings").

The code and the library's documented contract disagree on one point. The
`Result` constructor (src/result.ts:23-29) picks the slot by testing whether
`value` is truthy, not by which factory was called. So `ok(0)`, `ok("")` and
`ok(false)` fill neither slot. `Results` follows the documented contract.
`ResultSlots` follows the code.

## Model

| member | source | states |
|---|---|---|
| `Options.IsSome` | src/option.ts:62-64 | an option is some exactly when its slot is not the absent marker |
| `Options.IsNone` | src/option.ts:54-56 | an option is none exactly when its slot is the absent marker, and `isNone` is always the negation of `isSome` |
| `Options.Expect` | src/option.ts:43-48 | returns exactly when the option is some, and then returns the held value; otherwise throws an error whose message is exactly `msg` |
| `Options.Unwrap` | src/option.ts:73-78 | returns exactly when the option is some, and then returns the held value; otherwise throws "failed to unwrap value." |
| `Options.UnwrapOr` | src/option.ts:85-90 | the held value when some, the default when none |
| `Options.UnwrapOrElse` | src/option.ts:97-102 | the held value when some, the producer's value when none |
| `Options.Contains` | src/option.ts:29-34 | false whenever `other` is none; otherwise true exactly when both are some with equal values |
| `Options.MakeSome` | src/option.ts:110-112 | `some(v)` is some, not none, and unwraps to exactly `v` |
| `Options.MakeNone` | src/option.ts:118-120 | `none()` is none, not some, and `unwrap` throws "failed to unwrap value." |
| `Options.UnwrapIsExpect` | src/option.ts:43-48 | `unwrap()` behaves as `expect("failed to unwrap value.")` on every option |
| `Options.UnwrapOrAgreesWithUnwrap` | src/option.ts:73-90 | `unwrapOr(d)` returns what `unwrap` returns when `unwrap` does not throw, and `d` exactly when it throws |
| `Options.UnwrapOrElseIsLazyUnwrapOr` | src/option.ts:97-102 | `unwrapOrElse(fn)` equals `unwrapOr(fn())`; on a some option its result does not depend on `fn` |
| `Options.ContainsSymmetric` | src/option.ts:29-34 | `a.contains(b)` equals `b.contains(a)` |
| `Options.ContainsIffSameValue` | src/option.ts:29-34 | `a.contains(b)` holds exactly when some `v` has `a == some(v)` and `b == some(v)` |
| `Options.ContainsExamples` | src/option.ts:29-34 | `some(5)` contains `some(5)` but not `some(6)` or `none()`; `none()` does not contain `some(5)` |
| `Results.Panic` | src/result.ts:41 | the `expect`/`expectErr` message is `msg`, then `": "`, then the shown payload, with nothing else |
| `Results.IsOk` | src/result.ts:65-67 | `isOk` holds exactly when the result is not an error |
| `Results.IsErr` | src/result.ts:65-75 | `isErr` is always the negation of `isOk`: no result is both or neither |
| `Results.Expect` | src/result.ts:39-44 | returns exactly when the result is ok, and then returns the success value; otherwise throws `msg: str(e)` |
| `Results.ExpectErr` | src/result.ts:54-59 | returns exactly when the result is an error, and then returns the error value; otherwise throws `msg: str(v)` |
| `Results.Unwrap` | src/result.ts:84-89 | returns the success value exactly when ok; on an error, throws the error value itself exactly when it is truthy, else "unwrap error" |
| `Results.UnwrapOr` | src/result.ts:96-101 | the success value when ok, the default on an error |
| `Results.MakeOk` | src/result.ts:109-111 | `ok(v)` is ok and not an error for every `v` (the corrected constructor); `expect` returns `v` and `expectErr` throws |
| `Results.MakeErr` | src/result.ts:118-120 | `err(e)` is an error and not ok, and `expectErr` returns exactly `e` |
| `Results.OkAccessors` | src/result.ts:39-111 | on `ok(v)`, `unwrap`, `expect` and `unwrapOr` all return `v`, and `expectErr(msg)` throws `msg: str(v)` |
| `Results.ErrAccessors` | src/result.ts:39-120 | on `err(e)`, `unwrapOr(d)` is `d`, `expectErr` returns `e`, `expect(msg)` throws `msg: str(e)`, and `unwrap` throws `e` or "unwrap error" |
| `Results.ExpectsAreComplementary` | src/result.ts:39-59 | on every result exactly one of `expect` and `expectErr` returns, and the result is `ok`/`err` of what it returns |
| `Results.UnwrapOrAgreesWithUnwrap` | src/result.ts:84-101 | `unwrapOr(d)` returns what `unwrap` returns when `unwrap` does not throw, and `d` exactly when it throws |
| `Results.Examples` | src/result.ts:96-120 | `ok(42).unwrapOr(0)` is 42, `err("boom").unwrapOr(0)` is 0, `err("boom").expectErr(..)` is "boom"; `ok(0)`, `ok("")`, `ok(false)` are ok (the corrected constructor; as written they are not, see `ResultSlots.OkOfFalsyFillsNoSlot`) |
| `ResultSlots.Truthy` | src/result.ts:24 | a slot that passes `if (slot)` is defined |
| `ResultSlots.IsOk` | src/result.ts:65-67 | as written, `isOk` holds exactly when the value slot is not undefined |
| `ResultSlots.IsErr` | src/result.ts:73-75 | as written, `isErr` holds exactly when the error slot is not undefined |
| `ResultSlots.New` | src/result.ts:23-29 | the constructor never fills both slots; the value slot is filled exactly when `value` is truthy, and the error slot exactly when it is not and `err` is defined |
| `ResultSlots.MakeOk` | src/result.ts:109-111 | as written, `ok(v)` is never an error; it is ok exactly when `v` is truthy, and then holds exactly `v`; otherwise no slot is defined |
| `ResultSlots.MakeErr` | src/result.ts:118-120 | as written, `err(e)` is an error holding `e` and is not ok |
| `ResultSlots.Expect` | src/result.ts:39-44 | throws `msg: str(e)` when the error slot is defined, else returns the value slot even if it is undefined |
| `ResultSlots.ExpectErr` | src/result.ts:54-59 | throws `msg: str(v)` when the value slot is defined, else returns the error slot even if it is undefined |
| `ResultSlots.Unwrap` | src/result.ts:84-89 | throws exactly when the error slot is defined, rethrowing the error value exactly when it is truthy and throwing "unwrap error" otherwise; else returns the value slot |
| `ResultSlots.UnwrapOr` | src/result.ts:96-101 | the default when the error slot is defined, else the value slot even if it is undefined |
| `ResultSlots.Encode` | src/result.ts:23-29 | a tagged result is stored as exactly one defined slot, with the same `isOk`/`isErr` |
| `ResultSlots.Decode` | src/result.ts:65-75 | a slot object stands for a tagged result exactly when one of `isOk`/`isErr` holds, and then it is the stored form of that result |
| `ResultSlots.DecodeEncode` | src/result.ts:23-29 | decoding the stored form of a tagged result gives it back |
| `ResultSlots.EncodedAgrees` | src/result.ts:39-101 | on a stored tagged result, every accessor of the object as written behaves as the tagged accessor |
| `ResultSlots.NewIsEncodedOrEmpty` | src/result.ts:23-29 | every object `new Result(value, err)` builds is the stored form of the tagged result it decodes to, or has no slot defined, the latter exactly when `value` is falsy and `err` is undefined |
| `ResultSlots.ErrIsTagged` | src/result.ts:118-120 | `err(e)` as written is exactly the stored form of the tagged `Err(e)` |
| `ResultSlots.OkIsTaggedIffTruthy` | src/result.ts:23-29 | `ok(v)` as written is the stored form of the tagged `Ok(v)` exactly when `v` is truthy |
| `ResultSlots.OkOfFalsyFillsNoSlot` | src/result.ts:23-29 | `ok(v)` of a falsy `v` is neither ok nor an error; `unwrap`, `expect`, `expectErr` and `unwrapOr(d)` all return undefined |
| `ResultSlots.OkOfZeroFillsNoSlot` | src/result.ts:23-29 | there is a number whose `ok` is neither ok nor an error and whose `unwrapOr(1)` is undefined, so "`ok(v)` is always ok" is false as written |

## Left out

- Option's `#value` can be set to `undefined` through `some(undefined)` when
  `T` admits `undefined`, and then the option is none. Dafny's `T` has no
  `undefined`, so `some(v)` is always some here.
- `Options.Contains` uses Dafny value equality. The source's `===` compares
  object payloads by reference.
- `Options.UnwrapOrElse` takes a total, effect-free producer. Side effects of
  the closure, and the fact that it is not called on a some option, are not
  modelled. Only the returned value is.
- `Results.MakeErr` takes a defined error value. In the source, `err(undefined)`
  fills neither slot. In the as-written module that case is `ResultSlots.New`
  with an undefined `err` slot.
- Exceptions are outcome values. The identity of `Error` objects, stack
  traces and `throw` control flow are not modelled.
- `toString` and JavaScript truthiness are parameters (`str`, `truthy`), not
  JavaScript's coercion rules. `ResultSlots.NumberTruthy` is JavaScript
  truthiness restricted to integers: NaN and non-integer numbers are left out.
- The `IOption` and `IResult` interfaces are type declarations only. The
  unused `Option` import in `src/result.ts` has no behaviour.

## Findings

| source | as written | input that shows it | evidently intended | confidence | as-written member | corrected member |
|---|---|---|---|---|---|---|
| src/result.ts:23-29 | the constructor fills the value slot only when `value` is truthy, so `ok` of a falsy value fills neither slot | `ok(0)`: `isOk()` and `isErr()` are both false, and `unwrapOr(1)` returns `undefined` | `ok(v)` is ok, holds `v`, and is not an error, for every `v` | high; not executed | `ResultSlots.OkOfZeroFillsNoSlot` | `Results.MakeOk` |
