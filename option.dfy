/** The optional container `Option<T>`: a value that may be absent.
    The source keeps a single slot that is either a value or `undefined`;
    here that slot is the datatype itself, `None` standing for `undefined`.
    A thrown `new Error(m)` is `Threw(m)`. */
module Options {
  import opened Outcomes

  datatype Option<T> = None | Some(value: T)

  /** Message of the error thrown by `unwrap` on an empty option. */
  const UnwrapFailure: string := "failed to unwrap value."

  /** `isSome`: the slot does not hold the absent marker. */
  function IsSome<T>(o: Option<T>): (b: bool)
    ensures b <==> o != None
  {
    o.Some?
  }

  /** `isNone`: the slot holds the absent marker; always the negation of `isSome`. */
  function IsNone<T>(o: Option<T>): (b: bool)
    ensures b <==> o == None
    ensures b == !IsSome(o)
  {
    o.None?
  }

  /** `expect(msg)`: the held value, or an error carrying exactly `msg`. */
  function Expect<T>(o: Option<T>, msg: string): (r: Outcome<T, string>)
    ensures r.Returned? <==> IsSome(o)
    ensures r.Returned? ==> o == Some(r.value)
    ensures r.Threw? ==> r.thrown == msg
  {
    if IsNone(o) then Threw(msg) else Returned(o.value)
  }

  /** `unwrap()`: the held value, or the fixed "failed to unwrap value." error. */
  function Unwrap<T>(o: Option<T>): (r: Outcome<T, string>)
    ensures r.Returned? <==> IsSome(o)
    ensures r.Returned? ==> o == Some(r.value)
    ensures r.Threw? ==> r.thrown == UnwrapFailure
  {
    if IsNone(o) then Threw(UnwrapFailure) else Returned(o.value)
  }

  /** `unwrapOr(d)`: the held value, or `d` when empty; never throws. */
  function UnwrapOr<T>(o: Option<T>, d: T): (r: T)
    ensures IsSome(o) ==> o == Some(r)
    ensures IsNone(o) ==> r == d
  {
    if IsNone(o) then d else o.value
  }

  /** `unwrapOrElse(fn)`: the held value, or what the producer yields when empty. */
  function UnwrapOrElse<T>(o: Option<T>, fn: () -> T): (r: T)
    ensures IsSome(o) ==> o == Some(r)
    ensures IsNone(o) ==> r == fn()
  {
    if IsNone(o) then fn() else o.value
  }

  /** `contains(other)`: false when `other` is empty; otherwise whether the
      receiver's slot is strictly equal to `other`'s value. Equality is
      Dafny's value equality. */
  function Contains<T(==)>(o: Option<T>, other: Option<T>): (b: bool)
    ensures IsNone(other) ==> !b
    ensures b <==> IsSome(other) && o == other
  {
    if IsNone(other) then false
    else match o
      case None => false
      case Some(v) => v == other.value
  }

  /** Factory `some(v)`: a present option holding exactly `v`. */
  function MakeSome<T>(v: T): (o: Option<T>)
    ensures IsSome(o) && !IsNone(o)
    ensures Unwrap(o) == Returned(v)
  {
    Some(v)
  }

  /** Factory `none()`: an empty option. */
  function MakeNone<T>(): (o: Option<T>)
    ensures IsNone(o) && !IsSome(o)
    ensures Unwrap(o) == Threw(UnwrapFailure)
  {
    None
  }

  /** `unwrap` is `expect` with the fixed message. */
  lemma UnwrapIsExpect<T>(o: Option<T>)
    ensures Unwrap(o) == Expect(o, UnwrapFailure)
  {
  }

  /** Whenever `unwrap` returns, `unwrapOr` returns the same value whatever the default. */
  lemma UnwrapOrAgreesWithUnwrap<T>(o: Option<T>, d: T)
    ensures Unwrap(o).Returned? ==> UnwrapOr(o, d) == Unwrap(o).value
    ensures Unwrap(o).Threw? ==> UnwrapOr(o, d) == d
  {
  }

  /** `unwrapOrElse(fn)` is `unwrapOr(fn())`, and on a present option the
      producer has no influence on the result. */
  lemma UnwrapOrElseIsLazyUnwrapOr<T>(o: Option<T>, fn: () -> T, gn: () -> T)
    ensures UnwrapOrElse(o, fn) == UnwrapOr(o, fn())
    ensures IsSome(o) ==> UnwrapOrElse(o, fn) == UnwrapOrElse(o, gn)
  {
  }

  /** `contains` is symmetric, although the source only inspects `other` first. */
  lemma ContainsSymmetric<T>(a: Option<T>, b: Option<T>)
    ensures Contains(a, b) == Contains(b, a)
  {
  }

  /** `contains` holds exactly between two present options with equal values. */
  lemma ContainsIffSameValue<T>(a: Option<T>, b: Option<T>)
    ensures Contains(a, b) <==> exists v :: a == Some(v) && b == Some(v)
  {
    if Contains(a, b) {
      assert a == Some(b.value) && b == Some(b.value);
    }
  }

  /** Containment on small examples: equal values, different values, and
      either side empty. */
  lemma ContainsExamples()
    ensures Contains(MakeSome(5), MakeSome(5))
    ensures !Contains(MakeSome(5), MakeSome(6))
    ensures !Contains(MakeSome(5), MakeNone())
    ensures !Contains(MakeNone(), MakeSome(5))
  {
  }
}
