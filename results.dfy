/**
 * The result taxonomy of include/result.h: the `enum result` constants, the
 * 32-bit `result_t` they live in, and the classification predicates.
 */
module Results {

  /** `result_t` is a C `int`: a 32-bit two's-complement integer. */
  type Int32 = x: int | -0x8000_0000 <= x < 0x8000_0000

  /**
   * The named constants of `enum result`. `ValidObject`, `True` and `False`
   * are aliases whose codes collide with other constants.
   */
  datatype Named =
    | InvalidObject | InternalError | BadParam
    | Success | Failure | Done
    | ValidObject
    | True | False
  {
    /**
     * The integer value the enum gives the constant: errors are negative,
     * success is zero, statuses are positive.
     */
    function Code(): (c: Int32)
      ensures IsErrorKind() ==> c < 0
      ensures IsStatusKind() ==> c > 0
      ensures Success? || ValidObject? ==> c == 0
      ensures IsBooleanKind() ==> c == 0 || c == 1
    {
      match this
      case InvalidObject => -2
      case InternalError => -3
      case BadParam => -1
      case Success => 0
      case Failure => 1
      case Done => 2
      case ValidObject => 0  // RESULT_SUCCESS
      case True => 1   // `true` from stdbool.h
      case False => 0  // `false` from stdbool.h
    }

    /** The three constants the documentation calls errors. */
    predicate IsErrorKind() { InvalidObject? || InternalError? || BadParam? }

    /** The two constants the documentation calls statuses. */
    predicate IsStatusKind() { Failure? || Done? }

    /** The two boolean results. */
    predicate IsBooleanKind() { True? || False? }
  }

  /**
   * `is_err`: a result is an error exactly when it is negative. On the named
   * constants it picks out exactly the three errors.
   */
  predicate IsErr(r: Int32): (b: bool)
    ensures forall n: Named :: n.Code() == r ==> (b <==> n.IsErrorKind())
  {
    r < 0
  }

  /**
   * `is_lurk_err`: the `switch` over the three error constants. It holds for
   * exactly the codes of the named errors.
   */
  predicate IsLurkErr(r: Int32): (b: bool)
    ensures b <==> exists n: Named :: n.IsErrorKind() && n.Code() == r
  {
    if r == InvalidObject.Code() then
      assert InvalidObject.IsErrorKind();
      true
    else if r == InternalError.Code() then
      assert InternalError.IsErrorKind();
      true
    else if r == BadParam.Code() then
      assert BadParam.IsErrorKind();
      true
    else
      false
  }

  // The four predicates below are declared in include/result.h, and
  // src/result.c defines none of them; they follow their doc comments.
  // Each ensures says which named constants it accepts: since codes
  // collide, a predicate cannot tell the aliases of one value apart.

  /** `is_success`: exactly `RESULT_SUCCESS`. */
  predicate IsSuccess(r: Int32): (b: bool)
    ensures forall n: Named :: n.Code() == r ==> (b <==> n in {Success, ValidObject, False})
  {
    r == Success.Code()
  }

  /** `is_valid_object`: exactly `RESULT_VALID_OBJECT`. */
  predicate IsValidObject(r: Int32): (b: bool)
    ensures forall n: Named :: n.Code() == r ==> (b <==> n in {Success, ValidObject, False})
  {
    r == ValidObject.Code()
  }

  /** `is_true`: exactly `RESULT_TRUE`. */
  predicate IsTrue(r: Int32): (b: bool)
    ensures forall n: Named :: n.Code() == r ==> (b <==> n in {Failure, True})
  {
    r == True.Code()
  }

  /** `is_false`: exactly `RESULT_FALSE`. */
  predicate IsFalse(r: Int32): (b: bool)
    ensures forall n: Named :: n.Code() == r ==> (b <==> n in {Success, ValidObject, False})
  {
    r == False.Code()
  }

  /**
   * Which constants share a code: the three errors, `Done`, and the two
   * groups {Success, ValidObject, False} and {Failure, True}.
   */
  lemma CodeCollisions(a: Named, b: Named)
    ensures a.Code() == b.Code() <==>
      || a == b
      || (a in {Success, ValidObject, False} && b in {Success, ValidObject, False})
      || (a in {Failure, True} && b in {Failure, True})
  {
  }

  /** The named errors are pairwise distinct, and distinct from every non-error. */
  lemma ErrorCodesDistinct(a: Named, b: Named)
    requires a.IsErrorKind()
    ensures a.Code() == b.Code() <==> a == b
  {
  }

  /** Every named error is an error for `is_err`. */
  lemma LurkErrIsErr(r: Int32)
    ensures IsLurkErr(r) ==> IsErr(r)
  {
  }

  /** `is_lurk_err` is strictly narrower than `is_err`: -4 is negative but not named. */
  lemma ErrIsNotLurkErr()
    ensures IsErr(-4) && !IsLurkErr(-4)
  {
  }

  /** `is_lurk_err` holds exactly for -1, -2 and -3. */
  lemma LurkErrValues(r: Int32)
    ensures IsLurkErr(r) <==> r in {-1, -2, -3}
  {
  }

  /** `is_success` and `is_valid_object` have the same truth table: both mean `r == 0`. */
  lemma SuccessIsValidObject(r: Int32)
    ensures IsSuccess(r) <==> IsValidObject(r)
    ensures IsSuccess(r) <==> r == 0
  {
  }

  /** `is_true` and `is_false` hold for 1 and 0 only, and never together. */
  lemma TrueFalseExclusive(r: Int32)
    ensures IsTrue(r) <==> r == 1
    ensures IsFalse(r) <==> r == 0
    ensures !(IsTrue(r) && IsFalse(r))
  {
  }

  /**
   * The documented hazard: the boolean axis collides with the success axis.
   * `RESULT_FALSE` reads as success and `RESULT_TRUE` is `RESULT_FAILURE`.
   */
  lemma BooleanAxisCollides(r: Int32)
    ensures IsFalse(r) <==> IsSuccess(r)
    ensures IsTrue(r) <==> r == Failure.Code()
    ensures forall n: Named :: n.IsBooleanKind() ==> (IsTrue(n.Code()) || IsSuccess(n.Code()))
  {
  }
}
