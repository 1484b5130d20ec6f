/**
 * Values shared by every component of the order-book model: optional and
 * fallible results, the decoded wire form of an order-book snapshot, and
 * the left-to-right sum that Python's built-in `sum` computes.
 */
module Common {

  datatype Option<T> = None | Some(value: T)

  datatype Result<T, E> = Ok(value: T) | Err(error: E)

  /**
   * What Python's `float()` makes of one field of a wire level. A field that
   * raises (not a number, or missing because the level list is too short)
   * is `Unparsable`; the IEEE special values that `float()` accepts
   * ("inf", "-inf", "nan") are kept apart from the finite reals.
   */
  datatype Field = Unparsable | Finite(value: real) | PosInf | NegInf | NaN

  /** One `[priceString, sizeString, ...]` entry of a side of the book. */
  datatype RawLevel = RawLevel(price: Field, size: Field)

  /**
   * One decoded snapshot object: its `asks` and `bids` lists (a missing or
   * null list is the empty sequence), and the optional `instId` and `ts`.
   */
  datatype RawBook = RawBook(asks: seq<RawLevel>, bids: seq<RawLevel>,
                             instId: Option<string>, ts: Option<string>)

  /** Python's `sum(xs)`: a left fold starting from 0. */
  function Sum(xs: seq<real>): real
  {
    if xs == [] then 0.0 else Sum(xs[..|xs| - 1]) + xs[|xs| - 1]
  }

  lemma {:induction false} SumAppend(a: seq<real>, b: seq<real>)
    ensures Sum(a + b) == Sum(a) + Sum(b)
  {
    if b != [] {
      var b' := b[..|b| - 1];
      assert (a + b)[..|a + b| - 1] == a + b';
      SumAppend(a, b');
    } else {
      assert a + b == a;
    }
  }

  /** A sum of terms none of which exceeds `bound` is at most `|xs| * bound`. */
  lemma {:induction false} SumAtMost(xs: seq<real>, bound: real)
    requires forall i :: 0 <= i < |xs| ==> xs[i] <= bound
    ensures Sum(xs) <= (|xs| as real) * bound
  {
    if xs != [] {
      SumAtMost(xs[..|xs| - 1], bound);
    }
  }

  /** A sum of non-negative terms is non-negative. */
  lemma {:induction false} SumNonNegative(xs: seq<real>)
    requires forall i :: 0 <= i < |xs| ==> 0.0 <= xs[i]
    ensures 0.0 <= Sum(xs)
  {
    if xs != [] {
      SumNonNegative(xs[..|xs| - 1]);
    }
  }
}
