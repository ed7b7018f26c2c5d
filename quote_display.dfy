/**
 * The quote panel: which of the ten quotes is shown and whether it is
 * visible. Each change first hides the quote and, in a separate later step,
 * moves the index and shows it again. `Math.random()` is a parameter `r` with
 * `0 <= r < 1`.
 */
module QuoteDisplay {

  /** The number of quotes in the fixed list. */
  const QuoteCount: nat := 10

  /** An index into the quote list. */
  predicate InRange(i: int)
  {
    0 <= i < QuoteCount
  }

  /** `Math.floor(r * quotes.length)`. */
  function RandomPick(r: real): (i: int)
    requires 0.0 <= r < 1.0
    ensures InRange(i)
  {
    (r * QuoteCount as real).Floor
  }

  /** Every index is drawn by some random number. */
  lemma RandomPickReachesAll(i: int)
    requires InRange(i)
    ensures RandomPick(i as real / QuoteCount as real) == i
  {
    assert (i as real / QuoteCount as real) * QuoteCount as real == i as real;
  }

  /** `(prev + 1) % quotes.length`: the following quote, wrapping after the last. */
  function NextIndex(prev: int): (i: int)
    requires InRange(prev)
    ensures InRange(i) && i != prev
    ensures prev < QuoteCount - 1 ==> i == prev + 1
    ensures prev == QuoteCount - 1 ==> i == 0
  {
    (prev + 1) % QuoteCount
  }

  /** The index after pressing "next quote" `k` times from `i`. */
  function Advance(i: int, k: nat): int
    requires InRange(i)
  {
    if k == 0 then i else NextIndex(Advance(i, k - 1))
  }

  /** How many presses lead from quote `i` to quote `j`. */
  function Distance(i: int, j: int): (k: nat)
    requires InRange(i) && InRange(j)
    ensures i + k == j || i + k == j + QuoteCount
  {
    if i <= j then j - i else j - i + QuoteCount
  }

  /** `k` presses move the index `k` places round the list. */
  lemma {:induction false} AdvanceIsRotation(i: int, k: nat)
    requires InRange(i)
    ensures InRange(Advance(i, k))
    ensures Advance(i, k) == (i + k) % QuoteCount
  {
    if k > 0 {
      AdvanceIsRotation(i, k - 1);
    }
  }

  /** Pressing "next quote" reaches every quote. */
  lemma RotationVisitsAll(i: int, j: int)
    requires InRange(i) && InRange(j)
    ensures Advance(i, Distance(i, j)) == j
  {
    AdvanceIsRotation(i, Distance(i, j));
  }

  /** Ten presses come back to the same quote. */
  lemma RotationReturns(i: int)
    requires InRange(i)
    ensures Advance(i, QuoteCount) == i
  {
    AdvanceIsRotation(i, QuoteCount);
  }

  /**
   * The auto-change step: the random pick, or the following quote when the
   * pick repeats the current one.
   */
  function AutoIndex(prev: int, r: real): (i: int)
    requires InRange(prev) && 0.0 <= r < 1.0
    ensures InRange(i) && i != prev
    ensures i == RandomPick(r) || i == NextIndex(prev)
  {
    var n := RandomPick(r);
    if n != prev then n else NextIndex(prev)
  }

  /** The auto-change step keeps a fresh pick, and replaces only a repeated one. */
  lemma AutoIndexKeepsFreshPick(prev: int, r: real)
    requires InRange(prev) && 0.0 <= r < 1.0
    ensures RandomPick(r) != prev <==> AutoIndex(prev, r) == RandomPick(r)
  {
  }

  /** The panel's state. */
  class QuoteView {
    const autoChange: bool
    var currentQuoteIndex: int
    var isVisible: bool

    /** `quotes[currentQuoteIndex]` is defined. */
    ghost predicate Valid()
      reads this
    {
      InRange(currentQuoteIndex)
    }

    /** A random first quote, shown. */
    constructor (autoChange: bool, r: real)
      requires 0.0 <= r < 1.0
      ensures Valid()
      ensures this.autoChange == autoChange
      ensures currentQuoteIndex == RandomPick(r) && isVisible
    {
      this.autoChange := autoChange;
      currentQuoteIndex := RandomPick(r);
      isVisible := true;
    }

    /** `handleNextQuote`, before its timer: hide the quote. */
    method HandleNextQuote()
      requires Valid()
      modifies this
      ensures Valid()
      ensures !isVisible && currentQuoteIndex == old(currentQuoteIndex)
    {
      isVisible := false;
    }

    /** The timer of `handleNextQuote`: move to the following quote and show it. */
    method FinishNextQuote()
      requires Valid()
      modifies this
      ensures Valid()
      ensures currentQuoteIndex == NextIndex(old(currentQuoteIndex)) && isVisible
    {
      currentQuoteIndex := NextIndex(currentQuoteIndex);
      isVisible := true;
    }

    /** One tick of the interval: hide the quote; no interval runs without `autoChange`. */
    method IntervalTick()
      requires Valid()
      modifies this
      ensures Valid()
      ensures currentQuoteIndex == old(currentQuoteIndex)
      ensures isVisible == (old(isVisible) && !autoChange)
    {
      if autoChange {
        isVisible := false;
      }
    }

    /**
     * The timer a tick schedules: move to a different quote and show it;
     * without `autoChange` nothing was scheduled and nothing changes.
     */
    method FinishAutoChange(r: real)
      requires Valid() && 0.0 <= r < 1.0
      modifies this
      ensures Valid()
      ensures autoChange ==> currentQuoteIndex == AutoIndex(old(currentQuoteIndex), r) && isVisible
      ensures !autoChange ==> currentQuoteIndex == old(currentQuoteIndex) && isVisible == old(isVisible)
    {
      if autoChange {
        currentQuoteIndex := AutoIndex(currentQuoteIndex, r);
        isVisible := true;
      }
    }
  }
}
