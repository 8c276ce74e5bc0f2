/** The bounded undo stack: newest entry last, at most `Capacity` entries, oldest dropped first. */
module UndoStack {

  const Capacity: nat := 50

  /** Push `x`; when the stack then holds more than `Capacity` entries, the oldest one is dropped. */
  function Push<T>(h: seq<T>, x: T): (r: seq<T>)
    ensures |h| < Capacity ==> r == h + [x]
    ensures |h| >= Capacity ==> r == h[1..] + [x]
    ensures |h| <= Capacity ==> |r| <= Capacity
    ensures |r| > 0 && r[|r| - 1] == x
  {
    var grown := h + [x];
    if |grown| > Capacity then grown[1..] else grown
  }

  /** The stack without its newest entry. */
  function Pop<T>(h: seq<T>): (r: seq<T>)
    requires |h| > 0
    ensures h == r + [h[|h| - 1]]
  {
    h[..|h| - 1]
  }

  /** Popping right after a push gives back the old stack, less its oldest entry when the push evicted one. */
  lemma PopAfterPush<T>(h: seq<T>, x: T)
    ensures Pop(Push(h, x)) == if |h| < Capacity then h else h[1..]
  {
  }
}
