/** A newest-first history that keeps only its most recent entries: `[x, ...s].slice(0, 100)`. */
module Capped {

  /** How many entries the demo's logs keep. */
  const MaxEntries: nat := 100

  function PrependCapped<T>(x: T, s: seq<T>): (r: seq<T>)
    ensures 1 <= |r| <= MaxEntries && r[0] == x
  {
    var all := [x] + s;
    if |all| <= MaxEntries then all else all[..MaxEntries]
  }

  /**
   * The new entry comes first and the older ones follow in their previous order;
   * the length never exceeds the cap; below the cap nothing is lost, and at the
   * cap exactly the entries from position 99 on (the oldest) are dropped.
   */
  lemma PrependCappedShape<T>(x: T, s: seq<T>)
    ensures var r := PrependCapped(x, s);
            1 <= |r| <= MaxEntries && r[0] == x && r[1..] == s[..|r| - 1] &&
            (|s| < MaxEntries ==> r == [x] + s) &&
            (|s| >= MaxEntries ==> |r| == MaxEntries && r[1..] + s[MaxEntries - 1..] == s)
  {
  }
}
