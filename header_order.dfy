/**
 * The order in which the pin tables of Hobot/GPIO/gpio_pin_data.py list the
 * pins of the 40-pin header, and the fact that a column listed in that order
 * names no pin twice.
 */
module HeaderOrder {
  /** No value occurs twice. */
  predicate DistinctInts(s: seq<int>) {
    forall i, j | 0 <= i < j < |s| :: s[i] != s[j]
  }

  /**
   * The position of a header pin in the order the tables list their pins:
   * the odd pins first, then the even ones, each ascending.  The pins of a
   * 40-pin header are numbered below 64, so every even pin ranks after
   * every odd one.
   */
  function HeaderRank(b: int): int {
    if b % 2 == 1 then b else 64 + b
  }

  predicate HeaderSorted(s: seq<int>) {
    forall i | 0 <= i < |s| - 1 :: HeaderRank(s[i]) < HeaderRank(s[i + 1])
  }

  /** A column listed in header order names every header pin at most once. */
  lemma {:induction false} HeaderSortedDistinct(s: seq<int>)
    requires HeaderSorted(s)
    ensures DistinctInts(s)
  {
    forall i, j | 0 <= i < j < |s| ensures s[i] != s[j] {
      HeaderSortedBefore(s, i, j);
    }
  }

  lemma {:induction false} HeaderSortedBefore(s: seq<int>, i: nat, j: nat)
    requires HeaderSorted(s) && i < j < |s|
    ensures HeaderRank(s[i]) < HeaderRank(s[j])
    decreases j - i
  {
    if i + 1 < j {
      HeaderSortedBefore(s, i + 1, j);
    }
  }

  /** The BOARD numbers of the 28-pin tables, without the supply and ground pins. */
  const HeaderPins: seq<int> := [3, 5, 7, 11, 13, 15, 19, 21, 23, 27, 29, 31, 33, 35, 37, 8, 10, 12, 16, 18, 22, 24, 26, 28, 32, 36, 38, 40]

  /** The SDB v3 table lacks header pins 27 and 28. */
  const HeaderPinsSdbv3: seq<int> := [3, 5, 7, 11, 13, 15, 19, 21, 23, 29, 31, 33, 35, 37, 8, 10, 12, 16, 18, 22, 24, 26, 32, 36, 38, 40]

  /** The X5 EVB table lacks header pin 36. */
  const HeaderPinsEvbX5: seq<int> := [3, 5, 7, 11, 13, 15, 19, 21, 23, 27, 29, 31, 33, 35, 37, 8, 10, 12, 16, 18, 22, 24, 26, 28, 32, 38, 40]

  /** The neighbouring pairs of `s` from position `lo` up to `hi` are in header order. */
  predicate RisesBetween(s: seq<int>, lo: nat, hi: nat) {
    forall i | lo <= i < hi && i + 1 < |s| :: HeaderRank(s[i]) < HeaderRank(s[i + 1])
  }

  lemma HeaderPinsLow()
    ensures RisesBetween(HeaderPins, 0, 13)
  {
    // one case per neighbouring pair, so that each reads two literals
    forall i | 0 <= i < 13 && i + 1 < |HeaderPins| ensures HeaderRank(HeaderPins[i]) < HeaderRank(HeaderPins[i + 1]) {
      if i == 0 {} else if i == 1 {} else if i == 2 {} else if i == 3 {} else if i == 4 {}
      else if i == 5 {} else if i == 6 {} else if i == 7 {} else if i == 8 {} else if i == 9 {}
      else if i == 10 {} else if i == 11 {} else if i == 12 {}
    }
  }

  lemma HeaderPinsHigh()
    ensures RisesBetween(HeaderPins, 13, 27)
  {
    // one case per neighbouring pair, so that each reads two literals
    forall i | 13 <= i < 27 && i + 1 < |HeaderPins| ensures HeaderRank(HeaderPins[i]) < HeaderRank(HeaderPins[i + 1]) {
      if i == 13 {} else if i == 14 {} else if i == 15 {} else if i == 16 {} else if i == 17 {}
      else if i == 18 {} else if i == 19 {} else if i == 20 {} else if i == 21 {} else if i == 22 {}
      else if i == 23 {} else if i == 24 {} else if i == 25 {} else if i == 26 {}
    }
  }

  lemma HeaderPinsSorted()
    ensures HeaderSorted(HeaderPins)
  {
    HeaderPinsLow();
    HeaderPinsHigh();
  }

  lemma HeaderPinsSdbv3Low()
    ensures RisesBetween(HeaderPinsSdbv3, 0, 12)
  {
    // one case per neighbouring pair, so that each reads two literals
    forall i | 0 <= i < 12 && i + 1 < |HeaderPinsSdbv3| ensures HeaderRank(HeaderPinsSdbv3[i]) < HeaderRank(HeaderPinsSdbv3[i + 1]) {
      if i == 0 {} else if i == 1 {} else if i == 2 {} else if i == 3 {} else if i == 4 {}
      else if i == 5 {} else if i == 6 {} else if i == 7 {} else if i == 8 {} else if i == 9 {}
      else if i == 10 {} else if i == 11 {}
    }
  }

  lemma HeaderPinsSdbv3High()
    ensures RisesBetween(HeaderPinsSdbv3, 12, 25)
  {
    // one case per neighbouring pair, so that each reads two literals
    forall i | 12 <= i < 25 && i + 1 < |HeaderPinsSdbv3| ensures HeaderRank(HeaderPinsSdbv3[i]) < HeaderRank(HeaderPinsSdbv3[i + 1]) {
      if i == 12 {} else if i == 13 {} else if i == 14 {} else if i == 15 {} else if i == 16 {}
      else if i == 17 {} else if i == 18 {} else if i == 19 {} else if i == 20 {} else if i == 21 {}
      else if i == 22 {} else if i == 23 {} else if i == 24 {}
    }
  }

  lemma HeaderPinsSdbv3Sorted()
    ensures HeaderSorted(HeaderPinsSdbv3)
  {
    HeaderPinsSdbv3Low();
    HeaderPinsSdbv3High();
  }

  lemma HeaderPinsEvbX5Low()
    ensures RisesBetween(HeaderPinsEvbX5, 0, 13)
  {
    // one case per neighbouring pair, so that each reads two literals
    forall i | 0 <= i < 13 && i + 1 < |HeaderPinsEvbX5| ensures HeaderRank(HeaderPinsEvbX5[i]) < HeaderRank(HeaderPinsEvbX5[i + 1]) {
      if i == 0 {} else if i == 1 {} else if i == 2 {} else if i == 3 {} else if i == 4 {}
      else if i == 5 {} else if i == 6 {} else if i == 7 {} else if i == 8 {} else if i == 9 {}
      else if i == 10 {} else if i == 11 {} else if i == 12 {}
    }
  }

  lemma HeaderPinsEvbX5High()
    ensures RisesBetween(HeaderPinsEvbX5, 13, 26)
  {
    // one case per neighbouring pair, so that each reads two literals
    forall i | 13 <= i < 26 && i + 1 < |HeaderPinsEvbX5| ensures HeaderRank(HeaderPinsEvbX5[i]) < HeaderRank(HeaderPinsEvbX5[i + 1]) {
      if i == 13 {} else if i == 14 {} else if i == 15 {} else if i == 16 {} else if i == 17 {}
      else if i == 18 {} else if i == 19 {} else if i == 20 {} else if i == 21 {} else if i == 22 {}
      else if i == 23 {} else if i == 24 {} else if i == 25 {}
    }
  }

  lemma HeaderPinsEvbX5Sorted()
    ensures HeaderSorted(HeaderPinsEvbX5)
  {
    HeaderPinsEvbX5Low();
    HeaderPinsEvbX5High();
  }
}
