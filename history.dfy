/**
 * The calculator's history list (add_to_history in calculator.py): a list
 * of at most three entries, oldest evicted first, and the small label that
 * shows the last two of them.
 */
module History {
  const Capacity: nat := 3
  const Separator: string := " | "

  /** One add_to_history: append, then pop the front once if the list grew past three. */
  function Push(h: seq<string>, entry: string): (r: seq<string>)
    ensures |h| < Capacity ==> r == h + [entry]
    ensures |h| >= Capacity ==> r == h[1..] + [entry]
    ensures |h| <= Capacity ==> |r| <= Capacity
    ensures |r| > 0 && r[|r| - 1] == entry
  {
    var appended := h + [entry];
    if |appended| > Capacity then appended[1..] else appended
  }

  /** " ".join(xs) with an arbitrary separator. */
  function Join(xs: seq<string>, sep: string): (r: string)
  {
    if |xs| == 0 then ""
    else if |xs| == 1 then xs[0]
    else xs[0] + sep + Join(xs[1..], sep)
  }

  /** The label text: the last two entries (all of them when fewer) joined by " | ". */
  function Summary(h: seq<string>): (r: string)
    ensures |h| == 0 ==> r == ""
    ensures |h| == 1 ==> r == h[0]
    ensures |h| >= 2 ==> r == h[|h| - 2] + Separator + h[|h| - 1]
  {
    var tail := if |h| <= 2 then h else h[|h| - 2..];
    assert |tail| == 2 ==> Join(tail[1..], Separator) == tail[1];
    Join(tail, Separator)
  }

  /** The last n elements of s, or all of s when it is shorter. */
  function LastN(s: seq<string>, n: nat): (r: seq<string>)
    ensures |r| == if |s| <= n then |s| else n
    ensures forall i :: 0 <= i < |r| ==> r[i] == s[|s| - |r| + i]
  {
    if |s| <= n then s else s[|s| - n..]
  }

  /** Several add_to_history calls in a row. */
  function PushAll(h: seq<string>, entries: seq<string>): (r: seq<string>)
    decreases |entries|
  {
    if entries == [] then h else PushAll(Push(h, entries[0]), entries[1..])
  }

  /** A single push keeps exactly the last three of old list plus new entry. */
  lemma PushIsLastThree(h: seq<string>, entry: string)
    requires |h| <= Capacity
    ensures Push(h, entry) == LastN(h + [entry], Capacity)
  {
  }

  lemma LastNAbsorbs(s: seq<string>, t: seq<string>, n: nat)
    ensures LastN(LastN(s, n) + t, n) == LastN(s + t, n)
  {
  }

  /**
   * Starting from a list of at most three, any run of additions leaves the
   * last three of everything ever added, in order: the FIFO eviction.
   */
  lemma {:induction false} PushAllKeepsLastThree(h: seq<string>, entries: seq<string>)
    requires |h| <= Capacity
    ensures PushAll(h, entries) == LastN(h + entries, Capacity)
    decreases |entries|
  {
    if entries == [] {
      assert h + entries == h;
    } else {
      var h' := Push(h, entries[0]);
      PushIsLastThree(h, entries[0]);
      PushAllKeepsLastThree(h', entries[1..]);
      LastNAbsorbs(h + [entries[0]], entries[1..], Capacity);
      assert h + [entries[0]] + entries[1..] == h + entries;
    }
  }

  /** After four additions to an empty list the first is gone and the label shows the last two. */
  lemma FourthEvictsFirst(a: string, b: string, c: string, d: string)
    ensures PushAll([], [a, b, c, d]) == [b, c, d]
    ensures Summary(PushAll([], [a, b, c, d])) == c + Separator + d
  {
    PushAllKeepsLastThree([], [a, b, c, d]);
  }
}
