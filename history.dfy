/**
 * The bounded input history that the stateful agent and the summarizer
 * both keep: push the new entry, then drop the single oldest entry when
 * the length exceeds the maximum (`push` followed by `remove(0)`).
 */
module History {

  function PushBounded(history: seq<string>, entry: string, max: nat): (r: seq<string>)
    ensures |history| <= max ==> |r| <= max
    ensures |r| >= 1 ==> r[|r| - 1] == entry
    ensures |history| + 1 <= max ==> r == history + [entry]
    ensures |history| + 1 > max ==> r == (history + [entry])[1..]
  {
    var pushed := history + [entry];
    if |pushed| > max then pushed[1..] else pushed
  }

  function Min(a: nat, b: nat): nat
  {
    if a <= b then a else b
  }

  /** The last `min(|s|, n)` entries of `s`, oldest first. */
  function LastN(s: seq<string>, n: nat): (r: seq<string>)
    ensures |r| == Min(|s|, n)
  {
    s[|s| - Min(|s|, n)..]
  }

  /** Pushing every entry of `entries` in turn. */
  function PushAll(history: seq<string>, entries: seq<string>, max: nat): seq<string>
    decreases |entries|
  {
    if entries == [] then history
    else PushAll(PushBounded(history, entries[0], max), entries[1..], max)
  }

  /**
   * Starting from a history within bounds, the history after any number
   * of pushes is the last `max` entries of everything pushed so far, in
   * order.
   */
  lemma {:induction false} PushAllKeepsLast(history: seq<string>, entries: seq<string>, max: nat)
    requires |history| <= max
    ensures PushAll(history, entries, max) == LastN(history + entries, max)
    decreases |entries|
  {
    if entries == [] {
      assert history + entries == history;
    } else {
      var next := PushBounded(history, entries[0], max);
      assert next == LastN(history + [entries[0]], max);
      PushAllKeepsLast(next, entries[1..], max);
      var all := history + entries;
      assert all == history + [entries[0]] + entries[1..];
      LastNOfLastN(history + [entries[0]], entries[1..], max);
    }
  }

  lemma LastNOfLastN(s: seq<string>, t: seq<string>, n: nat)
    ensures LastN(LastN(s, n) + t, n) == LastN(s + t, n)
  {
    var a := LastN(s, n) + t;
    var b := s + t;
    assert |a| - Min(|a|, n) + (|s| - Min(|s|, n)) >= |b| - Min(|b|, n);
    assert LastN(a, n) == LastN(b, n) by {
      forall i | 0 <= i < Min(|b|, n) ensures LastN(a, n)[i] == LastN(b, n)[i] {
        assert Min(|a|, n) == Min(|b|, n);
      }
    }
  }
}
