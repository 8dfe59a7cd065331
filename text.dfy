/** String searching and joining, as `std::string::find` and the
    separator-appending loops of the source do them. */
module Text {
  import opened Common

  /** `p` occurs in `s` starting at index `i`. */
  predicate OccursAt(s: string, p: string, i: nat) {
    i + |p| <= |s| && s[i..i + |p|] == p
  }

  /** `p` occurs somewhere in `s`. */
  predicate Contains(s: string, p: string) {
    exists i: nat :: i <= |s| && OccursAt(s, p, i)
  }

  /** `std::string::find(p, from)`: the first index at or after `from` where `p`
      occurs, or `None` for `npos`. */
  function Find(s: string, p: string, from: nat): (r: Option<nat>)
    ensures r.Some? ==> from <= r.value && OccursAt(s, p, r.value)
    ensures r.Some? ==> forall j: nat :: from <= j < r.value ==> !OccursAt(s, p, j)
    ensures r.None? ==> forall j: nat :: from <= j ==> !OccursAt(s, p, j)
    decreases |s| - from
  {
    if from + |p| > |s| then None
    else if s[from..from + |p|] == p then Some(from)
    else Find(s, p, from + 1)
  }

  /** Cutting `s` before an occurrence of `p` that is the first one leaves a
      prefix in which `p` does not occur. */
  lemma {:induction false} NoOccurrenceBeforeFirst(s: string, p: string, i: nat)
    requires |p| > 0 && i <= |s|
    requires forall j: nat :: j < i ==> !OccursAt(s, p, j)
    ensures !Contains(s[..i], p)
  {
    forall j: nat | j + |p| <= i
      ensures !OccursAt(s[..i], p, j)
    {
      assert s[..i][j..j + |p|] == s[j..j + |p|];
      assert !OccursAt(s, p, j);
    }
  }

  /** The separator the source's loops append after the item at index `i` of a
      list of `n` items: a comma, except after the last item. */
  function Separator(i: nat, n: nat): string {
    if i == n - 1 then "" else ","
  }

  /** The first `n` items of `items`, each followed by its separator: the
      string an appending loop holds after `n` iterations. */
  function Accumulated(items: seq<string>, n: nat): string
    requires n <= |items|
  {
    if n == 0 then "" else Accumulated(items, n - 1) + items[n - 1] + Separator(n - 1, |items|)
  }

  /** The items joined by commas. */
  function Join(items: seq<string>): string {
    if |items| == 0 then ""
    else if |items| == 1 then items[0]
    else items[0] + "," + Join(items[1..])
  }

  /** Appending every item with its separator joins the list by commas (no
      trailing comma). */
  lemma {:induction false} AccumulatedIsJoin(items: seq<string>)
    ensures Accumulated(items, |items|) == Join(items)
  {
    if |items| > 1 {
      AccumulatedShift(items, |items|);
      AccumulatedIsJoin(items[1..]);
    }
  }

  lemma {:induction false} AccumulatedShift(items: seq<string>, n: nat)
    requires 2 <= |items| && 1 <= n <= |items|
    ensures Accumulated(items, n) == items[0] + "," + Accumulated(items[1..], n - 1)
  {
    if n > 1 {
      AccumulatedShift(items, n - 1);
      assert items[1..][n - 2] == items[n - 1];
    }
  }
}
