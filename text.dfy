/** The two string operations the meal engine uses: Python's case-sensitive
    substring test `sub in s`, and `sep.join(items)`. */
module Text {

  /** `sub` occurs in `s` starting at index `i`. */
  predicate OccursAt(s: string, sub: string, i: int) {
    0 <= i && i + |sub| <= |s| && s[i..i + |sub|] == sub
  }

  /** Python's `sub in s`: `sub` is a contiguous piece of `s`, matched
      character by character (no case folding). */
  predicate Contains(s: string, sub: string) {
    exists i | 0 <= i <= |s| - |sub| :: OccursAt(s, sub, i)
  }

  /** A witness position is enough to show `sub in s`. */
  lemma ContainsAt(s: string, sub: string, i: int)
    requires OccursAt(s, sub, i)
    ensures Contains(s, sub)
  {
  }

  /** Every occurrence of `sub` in `s` shows each pair of neighbouring
      characters of `sub` side by side in `s`. */
  lemma PairOfOccurrence(s: string, sub: string, k: int)
    requires 0 <= k && k + 1 < |sub|
    ensures Contains(s, sub) ==>
      exists i :: 0 <= i < |s| - 1 && s[i] == sub[k] && s[i + 1] == sub[k + 1]
  {
    if Contains(s, sub) {
      var j :| 0 <= j <= |s| - |sub| && OccursAt(s, sub, j);
      assert s[j..j + |sub|][k] == s[j + k] && s[j..j + |sub|][k + 1] == s[j + k + 1];
    }
  }

  /** The characters `a` and `b` never stand side by side, in that order,
      in `s`. */
  predicate PairAbsent(s: string, a: char, b: char) {
    forall i :: 0 <= i < |s| - 1 ==> !(s[i] == a && s[i + 1] == b)
  }

  /** If two neighbouring characters of `sub` never stand next to each
      other in `s`, then `sub` does not occur in `s`. */
  lemma AbsentPair(s: string, sub: string, k: int)
    requires 0 <= k && k + 1 < |sub|
    requires PairAbsent(s, sub[k], sub[k + 1])
    ensures !Contains(s, sub)
  {
    PairOfOccurrence(s, sub, k);
  }

  /** Python's `sep.join(items)`. */
  function Join(items: seq<string>, sep: string): (r: string)
    ensures items == [] ==> r == ""
    ensures items != [] ==> OccursAt(r, items[0], 0)
  {
    if items == [] then ""
    else if |items| == 1 then items[0]
    else items[0] + sep + Join(items[1..], sep)
  }

  /** Every item of the list is shown, in full, in the joined text. */
  lemma {:induction false} JoinShowsEveryItem(items: seq<string>, sep: string, k: int)
    requires 0 <= k < |items|
    ensures Contains(Join(items, sep), items[k])
    decreases |items|
  {
    if k == 0 {
      ContainsAt(Join(items, sep), items[0], 0);
    } else {
      JoinShowsEveryItem(items[1..], sep, k - 1);
      assert Join(items, sep) == items[0] + sep + Join(items[1..], sep);
      ContainsAfterPrefix(items[0] + sep, Join(items[1..], sep), items[k]);
    }
  }

  /** What occurs in `rest` occurs in `prefix + rest`. */
  lemma ContainsAfterPrefix(prefix: string, rest: string, sub: string)
    requires Contains(rest, sub)
    ensures Contains(prefix + rest, sub)
  {
    var i :| 0 <= i <= |rest| - |sub| && OccursAt(rest, sub, i);
    OccursAfterPrefix(prefix, rest, sub, i);
    ContainsAt(prefix + rest, sub, |prefix| + i);
  }

  /** An occurrence in `rest` is one in `prefix + rest`, shifted by the
      prefix's length. */
  lemma OccursAfterPrefix(prefix: string, rest: string, sub: string, i: int)
    requires OccursAt(rest, sub, i)
    ensures OccursAt(prefix + rest, sub, |prefix| + i)
  {
  }

  /** The length of the joined text: every item, and one separator between
      each two neighbours. */
  lemma {:induction false} JoinLength(items: seq<string>, sep: string)
    requires items != []
    ensures |Join(items, sep)| == TotalLength(items) + (|items| - 1) * |sep|
    decreases |items|
  {
    if |items| > 1 {
      JoinLength(items[1..], sep);
    }
  }

  function TotalLength(items: seq<string>): nat {
    if items == [] then 0 else |items[0]| + TotalLength(items[1..])
  }
}
