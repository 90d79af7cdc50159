/** The two string operations every catalog page uses for its search box:
    `toLowerCase`, restricted to ASCII, and `includes`, the substring test. */
module Text {

  /** Lower-cases one character: 'A'..'Z' become 'a'..'z', everything else
      is left alone. */
  function LowerChar(c: char): (r: char)
    ensures 'A' <= c <= 'Z' ==> r as int == c as int + 32
    ensures !('A' <= c <= 'Z') ==> r == c
    ensures !('A' <= r <= 'Z')
  {
    if 'A' <= c <= 'Z' then (c as int + 32) as char else c
  }

  /** `toLowerCase`, character by character. */
  function Lower(s: string): (r: string)
    ensures |r| == |s|
    ensures forall i :: 0 <= i < |s| ==> r[i] == LowerChar(s[i])
  {
    seq(|s|, i requires 0 <= i < |s| => LowerChar(s[i]))
  }

  /** The needle `n` sits in `h` starting at position `i`. */
  ghost predicate OccursAt(h: string, n: string, i: int)
  {
    0 <= i && i + |n| <= |h| && h[i..i + |n|] == n
  }

  /** `h.includes(n)`: true when `n` occurs somewhere in `h`; the empty
      string occurs in every string. */
  function Includes(h: string, n: string): (r: bool)
    ensures r <==> exists i :: OccursAt(h, n, i)
    decreases |h|
  {
    if n <= h then
      assert OccursAt(h, n, 0);
      true
    else if |h| == 0 then
      false
    else
      var rest := Includes(h[1..], n);
      assert forall i :: OccursAt(h[1..], n, i) ==> OccursAt(h, n, i + 1);
      assert forall i :: OccursAt(h, n, i) && i > 0 ==> OccursAt(h[1..], n, i - 1);
      rest
  }

  /** Lower-casing a lower-cased string changes nothing more. */
  lemma LowerIdempotent(s: string)
    ensures Lower(Lower(s)) == Lower(s)
  {
  }

  /** The empty query is found in every field. */
  lemma EmptyIncluded(h: string)
    ensures Includes(h, "")
  {
    assert OccursAt(h, "", 0);
  }

  /** Lower-casing both sides keeps an occurrence where it was. */
  lemma LowerKeepsOccurrence(h: string, n: string, i: int)
    requires OccursAt(h, n, i)
    ensures OccursAt(Lower(h), Lower(n), i)
  {
    assert forall k :: 0 <= k < |n| ==> h[i + k] == n[k];
    assert Lower(h)[i..i + |n|] == Lower(n);
  }

  /** Case-sensitive containment implies case-insensitive containment. */
  lemma LowerKeepsIncludes(h: string, n: string)
    requires Includes(h, n)
    ensures Includes(Lower(h), Lower(n))
  {
    var i :| OccursAt(h, n, i);
    LowerKeepsOccurrence(h, n, i);
  }

  /** Containment is transitive: a piece of a piece of `h` is a piece of `h`. */
  lemma IncludesTransitive(h: string, m: string, n: string)
    requires Includes(h, m) && Includes(m, n)
    ensures Includes(h, n)
  {
    var i :| OccursAt(h, m, i);
    var j :| OccursAt(m, n, j);
    assert forall k :: 0 <= k < |n| ==> h[i + j + k] == m[j + k] == n[k];
    assert h[i + j..i + j + |n|] == n;
    assert OccursAt(h, n, i + j);
  }

  /** Typing one more character extends the query, and the old query is a
      piece of the new one. */
  lemma PrefixIncluded(q: string, more: string)
    ensures Includes(q + more, q)
  {
    assert (q + more)[0..|q|] == q;
    assert OccursAt(q + more, q, 0);
  }
}
