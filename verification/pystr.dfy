/** The few Python `str` operations the extraction code relies on, with their Python semantics. */
module PyStr {
  import opened Wrappers

  /** `s.find(c)`: index of the first occurrence of `c`, or -1 when there is none. */
  function Find(s: string, c: char): (r: int)
    ensures -1 <= r < |s|
    ensures r == -1 <==> c !in s
    ensures r >= 0 ==> s[r] == c && forall i | 0 <= i < r :: s[i] != c
  {
    if |s| == 0 then -1
    else if s[0] == c then 0
    else
      var k := Find(s[1..], c);
      if k == -1 then -1 else k + 1
  }

  /** `s.rfind(c)`: index of the last occurrence of `c`, or -1 when there is none. */
  function RFind(s: string, c: char): (r: int)
    ensures -1 <= r < |s|
    ensures r == -1 <==> c !in s
    ensures r >= 0 ==> s[r] == c && forall i | r < i < |s| :: s[i] != c
  {
    if |s| == 0 then -1
    else if s[|s| - 1] == c then |s| - 1
    else RFind(s[..|s| - 1], c)
  }

  /** `s[start:end]` for non-negative bounds: both are clamped to `|s|`, and the slice is empty
      when the clamped end does not lie after the clamped start. */
  function Slice(s: string, start: nat, end: nat): (r: string)
    ensures |r| == if start < end && start < |s| then (if end < |s| then end else |s|) - start else 0
    ensures forall i | 0 <= i < |r| :: r[i] == s[start + i]
  {
    var lo := if start < |s| then start else |s|;
    var hi := if end < |s| then end else |s|;
    if lo < hi then s[lo..hi] else []
  }

  /** `s.startswith(p)`: `p` agrees with `s` character by character at its start. */
  function StartsWith(s: string, p: string): (b: bool)
    ensures b <==> |p| <= |s| && forall i | 0 <= i < |p| :: s[i] == p[i]
  {
    |p| <= |s| && s[..|p|] == p
  }

  /** `s.split(sep, 1)[1]`: everything after the first `sep`; `None` stands for the IndexError
      Python raises when `sep` does not occur and the split yields a single piece. */
  function AfterFirst(s: string, sep: char): (r: Option<string>)
    ensures r.None? <==> sep !in s
    ensures r.Some? ==> exists k | 0 <= k < |s| :: s[k] == sep && sep !in s[..k] && r.value == s[k + 1..]
  {
    var k := Find(s, sep);
    if k == -1 then None else Some(s[k + 1..])
  }

  /** The first occurrence is the only index holding `c` with no `c` before it. */
  lemma FindUnique(s: string, c: char, k: int)
    requires 0 <= k < |s| && s[k] == c && forall i | 0 <= i < k :: s[i] != c
    ensures Find(s, c) == k
  {
  }

  /** The last occurrence is the only index holding `c` with no `c` after it. */
  lemma RFindUnique(s: string, c: char, k: int)
    requires 0 <= k < |s| && s[k] == c && forall i | k < i < |s| :: s[i] != c
    ensures RFind(s, c) == k
  {
  }
}
