/** String helpers that the level loader borrows from JavaScript's String:
    `toLowerCase` (restricted to ASCII) and `replace` with a string pattern,
    which replaces only the first occurrence. */
module Text {

  /** ASCII lower-casing of one character. */
  function LowerChar(c: char): char
  {
    if 'A' <= c <= 'Z' then (c as int + 32) as char else c
  }

  /** `s.toLowerCase()` on the ASCII range. */
  function Lower(s: string): (r: string)
    ensures |r| == |s|
    ensures forall i :: 0 <= i < |s| ==> r[i] == LowerChar(s[i])
  {
    if s == [] then [] else [LowerChar(s[0])] + Lower(s[1..])
  }

  /** `pat` occurs in `s` starting at index `k`. */
  predicate OccursAt(s: string, pat: string, k: int)
  {
    0 <= k && k + |pat| <= |s| && s[k..k + |pat|] == pat
  }

  /** `s.indexOf(pat, from)`: the first index at or after `from` where `pat`
      occurs, or -1 when there is none. */
  function IndexOf(s: string, pat: string, from: nat): (k: int)
    ensures k == -1 || (from <= k && OccursAt(s, pat, k))
    ensures k == -1 ==> forall m :: from <= m ==> !OccursAt(s, pat, m)
    ensures k != -1 ==> forall m :: from <= m < k ==> !OccursAt(s, pat, m)
    decreases |s| - from
  {
    if from + |pat| > |s| then -1
    else if OccursAt(s, pat, from) then from
    else IndexOf(s, pat, from + 1)
  }

  /** `s.replace(pat, rep)` for a string pattern: the first occurrence of `pat`
      is replaced by `rep`; when `pat` does not occur, `s` comes back unchanged. */
  function ReplaceFirst(s: string, pat: string, rep: string): (r: string)
    ensures (forall k :: !OccursAt(s, pat, k)) ==> r == s
    ensures forall k :: OccursAt(s, pat, k) && (forall m :: 0 <= m < k ==> !OccursAt(s, pat, m)) ==>
              r == s[..k] + rep + s[k + |pat|..]
  {
    var k := IndexOf(s, pat, 0);
    if k == -1 then s else s[..k] + rep + s[k + |pat|..]
  }

  /** The path rewrite the tileset loader performs: when the name holds ".tsx",
      the result holds ".json" at that place and is one character longer. */
  lemma {:induction false} TsxBecomesJson(s: string, k: nat)
    requires OccursAt(s, ".tsx", k)
    requires forall m :: 0 <= m < k ==> !OccursAt(s, ".tsx", m)
    ensures var r := ReplaceFirst(s, ".tsx", ".json");
      |r| == |s| + 1 && OccursAt(r, ".json", k) && r[..k] == s[..k]
  {
    var r := ReplaceFirst(s, ".tsx", ".json");
    assert r == s[..k] + ".json" + s[k + 4..];
    assert r[k..k + 5] == ".json";
  }
}
