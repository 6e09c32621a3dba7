/** The two string operations the catalog search uses: lower-casing (over
    ASCII letters) and substring containment. */
module Text {

  predicate IsUpper(c: char) {
    'A' <= c <= 'Z'
  }

  /** Lower-cases one character: an ASCII capital becomes the same letter in
      lower case, every other character is kept. */
  function LowerChar(c: char): (r: char)
    ensures !IsUpper(r)
    ensures IsUpper(c) ==> 'a' <= r <= 'z' && r as int - 'a' as int == c as int - 'A' as int
    ensures !IsUpper(c) ==> r == c
  {
    if IsUpper(c) then (c as int - 'A' as int + 'a' as int) as char else c
  }

  /** Lower-cases a string character by character. */
  function Lower(s: string): (r: string)
    ensures |r| == |s|
    ensures forall i :: 0 <= i < |s| ==> r[i] == LowerChar(s[i])
  {
    if s == [] then [] else [LowerChar(s[0])] + Lower(s[1..])
  }

  /** Lower-casing twice is lower-casing once. */
  lemma LowerIdempotent(s: string)
    ensures Lower(Lower(s)) == Lower(s)
  {
  }

  /** `text` contains `pat` starting at index `i`. */
  ghost predicate OccursAt(text: string, pat: string, i: int) {
    0 <= i && i + |pat| <= |text| && text[i..i + |pat|] == pat
  }

  /** Substring containment: tries every start position from the left. The
      empty pattern is contained in every text. */
  function Includes(text: string, pat: string): bool
    decreases |text|
  {
    if |pat| > |text| then false
    else if text[..|pat|] == pat then true
    else Includes(text[1..], pat)
  }

  /** `Includes` holds exactly when the pattern occurs at some position. */
  lemma {:induction false} IncludesIffOccurs(text: string, pat: string)
    ensures Includes(text, pat) <==> exists i :: OccursAt(text, pat, i)
    decreases |text|
  {
    if |pat| > |text| {
      forall i ensures !OccursAt(text, pat, i) { }
    } else if text[..|pat|] == pat {
      assert OccursAt(text, pat, 0);
    } else {
      IncludesIffOccurs(text[1..], pat);
      if i :| OccursAt(text[1..], pat, i) {
        assert text[1..][i..i + |pat|] == text[i + 1..i + 1 + |pat|];
        assert OccursAt(text, pat, i + 1);
      }
      if j :| OccursAt(text, pat, j) {
        assert j != 0;
        assert text[1..][j - 1..j - 1 + |pat|] == text[j..j + |pat|];
        assert OccursAt(text[1..], pat, j - 1);
      }
    }
  }

  /** The search test of the catalog: `name` contains `query` when both are
      lower-cased. */
  predicate ContainsIgnoringCase(name: string, query: string) {
    Includes(Lower(name), Lower(query))
  }

  /** The search test does not depend on the case of either argument. */
  lemma ContainsIgnoringCaseIsCaseBlind(name: string, query: string)
    ensures ContainsIgnoringCase(Lower(name), query) == ContainsIgnoringCase(name, query)
    ensures ContainsIgnoringCase(name, Lower(query)) == ContainsIgnoringCase(name, query)
  {
    LowerIdempotent(name);
    LowerIdempotent(query);
  }

  /** An empty query is contained in every name. */
  lemma EmptyQueryMatches(name: string)
    ensures ContainsIgnoringCase(name, "")
  {
  }
}
