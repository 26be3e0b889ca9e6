/** Text matching used by the query layer: the store's case-insensitive
    substring lookup (`icontains`), with ASCII case folding. */
module Text {

  /** Folds one ASCII capital to lower case; every other character is kept. */
  function LowerChar(c: char): char {
    if 'A' <= c <= 'Z' then (c as int - 'A' as int + 'a' as int) as char else c
  }

  function Lower(s: string): string {
    seq(|s|, i requires 0 <= i < |s| => LowerChar(s[i]))
  }

  /** Raises one ASCII small letter to upper case; every other character is
      kept. Only used to state that a match ignores case. */
  function UpperChar(c: char): char {
    if 'a' <= c <= 'z' then (c as int - 'a' as int + 'A' as int) as char else c
  }

  function Upper(s: string): string {
    seq(|s|, i requires 0 <= i < |s| => UpperChar(s[i]))
  }

  /** `needle` occurs in `hay` as one contiguous run, read from the left. */
  predicate Contains(hay: string, needle: string)
    decreases |hay|
  {
    needle <= hay || (hay != [] && Contains(hay[1..], needle))
  }

  /** The offset-based reading of "occurs in": the slice at `i` is `needle`. */
  ghost predicate OccursAt(hay: string, needle: string, i: int) {
    0 <= i && i + |needle| <= |hay| && hay[i..i + |needle|] == needle
  }

  /** Case-insensitive substring test, as `field__icontains=needle`. */
  predicate IContains(hay: string, needle: string) {
    Contains(Lower(hay), Lower(needle))
  }

  /** The scanning definition of Contains agrees with the offset definition. */
  lemma {:induction false} ContainsIffOccurs(hay: string, needle: string)
    ensures Contains(hay, needle) <==> exists i :: OccursAt(hay, needle, i)
    decreases |hay|
  {
    if needle <= hay {
      assert OccursAt(hay, needle, 0);
    } else if hay != [] {
      ContainsIffOccurs(hay[1..], needle);
      if exists j :: OccursAt(hay[1..], needle, j) {
        var j :| OccursAt(hay[1..], needle, j);
        assert hay[1..][j..j + |needle|] == hay[j + 1..j + 1 + |needle|];
        assert OccursAt(hay, needle, j + 1);
      }
      if exists i :: OccursAt(hay, needle, i) {
        var i :| OccursAt(hay, needle, i);
        // i == 0 would make needle a prefix of hay
        assert hay[1..][i - 1..i - 1 + |needle|] == hay[i..i + |needle|];
        assert OccursAt(hay[1..], needle, i - 1);
      }
    }
  }

  /** Folding is idempotent, so a needle or a field already in lower case
      matches exactly as the original does. */
  lemma LowerIdempotent(s: string)
    ensures Lower(Lower(s)) == Lower(s)
  {
    assert forall i | 0 <= i < |s| :: LowerChar(LowerChar(s[i])) == LowerChar(s[i]);
  }

  /** Raising a text to upper case and folding it gives what folding alone gives. */
  lemma LowerOfUpper(s: string)
    ensures Lower(Upper(s)) == Lower(s)
  {
    assert forall i | 0 <= i < |s| :: LowerChar(UpperChar(s[i])) == LowerChar(s[i]);
  }

  /** Case never decides a match: writing either side in lower case or in
      upper case first changes nothing. */
  lemma IContainsIgnoresCase(hay: string, needle: string)
    ensures IContains(Lower(hay), needle) == IContains(hay, needle)
    ensures IContains(hay, Lower(needle)) == IContains(hay, needle)
    ensures IContains(Upper(hay), needle) == IContains(hay, needle)
    ensures IContains(hay, Upper(needle)) == IContains(hay, needle)
  {
    LowerIdempotent(hay);
    LowerIdempotent(needle);
    LowerOfUpper(hay);
    LowerOfUpper(needle);
  }
}
