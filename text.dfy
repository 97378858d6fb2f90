/** Python's substring test `key in s` on strings, with the lemmas the
    keyword dispatchers need to decide it on concrete messages. */
module Text {

  /** `key` occurs in `s` starting at offset `i`. */
  predicate OccursAt(s: string, key: string, i: int) {
    0 <= i <= |s| - |key| && s[i..i + |key|] == key
  }

  /** `key in s`: `key` occurs in `s` at some offset. The empty key occurs in
      every string, as in Python. */
  predicate Contains(s: string, key: string) {
    exists i | 0 <= i <= |s| - |key| :: OccursAt(s, key, i)
  }

  /** A string ending in `key` contains it. */
  lemma ContainsSuffix(a: string, key: string)
    ensures Contains(a + key, key)
  {
    var s := a + key;
    assert s[|a|..|a| + |key|] == key;
    assert OccursAt(s, key, |a|);
  }

  /** Appending text keeps every occurrence. */
  lemma ContainsExtended(s: string, key: string, t: string)
    requires Contains(s, key)
    ensures Contains(s + t, key)
  {
    var i :| 0 <= i <= |s| - |key| && OccursAt(s, key, i);
    assert (s + t)[i..i + |key|] == s[i..i + |key|];
    assert OccursAt(s + t, key, i);
  }

  /** A key with a character that `s` lacks cannot occur in `s`. */
  lemma MissingCharExcludes(s: string, key: string, c: char)
    requires c in key
    requires c !in s
    ensures !Contains(s, key)
  {
    var j :| 0 <= j < |key| && key[j] == c;
    forall i | 0 <= i <= |s| - |key|
      ensures !OccursAt(s, key, i)
    {
      assert s[i..i + |key|][j] == s[i + j];
    }
  }

  /** Occurrence is transitive: a piece of an occurring key occurs too. */
  lemma ContainsTransitive(s: string, key: string, piece: string)
    requires Contains(s, key)
    requires Contains(key, piece)
    ensures Contains(s, piece)
  {
    var i :| 0 <= i <= |s| - |key| && OccursAt(s, key, i);
    var j :| 0 <= j <= |key| - |piece| && OccursAt(key, piece, j);
    forall k | 0 <= k < |piece|
      ensures s[i + j + k] == piece[k]
    {
      assert key[j..j + |piece|][k] == key[j + k];
      assert s[i..i + |key|][j + k] == s[i + j + k];
    }
    assert s[i + j..i + j + |piece|] == piece;
    assert OccursAt(s, piece, i + j);
  }

  /** A two-character key occurs in `a + b` only inside `a`, inside `b`, or
      across the seam. */
  lemma PairAcrossAppend(a: string, b: string, pair: string)
    requires |pair| == 2
    requires !Contains(a, pair)
    requires !Contains(b, pair)
    requires |a| == 0 || |b| == 0 || a[|a| - 1] != pair[0] || b[0] != pair[1]
    ensures !Contains(a + b, pair)
  {
    var s := a + b;
    forall i | 0 <= i <= |s| - 2
      ensures !OccursAt(s, pair, i)
    {
      if i + 2 <= |a| {
        assert a[i..i + 2] == s[i..i + 2];
        assert !OccursAt(a, pair, i);
      } else if i >= |a| {
        assert b[i - |a|..i - |a| + 2] == s[i..i + 2];
        assert !OccursAt(b, pair, i - |a|);
      } else {
        assert s[i..i + 2][0] == a[|a| - 1] && s[i..i + 2][1] == b[0];
      }
    }
  }

  /** A two-character key whose first or second character is missing from
      `s` does not occur in `s`. */
  lemma PairMissingSide(s: string, pair: string)
    requires |pair| == 2
    requires pair[0] !in s || pair[1] !in s
    ensures !Contains(s, pair)
  {
    if pair[0] !in s {
      MissingCharExcludes(s, pair, pair[0]);
    } else {
      MissingCharExcludes(s, pair, pair[1]);
    }
  }

  /** A string without some piece of `key` does not contain `key`. */
  lemma PieceMissingExcludes(s: string, key: string, piece: string)
    requires Contains(key, piece)
    requires !Contains(s, piece)
    ensures !Contains(s, key)
  {
    if Contains(s, key) {
      ContainsTransitive(s, key, piece);
    }
  }
}
