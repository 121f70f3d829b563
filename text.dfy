/** Python's substring tests on `str`: `s.startswith(p)` and `p in s`. */
module Text {

  predicate StartsWith(s: string, prefix: string) {
    |prefix| <= |s| && s[..|prefix|] == prefix
  }

  /** `t` occurs in `s` at position `i`. */
  predicate OccursAt(t: string, s: string, i: int) {
    0 <= i && i + |t| <= |s| && s[i..i + |t|] == t
  }

  /** `t` occurs somewhere in `s`. */
  ghost predicate Occurs(t: string, s: string) {
    exists i :: 0 <= i <= |s| && OccursAt(t, s, i)
  }

  /** `t in s`: tries every start position from the left. */
  predicate Contains(s: string, t: string)
    decreases |s|
  {
    if |t| > |s| then false
    else if s[..|t|] == t then true
    else Contains(s[1..], t)
  }

  /** The scan finds `t` exactly when it occurs somewhere. */
  lemma {:induction false} ContainsIffOccurs(s: string, t: string)
    ensures Contains(s, t) <==> Occurs(t, s)
    decreases |s|
  {
    if |t| > |s| {
    } else if s[..|t|] == t {
      assert OccursAt(t, s, 0);
    } else {
      ContainsIffOccurs(s[1..], t);
      if Occurs(t, s[1..]) {
        var i :| 0 <= i <= |s[1..]| && OccursAt(t, s[1..], i);
        assert s[1..][i..i + |t|] == s[i + 1..i + 1 + |t|];
        assert OccursAt(t, s, i + 1);
      }
      if Occurs(t, s) {
        var i :| 0 <= i <= |s| && OccursAt(t, s, i);
        assert i != 0;
        assert s[1..][i - 1..i - 1 + |t|] == s[i..i + |t|];
        assert OccursAt(t, s[1..], i - 1);
      }
    }
  }

  /** Every string is found inside any string that embeds it. */
  lemma ContainsEmbedded(x: string, t: string, y: string)
    ensures Contains(x + t + y, t)
  {
    assert OccursAt(t, x + t + y, |x|) by {
      assert (x + t + y)[|x|..|x| + |t|] == t;
    }
    ContainsIffOccurs(x + t + y, t);
  }
}
