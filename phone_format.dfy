/**
 * Phone-number normalisation of the verifier: every character other than a
 * decimal digit or a dot is dropped and a single `+` is put in front.
 */
module PhoneFormat {

  /** The characters the pattern `[^0-9.]` leaves in place. */
  predicate IsKept(c: char) {
    '0' <= c <= '9' || c == '.'
  }

  /** The kept characters of `s`, in their original order. */
  function Keep(s: string): (r: string)
    ensures |r| <= |s|
    ensures forall i :: 0 <= i < |r| ==> IsKept(r[i])
  {
    if s == [] then [] else (if IsKept(s[0]) then [s[0]] else []) + Keep(s[1..])
  }

  /** Normalises a phone number: `+` followed by the kept characters. */
  function ParsePhone(s: string): (r: string)
    ensures |r| == |Keep(s)| + 1
    ensures r[0] == '+'
    ensures forall i :: 1 <= i < |r| ==> IsKept(r[i])
  {
    "+" + Keep(s)
  }

  /** Keep distributes over concatenation, so it preserves the order of what it keeps. */
  lemma {:induction false} KeepAppend(a: string, b: string)
    ensures Keep(a + b) == Keep(a) + Keep(b)
  {
    if a != [] {
      assert (a + b)[0] == a[0];
      assert (a + b)[1..] == a[1..] + b;
      KeepAppend(a[1..], b);
    } else {
      assert a + b == b;
    }
  }

  /** A string made only of kept characters is left as it is. */
  lemma {:induction false} KeepAllKept(s: string)
    requires forall i :: 0 <= i < |s| ==> IsKept(s[i])
    ensures Keep(s) == s
  {
    if s != [] {
      KeepAllKept(s[1..]);
    }
  }

  /** Every kept character occurs in the result exactly as often as in the input; the others not at all. */
  lemma {:induction false} KeepCounts(s: string, c: char)
    ensures multiset(Keep(s))[c] == if IsKept(c) then multiset(s)[c] else 0
  {
    if s != [] {
      var head := if IsKept(s[0]) then [s[0]] else [];
      KeepCounts(s[1..], c);
      assert Keep(s) == head + Keep(s[1..]);
      assert multiset(Keep(s)) == multiset(head) + multiset(Keep(s[1..]));
      assert s == [s[0]] + s[1..];
      assert multiset(s) == multiset([s[0]]) + multiset(s[1..]);
    }
  }

  lemma KeepIdempotent(s: string)
    ensures Keep(Keep(s)) == Keep(s)
  {
    KeepAllKept(Keep(s));
  }

  /** Normalising twice is normalising once: the added `+` is dropped again and re-added. */
  lemma ParsePhoneIdempotent(s: string)
    ensures ParsePhone(ParsePhone(s)) == ParsePhone(s)
  {
    var k := Keep(s);
    var plus: string := "+";
    assert plus[1..] == [];
    assert Keep(plus) == [];
    KeepAppend(plus, k);
    KeepIdempotent(s);
    assert Keep(plus + k) == k;
  }

  /**
   * A separator between two runs of digits and dots is dropped: for instance
   * `555-123` normalises to `+555123`.
   */
  lemma SeparatorDropped(a: string, sep: char, b: string)
    requires forall i :: 0 <= i < |a| ==> IsKept(a[i])
    requires forall i :: 0 <= i < |b| ==> IsKept(b[i])
    requires !IsKept(sep)
    ensures ParsePhone(a + [sep] + b) == "+" + a + b
  {
    KeepAppend(a + [sep], b);
    KeepAppend(a, [sep]);
    assert [sep][1..] == [];
    KeepAllKept(a);
    KeepAllKept(b);
  }

  /** Dots survive normalisation (the pattern keeps `.`), as many as the input had. */
  lemma DotsSurvive(s: string)
    ensures multiset(ParsePhone(s))['.'] == multiset(s)['.']
  {
    KeepCounts(s, '.');
    assert multiset(ParsePhone(s)) == multiset("+") + multiset(Keep(s));
  }
}
