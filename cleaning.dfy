/** The input cleaner shared by the facades (src/Traits/Clean.php): one
    regular-expression replacement that deletes every character outside
    `0123456789-+`. */
module Cleaning {

  /** The characters the cleaner keeps: the pattern `0123456789-+`. */
  predicate Allowed(c: char) {
    '0' <= c <= '9' || c == '-' || c == '+'
  }

  /** `preg_replace("/[^0-9\-+]/", '', $s)`: total, it never fails. */
  function Clean(s: string): (r: string)
    ensures |r| <= |s|
    ensures forall i :: 0 <= i < |r| ==> Allowed(r[i])
  {
    if s == [] then []
    else if Allowed(s[0]) then [s[0]] + Clean(s[1..])
    else Clean(s[1..])
  }

  /** `a` can be obtained from `b` by deleting characters. */
  ghost predicate Subsequence(a: string, b: string)
    decreases |b|
  {
    if a == [] then true
    else if b == [] then false
    else if a[0] == b[0] then Subsequence(a[1..], b[1..])
    else Subsequence(a, b[1..])
  }

  lemma {:induction false} CleanIsSubsequence(s: string)
    ensures Subsequence(Clean(s), s)
  {
    if s != [] {
      CleanIsSubsequence(s[1..]);
    }
  }

  /** Every allowed character is kept as often as it occurs, every other one
      is dropped: together with CleanIsSubsequence, the output is exactly the
      input with the disallowed characters deleted, in the original order. */
  lemma {:induction false} CleanCounts(s: string, c: char)
    ensures multiset(Clean(s))[c] == if Allowed(c) then multiset(s)[c] else 0
  {
    if s != [] {
      CleanCounts(s[1..], c);
      assert s == [s[0]] + s[1..];
      assert multiset(s) == multiset([s[0]]) + multiset(s[1..]);
    }
  }

  /** Cleaning distributes over concatenation. */
  lemma {:induction false} CleanConcat(a: string, b: string)
    ensures Clean(a + b) == Clean(a) + Clean(b)
  {
    if a == [] {
      assert a + b == b;
    } else {
      assert (a + b)[1..] == a[1..] + b;
      CleanConcat(a[1..], b);
    }
  }

  /** A string is left unchanged exactly when it is over the allowed alphabet. */
  lemma {:induction false} CleanFixesAllowed(s: string)
    ensures Clean(s) == s <==> forall i :: 0 <= i < |s| ==> Allowed(s[i])
  {
    if s != [] && forall i :: 0 <= i < |s| ==> Allowed(s[i]) {
      CleanFixesAllowed(s[1..]);
    }
  }

  lemma CleanIdempotent(s: string)
    ensures Clean(Clean(s)) == Clean(s)
  {
    CleanFixesAllowed(Clean(s));
  }

  /** A character the cleaner drops can be inserted anywhere without effect. */
  lemma CleanIgnoresDropped(a: string, c: char, b: string)
    requires !Allowed(c)
    ensures Clean(a + [c] + b) == Clean(a + b)
  {
    CleanConcat(a + [c], b);
    CleanConcat(a, [c]);
    CleanConcat(a, b);
    assert Clean([c]) == [];
  }

  /** Test vector: a hyphenated number is returned as it is. */
  lemma CleanKeepsHyphenated()
    ensures Clean("600411-8177") == "600411-8177"
  {
    CleanConcat("600411", "-8177");
    assert "600411" + "-8177" == "600411-8177";
    assert Clean("600411") == "600411";
    assert Clean("-8177") == "-8177";
  }

  /** Test vector: input over the allowed alphabet is returned as it is. */
  lemma CleanKeepsCleanInput()
    ensures Clean("6004118177") == "6004118177"
  {
    CleanConcat("600411", "8177");
    assert "600411" + "8177" == "6004118177";
    assert Clean("600411") == "600411";
    assert Clean("8177") == "8177";
  }

  /** Test vector: a trailing letter is dropped. */
  lemma CleanDropsTrailingLetter()
    ensures Clean("600411-8177a") == "600411-8177"
  {
    CleanKeepsHyphenated();
    CleanConcat("600411-8177", "a");
    assert "600411-8177" + "a" == "600411-8177a";
  }

  /** Test vector: a space is dropped. */
  lemma CleanDropsSpace()
    ensures Clean("600411 8177") == "6004118177"
  {
    CleanIgnoresDropped("600411", ' ', "8177");
    assert "600411" + [' '] + "8177" == "600411 8177";
    assert "600411" + "8177" == "6004118177";
    CleanKeepsCleanInput();
  }

  /** Test vector: a leading letter is dropped. */
  lemma CleanDropsLeadingLetter()
    ensures Clean("a600411-8177") == "600411-8177"
  {
    assert "a600411-8177"[1..] == "600411-8177";
    CleanKeepsHyphenated();
  }
}
