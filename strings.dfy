/** Character and string primitives used by the library (PHP's str_replace,
    substr_replace, array_reverse and intval, restricted to what the library uses). */
module Strings {

  /** A character matched by PCRE's `\d` without the `u` flag. */
  predicate IsDigit(c: char) {
    '0' <= c <= '9'
  }

  /** The value of a decimal digit (0 for any other character; callers
      apply it to digits only). */
  function DigitValue(c: char): (v: nat)
    ensures v <= 9
  {
    if IsDigit(c) then (c as int) - ('0' as int) else 0
  }

  predicate AllDigits(s: string) {
    forall i :: 0 <= i < |s| ==> IsDigit(s[i])
  }

  /** `str_replace($c, '', $s)` for a one-character needle: every
      occurrence of `c` is dropped. */
  function Strip(s: string, c: char): (r: string)
    ensures |r| <= |s|
    ensures forall i :: 0 <= i < |r| ==> r[i] != c
  {
    if s == [] then []
    else if s[0] == c then Strip(s[1..], c)
    else [s[0]] + Strip(s[1..], c)
  }

  lemma {:induction false} StripConcat(a: string, b: string, c: char)
    ensures Strip(a + b, c) == Strip(a, c) + Strip(b, c)
  {
    if a == [] {
      assert a + b == b;
    } else {
      assert (a + b)[1..] == a[1..] + b;
      StripConcat(a[1..], b, c);
    }
  }

  /** A final character other than `c` that is not a digit survives. */
  lemma StripKeepsNonDigit(s: string, last: char, c: char)
    ensures last != c && !IsDigit(last) ==> !AllDigits(Strip(s + [last], c))
  {
    StripConcat(s, [last], c);
    assert last != c ==> Strip([last], c) == [last];
    var r := Strip(s + [last], c);
    assert last != c ==> r[|r| - 1] == last;
  }

  /** Stripping a character that does not occur changes nothing. */
  lemma {:induction false} StripAbsent(s: string, c: char)
    requires forall i :: 0 <= i < |s| ==> s[i] != c
    ensures Strip(s, c) == s
  {
    if s != [] {
      StripAbsent(s[1..], c);
    }
  }

  lemma StripSingle(c: char)
    ensures Strip([c], c) == []
  {
    assert [c][1..] == [];
  }

  lemma StripAppended(a: string, c: char)
    requires Strip(a, c) == a
    ensures Strip(a + [c], c) == a
  {
    StripSingle(c);
    StripConcat(a, [c], c);
  }

  /** Inserting `c` between two strings free of it is undone by stripping `c`. */
  lemma StripInserted(a: string, b: string, c: char)
    requires forall i :: 0 <= i < |a| ==> a[i] != c
    requires forall i :: 0 <= i < |b| ==> b[i] != c
    ensures Strip(a + [c] + b, c) == a + b
  {
    StripAbsent(a, c);
    StripAbsent(b, c);
    StripAppended(a, c);
    StripConcat(a + [c], b, c);
  }

  /** Stripping `c` removes an inserted `c` wherever the two sides come from. */
  lemma StripInsertedAnywhere(a: string, b: string, c: char)
    ensures Strip(a + [c] + b, c) == Strip(a + b, c)
  {
    StripSingle(c);
    StripConcat(a, [c], c);
    assert Strip(a, c) + [] == Strip(a, c);
    StripConcat(a + [c], b, c);
    StripConcat(a, b, c);
  }

  /** A character absent from two strings is absent from their concatenation. */
  lemma AbsentInJoin(a: string, b: string, c: char)
    requires forall i :: 0 <= i < |a| ==> a[i] != c
    requires forall i :: 0 <= i < |b| ==> b[i] != c
    ensures forall i :: 0 <= i < |a + b| ==> (a + b)[i] != c
  {
    forall i | 0 <= i < |a + b| ensures (a + b)[i] != c {
      if i < |a| { assert (a + b)[i] == a[i]; }
      else { assert (a + b)[i] == b[i - |a|]; }
    }
  }

  /** `str_replace($from, $to, $s)` for single characters. */
  function ReplaceChar(s: string, from: char, to: char): (r: string)
    ensures |r| == |s|
    ensures forall i :: 0 <= i < |s| ==> r[i] == if s[i] == from then to else s[i]
  {
    if s == [] then [] else [if s[0] == from then to else s[0]] + ReplaceChar(s[1..], from, to)
  }

  /** `substr_replace($s, $c, $at, 0)`: inserts `c` before position `at`, or
      appends it when `at` lies beyond the end of `s`. */
  function InsertAt(s: string, at: nat, c: char): (r: string)
    ensures |r| == |s| + 1
    ensures at <= |s| ==> r == s[..at] + [c] + s[at..]
  {
    if at <= |s| then s[..at] + [c] + s[at..] else s + [c]
  }

  /** `array_reverse(str_split($s))`. */
  function Reverse(s: string): (r: string)
    ensures |r| == |s|
    ensures forall i :: 0 <= i < |s| ==> r[i] == s[|s| - 1 - i]
  {
    if s == [] then [] else Reverse(s[1..]) + [s[0]]
  }

  /** The longest prefix of `s` made of decimal digits. */
  function LeadingDigits(s: string): (r: string)
    ensures |r| <= |s| && r == s[..|r|] && AllDigits(r)
    ensures |r| < |s| ==> !IsDigit(s[|r|])
  {
    if s == [] || !IsDigit(s[0]) then [] else [s[0]] + LeadingDigits(s[1..])
  }

  /** The decimal value of a string of digits, most significant first. */
  function DecimalValue(s: string): (v: nat)
    requires AllDigits(s)
  {
    if s == [] then 0 else 10 * DecimalValue(s[..|s| - 1]) + DigitValue(s[|s| - 1])
  }

  /** `intval($s)` on a string that starts with its digits (no sign, no
      leading white space): the value of its leading digits, 0 if there are none. */
  function IntVal(s: string): (v: nat)
    ensures s == [] || !IsDigit(s[0]) ==> v == 0
    ensures |s| >= 1 && IsDigit(s[0]) && (|s| == 1 || !IsDigit(s[1])) ==> v == DigitValue(s[0])
    ensures (|s| >= 2 && IsDigit(s[0]) && IsDigit(s[1]) && (|s| == 2 || !IsDigit(s[2])))
      ==> v == 10 * DigitValue(s[0]) + DigitValue(s[1])
  {
    var r := LeadingDigits(s);
    assert |s| >= 1 && IsDigit(s[0]) && (|s| == 1 || !IsDigit(s[1])) ==> DecimalValue(r) == DigitValue(s[0]) by {
      if |s| >= 1 && IsDigit(s[0]) && (|s| == 1 || !IsDigit(s[1])) {
        assert LeadingDigits(s[1..]) == [];
        assert r == [s[0]];
        assert r[..0] == [];
      }
    }
    assert |s| >= 2 && IsDigit(s[0]) && IsDigit(s[1]) && (|s| == 2 || !IsDigit(s[2]))
        ==> DecimalValue(r) == 10 * DigitValue(s[0]) + DigitValue(s[1]) by {
      if |s| >= 2 && IsDigit(s[0]) && IsDigit(s[1]) && (|s| == 2 || !IsDigit(s[2])) {
        assert LeadingDigits(s[2..]) == [];
        assert s[1..][1..] == s[2..];
        assert r == [s[0], s[1]];
        assert r[..1] == [s[0]] && r[..1][..0] == [];
        assert DecimalValue(r[..1]) == DigitValue(s[0]);
        assert DecimalValue(r) == 10 * DecimalValue(r[..1]) + DigitValue(r[1]);
      }
    }
    DecimalValue(r)
  }
}
