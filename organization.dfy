/** Swedish organisation numbers (src/Organization.php): a shape check, the
    "second pair is at least 20" rule and the Luhn mod-10 check digit of
    ISO/IEC 7812-1, Annex B; a formatter; and the parts an instance exposes. */
module OrganizationNumber {
  import opened Wrappers
  import opened Strings

  datatype OrgError = OrganizationException

  // ---------------------------------------------------------------------
  // Validation
  // ---------------------------------------------------------------------

  /** `\d{6}[\-\/]?\d{4}`: six digits, an optional `-` or `/`, four digits. */
  predicate Body(s: string) {
    && (|s| == 10 || (|s| == 11 && (s[6] == '-' || s[6] == '/')))
    && forall i :: 0 <= i < |s| && (|s| == 10 || i != 6) ==> IsDigit(s[i])
  }

  /** `preg_match("/^\d{6}[\-\/]?\d{4}+$/", $s)`. Without the `D` modifier,
      PCRE's `$` also matches just before a final line feed. */
  predicate Shape(s: string) {
    Body(s) || (|s| > 0 && s[|s| - 1] == '\n' && Body(s[..|s| - 1]))
  }

  /** `substr($s, 2, 2)` read as a number; both characters are digits once the
      shape check has passed. */
  function SecondPair(s: string): (v: nat)
    requires Shape(s)
    ensures v <= 99
  {
    assert IsDigit(s[2]) && IsDigit(s[3]) by {
      if !Body(s) {
        assert s[..|s| - 1][2] == s[2] && s[..|s| - 1][3] == s[3];
      }
    }
    10 * DigitValue(s[2]) + DigitValue(s[3])
  }

  /** What one digit adds to the Luhn sum when it stands `key` places from the
      right: doubled at odd keys, and 9 subtracted from a value of 10 or more. */
  function Term(c: char, key: nat): (t: nat)
    ensures t <= 9
  {
    var n := if key % 2 == 1 then 2 * DigitValue(c) else DigitValue(c);
    if n >= 10 then n - 9 else n
  }

  /** The Luhn sum of a digit string in the left-to-right reading of
      ISO/IEC 7812-1, Annex B: the first digit stands |d| - 1 places from the
      right. It is consulted on digit strings only. */
  function CheckSum(d: string): (sum: nat)
    ensures sum <= 9 * |d|
  {
    if d == [] then 0 else Term(d[0], |d| - 1) + CheckSum(d[1..])
  }

  predicate LuhnOk(d: string) {
    CheckSum(d) % 10 == 0
  }

  /** Inputs on which `Organization::valid` reaches its Luhn loop with a
      character other than a digit: a `/` separator or the final line feed
      that the pattern admits. Only `-` is removed before the loop, so PHP then
      does arithmetic on that character (a TypeError under PHP 8). The model
      claims no result for them. */
  predicate LuhnSeesNonDigit(s: string) {
    Shape(s) && SecondPair(s) >= 20 && !AllDigits(Strip(s, '-'))
  }

  /** The value `Organization::valid()` returns. */
  predicate IsValid(s: string)
    requires !LuhnSeesNonDigit(s)
  {
    Shape(s) && SecondPair(s) >= 20 && LuhnOk(Strip(s, '-'))
  }

  // ---------------------------------------------------------------------
  // Parts and the category table
  // ---------------------------------------------------------------------

  /** `parseType`: the category of the first digit. The table has no entry
      for 0, 3 and 4, where PHP hits an undefined array key. */
  const Categories: map<nat, string> := map[
    1 := "Dödsbon",
    2 := "Stat, landsting och kommuner",
    5 := "Aktiebolag",
    6 := "Enkelt bolag",
    7 := "Ekonomiska föreningar",
    8 := "Ideella föreningar och stiftelser",
    9 := "Handelsbolag, kommanditbolag och enkla bolag"
  ]

  function Category(first: nat): (r: Option<string>)
    ensures r.None? <==> first == 0 || first == 3 || first == 4 || first > 9
  {
    if first in Categories then Some(Categories[first]) else None
  }

  /** The `check`, `org_no` and `type` entries of `$parts`. */
  datatype Parts = Parts(check: string, orgNo: string, category: Option<string>)

  /** `setParts`: the last character, the unmodified input, and the category
      of `(int)substr($s, 0, 1)`. */
  function PartsOf(s: string): (p: Parts)
    ensures p.orgNo == s
    ensures s != [] ==> p.check == [s[|s| - 1]]
    ensures s != [] && IsDigit(s[0]) ==> p.category == Category(DigitValue(s[0]))
  {
    Parts(if s == [] then [] else s[|s| - 1..],
          s,
          Category(IntVal(if s == [] then [] else s[..1])))
  }

  // ---------------------------------------------------------------------
  // An instance after construction, and formatting
  // ---------------------------------------------------------------------

  /** The three fields of an `Organization` object. */
  datatype OrgState = OrgState(orgNo: string, valid: bool, parts: Option<Parts>) {

    /** `format($seperator)`: the number without `-`, or with one `-`
        inserted at index 6; OrganizationException on an invalid instance. */
    function Format(seperator: bool): (r: Result<string, OrgError>)
      ensures r.Success? <==> valid
      ensures r.Failure? ==> r.error == OrganizationException
    {
      if !valid then Failure(OrganizationException)
      else
        var digits := Strip(orgNo, '-');
        if !seperator then Success(digits) else Success(InsertAt(digits, 6, '-'))
    }
  }

  /** The state `new Organization($s)` leaves behind: the parts are set only
      for a valid number. */
  function Make(s: string): (st: OrgState)
    requires !LuhnSeesNonDigit(s)
    ensures st.orgNo == s && st.valid == IsValid(s)
    ensures st.parts.Some? <==> st.valid
  {
    OrgState(s, IsValid(s), if IsValid(s) then Some(PartsOf(s)) else None)
  }

  // ---------------------------------------------------------------------
  // Properties of validation
  // ---------------------------------------------------------------------

  /** The ten digits with `-` inserted at index 6. */
  function WithHyphen(d: string): (h: string)
    requires |d| == 10
    ensures |h| == 11
  {
    d[..6] + "-" + d[6..]
  }

  lemma StripHyphen(d: string)
    requires |d| == 10 && AllDigits(d)
    ensures Strip(d, '-') == d
    ensures Strip(WithHyphen(d), '-') == d
  {
    var a, b := d[..6], d[6..];
    assert forall i :: 0 <= i < |a| ==> a[i] != '-' by {
      forall i | 0 <= i < |a| ensures a[i] != '-' { assert a[i] == d[i]; }
    }
    assert forall i :: 0 <= i < |b| ==> b[i] != '-' by {
      forall i | 0 <= i < |b| ensures b[i] != '-' { assert b[i] == d[i + 6]; }
    }
    StripAbsent(d, '-');
    StripInserted(a, b, '-');
    assert a + b == d;
  }

  /** A valid number is ten digits, written either plain or with `-` at index 6. */
  lemma ValidIsCanonical(s: string)
    requires !LuhnSeesNonDigit(s) && IsValid(s)
    ensures |Strip(s, '-')| == 10 && AllDigits(Strip(s, '-'))
    ensures s == Strip(s, '-') || s == WithHyphen(Strip(s, '-'))
  {
    var d := Strip(s, '-');
    if Body(s) && |s| == 10 {
      StripAbsent(s, '-');
    } else if Body(s) && s[6] == '-' {
      var e := s[..6] + s[7..];
      assert AllDigits(e) by {
        forall i | 0 <= i < 10 ensures IsDigit(e[i]) {
          if i < 6 { assert e[i] == s[i]; } else { assert e[i] == s[i + 1]; }
        }
      }
      StripHyphen(e);
      assert WithHyphen(e) == s;
    } else if Body(s) {
      assert s[6] == '/';
      StripAbsent(s, '-');
      assert false;
    } else {
      var b := s[..|s| - 1];
      assert s == b + "\n";
      StripKeepsNonDigit(b, '\n', '-');
      assert false;
    }
  }

  /** The `-` separator does not change validity, nor what formatting returns. */
  lemma SeparatorIrrelevant(d: string, seperator: bool)
    requires |d| == 10 && AllDigits(d)
    ensures !LuhnSeesNonDigit(d) && !LuhnSeesNonDigit(WithHyphen(d))
    ensures IsValid(WithHyphen(d)) == IsValid(d)
    ensures Make(WithHyphen(d)).Format(seperator) == Make(d).Format(seperator)
  {
    var h := WithHyphen(d);
    StripHyphen(d);
    assert Body(h) by {
      forall i | 0 <= i < 11 && i != 6 ensures IsDigit(h[i]) {
        if i < 6 { assert h[i] == d[i]; } else { assert h[i] == d[i - 1]; }
      }
    }
    assert h[2] == d[2] && h[3] == d[3];
  }

  /** Validity of a ten-digit string, written plain or with `-` at index 6,
      reduced to the second pair and the Luhn sum. */
  lemma TenDigitValidity(d: string)
    requires |d| == 10 && AllDigits(d)
    ensures !LuhnSeesNonDigit(d) && !LuhnSeesNonDigit(WithHyphen(d))
    ensures IsValid(d) == IsValid(WithHyphen(d))
    ensures IsValid(d) <==> 10 * DigitValue(d[2]) + DigitValue(d[3]) >= 20 && LuhnOk(d)
  {
    SeparatorIrrelevant(d, true);
    StripHyphen(d);
  }

  /** The digit strings of the vectors below are ten decimal digits. */
  lemma VectorDigits()
    ensures AllDigits("5560160680") && AllDigits("5561034249") && AllDigits("2120001355")
    ensures AllDigits("5560160681") && AllDigits("5561034250") && AllDigits("1111111111")
  {
  }

  /** Replacing one digit moves the Luhn sum by the difference of the two terms. */
  lemma {:induction false} CheckSumSubstitute(d: string, i: nat, c: char)
    requires AllDigits(d) && i < |d| && IsDigit(c)
    ensures AllDigits(d[i := c])
    ensures CheckSum(d[i := c]) == CheckSum(d) - Term(d[i], |d| - 1 - i) + Term(c, |d| - 1 - i)
  {
    if i == 0 {
      assert d[i := c][1..] == d[1..];
    } else {
      assert d[i := c][1..] == d[1..][i - 1 := c];
      CheckSumSubstitute(d[1..], i - 1, c);
    }
  }

  /** At a fixed position, different digits contribute different terms. */
  lemma TermInjective(a: char, b: char, key: nat)
    requires IsDigit(a) && IsDigit(b) && a != b
    ensures Term(a, key) != Term(b, key)
  {
    assert DigitValue(a) != DigitValue(b);
  }

  /** A multiple of ten moved by the difference of two distinct values below
      ten is no longer a multiple of ten. */
  lemma ShiftBreaksMultipleOfTen(s0: int, a: int, b: int)
    requires s0 % 10 == 0 && 0 <= a <= 9 && 0 <= b <= 9 && a != b
    ensures (s0 - a + b) % 10 != 0
  {
    var q := s0 / 10;
    assert s0 == 10 * q;
    if a < b {
      assert s0 - a + b == 10 * q + (b - a);
    } else {
      assert s0 - a + b == 10 * (q - 1) + (10 + b - a);
    }
  }

  /** Luhn's guarantee: every single-digit substitution in a valid ten-digit
      number makes it invalid, written plain or with `-` at index 6. */
  lemma SubstitutionDetected(d: string, i: nat, c: char)
    requires |d| == 10 && AllDigits(d) && !LuhnSeesNonDigit(d) && IsValid(d)
    requires i < 10 && IsDigit(c) && c != d[i]
    ensures !LuhnSeesNonDigit(d[i := c]) && !IsValid(d[i := c])
    ensures !LuhnSeesNonDigit(WithHyphen(d[i := c])) && !IsValid(WithHyphen(d[i := c]))
  {
    var t := d[i := c];
    CheckSumSubstitute(d, i, c);
    TenDigitValidity(d);
    TenDigitValidity(t);
    TermInjective(d[i], c, 9 - i);
    ShiftBreaksMultipleOfTen(CheckSum(d), Term(d[i], 9 - i), Term(c, 9 - i));
  }

  /** Changing only the check digit of a valid number, written with or without
      its `-`, makes it invalid. */
  lemma CheckDigitDetected(s: string, c: char)
    requires !LuhnSeesNonDigit(s) && IsValid(s)
    requires IsDigit(c) && c != s[|s| - 1]
    ensures !LuhnSeesNonDigit(s[|s| - 1 := c]) && !IsValid(s[|s| - 1 := c])
  {
    ValidIsCanonical(s);
    var d := Strip(s, '-');
    StripHyphen(d);
    SubstitutionDetected(d, 9, c);
    if s != d {
      assert s[|s| - 1 := c] == WithHyphen(d[9 := c]);
      SeparatorIrrelevant(d[9 := c], true);
    }
  }

  /** Formatting a valid number gives its ten digits, or those digits with `-`
      at index 6; re-reading either result gives a valid number that formats
      the same way. */
  lemma FormatCanonical(s: string, seperator: bool)
    requires !LuhnSeesNonDigit(s) && IsValid(s)
    ensures var d := Strip(s, '-');
      && |d| == 10
      && Make(s).Format(false) == Success(d)
      && Make(s).Format(true) == Success(WithHyphen(d))
    ensures var f := Make(s).Format(seperator).value;
      && !LuhnSeesNonDigit(f) && IsValid(f)
      && Make(f).Format(true) == Make(s).Format(true)
      && Make(f).Format(false) == Make(s).Format(false)
  {
    ValidIsCanonical(s);
    var d := Strip(s, '-');
    SeparatorIrrelevant(d, true);
    SeparatorIrrelevant(d, false);
  }

  /** The category table covers every first digit except 0, 3 and 4. */
  lemma CategoryCoverage(first: nat)
    requires first <= 9
    ensures Category(first).None? <==> first == 0 || first == 3 || first == 4
  {
  }

  /** The parts of a valid number: its check digit, the unmodified input and
      the category of its first digit, absent exactly for 0, 3 and 4. */
  lemma PartsOfValid(s: string)
    requires !LuhnSeesNonDigit(s) && IsValid(s)
    ensures Make(s).parts == Some(PartsOf(s))
    ensures IsDigit(s[|s| - 1]) && PartsOf(s).check == [s[|s| - 1]]
    ensures PartsOf(s).orgNo == s
    ensures PartsOf(s).category == Category(DigitValue(s[0]))
    ensures PartsOf(s).category.None? <==> s[0] == '0' || s[0] == '3' || s[0] == '4'
  {
    ValidIsCanonical(s);
    var d := Strip(s, '-');
    assert s[0] == d[0];
    assert s[|s| - 1] == d[9];
    assert LeadingDigits(s[..1]) == s[..1];
    assert DecimalValue(s[..1]) == DigitValue(s[0]);
    CategoryCoverage(DigitValue(s[0]));
  }

  // ---------------------------------------------------------------------
  // Test vectors
  // ---------------------------------------------------------------------

  /** The Luhn sum of ten characters, written out term by term. */
  lemma CheckSumTen(d: string)
    requires |d| == 10
    ensures CheckSum(d) == Term(d[0], 9) + Term(d[1], 8) + Term(d[2], 7) + Term(d[3], 6) + Term(d[4], 5)
                         + Term(d[5], 4) + Term(d[6], 3) + Term(d[7], 2) + Term(d[8], 1) + Term(d[9], 0)
  {
    assert CheckSum(d[10..]) == 0;
    assert CheckSum(d[9..]) == Term(d[9], 0) by { assert d[9..][1..] == d[10..]; }
    assert CheckSum(d[8..]) == Term(d[8], 1) + CheckSum(d[9..]) by { assert d[8..][1..] == d[9..]; }
    assert CheckSum(d[7..]) == Term(d[7], 2) + CheckSum(d[8..]) by { assert d[7..][1..] == d[8..]; }
    assert CheckSum(d[6..]) == Term(d[6], 3) + CheckSum(d[7..]) by { assert d[6..][1..] == d[7..]; }
    assert CheckSum(d[5..]) == Term(d[5], 4) + CheckSum(d[6..]) by { assert d[5..][1..] == d[6..]; }
    assert CheckSum(d[4..]) == Term(d[4], 5) + CheckSum(d[5..]) by { assert d[4..][1..] == d[5..]; }
    assert CheckSum(d[3..]) == Term(d[3], 6) + CheckSum(d[4..]) by { assert d[3..][1..] == d[4..]; }
    assert CheckSum(d[2..]) == Term(d[2], 7) + CheckSum(d[3..]) by { assert d[2..][1..] == d[3..]; }
    assert CheckSum(d[1..]) == Term(d[1], 8) + CheckSum(d[2..]) by { assert d[1..][1..] == d[2..]; }
  }

  /** A Luhn sum of ten characters from the value of its ten terms. */
  lemma CheckSumTenIs(d: string, sum: nat)
    requires |d| == 10
    requires Term(d[0], 9) + Term(d[1], 8) + Term(d[2], 7) + Term(d[3], 6) + Term(d[4], 5)
           + Term(d[5], 4) + Term(d[6], 3) + Term(d[7], 2) + Term(d[8], 1) + Term(d[9], 0) == sum
    ensures CheckSum(d) == sum
  {
    CheckSumTen(d);
  }

  /** The Luhn sums of the vectors below. */
  lemma Luhn0680() ensures LuhnOk("5560160680") { CheckSumTenIs("5560160680", 30); }
  lemma Luhn4249() ensures LuhnOk("5561034249") { CheckSumTenIs("5561034249", 40); }
  lemma Luhn1355() ensures LuhnOk("2120001355") { CheckSumTenIs("2120001355", 20); }
  lemma Luhn0681() ensures !LuhnOk("5560160681") { CheckSumTenIs("5560160681", 31); }
  lemma Luhn4250() ensures !LuhnOk("5561034250") { CheckSumTenIs("5561034250", 24); }

  /** The separated forms of the vectors below. */
  lemma VectorHyphens()
    ensures WithHyphen("5560160680") == "556016-0680"
    ensures WithHyphen("5561034249") == "556103-4249"
    ensures WithHyphen("2120001355") == "212000-1355"
    ensures WithHyphen("5560160681") == "556016-0681"
    ensures WithHyphen("5561034250") == "556103-4250"
    ensures WithHyphen("1111111111") == "111111-1111"
  {
  }

  /** `556016-0680` and its variant without separator are valid. */
  lemma ValidVector0680()
    ensures !LuhnSeesNonDigit("556016-0680") && IsValid("556016-0680")
    ensures !LuhnSeesNonDigit("5560160680") && IsValid("5560160680")
  {
    VectorDigits();
    Luhn0680();
    VectorHyphens();
    TenDigitValidity("5560160680");
  }

  /** `556103-4249` and `5561034249` are valid. */
  lemma ValidVector4249()
    ensures !LuhnSeesNonDigit("556103-4249") && IsValid("556103-4249")
    ensures !LuhnSeesNonDigit("5561034249") && IsValid("5561034249")
  {
    VectorDigits();
    Luhn4249();
    VectorHyphens();
    TenDigitValidity("5561034249");
  }

  /** `212000-1355` and `2120001355` are valid. */
  lemma ValidVector1355()
    ensures !LuhnSeesNonDigit("212000-1355") && IsValid("212000-1355")
    ensures !LuhnSeesNonDigit("2120001355") && IsValid("2120001355")
  {
    VectorDigits();
    Luhn1355();
    VectorHyphens();
    TenDigitValidity("2120001355");
  }

  /** A wrong check digit: `556016-0681` is invalid. */
  lemma InvalidVector0681()
    ensures !LuhnSeesNonDigit("556016-0681") && !IsValid("556016-0681")
  {
    VectorDigits();
    Luhn0681();
    VectorHyphens();
    TenDigitValidity("5560160681");
  }

  /** A wrong check digit: `556103-4250` and `5561034250` are invalid. */
  lemma InvalidVector4250()
    ensures !LuhnSeesNonDigit("556103-4250") && !IsValid("556103-4250")
    ensures !LuhnSeesNonDigit("5561034250") && !IsValid("5561034250")
  {
    VectorDigits();
    Luhn4250();
    VectorHyphens();
    TenDigitValidity("5561034250");
  }

  /** A second pair below 20: `111111-1111` is invalid. */
  lemma InvalidVector1111()
    ensures !LuhnSeesNonDigit("111111-1111") && !IsValid("111111-1111")
  {
    VectorDigits();
    VectorHyphens();
    TenDigitValidity("1111111111");
  }

  /** Inputs of the wrong shape are invalid whatever their digits. */
  lemma MalformedVectors()
    ensures !Shape("1234") && !Shape("123456789101112")
    ensures !Shape("345678-abcd") && !Shape("abcefghijklm")
    ensures !Shape("20010101-6434") && !Shape("190101016434")
  {
    assert !IsDigit("345678-abcd"[7]);
    assert !IsDigit("abcefghijklm"[0]);
  }

  /** Both formats of a valid ten-digit number, written with or without
      its separator. */
  lemma FormatOfTen(d: string)
    requires |d| == 10 && AllDigits(d) && !LuhnSeesNonDigit(d) && IsValid(d)
    ensures !LuhnSeesNonDigit(WithHyphen(d))
    ensures Make(d).Format(false) == Success(d)
    ensures Make(d).Format(true) == Success(WithHyphen(d))
    ensures Make(WithHyphen(d)).Format(false) == Success(d)
    ensures Make(WithHyphen(d)).Format(true) == Success(WithHyphen(d))
  {
    TenDigitValidity(d);
    StripHyphen(d);
    FormatCanonical(d, true);
    FormatCanonical(WithHyphen(d), true);
  }

  /** The formatting vectors of `556016-0680`. */
  lemma FormatVectorSeparated()
    ensures !LuhnSeesNonDigit("556016-0680")
      && Make("556016-0680").Format(false) == Success("5560160680")
      && Make("556016-0680").Format(true) == Success("556016-0680")
  {
    VectorDigits();
    VectorHyphens();
    ValidVector0680();
    FormatOfTen("5560160680");
  }

  /** The formatting vector of `5560160680`. */
  lemma FormatVectorPlain()
    ensures !LuhnSeesNonDigit("5560160680")
      && Make("5560160680").Format(true) == Success("556016-0680")
  {
    VectorDigits();
    VectorHyphens();
    ValidVector0680();
    FormatOfTen("5560160680");
  }

  /** The parts of `556016-0680`: check digit 0, a limited company. */
  lemma PartsVector0680()
    ensures !LuhnSeesNonDigit("556016-0680")
      && Make("556016-0680").parts == Some(Parts("0", "556016-0680", Some("Aktiebolag")))
  {
    ValidVector0680();
    PartsOfValid("556016-0680");
  }

  /** The parts of `212000-1355`: check digit 5, a public authority. */
  lemma PartsVector1355()
    ensures !LuhnSeesNonDigit("212000-1355")
      && Make("212000-1355").parts == Some(Parts("5", "212000-1355", Some("Stat, landsting och kommuner")))
  {
    ValidVector1355();
    PartsOfValid("212000-1355");
  }

  /** An invalid instance cannot be formatted: `111111-1111`. */
  lemma FormatVectorInvalid(seperator: bool)
    ensures !LuhnSeesNonDigit("111111-1111")
      && Make("111111-1111").Format(seperator) == Failure(OrganizationException)
  {
    InvalidVector1111();
  }

  class Organization {
    var orgNo: string
    var parts: Option<Parts>
    var valid: bool

    function State(): OrgState
      reads this
    {
      OrgState(orgNo, valid, parts)
    }

    constructor (orgNo: string)
      requires !LuhnSeesNonDigit(orgNo)
      ensures State() == Make(orgNo)
    {
      this.orgNo := orgNo;
      parts := None;
      valid := false;
      new;
      valid := Valid();
      if valid {
        SetParts();
      }
    }

    /** `valid()`: the shape check, the second-pair rule, then the Luhn loop
        over the reversed digits. */
    method Valid() returns (r: bool)
      requires !LuhnSeesNonDigit(orgNo)
      ensures r == IsValid(orgNo)
    {
      if !Shape(orgNo) {
        return false;
      }
      if SecondPair(orgNo) < 20 {
        return false;
      }
      ghost var d := Strip(orgNo, '-');
      var digits := Reverse(Strip(orgNo, '-'));
      var n := |digits|;
      var sum := 0;
      for key := 0 to n
        invariant sum == CheckSum(d[n - key..])
      {
        var number := DigitValue(digits[key]);
        if key % 2 == 1 {
          number := number * 2;
        }
        sum := sum + (if number >= 10 then number - 9 else number);
        assert d[n - 1 - key..][1..] == d[n - key..];
      }
      assert d[n - n..] == d;
      return sum % 10 == 0;
    }

    /** `format($seperator)`: the number with every `-` removed, then
        either returned as it is or with `-` inserted at index 6. Its
        specification is `OrgState.Format`, about which the lemmas above
        are stated. */
    method Format(seperator: bool) returns (r: Result<string, OrgError>)
      ensures r == State().Format(seperator)
    {
      if !valid {
        return Failure(OrganizationException);
      }
      var digits := Strip(orgNo, '-');
      if !seperator {
        return Success(digits);
      }
      return Success(InsertAt(digits, 6, '-'));
    }

    /** `setParts()`. */
    method SetParts()
      modifies this
      ensures parts == Some(PartsOf(orgNo))
      ensures orgNo == old(orgNo) && valid == old(valid)
    {
      var check := if orgNo == [] then [] else orgNo[|orgNo| - 1..];
      var first := if orgNo == [] then [] else orgNo[..1];
      parts := Some(Parts(check, orgNo, Category(IntVal(first))));
    }
  }
}
