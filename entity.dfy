/** `Entity::detect`: decides whether a number is an organisation number or
    a personal identity number, and returns the entity only when it is
    valid. The branch that builds a `Company` yields an `Organization`. */
module Entity {
  import opened Wrappers
  import opened Strings
  import Cleaning
  import OrganizationNumber
  import PersonNumber

  datatype DetectError = DetectException

  /** The object `detect` returns, as the state it was left in. */
  datatype EntityValue =
    | PersonEntity(person: PersonNumber.PersonState)
    | OrganizationEntity(organization: OrganizationNumber.OrgState)
  {
    /** `$object->valid()`: both classes recompute the value their
        constructor stored. */
    predicate Valid() {
      match this
      case PersonEntity(p) => p.valid
      case OrganizationEntity(o) => o.valid
    }
  }

  // ---------------------------------------------------------------------
  // Preparing the number
  // ---------------------------------------------------------------------

  /** What is left after cleaning and removing `-`: digits and `+`. */
  predicate Prepared(n: string) {
    forall i :: 0 <= i < |n| ==> IsDigit(n[i]) || n[i] == '+'
  }

  /** `str_replace('-', '', self::clean($number))`. */
  function Prepare(input: string): (n: string)
    ensures Prepared(n)
    ensures |n| <= |input|
  {
    var c := Cleaning.Clean(input);
    var n := Strip(c, '-');
    assert Prepared(n) by {
      forall i | 0 <= i < |n| ensures IsDigit(n[i]) || n[i] == '+' {
        StripFrom(c, '-', i);
      }
    }
    n
  }

  /** Each character of `Strip(s, c)` is a character of `s` other than `c`. */
  lemma {:induction false} StripFrom(s: string, c: char, i: nat)
    requires i < |Strip(s, c)|
    ensures Strip(s, c)[i] in s && Strip(s, c)[i] != c
  {
    if s[0] == c {
      StripFrom(s[1..], c, i);
    } else if i > 0 {
      StripFrom(s[1..], c, i - 1);
    }
  }

  /** A prepared number never brings a character other than a digit into
      the Luhn loop of `Organization::valid`. */
  lemma PreparedIsCheckable(n: string)
    requires Prepared(n)
    ensures !OrganizationNumber.LuhnSeesNonDigit(n)
  {
    if OrganizationNumber.Body(n) {
      StripAbsent(n, '-');
    }
  }

  // ---------------------------------------------------------------------
  // Classification
  // ---------------------------------------------------------------------

  /** `substr($number, 2, 2) >= 20` in PHP 8, for a pair of digits and `+`.
      A numeric string (two digits, or `+` and a digit) is compared as a
      number; any other string is compared with `"20"` byte by byte. */
  predicate PairAtLeast20(p: string)
    requires |p| == 2 && Prepared(p)
  {
    if IsDigit(p[0]) && IsDigit(p[1]) then 10 * DigitValue(p[0]) + DigitValue(p[1]) >= 20
    else if p[0] == '+' && IsDigit(p[1]) then false
    else p[0] > '2' || (p[0] == '2' && p[1] >= '0')
  }

  /** A stripped length above ten builds a Person; exactly ten with the
      second pair at least 20 builds an Organization; anything else a Person
      (with coordination numbers allowed, the constructor's default). */
  function Candidate(n: string, lib: PersonNumber.Library): (e: EntityValue)
    requires Prepared(n)
    ensures e.OrganizationEntity? <==> |n| == 10 && PairAtLeast20(n[2..4])
    ensures e.PersonEntity? ==> e.person == PersonNumber.Make(n, true, lib)
    ensures e.OrganizationEntity? ==>
              !OrganizationNumber.LuhnSeesNonDigit(n) && e.organization == OrganizationNumber.Make(n)
  {
    if |n| > 10 then PersonEntity(PersonNumber.Make(n, true, lib))
    else if |n| == 10 && PairAtLeast20(n[2..4]) then
      PreparedIsCheckable(n);
      OrganizationEntity(OrganizationNumber.Make(n))
    else PersonEntity(PersonNumber.Make(n, true, lib))
  }

  /** `Entity::detect($number)`. */
  function Detect(input: string, lib: PersonNumber.Library): (r: Result<EntityValue, DetectError>)
    ensures r.Success? ==> r.value.Valid() && r.value == Candidate(Prepare(input), lib)
    ensures r.Failure? ==> r.error == DetectException && !Candidate(Prepare(input), lib).Valid()
  {
    var number := Prepare(input);
    var entity := Candidate(number, lib);
    if !entity.Valid() then Failure(DetectException) else Success(entity)
  }

  // ---------------------------------------------------------------------
  // Properties
  // ---------------------------------------------------------------------

  /** What `detect` answers, case by case: an Organization exactly when the
      prepared number has ten characters, its second pair is at least 20 and
      it passes `Organization::valid`; a Person exactly when the number goes
      the Person way and the library accepts it; the entity is built from the
      prepared number, not from the input. */
  lemma DetectCases(input: string, lib: PersonNumber.Library)
    ensures var n := Prepare(input);
      var org := |n| == 10 && PairAtLeast20(n[2..4]);
      && (org ==> !OrganizationNumber.LuhnSeesNonDigit(n))
      && (Detect(input, lib).Success? <==> if org then OrganizationNumber.IsValid(n) else lib.valid(n))
      && (Detect(input, lib).Success? && org ==>
            Detect(input, lib).value == OrganizationEntity(OrganizationNumber.Make(n)))
      && (Detect(input, lib).Success? && !org ==>
            Detect(input, lib).value == PersonEntity(PersonNumber.Make(n, true, lib)))
  {
    var n := Prepare(input);
    if |n| == 10 && PairAtLeast20(n[2..4]) {
      PreparedIsCheckable(n);
    }
  }

  /** A stripped length above ten always goes the Person way. */
  lemma LongIsPerson(input: string, lib: PersonNumber.Library)
    requires |Prepare(input)| > 10
    ensures Candidate(Prepare(input), lib).PersonEntity?
    ensures Detect(input, lib).Success? <==> lib.valid(Prepare(input))
  {
  }

  /** The second-pair comparison for two digits is the numeric one, with its
      boundary between 19 and 20. */
  lemma PairNumeric(p: string)
    requires |p| == 2 && IsDigit(p[0]) && IsDigit(p[1])
    ensures PairAtLeast20(p) <==> 10 * DigitValue(p[0]) + DigitValue(p[1]) >= 20
    ensures PairAtLeast20(p) <==> p[0] >= '2'
  {
  }

  /** Pairs with a `+`: `+d` is the number d, below 20; `d+` is compared as
      text with `"20"`, so it counts as at least 20 exactly when d is 3..9. */
  lemma PairWithPlus(d: char)
    requires IsDigit(d)
    ensures !PairAtLeast20(['+', d]) && !PairAtLeast20("++")
    ensures PairAtLeast20([d, '+']) <==> d >= '3'
  {
  }

  /** A ten-character number with a `+` whose second pair is at least 20
      goes the Organization way, whose shape check refuses the `+`, so
      `detect` throws. */
  lemma PlusInOrganizationThrows(input: string, lib: PersonNumber.Library, k: nat)
    requires |Prepare(input)| == 10 && k < 10 && Prepare(input)[k] == '+'
    requires PairAtLeast20(Prepare(input)[2..4])
    ensures Detect(input, lib) == Failure(DetectException)
  {
    var n := Prepare(input);
    assert !OrganizationNumber.Shape(n) by {
      assert !IsDigit(n[k]);
      assert n[|n| - 1] != '\n';
    }
  }

  /** Cleaning first changes nothing: `detect` cleans anyway. */
  lemma DetectOfCleaned(input: string, lib: PersonNumber.Library)
    ensures Detect(Cleaning.Clean(input), lib) == Detect(input, lib)
  {
    Cleaning.CleanIdempotent(input);
  }

  /** Inserting a character the cleaner removes (a letter, a space) does not
      change the outcome. */
  lemma DetectIgnoresDropped(a: string, c: char, b: string, lib: PersonNumber.Library)
    requires !Cleaning.Allowed(c)
    ensures Detect(a + [c] + b, lib) == Detect(a + b, lib)
  {
    Cleaning.CleanIgnoresDropped(a, c, b);
  }

  /** Inserting a `-` does not change the outcome either: it is removed
      before the length is measured. */
  lemma DetectIgnoresHyphen(a: string, b: string, lib: PersonNumber.Library)
    ensures Detect(a + "-" + b, lib) == Detect(a + b, lib)
  {
    PrepareIgnoresHyphen(a, b);
  }

  lemma PrepareIgnoresHyphen(a: string, b: string)
    ensures Prepare(a + "-" + b) == Prepare(a + b)
  {
    var ca, cb := Cleaning.Clean(a), Cleaning.Clean(b);
    assert Cleaning.Clean("-") == "-" by {
      assert "-"[1..] == [];
    }
    Cleaning.CleanConcat(a + "-", b);
    Cleaning.CleanConcat(a, "-");
    Cleaning.CleanConcat(a, b);
    assert Cleaning.Clean(a + "-" + b) == ca + ['-'] + cb;
    StripInsertedAnywhere(ca, cb, '-');
  }

  // ---------------------------------------------------------------------
  // Test vectors
  // ---------------------------------------------------------------------

  /** A string of digits is already prepared. */
  lemma PrepareDigits(s: string)
    requires AllDigits(s)
    ensures Prepare(s) == s
  {
    Cleaning.CleanFixesAllowed(s);
    StripAbsent(s, '-');
  }

  /** Two strings of digits around a `-` are prepared to their concatenation. */
  lemma PrepareSeparated(a: string, b: string)
    requires AllDigits(a) && AllDigits(b)
    ensures Prepare(a + "-" + b) == a + b
  {
    var s := a + "-" + b;
    assert forall i :: 0 <= i < |s| ==> Cleaning.Allowed(s[i]) by {
      forall i | 0 <= i < |s| ensures Cleaning.Allowed(s[i]) {
        if i < |a| { assert s[i] == a[i]; }
        else if i > |a| { assert s[i] == b[i - |a| - 1]; }
      }
    }
    Cleaning.CleanFixesAllowed(s);
    StripInserted(a, b, '-');
  }

  /** Only `-` is removed: a `+` is kept where it stands, and counts toward
      the length that decides the class. */
  lemma PrepareKeepsPlus(a: string, b: string)
    ensures Prepare(a + "+" + b) == Prepare(a) + "+" + Prepare(b)
  {
    var ca, cb := Cleaning.Clean(a), Cleaning.Clean(b);
    assert Cleaning.Clean("+") == "+" by {
      assert "+"[1..] == [];
    }
    Cleaning.CleanConcat(a + "+", b);
    Cleaning.CleanConcat(a, "+");
    assert Cleaning.Clean(a + "+" + b) == ca + "+" + cb;
    StripAbsent("+", '-');
    StripConcat(ca + "+", cb, '-');
    StripConcat(ca, "+", '-');
  }

  /** `detect` on an input that prepares to an Organization's number. */
  lemma DetectOrganization(input: string, n: string, lib: PersonNumber.Library)
    requires Prepare(input) == n && |n| == 10 && PairAtLeast20(n[2..4])
    ensures !OrganizationNumber.LuhnSeesNonDigit(n)
    ensures Detect(input, lib)
      == if OrganizationNumber.IsValid(n) then Success(OrganizationEntity(OrganizationNumber.Make(n)))
         else Failure(DetectException)
  {
    PreparedIsCheckable(n);
  }

  /** `detect` on an input that goes the Person way. */
  lemma DetectPerson(input: string, n: string, lib: PersonNumber.Library)
    requires Prepare(input) == n && (|n| != 10 || !PairAtLeast20(n[2..4]))
    ensures Detect(input, lib)
      == if lib.valid(n) then Success(PersonEntity(PersonNumber.Make(n, true, lib)))
         else Failure(DetectException)
  {
  }

  lemma PrepareVector4249()
    ensures Prepare("5561034249") == "5561034249"
  {
    OrganizationNumber.VectorDigits();
    PrepareDigits("5561034249");
  }

  lemma PrepareVector0680()
    ensures Prepare("556016-0680") == "5560160680"
  {
    assert "556016" + "-" + "0680" == "556016-0680";
    assert "556016" + "0680" == "5560160680";
    PrepareSeparated("556016", "0680");
  }

  lemma PrepareVector1355()
    ensures Prepare("212000-1355") == "2120001355"
  {
    assert "212000" + "-" + "1355" == "212000-1355";
    assert "212000" + "1355" == "2120001355";
    PrepareSeparated("212000", "1355");
  }

  lemma PrepareVector8177()
    ensures Prepare("600411-8177") == "6004118177"
  {
    assert "600411" + "-" + "8177" == "600411-8177";
    assert "600411" + "8177" == "6004118177";
    PrepareSeparated("600411", "8177");
  }

  lemma PrepareVector7313()
    ensures Prepare("19860210-7313") == "198602107313"
  {
    assert "19860210" + "-" + "7313" == "19860210-7313";
    assert "19860210" + "7313" == "198602107313";
    PrepareSeparated("19860210", "7313");
  }

  lemma PrepareVector19212000()
    ensures Prepare("19212000-1355") == "192120001355"
  {
    assert "19212000" + "-" + "1355" == "19212000-1355";
    assert "19212000" + "1355" == "192120001355";
    PrepareSeparated("19212000", "1355");
  }

  /** The second pairs of the vectors below. */
  lemma Pair0680() ensures PairAtLeast20("5560160680"[2..4]) {}
  lemma Pair4249() ensures PairAtLeast20("5561034249"[2..4]) {}
  lemma Pair1355() ensures PairAtLeast20("2120001355"[2..4]) {}
  lemma Pair8177() ensures !PairAtLeast20("6004118177"[2..4]) {}

  /** `556016-0680` is detected as an Organization, whatever the library says. */
  lemma DetectVector0680(lib: PersonNumber.Library)
    ensures !OrganizationNumber.LuhnSeesNonDigit("5560160680")
      && Detect("556016-0680", lib) == Success(OrganizationEntity(OrganizationNumber.Make("5560160680")))
  {
    PrepareVector0680();
    Pair0680();
    OrganizationNumber.ValidVector0680();
    DetectOrganization("556016-0680", "5560160680", lib);
  }

  /** `5561034249` is detected as an Organization. */
  lemma DetectVector4249(lib: PersonNumber.Library)
    ensures !OrganizationNumber.LuhnSeesNonDigit("5561034249")
      && Detect("5561034249", lib) == Success(OrganizationEntity(OrganizationNumber.Make("5561034249")))
  {
    PrepareVector4249();
    Pair4249();
    OrganizationNumber.ValidVector4249();
    DetectOrganization("5561034249", "5561034249", lib);
  }

  /** `212000-1355` is detected as an Organization. */
  lemma DetectVector1355(lib: PersonNumber.Library)
    ensures !OrganizationNumber.LuhnSeesNonDigit("2120001355")
      && Detect("212000-1355", lib) == Success(OrganizationEntity(OrganizationNumber.Make("2120001355")))
  {
    PrepareVector1355();
    Pair1355();
    OrganizationNumber.ValidVector1355();
    DetectOrganization("212000-1355", "2120001355", lib);
  }

  /** `600411-8177` (second pair 04) goes the Person way, and is returned
      exactly when the library accepts `6004118177`. */
  lemma DetectVector8177(lib: PersonNumber.Library)
    ensures Detect("600411-8177", lib)
      == if lib.valid("6004118177") then Success(PersonEntity(PersonNumber.Make("6004118177", true, lib)))
         else Failure(DetectException)
  {
    PrepareVector8177();
    Pair8177();
    DetectPerson("600411-8177", "6004118177", lib);
  }

  /** `19860210-7313` goes the Person way by its length. */
  lemma DetectVector7313(lib: PersonNumber.Library)
    ensures Detect("19860210-7313", lib)
      == if lib.valid("198602107313") then Success(PersonEntity(PersonNumber.Make("198602107313", true, lib)))
         else Failure(DetectException)
  {
    PrepareVector7313();
    DetectPerson("19860210-7313", "198602107313", lib);
  }

  /** `19212000-1355` has twelve digits, so it is never taken for the
      organisation number `212000-1355` it contains: it is a Person, and
      `detect` throws when the library refuses it. */
  lemma DetectVector19212000(lib: PersonNumber.Library)
    requires !lib.valid("192120001355")
    ensures Candidate(Prepare("19212000-1355"), lib).PersonEntity?
    ensures Detect("19212000-1355", lib) == Failure(DetectException)
  {
    PrepareVector19212000();
    DetectPerson("19212000-1355", "192120001355", lib);
  }

  /** `556016+0680`: the `+` survives preparation, so eleven characters remain
      and the number goes the Person way, although its digits form a valid
      organisation number. */
  lemma PrepareVectorPlus0680()
    ensures Prepare("556016+0680") == "556016+0680"
  {
    assert "556016" + "+" + "0680" == "556016+0680";
    OrganizationNumber.VectorDigits();
    assert AllDigits("556016") && AllDigits("0680");
    PrepareDigits("556016");
    PrepareDigits("0680");
    PrepareKeepsPlus("556016", "0680");
  }

  lemma DetectVectorPlus0680(lib: PersonNumber.Library)
    ensures |Prepare("556016+0680")| == 11
    ensures Candidate(Prepare("556016+0680"), lib).PersonEntity?
    ensures Detect("556016+0680", lib)
      == if lib.valid("556016+0680") then Success(PersonEntity(PersonNumber.Make("556016+0680", true, lib)))
         else Failure(DetectException)
  {
    PrepareVectorPlus0680();
    DetectPerson("556016+0680", "556016+0680", lib);
  }
}
