/** `Person`: a wrapper around the personal-identity-number library
    `Personnummer\Personnummer`. The library is not part of this model; its
    predicate and its constructor are parameters (a `Library`), and what an
    instance of it reports is a plain value (a `Personnummer`). What is
    modelled is the wrapper's own logic: when it is valid, how it
    post-processes the library's formats, its parts and the birthday. */
module PersonNumber {
  import opened Wrappers
  import opened Strings

  // ---------------------------------------------------------------------
  // The delegate library, as an oracle
  // ---------------------------------------------------------------------

  /** What an instance of the library reports: `format(false)` (`short`, ten
      digits with `-` or `+` after the date), `format(true)` (`long`, twelve
      digits), `getAge()`, the date fields, `isMale()` and
      `isCoordinationNumber()`. The age depends on the current date, which is
      therefore part of this value rather than computed. */
  datatype Personnummer = Personnummer(
    short: string,
    long: string,
    age: int,
    century: string,
    year: string,
    month: string,
    day: string,
    isMale: bool,
    isCoordinationNumber: bool)

  /** The library's static predicate `Personnummer::valid($ssn)`, and its
      constructor `new Personnummer($ssn, ['allowCoordinationNumber' => $b])`,
      which either yields an instance or throws `PersonnummerException`
      (`None`). */
  datatype Library = Library(valid: string -> bool, parse: (string, bool) -> Option<Personnummer>)

  // ---------------------------------------------------------------------
  // Parts
  // ---------------------------------------------------------------------

  /** The `DateTime` the wrapper builds from `'%s%s-%s-%d'`: the four-digit
      year (century and year concatenated), the month string and the day
      number. Calendar validity is not part of the model. */
  datatype Birthday = Birthday(year: string, month: string, day: int)

  /** The `age`, `gender`, `ssn`, `birthday` and `type` entries of `$parts`. */
  datatype Parts = Parts(age: int, gender: string, ssn: string, birthday: Birthday, kind: string)

  /** `PersonException`, or a call on the instance the library refused to
      build (the wrapper keeps `null` then and PHP fails on the call). */
  datatype PersonError = PersonException | MissingDelegate

  /** `getBirthday`: `intval` of the library's day, less 60 for a
      coordination number, whose day field is the day of birth plus 60. */
  function BirthdayOf(p: Personnummer): (b: Birthday)
    ensures b.year == p.century + p.year && b.month == p.month
    ensures p.isCoordinationNumber ==> b.day + 60 == IntVal(p.day)
    ensures !p.isCoordinationNumber ==> b.day == IntVal(p.day)
  {
    var day := IntVal(p.day);
    Birthday(p.century + p.year, p.month, if p.isCoordinationNumber then day - 60 else day)
  }

  /** `setParts`: the labels are `male`/`female` and
      `Samordningsnummer`/`Personnummer`, one for each answer of the library. */
  function PartsOf(ssn: string, p: Personnummer): (r: Parts)
    ensures r.age == p.age && r.ssn == ssn && r.birthday == BirthdayOf(p)
    ensures r.gender == "male" <==> p.isMale
    ensures r.gender == "male" || r.gender == "female"
    ensures r.kind == "Samordningsnummer" <==> p.isCoordinationNumber
    ensures r.kind == "Samordningsnummer" || r.kind == "Personnummer"
  {
    Parts(p.age,
          if p.isMale then "male" else "female",
          ssn,
          BirthdayOf(p),
          if p.isCoordinationNumber then "Samordningsnummer" else "Personnummer")
  }

  // ---------------------------------------------------------------------
  // An instance, and formatting
  // ---------------------------------------------------------------------

  /** The fields of a `Person` object. */
  datatype PersonState = PersonState(
    ssn: string,
    valid: bool,
    personnummer: Option<Personnummer>,
    parts: Option<Parts>)
  {
    /** `format($digits, $seperator)`. The library's 12-digit form is asked
        for exactly when `digits == 12`. Ten digits without separator drop
        every `-` and then every `+`; twelve digits with separator get a `-`
        inserted at index 8, and at an age of 100 or more every `-` becomes
        `+`; every other combination returns the library's string as it is. */
    function Format(digits: int, seperator: bool): (r: Result<string, PersonError>)
      ensures r.Success? <==> valid && personnummer.Some?
      ensures !valid ==> r == Failure(PersonException)
    {
      if !valid then Failure(PersonException)
      else if personnummer.None? then Failure(MissingDelegate)
      else
        var p := personnummer.value;
        var s := if digits == 12 then p.long else p.short;
        if !seperator && digits == 10 then Success(Strip(Strip(s, '-'), '+'))
        else if seperator && digits == 12 then
          var t := InsertAt(s, 8, '-');
          Success(if p.age >= 100 then ReplaceChar(t, '-', '+') else t)
        else Success(s)
    }
  }

  /** The defaults of `format`. */
  const DefaultDigits: int := 10
  const DefaultSeperator: bool := true

  /** The state `new Person($ssn, $allowCoordinationNumbers)` leaves behind:
      validity from the library's predicate on the raw string; the instance
      and the parts only when the library's constructor succeeds. */
  function Make(ssn: string, allowCoordinationNumbers: bool, lib: Library): (st: PersonState)
    ensures st.ssn == ssn && st.valid == lib.valid(ssn)
    ensures st.personnummer == lib.parse(ssn, allowCoordinationNumbers)
    ensures st.parts.Some? <==> st.personnummer.Some?
    ensures st.parts.Some? ==> st.parts.value == PartsOf(ssn, st.personnummer.value)
  {
    var p := lib.parse(ssn, allowCoordinationNumbers);
    PersonState(ssn, lib.valid(ssn), p, if p.Some? then Some(PartsOf(ssn, p.value)) else None)
  }

  // ---------------------------------------------------------------------
  // Properties
  // ---------------------------------------------------------------------

  /** Validity is the library's predicate on the raw string, whatever the
      coordination-number option and whether or not the instance is built. */
  lemma ValidIsDelegated(ssn: string, allow: bool, lib: Library, other: Library)
    requires other.valid == lib.valid
    ensures Make(ssn, allow, lib).valid == lib.valid(ssn)
    ensures Make(ssn, allow, lib).valid == Make(ssn, !allow, other).valid
    ensures Make(ssn, allow, lib).parts.Some? <==> lib.parse(ssn, allow).Some?
  {
  }

  /** An invalid person cannot be formatted, whatever the arguments. */
  lemma FormatOfInvalid(st: PersonState, digits: int, seperator: bool)
    requires !st.valid
    ensures st.Format(digits, seperator) == Failure(PersonException)
  {
  }

  /** The separators `-` and `+`. */
  predicate IsSeparator(c: char) {
    c == '-' || c == '+'
  }

  /** Removing `-` and then `+` leaves no separator at all. */
  lemma {:induction false} StripSeparators(s: string)
    ensures forall i :: 0 <= i < |Strip(Strip(s, '-'), '+')| ==> !IsSeparator(Strip(Strip(s, '-'), '+')[i])
  {
    var h := Strip(s, '-');
    var r := Strip(h, '+');
    forall i | 0 <= i < |r| ensures !IsSeparator(r[i]) {
      StripKeepsAbsence(h, '+', '-', i);
    }
  }

  /** Stripping `c` keeps `other` out of a string that did not contain it. */
  lemma {:induction false} StripKeepsAbsence(s: string, c: char, other: char, i: nat)
    requires forall j :: 0 <= j < |s| ==> s[j] != other
    requires i < |Strip(s, c)|
    ensures Strip(s, c)[i] != other
  {
    if s != [] {
      if s[0] == c {
        StripKeepsAbsence(s[1..], c, other, i);
      } else if i > 0 {
        StripKeepsAbsence(s[1..], c, other, i - 1);
      }
    }
  }

  /** As `format(10, false)` removes separators: `-` first, then `+`. */
  lemma SeparatorsRemoved(a: string, sep: char, b: string)
    requires IsSeparator(sep)
    requires forall i :: 0 <= i < |a| ==> !IsSeparator(a[i])
    requires forall i :: 0 <= i < |b| ==> !IsSeparator(b[i])
    ensures Strip(Strip(a + [sep] + b, '-'), '+') == a + b
  {
    if sep == '-' {
      HyphenRemoved(a, b);
    } else {
      PlusRemoved(a, b);
    }
  }

  lemma HyphenRemoved(a: string, b: string)
    requires forall i :: 0 <= i < |a| ==> !IsSeparator(a[i])
    requires forall i :: 0 <= i < |b| ==> !IsSeparator(b[i])
    ensures Strip(Strip(a + ['-'] + b, '-'), '+') == a + b
  {
    StripInserted(a, b, '-');
    AbsentInJoin(a, b, '+');
    StripAbsent(a + b, '+');
  }

  lemma PlusRemoved(a: string, b: string)
    requires forall i :: 0 <= i < |a| ==> !IsSeparator(a[i])
    requires forall i :: 0 <= i < |b| ==> !IsSeparator(b[i])
    ensures Strip(Strip(a + ['+'] + b, '-'), '+') == a + b
  {
    AbsentInJoin(a, ['+'], '-');
    AbsentInJoin(a + ['+'], b, '-');
    StripAbsent(a + ['+'] + b, '-');
    StripInserted(a, b, '+');
  }

  /** `format(10, false)`: the library's ten-digit form with its separators
      removed, so `YYMMDD-NNNN` and `YYMMDD+NNNN` both become `YYMMDDNNNN`. */
  lemma FormatShortPlain(st: PersonState, a: string, sep: char, b: string)
    requires st.valid && st.personnummer.Some?
    requires st.personnummer.value.short == a + [sep] + b && IsSeparator(sep)
    requires forall i :: 0 <= i < |a| ==> !IsSeparator(a[i])
    requires forall i :: 0 <= i < |b| ==> !IsSeparator(b[i])
    ensures st.Format(10, false) == Success(a + b)
  {
    SeparatorsRemoved(a, sep, b);
  }

  /** `format(10, false)` never contains a separator. */
  lemma FormatShortPlainHasNoSeparator(st: PersonState)
    requires st.valid && st.personnummer.Some?
    ensures var r := st.Format(10, false).value;
      forall i :: 0 <= i < |r| ==> !IsSeparator(r[i])
  {
    StripSeparators(st.personnummer.value.short);
  }

  /** `format(12, true)`: the library's twelve digits with a separator after
      the date (index 8), `+` from an age of 100 and `-` below. */
  lemma FormatLongSeparated(st: PersonState)
    requires st.valid && st.personnummer.Some?
    requires var l := st.personnummer.value.long;
      |l| >= 8 && forall i :: 0 <= i < |l| ==> l[i] != '-'
    ensures var p := st.personnummer.value;
      st.Format(12, true) == Success(p.long[..8] + [if p.age >= 100 then '+' else '-'] + p.long[8..])
  {
    var p := st.personnummer.value;
    var t := InsertAt(p.long, 8, '-');
    if p.age >= 100 {
      var u := p.long[..8] + ['+'] + p.long[8..];
      assert ReplaceChar(t, '-', '+') == u by {
        forall i | 0 <= i < |t| ensures ReplaceChar(t, '-', '+')[i] == u[i] {
          if i < 8 {
            assert t[i] == p.long[i];
          } else if i > 8 {
            assert t[i] == p.long[i - 1];
          }
        }
      }
    }
  }

  /** `format(10, true)` (the defaults) and `format(12, false)` return the
      library's strings unchanged, as does any digit count other than 10 or 12. */
  lemma FormatUnchanged(st: PersonState, digits: int, seperator: bool)
    requires st.valid && st.personnummer.Some?
    ensures st.Format(DefaultDigits, DefaultSeperator) == Success(st.personnummer.value.short)
    ensures st.Format(10, true) == Success(st.personnummer.value.short)
    ensures st.Format(12, false) == Success(st.personnummer.value.long)
    ensures digits != 10 && digits != 12 ==> st.Format(digits, seperator) == Success(st.personnummer.value.short)
  {
  }

  /** A coordination number's birthday is the regular day: a day field of
      two digits `xy` gives the day `10x + y`, less 60 for a coordination
      number. */
  lemma BirthdayDay(p: Personnummer)
    requires |p.day| == 2 && AllDigits(p.day)
    ensures BirthdayOf(p).day == 10 * DigitValue(p.day[0]) + DigitValue(p.day[1]) - (if p.isCoordinationNumber then 60 else 0)
  {
    assert LeadingDigits(p.day) == p.day;
    assert p.day[..1][..0] == [];
    assert DecimalValue(p.day[..1]) == DigitValue(p.day[0]);
  }

  // ---------------------------------------------------------------------
  // Test vectors: the library's answers for a few numbers, as the wrapper
  // receives them
  // ---------------------------------------------------------------------

  /** The library's instance for `600411-8177` at an age of 66. */
  const Man1960: Personnummer := Personnummer("600411-8177", "196004118177", 66, "19", "60", "04", "11", true, false)

  /** The same digits with `+`: born in 1860. */
  const Man1860: Personnummer := Personnummer("600411+8177", "186004118177", 166, "18", "60", "04", "11", true, false)

  /** The library's instance for `010101+6434`: born in 1901. */
  const Man1901: Personnummer := Personnummer("010101+6434", "190101016434", 125, "19", "01", "01", "01", true, false)

  /** A coordination number: `600471-8174`, day field 71. */
  const Coordinated: Personnummer := Personnummer("600471-8174", "196004718174", 66, "19", "60", "04", "71", true, true)

  function Accepted(ssn: string, p: Personnummer): PersonState {
    PersonState(ssn, true, Some(p), Some(PartsOf(ssn, p)))
  }

  lemma FormatVector1960Long()
    ensures Accepted("600411-8177", Man1960).Format(12, true) == Success("19600411-8177")
    ensures Accepted("600411-8177", Man1960).Format(12, false) == Success("196004118177")
  {
    FormatLongSeparated(Accepted("600411-8177", Man1960));
    assert "196004118177"[..8] + ['-'] + "196004118177"[8..] == "19600411-8177";
  }

  lemma FormatVector1960Short()
    ensures Accepted("600411-8177", Man1960).Format(10, true) == Success("600411-8177")
  {
    FormatUnchanged(Accepted("600411-8177", Man1960), 10, true);
  }

  lemma FormatVector1860()
    ensures Accepted("600411+8177", Man1860).Format(12, DefaultSeperator) == Success("18600411+8177")
  {
    FormatLongSeparated(Accepted("600411+8177", Man1860));
    assert "186004118177"[..8] + ['+'] + "186004118177"[8..] == "18600411+8177";
  }

  lemma FormatVector1901()
    ensures Accepted("010101+6434", Man1901).Format(12, DefaultSeperator) == Success("19010101+6434")
    ensures Accepted("010101+6434", Man1901).Format(12, false) == Success("190101016434")
  {
    FormatLongSeparated(Accepted("010101+6434", Man1901));
    assert "190101016434"[..8] + ['+'] + "190101016434"[8..] == "19010101+6434";
  }

  lemma PartsVectors()
    ensures PartsOf("600411-8177", Man1960).kind == "Personnummer"
    ensures PartsOf("600411-8177", Man1960).gender == "male"
    ensures PartsOf("600411-8177", Man1960).birthday == Birthday("1960", "04", 11)
    ensures PartsOf("600471-8174", Coordinated).kind == "Samordningsnummer"
    ensures PartsOf("600471-8174", Coordinated).birthday == Birthday("1960", "04", 11)
  {
    BirthdayDay(Man1960);
    BirthdayDay(Coordinated);
  }

  // ---------------------------------------------------------------------
  // The object
  // ---------------------------------------------------------------------

  class Person {
    var ssn: string
    var personnummer: Option<Personnummer>
    var valid: bool
    var parts: Option<Parts>

    function State(): PersonState
      reads this
    {
      PersonState(ssn, valid, personnummer, parts)
    }

    /** `new Person($ssn, $allowCoordinationNumbers)`. */
    constructor (ssn: string, allowCoordinationNumbers: bool, lib: Library)
      ensures State() == Make(ssn, allowCoordinationNumbers, lib)
    {
      this.ssn := ssn;
      personnummer := None;
      valid := false;
      parts := None;
      new;
      valid := Valid(lib);
      var p := lib.parse(ssn, allowCoordinationNumbers);
      if p.Some? {
        personnummer := p;
        SetParts();
      }
    }

    /** `valid()`: the library's predicate on the stored string. */
    method Valid(lib: Library) returns (r: bool)
      ensures r == lib.valid(ssn)
    {
      return lib.valid(ssn);
    }

    /** `setParts()`; PHP fails when the library refused the number. */
    method SetParts()
      requires personnummer.Some?
      modifies this
      ensures ssn == old(ssn) && valid == old(valid) && personnummer == old(personnummer)
      ensures parts == Some(PartsOf(ssn, personnummer.value))
    {
      var p := personnummer.value;
      var day: int := IntVal(p.day);
      if p.isCoordinationNumber {
        day := day - 60;
      }
      parts := Some(Parts(p.age,
                          if p.isMale then "male" else "female",
                          ssn,
                          Birthday(p.century + p.year, p.month, day),
                          if p.isCoordinationNumber then "Samordningsnummer" else "Personnummer"));
    }

    /** `format($digits, $seperator)`, rewriting its local string step by
        step. Its specification is `PersonState.Format`, about which the
        lemmas above are stated. */
    method Format(digits: int, seperator: bool) returns (r: Result<string, PersonError>)
      ensures r == State().Format(digits, seperator)
    {
      if !valid {
        return Failure(PersonException);
      }
      if personnummer.None? {
        return Failure(MissingDelegate);
      }
      var p := personnummer.value;
      var s := if digits == 12 then p.long else p.short;
      if !seperator && digits == 10 {
        s := Strip(s, '-');
        s := Strip(s, '+');
      } else if seperator && digits == 12 {
        s := InsertAt(s, 8, '-');
        if p.age >= 100 {
          s := ReplaceChar(s, '-', '+');
        }
      }
      return Success(s);
    }
  }
}
