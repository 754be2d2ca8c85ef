# swedish-entity in Dafny

A model of the PHP library `olssonm/swedish-entity`, which validates,
formats and detects Swedish identity numbers: organisation numbers
(`organisationsnummer`) and personal identity numbers (`personnummer`,
including coordination numbers, `samordningsnummer`).

The model has one module per source file of the core:

- `Cleaning` (`cleaning.dfy`, `src/Traits/Clean.php`): the cleaner, which
  deletes every character outside `0123456789-+`.
- `OrganizationNumber` (`organization.dfy`, `src/Organization.php`): the
  `Organization` class and the `OrgState` value its fields form. It covers
  validation (the shape pattern, the rule that the second pair is at least
  20, and the Luhn mod-10 check digit of ISO/IEC 7812-1, Annex B),
  `format`, `setParts` and `parseType`. The class's `Valid` method keeps
  the source's loop over the reversed digits and is proved equal to the
  left-to-right Luhn sum `CheckSum`.
- `PersonNumber` (`person.dfy`, `src/Person.php`): the `Person` class and
  its `PersonState` value. The wrapped library `Personnummer\Personnummer`
  is not part of this model. Its static predicate and its constructor are
  a parameter (`Library`), and what a library instance reports is a plain
  value (`Personnummer`). What is modelled is the wrapper's own logic:
  - validity is delegated to the library;
  - `format` post-processes the library's two forms;
  - the parts;
  - the birthday, with 60 subtracted from a coordination number's day.
- `Entity` (`entity.dfy`, `src/Entity.php`): `detect`. It cleans, removes
  `-`, and picks the Person or the Organization by the length and the
  second pair. It throws unless the object is valid.
- `SwedishEntity` (`swedish_entity.dfy`, `src/SwedishEntity.php`): the
  older entry point. It is written the way its source reads and is proved
  equal to `Entity.Detect` for every input and every library.
- `Strings` and `Wrappers` hold the string primitives (`str_replace`,
  `substr_replace`, `array_reverse`, `intval`) and `Option`/`Result`.

Errors are values. `OrganizationException`, `PersonException` and
`DetectException` are `Failure`s of a `Result`.

Some PHP behaviour is written out explicitly:

- PCRE's `$` also matches before a final line feed.
- `str_replace` with an array of needles applies them in order.
- `substr_replace` appends when the offset lies beyond the end.
- The detector's `substr($n, 2, 2) >= 20` follows PHP 8's comparison
  rules. In a cleaned number the pair can contain `+`:
  - two digits, or `+` and a digit, form a numeric string and are
    compared as a number;
  - anything else is compared with `"20"` as text.

`src/Entity.php:35` and `src/SwedishEntity.php:34` build a `Company`.
That class is not part of this model. The model yields an
`Organization`, which is the class the repository's tests expect from that
branch (`tests/SwedishEntityTest.php:175-177`).

## Model

| member | source | states |
|---|---|---|
| Strings.Strip | src/Organization.php:58 | removing one character with `str_replace` never lengthens the string, and no occurrence of that character remains |
| Strings.InsertAt | src/Organization.php:64 | `substr_replace($s, $c, $at, 0)` adds exactly one character; within range it is inserted before position `at` |
| Strings.ReplaceChar | src/Person.php:96 | `str_replace('-', '+', $s)` keeps the length and maps each `-` to `+`, leaving every other character alone |
| Strings.Reverse | src/Organization.php:84 | `array_reverse(str_split($s))` holds at index i the character at index n-1-i |
| Strings.LeadingDigits | src/Person.php:154 | the longest digit prefix, as `intval` reads it: a prefix of the input, all digits, followed by a non-digit or the end |
| Strings.IntVal | src/Person.php:154 | `intval` reads the leading digits: 0 when the string does not start with a digit, the digit itself for one leading digit, `10x + y` for two leading digits `xy` |
| Cleaning.Clean | src/Traits/Clean.php:16-22 | the result is no longer than the input and contains only `0-9`, `-` and `+` |
| Cleaning.Allowed | src/Traits/Clean.php:18 | definition: the pattern `0123456789-+`, the ten decimal digits, `-` and `+` |
| Cleaning.CleanIsSubsequence | src/Traits/Clean.php:19 | the result is the input with characters deleted, the rest in their original order |
| Cleaning.CleanCounts | src/Traits/Clean.php:18-19 | every allowed character is kept as often as it occurs; every other character is dropped entirely |
| Cleaning.CleanConcat | src/Traits/Clean.php:19 | cleaning distributes over concatenation |
| Cleaning.CleanFixesAllowed | src/Traits/Clean.php:18-19 | a string is unchanged by cleaning if and only if every character is allowed |
| Cleaning.CleanIdempotent | src/Traits/Clean.php:19 | cleaning twice gives the same result as cleaning once |
| Cleaning.CleanIgnoresDropped | src/Traits/Clean.php:19 | inserting a disallowed character anywhere does not change the result |
| Cleaning.CleanKeepsHyphenated | tests/SwedishEntityTest.php:250-252 | `600411-8177` is returned unchanged |
| Cleaning.CleanDropsTrailingLetter | tests/SwedishEntityTest.php:250 | `600411-8177a` cleans to `600411-8177` |
| Cleaning.CleanDropsSpace | tests/SwedishEntityTest.php:251 | `600411 8177` cleans to `6004118177` |
| Cleaning.CleanDropsLeadingLetter | tests/SwedishEntityTest.php:252 | `a600411-8177` cleans to `600411-8177` |
| Cleaning.CleanKeepsCleanInput | tests/SwedishEntityTest.php:253 | `6004118177` is returned unchanged |
| OrganizationNumber.SecondPair | src/Organization.php:79 | on a string of the accepted shape, the second pair is read as a number from 0 to 99 |
| OrganizationNumber.Shape | src/Organization.php:74 | definition: `^\d{6}[\-\/]?\d{4}+$`, i.e. six digits, an optional `-` or `/`, four digits, optionally followed by one final line feed that PCRE's `$` admits |
| OrganizationNumber.CheckSum | src/Organization.php:83-93 | the Luhn sum of the digits, each digit standing as many places from the right as in the reversed loop; at most 9 per digit |
| OrganizationNumber.LuhnOk | src/Organization.php:94 | definition: the Luhn sum is a multiple of ten |
| OrganizationNumber.IsValid | src/Organization.php:72-95 | definition: the value `valid()` returns, namely the shape matches, the second pair is at least 20 and the Luhn sum of the number without `-` is a multiple of ten |
| OrganizationNumber.Term | src/Organization.php:89-92 | one digit's Luhn contribution is between 0 and 9 |
| OrganizationNumber.Category | src/Organization.php:139-150 | `parseType`: no category exactly for 0, 3, 4 and anything above 9; the table's label otherwise |
| OrganizationNumber.PartsOf | src/Organization.php:102-107 | `setParts`: `org_no` is the input, `check` its last character, and `type` the category of its first digit |
| OrganizationNumber.Make | src/Organization.php:35-43 | the state the constructor leaves: the input, `valid` equal to `IsValid`, and parts present exactly when valid |
| OrganizationNumber.OrgState.Format | src/Organization.php:52-65 | formatting succeeds exactly on a valid instance; otherwise it fails with OrganizationException |
| OrganizationNumber.WithHyphen | src/Organization.php:64 | inserting the separator at index 6 turns ten characters into eleven |
| OrganizationNumber.StripHyphen | src/Organization.php:58 | removing `-` from ten digits, or from those digits with `-` at index 6, gives the ten digits |
| OrganizationNumber.ValidIsCanonical | src/Organization.php:72-95 | a valid number is ten digits, written plain or with `-` at index 6 (never `/` and never a trailing line feed) |
| OrganizationNumber.SeparatorIrrelevant | src/Organization.php:52-95 | a `-` at index 6 changes neither validity nor either format |
| OrganizationNumber.TenDigitValidity | src/Organization.php:72-95 | a ten-digit number is valid if and only if its second pair is at least 20 and its Luhn sum is a multiple of ten, with or without separator |
| OrganizationNumber.CheckSumSubstitute | src/Organization.php:86-93 | replacing one digit moves the Luhn sum by exactly the difference of the two terms at that position |
| OrganizationNumber.TermInjective | src/Organization.php:89-92 | two different digits at the same position contribute different terms |
| OrganizationNumber.ShiftBreaksMultipleOfTen | src/Organization.php:94 | a multiple of ten changed by the difference of two distinct values below ten is no longer a multiple of ten |
| OrganizationNumber.SubstitutionDetected | src/Organization.php:86-94 | any single-digit substitution in a valid ten-digit number makes it invalid, whether the result is written plain or with `-` at index 6 |
| OrganizationNumber.CheckDigitDetected | src/Organization.php:86-94 | changing only the last digit of a valid number, written with or without `-`, makes it invalid |
| OrganizationNumber.FormatCanonical | src/Organization.php:52-65 | a valid number formats to its ten digits, or to those digits with `-` at index 6; either result is valid again and formats the same way |
| OrganizationNumber.CategoryCoverage | src/Organization.php:139-150 | the category table has no entry exactly for the first digits 0, 3 and 4 |
| OrganizationNumber.PartsOfValid | src/Organization.php:102-107 | a valid instance has parts with its last digit as `check`, itself as `org_no`, and the category of its first digit as `type`, absent exactly for 0, 3 and 4 |
| OrganizationNumber.CheckSumTen | src/Organization.php:86-93 | the Luhn sum of ten characters written out term by term |
| OrganizationNumber.CheckSumTenIs | src/Organization.php:86-93 | a Luhn sum from the value of its ten terms |
| OrganizationNumber.Luhn0680 | tests/SwedishEntityTest.php:121 | the Luhn sum of `5560160680` is a multiple of ten |
| OrganizationNumber.Luhn4249 | tests/SwedishEntityTest.php:122-123 | the Luhn sum of `5561034249` is a multiple of ten |
| OrganizationNumber.Luhn1355 | tests/SwedishEntityTest.php:142 | the Luhn sum of `2120001355` is a multiple of ten |
| OrganizationNumber.Luhn0681 | tests/SwedishEntityTest.php:129 | the Luhn sum of `5560160681` is not a multiple of ten |
| OrganizationNumber.Luhn4250 | tests/SwedishEntityTest.php:130-131 | the Luhn sum of `5561034250` is not a multiple of ten |
| OrganizationNumber.VectorDigits | tests/SwedishEntityTest.php:121-131 | the digit strings of the test numbers are all digits |
| OrganizationNumber.VectorHyphens | tests/SwedishEntityTest.php:121-131 | the separated forms of the test numbers |
| OrganizationNumber.ValidVector0680 | tests/SwedishEntityTest.php:121 | `556016-0680` and `5560160680` are valid |
| OrganizationNumber.ValidVector4249 | tests/SwedishEntityTest.php:122-123 | `556103-4249` and `5561034249` are valid |
| OrganizationNumber.ValidVector1355 | tests/SwedishEntityTest.php:142-145 | `212000-1355` and `2120001355` are valid |
| OrganizationNumber.InvalidVector0681 | tests/SwedishEntityTest.php:129 | `556016-0681` is invalid |
| OrganizationNumber.InvalidVector4250 | tests/SwedishEntityTest.php:130-131 | `556103-4250` and `5561034250` are invalid |
| OrganizationNumber.InvalidVector1111 | tests/SwedishEntityTest.php:201 | `111111-1111` is invalid: its second pair is 11 |
| OrganizationNumber.MalformedVectors | tests/SwedishEntityTest.php:114-168 | `1234`, `123456789101112`, `345678-abcd`, `abcefghijklm`, `20010101-6434` and `190101016434` fail the shape check |
| OrganizationNumber.FormatOfTen | src/Organization.php:52-65 | a valid ten-digit number formats, written either way, to itself without separator and to itself with `-` at index 6 |
| OrganizationNumber.FormatVectorSeparated | tests/SwedishEntityTest.php:151-152 | `556016-0680` formats to `5560160680` without separator and to `556016-0680` with it |
| OrganizationNumber.FormatVectorPlain | tests/SwedishEntityTest.php:153 | `5560160680` formats to `556016-0680` |
| OrganizationNumber.FormatVectorInvalid | tests/SwedishEntityTest.php:198-202 | formatting `111111-1111` fails with OrganizationException |
| OrganizationNumber.PartsVector0680 | tests/SwedishEntityTest.php:137-140 | `556016-0680` has check `0`, org_no `556016-0680`, type `Aktiebolag` |
| OrganizationNumber.PartsVector1355 | tests/SwedishEntityTest.php:142-145 | `212000-1355` has check `5`, org_no `212000-1355`, type `Stat, landsting och kommuner` |
| OrganizationNumber.Organization.constructor | src/Organization.php:35-43 | the new object stores the input, its validity, and the parts exactly when it is valid |
| OrganizationNumber.Organization.Valid | src/Organization.php:72-95 | the loop over the reversed digits returns exactly the shape, second-pair and Luhn verdict |
| OrganizationNumber.Organization.Format | src/Organization.php:52-65 | the method returns what the state's format states |
| OrganizationNumber.Organization.SetParts | src/Organization.php:102-107 | sets the parts from the stored number and changes nothing else |
| PersonNumber.BirthdayOf | src/Person.php:152-168 | the birthday's year is century and year joined, its month is the library's month, and its day is `intval` of the library's day, 60 less for a coordination number |
| PersonNumber.PartsOf | src/Person.php:118-129 | gender is `male` exactly for a male number and `female` otherwise; type is `Samordningsnummer` exactly for a coordination number and `Personnummer` otherwise; age, ssn and birthday come through |
| PersonNumber.PersonState.Format | src/Person.php:79-101 | formatting succeeds exactly when the person is valid and the library built an instance; an invalid person yields PersonException |
| PersonNumber.Make | src/Person.php:46-59 | the state the constructor leaves: the raw input, `valid` from the library's predicate, the library instance (or none when its constructor throws), and parts present exactly when the instance exists, equal to `PartsOf` |
| PersonNumber.ValidIsDelegated | src/Person.php:46-59 | validity is the library's predicate on the raw string, whatever the coordination option; parts exist exactly when the library's constructor succeeded |
| PersonNumber.FormatOfInvalid | src/Person.php:81-83 | an invalid person fails to format with PersonException, whatever the arguments |
| PersonNumber.StripSeparators | src/Person.php:90 | removing `-` and then `+` leaves no separator |
| PersonNumber.StripKeepsAbsence | src/Person.php:90 | removing one character does not bring in a character that was absent |
| PersonNumber.SeparatorsRemoved | src/Person.php:90 | a string with one `-` or `+` between two separator-free halves becomes the two halves joined |
| PersonNumber.HyphenRemoved | src/Person.php:90 | the `-` case of SeparatorsRemoved |
| PersonNumber.PlusRemoved | src/Person.php:90 | the `+` case of SeparatorsRemoved |
| PersonNumber.FormatShortPlain | src/Person.php:85-90 | `format(10, false)` turns `YYMMDD-NNNN` and `YYMMDD+NNNN` into `YYMMDDNNNN` |
| PersonNumber.FormatShortPlainHasNoSeparator | src/Person.php:89-90 | `format(10, false)` never contains a separator |
| PersonNumber.FormatLongSeparated | src/Person.php:91-97 | `format(12, true)` is the library's twelve digits with `+` after the date from an age of 100 and `-` below |
| PersonNumber.FormatUnchanged | src/Person.php:79-100 | the defaults `(10, true)`, `(12, false)` and any other digit count return the library's string unchanged |
| PersonNumber.BirthdayDay | src/Person.php:154-157 | a two-digit day field `xy` gives the day `10x + y`, less 60 for a coordination number |
| PersonNumber.FormatVector1960Long | tests/SwedishEntityTest.php:87-89 | `600411-8177` formats to `196004118177` and `19600411-8177` |
| PersonNumber.FormatVector1960Short | tests/SwedishEntityTest.php:90 | `600411-8177` formats to `600411-8177` by default |
| PersonNumber.FormatVector1860 | tests/SwedishEntityTest.php:106 | `600411+8177`, born 1860, formats to `18600411+8177` |
| PersonNumber.FormatVector1901 | tests/SwedishEntityTest.php:108-109 | `010101+6434` formats to `19010101+6434` and `190101016434` |
| PersonNumber.PartsVectors | tests/SwedishEntityTest.php:75-81 | `600411-8177` is a male `Personnummer` born on April 11, and `600471-8174` is a `Samordningsnummer` with the same birthday |
| PersonNumber.Person.constructor | src/Person.php:46-59 | the new object stores the input and the library's verdict; the instance and the parts are set exactly when the library's constructor succeeds |
| PersonNumber.Person.Valid | src/Person.php:108-111 | returns the library's predicate on the stored string |
| PersonNumber.Person.SetParts | src/Person.php:118-129 | sets the parts from the library's instance, the birthday day adjusted step by step, and changes nothing else |
| PersonNumber.Person.Format | src/Person.php:79-101 | rewriting the local string step by step gives what the state's format states |
| Entity.Prepare | src/Entity.php:24-27 | the prepared number holds only digits and `+`, and is no longer than the input |
| Entity.StripFrom | src/Entity.php:27 | every character left by removing `-` comes from the input and is not `-` |
| Entity.PreparedIsCheckable | src/Organization.php:83-93 | a prepared number never brings a non-digit into the Luhn loop |
| Entity.PairAtLeast20 | src/Entity.php:33 | definition: `substr($number, 2, 2) >= 20` under PHP 8, numeric for two digits or `+` and a digit, text comparison with `"20"` otherwise |
| Entity.EntityValue.Valid | src/Entity.php:41 | definition: `$object->valid()`, the validity the constructor of either class stored |
| Entity.Candidate | src/Entity.php:30-39 | an Organization exactly for ten characters whose second pair is at least 20, built from the prepared number; otherwise a Person with coordination numbers allowed |
| Entity.Detect | src/Entity.php:19-46 | success returns the candidate and it is valid; failure is DetectException and the candidate is invalid |
| Entity.DetectCases | src/Entity.php:19-46 | success if and only if the Organization branch is taken and the number passes `Organization::valid`, or the Person branch is taken and the library accepts; the entity is built from the prepared number |
| Entity.LongIsPerson | src/Entity.php:30-32 | more than ten characters always yield a Person, returned exactly when the library accepts |
| Entity.PairNumeric | src/Entity.php:33 | for two digits the pair test is the numeric comparison with 20, i.e. the first digit is at least 2 |
| Entity.PairWithPlus | src/Entity.php:33 | `+d` and `++` are below 20; `d+` counts as at least 20 exactly when d is 3 to 9 |
| Entity.PlusInOrganizationThrows | src/Entity.php:33-43 | a ten-character number with a `+` that takes the Organization branch makes `detect` throw |
| Entity.DetectOfCleaned | src/Entity.php:24 | cleaning the input first changes nothing |
| Entity.DetectIgnoresDropped | src/Entity.php:24 | a character the cleaner drops can be inserted anywhere without changing the outcome |
| Entity.DetectIgnoresHyphen | src/Entity.php:27 | a `-` can be inserted anywhere without changing the outcome |
| Entity.PrepareIgnoresHyphen | src/Entity.php:24-27 | a `-` inserted anywhere is removed before the length is measured |
| Entity.PrepareDigits | src/Entity.php:24-27 | a string of digits is prepared to itself |
| Entity.PrepareSeparated | src/Entity.php:24-27 | digits around a `-` are prepared to their concatenation |
| Entity.PrepareKeepsPlus | src/Entity.php:24-27 | only `-` is removed: a `+` stays where it stands, between the prepared halves, and counts toward the length |
| Entity.DetectOrganization | src/Entity.php:33-45 | an input taking the Organization branch is returned as that Organization exactly when it is valid, and throws otherwise |
| Entity.DetectPerson | src/Entity.php:30-45 | an input taking the Person branch is returned as that Person exactly when the library accepts it, and throws otherwise |
| Entity.PrepareVector4249 | tests/SwedishEntityTest.php:176 | `5561034249` is prepared to itself |
| Entity.PrepareVector0680 | tests/SwedishEntityTest.php:175 | `556016-0680` is prepared to `5560160680` |
| Entity.PrepareVector1355 | tests/SwedishEntityTest.php:177 | `212000-1355` is prepared to `2120001355` |
| Entity.PrepareVector8177 | tests/SwedishEntityTest.php:179 | `600411-8177` is prepared to `6004118177` |
| Entity.PrepareVector7313 | tests/SwedishEntityTest.php:180 | `19860210-7313` is prepared to `198602107313` |
| Entity.PrepareVector19212000 | tests/SwedishEntityTest.php:187 | `19212000-1355` is prepared to `192120001355` |
| Entity.Pair0680 | tests/SwedishEntityTest.php:175 | the second pair of `5560160680` is at least 20 |
| Entity.Pair4249 | tests/SwedishEntityTest.php:176 | the second pair of `5561034249` is at least 20 |
| Entity.Pair1355 | tests/SwedishEntityTest.php:177 | the second pair of `2120001355` is at least 20 |
| Entity.Pair8177 | tests/SwedishEntityTest.php:179 | the second pair of `6004118177` is below 20 |
| Entity.DetectVector0680 | tests/SwedishEntityTest.php:175 | `556016-0680` is detected as the Organization `5560160680`, whatever the library says |
| Entity.DetectVector4249 | tests/SwedishEntityTest.php:176 | `5561034249` is detected as an Organization |
| Entity.DetectVector1355 | tests/SwedishEntityTest.php:177 | `212000-1355` is detected as the Organization `2120001355` |
| Entity.DetectVector8177 | tests/SwedishEntityTest.php:179 | `600411-8177` goes the Person way and is returned exactly when the library accepts `6004118177` |
| Entity.DetectVector7313 | tests/SwedishEntityTest.php:180 | `19860210-7313` goes the Person way by its length |
| Entity.DetectVector19212000 | tests/SwedishEntityTest.php:184-188 | `19212000-1355` goes the Person way, so it is never taken for the organisation number it contains; it throws when the library refuses it |
| Entity.PrepareVectorPlus0680 | src/Entity.php:24-28 | `556016+0680` is prepared to itself, the `+` included |
| Entity.DetectVectorPlus0680 | src/Entity.php:28-39 | `556016+0680` keeps eleven characters and goes the Person way, returned exactly when the library accepts it, though its digits form a valid organisation number |
| SwedishEntity.Detect | src/SwedishEntity.php:19-44 | for every input and every library it answers exactly what `Entity::detect` answers |

## Left out

- The library `Personnummer\Personnummer` is not part of this model: its
  checksum, date and century rules, `format` and `getAge`. A `Library` value
  stands for its predicate and its constructor, and a `Personnummer` value
  for what an instance reports. Person test vectors therefore fix the
  library's answers instead of deriving them.
- The current date. The library's age depends on it, so the age is part of
  the `Personnummer` value.
- `DateTime`. The birthday is the year, month and day the wrapper passes
  to it, and calendar validity is not checked.
- `__get` in both classes, `getPersonnummerInstance`, the PHP notice for a
  missing attribute and the fall-through to the library's properties. These
  are dynamic property access, not logic of the wrapper.
- OrganizationNumber.IsValid, and every member that requires
  `!LuhnSeesNonDigit` (the `Organization` constructor, `Valid` and others): no result is claimed for
  the inputs the shape pattern admits but the Luhn loop cannot read. These
  are a `/` separator and a final line feed, where PHP does arithmetic on a
  non-digit. Inputs reaching `Organization` through `detect` never have
  them (`Entity.PreparedIsCheckable`).
- OrganizationNumber.Category: `parseType` for 0, 3 and 4 reads a missing array key, which
  the declared string return type turns into a PHP error. The model returns
  `None` instead. As a consequence, for a valid number whose first digit is
  0, 3 or 4 (such as `3020000000`) the PHP constructor, and so
  `Entity::detect`, fails with that error, while `Entity.Detect` and
  `OrganizationNumber.Make` return an accepted Organization without a type.
- PersonNumber.PersonState.Format: on a valid person whose library instance was not
  built, PHP calls a method on `null`. The model yields `MissingDelegate`.
- Strings.IntVal: `intval` ignoring leading white space and reading a
  sign. The library's day field is two digits, where this does not arise.
- Entity.PairAtLeast20 follows PHP 8's string-to-number comparison. PHP 7 would
  compare `d+` with 20 numerically.
- The `Company` class is not part of this model; its branch yields an
  `Organization`.
- `src/SwedishEntityServiceProvider.php` (the Laravel validator rule) and
  the exception classes, which carry no logic.
- The vector `format(10, false)` on `6004118177` is not restated. It
  follows from `PersonNumber.FormatShortPlain` once the library's ten-digit
  form is fixed.
