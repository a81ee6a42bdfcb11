/**
 * The alphabet of short identifiers and the error messages of
 * public/scripts/constants.js (the older constants.js exports the same array).
 */
module Constants {

  /**
   * An entry of ALPHANUMERIC_CHARS. The first ten entries are the JavaScript
   * NUMBERS 0 to 9, not strings; the others are one-letter strings.
   */
  datatype Entry = Num(n: nat) | Letter(c: char)

  const DIGITS: string := "0123456789"
  const UPPER_CASE: string := "ABCDEFGHIJKLMNOPQRSTUVWXYZ"
  const LOWER_CASE: string := "abcdefghijklmnopqrstuvwxyz"

  /** `[0, 1, ..., 9]`. */
  const NUMERICS: seq<Entry> := seq(10, i requires 0 <= i => Num(i))

  /** `str.split('')`: one single-letter entry per character. */
  function Split(s: string): (r: seq<Entry>)
    ensures |r| == |s|
    ensures forall i :: 0 <= i < |s| ==> r[i] == Letter(s[i])
  {
    seq(|s|, i requires 0 <= i < |s| => Letter(s[i]))
  }

  /** `[...numerics, ...upperCase, ...lowerCase]`. */
  const ALPHANUMERIC_CHARS: seq<Entry> := NUMERICS + Split(UPPER_CASE) + Split(LOWER_CASE)

  /**
   * What `randomString += entry` appends, and what an entry becomes when it is
   * used as an object key: String(n) for a number below ten is its digit.
   */
  function Stringify(e: Entry): string
  {
    match e
    case Num(n) => Decimal(n)
    case Letter(c) => [c]
  }

  /** String(n) for a non-negative integer: its decimal digits. */
  function Decimal(n: nat): string
    decreases n
  {
    if n < 10 then [DIGITS[n]] else Decimal(n / 10) + [DIGITS[n % 10]]
  }

  /** The 62 characters the entries stringify to, in the same order. */
  const ALPHABET: string := DIGITS + UPPER_CASE + LOWER_CASE

  /**
   * ALPHANUMERIC_CHARS has 62 entries: the numbers 0-9, then the letters A-Z,
   * then a-z, each block in ascending order.
   */
  lemma AlphabetLayout()
    ensures |ALPHANUMERIC_CHARS| == 62
    ensures forall i :: 0 <= i < 10 ==> ALPHANUMERIC_CHARS[i] == Num(i)
    ensures forall i :: 10 <= i < 36 ==>
      ALPHANUMERIC_CHARS[i].Letter? && ALPHANUMERIC_CHARS[i].c as int == 'A' as int + (i - 10)
    ensures forall i :: 36 <= i < 62 ==>
      ALPHANUMERIC_CHARS[i].Letter? && ALPHANUMERIC_CHARS[i].c as int == 'a' as int + (i - 36)
  {
    assert forall i :: 0 <= i < 26 ==> UPPER_CASE[i] as int == 'A' as int + i;
    assert forall i :: 0 <= i < 26 ==> LOWER_CASE[i] as int == 'a' as int + i;
  }

  /** Every entry stringifies to exactly one character: the one at its index in ALPHABET. */
  lemma EntryText(i: nat)
    requires i < |ALPHANUMERIC_CHARS|
    ensures |ALPHABET| == |ALPHANUMERIC_CHARS|
    ensures Stringify(ALPHANUMERIC_CHARS[i]) == [ALPHABET[i]]
  {
    if i < 10 {
      assert ALPHANUMERIC_CHARS[i] == Num(i);
    } else if i < 36 {
      assert ALPHANUMERIC_CHARS[i] == Letter(UPPER_CASE[i - 10]);
    } else {
      assert ALPHANUMERIC_CHARS[i] == Letter(LOWER_CASE[i - 36]);
    }
  }

  /** The alphabet's characters are pairwise distinct, so are its entries. */
  lemma AlphabetDistinct()
    ensures forall i, j :: 0 <= i < j < |ALPHABET| ==> ALPHABET[i] != ALPHABET[j]
    ensures forall i, j :: 0 <= i < j < |ALPHANUMERIC_CHARS| ==>
      ALPHANUMERIC_CHARS[i] != ALPHANUMERIC_CHARS[j]
  {
    assert forall i :: 0 <= i < 10 ==> ALPHABET[i] as int == '0' as int + i;
    assert forall i :: 10 <= i < 36 ==> ALPHABET[i] as int == 'A' as int + (i - 10);
    assert forall i :: 36 <= i < 62 ==> ALPHABET[i] as int == 'a' as int + (i - 36);
    forall i, j | 0 <= i < j < |ALPHANUMERIC_CHARS|
      ensures ALPHANUMERIC_CHARS[i] != ALPHANUMERIC_CHARS[j]
    {
      EntryText(i);
      EntryText(j);
    }
  }

  // ERROR_MSG: the two constant messages the model uses and the three builders.

  const BAD_PASSWORD: string := "401 Error: Invalid Password"
  const BLANK_FORM: string := "400 Error: The email and password fields cannot be blank"
  const NOT_LOGGED_IN: string := "Log in to your account to use TinyURL"
  const VALIDATION_FAIL: string := "500 Error: Something went wrong and we were unable to verify your password"

  /** The email appears verbatim after a fixed prefix, before a fixed suffix. */
  function AccountExists(email: string): (r: string)
    ensures |r| == |email| + 41 && r[26..26 + |email|] == email
  {
    "403 Error: An account for " + email + " already exists"
  }

  /** The email appears verbatim at the end, after a fixed prefix. */
  function NoAccount(email: string): (r: string)
    ensures |r| == |email| + 32 && r[32..] == email
  {
    "401 Error: No account found for " + email
  }

  /** The link id appears verbatim after a fixed prefix, before a fixed suffix. */
  function NotOwned(id: string): (r: string)
    ensures |r| == |id| + 46 && r[12..12 + |id|] == id
  {
    "The TinyURL " + id + " is not registered to this account"
  }

  /** A message of the form prefix + arg + suffix determines arg. */
  lemma {:induction false} EmbeddedArgument(prefix: string, a: string, b: string, suffix: string)
    requires prefix + a + suffix == prefix + b + suffix
    ensures a == b
  {
    var m := prefix + a + suffix;
    assert |a| == |b|;
    assert a == m[|prefix|..|prefix| + |a|];
    assert b == (prefix + b + suffix)[|prefix|..|prefix| + |b|];
  }

  /**
   * Each message builder embeds its argument: two different arguments never
   * give the same message.
   */
  lemma MessagesDetermineArgument(a: string, b: string)
    ensures AccountExists(a) == AccountExists(b) ==> a == b
    ensures NoAccount(a) == NoAccount(b) ==> a == b
    ensures NotOwned(a) == NotOwned(b) ==> a == b
  {
    if AccountExists(a) == AccountExists(b) {
      EmbeddedArgument("403 Error: An account for ", a, b, " already exists");
    }
    if NoAccount(a) == NoAccount(b) {
      EmbeddedArgument("401 Error: No account found for ", a, b, "");
    }
    if NotOwned(a) == NotOwned(b) {
      EmbeddedArgument("The TinyURL ", a, b, " is not registered to this account");
    }
  }
}
