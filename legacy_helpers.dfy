/**
 * The older helpers.js: the generator (as written, and with the alphabet it
 * was meant to import), and getUserByEmail and urlsForUser over plain records,
 * without the argument checks of the later version.
 */
module LegacyHelpers {
  import opened Wrappers
  import opened Constants
  import Helpers

  /** A user as a plain object `{ id, email, password }`. */
  datatype UserEntry = UserEntry(id: string, email: string, password: string)

  /** A link as a plain object `{ longURL, userID }`. */
  datatype UrlEntry = UrlEntry(longURL: string, userID: string)

  /** An exception thrown by the JavaScript runtime. */
  datatype JsError = TypeError(message: string)

  const UNDEFINED_LENGTH: string := "Cannot read properties of undefined (reading 'length')"

  /**
   * What `require` hands back for a constants file: constants.js exports the
   * array itself, public/scripts/constants.js an object whose
   * `ALPHANUMERIC_CHARS` property is the array.
   */
  datatype Exports = ArrayExports(array: seq<Entry>) | ObjectExports(alphabet: seq<Entry>)

  const ROOT_CONSTANTS: Exports := ArrayExports(ALPHANUMERIC_CHARS)
  const PUBLIC_CONSTANTS: Exports := ObjectExports(ALPHANUMERIC_CHARS)

  /**
   * `const { ALPHANUMERIC_CHARS } = exports`, with None for `undefined`: an
   * array neither owns nor inherits a property of that name.
   */
  function DestructureAlphabet(e: Exports): (r: Option<seq<Entry>>)
    ensures r.Some? <==> e.ObjectExports?
    ensures r.Some? ==> r.value == e.alphabet
  {
    match e
    case ArrayExports(_) => None
    case ObjectExports(alphabet) => Some(alphabet)
  }

  /** `value.length`, which throws a TypeError when the value is `undefined`. */
  function LengthOf(value: Option<seq<Entry>>): (r: Result<nat, JsError>)
    ensures r.Failure? <==> value.None?
    ensures r.Success? ==> r.value == |value.value|
    ensures r.Failure? ==> r.error == TypeError(UNDEFINED_LENGTH)
  {
    match value
    case None => Failure(TypeError(UNDEFINED_LENGTH))
    case Some(items) => Success(|items|)
  }

  /**
   * helpers.js takes the alphabet out of the root constants file, which has no
   * such property; the same line against the later constants file finds it.
   */
  lemma ImportedAlphabet()
    ensures DestructureAlphabet(ROOT_CONSTANTS).None?
    ensures DestructureAlphabet(PUBLIC_CONSTANTS) == Some(ALPHANUMERIC_CHARS)
    ensures |ALPHANUMERIC_CHARS| == 62
  {
    AlphabetLayout();
  }

  /**
   * generateRandomString(urlDatabase, stringLength) as written: the alphabet it
   * destructures is `undefined`, so reading its length throws before any
   * character is drawn, whatever the arguments.
   */
  method GenerateRandomString<V>(urlDatabase: map<string, V>, stringLength: int, maxAttempts: nat)
    returns (r: Result<string, JsError>)
    ensures r == Failure(TypeError(UNDEFINED_LENGTH))
  {
    var alphabet := DestructureAlphabet(ROOT_CONSTANTS);
    var totalNumberOfChars := LengthOf(alphabet);
    r := Failure(totalNumberOfChars.error);
  }

  /**
   * generateRandomString(urlDatabase, stringLength) with the alphabet it was
   * meant to import: the same algorithm as the later helpers, fresh with
   * respect to `urlDatabase`.
   */
  method GenerateFreshString<V>(urlDatabase: map<string, V>, stringLength: int, maxAttempts: nat)
    returns (r: Option<string>)
    ensures r.Some? ==> Helpers.IsRandomString(r.value, stringLength) && r.value !in urlDatabase
  {
    r := Helpers.GenerateRandomString(urlDatabase, stringLength, maxAttempts);
  }

  /**
   * getUserByEmail without a shape check: the first user whose email is
   * exactly `email`, or None (`null`).
   */
  method GetUserByEmail(users: seq<UserEntry>, email: string) returns (r: Option<UserEntry>)
    ensures r.Some? ==> exists i :: Helpers.IsFirstWithEmail(users, (u: UserEntry) => u.email, email, i) && users[i] == r.value
    ensures r.None? <==> forall i :: 0 <= i < |users| ==> users[i].email != email
  {
    var n := 0;
    while n < |users|
      invariant 0 <= n <= |users|
      invariant forall j :: 0 <= j < n ==> users[j].email != email
    {
      if users[n].email == email {
        return Some(users[n]);
      }
      n := n + 1;
    }
    return None;
  }

  /**
   * urlsForUser(urlDatabase, userID): exactly the entries the user owns, under
   * their own keys; an unknown id simply owns nothing.
   */
  method UrlsForUser(urlDatabase: map<string, UrlEntry>, userID: string) returns (urls: map<string, UrlEntry>)
    ensures forall key :: key in urls <==> key in urlDatabase && urlDatabase[key].userID == userID
    ensures forall key :: key in urls ==> urls[key] == urlDatabase[key]
  {
    urls := map[];
    var remaining := urlDatabase.Keys;
    while remaining != {}
      invariant remaining <= urlDatabase.Keys
      invariant forall key :: key in urls <==>
        key in urlDatabase && key !in remaining && urlDatabase[key].userID == userID
      invariant forall key :: key in urls ==> urls[key] == urlDatabase[key]
      decreases remaining
    {
      var key :| key in remaining;
      if urlDatabase[key].userID == userID {
        urls := urls[key := urlDatabase[key]];
      }
      remaining := remaining - {key};
    }
  }

  /** A user who owns no link gets an empty result. */
  lemma NoLinksNoResult(urlDatabase: map<string, UrlEntry>, userID: string, urls: map<string, UrlEntry>)
    requires forall key :: key in urls <==> key in urlDatabase && urlDatabase[key].userID == userID
    requires forall key :: key in urlDatabase ==> urlDatabase[key].userID != userID
    ensures urls == map[]
  {
    assert urls.Keys == {};
  }
}
