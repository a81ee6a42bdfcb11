/** The helpers of public/scripts/helpers.js. */
module Helpers {
  import opened Wrappers
  import opened Constants
  import EmailShape
  import opened Users
  import opened TinyUrls
  import opened JsObjects

  /** What a gate helper asks of the response, or Continue when it leaves it alone. */
  datatype Decision =
    | Continue
    | Redirect(path: string)
    | RenderUnauthorized(message: string, status: Option<nat>)

  /** The errors the helpers throw for inputs of the right types. */
  datatype HelperError = InvalidEmail | UnknownUser(userID: string)

  /**
   * The message each error is thrown with. The two kinds are told apart by
   * their text, and an unknown user's id appears in it verbatim.
   */
  function ErrorText(e: HelperError): (r: string)
    ensures e.InvalidEmail? <==> r == "Error: not a valid email address"
    ensures e.UnknownUser? ==> |r| == |e.userID| + 29 && r[13..13 + |e.userID|] == e.userID
  {
    match e
    case InvalidEmail => "Error: not a valid email address"
    case UnknownUser(userID) =>
      var text := "Error: User '" + userID + "' does not exist";
      assert text[7] == 'U';
      assert text[13..13 + |userID|] == userID;
      text
  }

  // ---- authorization decisions ----

  /** Refuses, naming the link, exactly when the user does not own it. */
  function CheckPermissions(user: User, url: TinyURL): (d: Decision)
    ensures d == Continue <==> url.IsOwnedBy(user.id)
    ensures d != Continue ==> d == RenderUnauthorized(NotOwned(url.id), None)
  {
    if url.userID != user.id then RenderUnauthorized(NotOwned(url.id), None) else Continue
  }

  /** A logged-in caller is sent on to the list of links. */
  function EnterWithValidCookie(cookie: Session): (d: Decision)
    reads cookie
    ensures d == Continue <==> !cookie.HasUser()
    ensures d != Continue ==> d == Redirect("/urls")
  {
    if cookie.HasUser() then Redirect("/urls") else Continue
  }

  /** A caller who is not logged in is refused. */
  function ExitWithNoValidCookie(cookie: Session): (d: Decision)
    reads cookie
    ensures d == Continue <==> cookie.HasUser()
    ensures d != Continue ==> d == RenderUnauthorized(NOT_LOGGED_IN, None)
  {
    if !cookie.HasUser() then RenderUnauthorized(NOT_LOGGED_IN, None) else Continue
  }

  /** For every session exactly one of the two cookie gates interrupts the request. */
  lemma CookieGatesComplementary(cookie: Session)
    ensures (EnterWithValidCookie(cookie) == Continue) != (ExitWithNoValidCookie(cookie) == Continue)
  {
  }

  /**
   * checkAuthorization with the outcome of bcrypt.compare as a parameter:
   * Some(valid) when it resolves, None when it rejects.
   */
  method CheckAuthorization(user: User, compared: Option<bool>, cookie: Session) returns (d: Decision)
    modifies cookie`userId
    ensures compared == Some(true) ==> d == Redirect("/urls") && cookie.userId == Some(user.id)
    ensures compared == Some(false) ==>
      d == RenderUnauthorized(BAD_PASSWORD, Some(401)) && cookie.userId == old(cookie.userId)
    ensures compared == None ==>
      d == RenderUnauthorized(VALIDATION_FAIL, Some(500)) && cookie.userId == old(cookie.userId)
  {
    match compared {
      case Some(isValidPassword) =>
        if isValidPassword {
          var _ := user.GiveCookie(cookie);
          d := Redirect("/urls");
        } else {
          d := RenderUnauthorized(BAD_PASSWORD, Some(401));
        }
      case None =>
        d := RenderUnauthorized(VALIDATION_FAIL, Some(500));
    }
  }

  // ---- identifier generation ----

  /** `Math.floor(Math.random() * n)`: some index below n, chosen by the environment. */
  method RandomIndex(n: nat) returns (i: nat)
    requires n > 0
    ensures i < n
  {
    i :| i < n;
  }

  /** A string of `stringLength` characters (none for a negative length), all from the alphabet. */
  predicate IsRandomString(s: string, stringLength: int)
  {
    && |s| == (if stringLength < 0 then 0 else stringLength)
    && forall i :: 0 <= i < |s| ==> s[i] in ALPHABET
  }

  /** The `for` loop of generateRandomString: one random entry per position. */
  method DrawString(stringLength: int) returns (randomString: string)
    ensures IsRandomString(randomString, stringLength)
  {
    var totalNumberOfChars := |ALPHANUMERIC_CHARS|;
    randomString := "";
    var i := 1;
    while i <= stringLength
      invariant 1 <= i && (stringLength >= 0 ==> i <= stringLength + 1)
      invariant stringLength < 0 ==> i == 1
      invariant |randomString| == i - 1
      invariant forall t :: 0 <= t < |randomString| ==> randomString[t] in ALPHABET
    {
      var randomIndex := RandomIndex(totalNumberOfChars);
      EntryText(randomIndex);
      randomString := randomString + Stringify(ALPHANUMERIC_CHARS[randomIndex]);
      i := i + 1;
    }
  }

  /**
   * generateRandomString: draw, and draw again while the result is already a
   * key of the database. The source retries without bound; here at most
   * `maxAttempts` draws are made, and None means they all collided. The
   * database is a value, so it is only read.
   */
  method GenerateRandomString<V>(database: map<string, V>, stringLength: int, maxAttempts: nat)
    returns (r: Option<string>)
    ensures r.Some? ==> IsRandomString(r.value, stringLength) && r.value !in database
    decreases maxAttempts
  {
    if maxAttempts == 0 {
      return None;
    }
    var randomString := DrawString(stringLength);
    var alreadyExists := randomString in database;
    if alreadyExists {
      r := GenerateRandomString(database, stringLength, maxAttempts - 1);
    } else {
      r := Some(randomString);
    }
  }

  /**
   * When every one-character string but [c] is a key, the only one-character
   * alphabet string that is not a key is [c].
   */
  lemma OnlyFreeSingleCharacter(keys: set<string>, c: char, s: string)
    requires forall x :: x in ALPHABET && x != c ==> [x] in keys
    requires IsRandomString(s, 1) && s !in keys
    ensures s == [c]
  {
    assert s == [s[0]];
  }

  /**
   * The exhaustion scenario: a database keyed by every entry of the alphabet
   * except 'Z' can only yield "Z" for length 1.
   */
  method GenerateWithOnlyZFree(maxAttempts: nat) returns (r: Option<string>)
    ensures r.Some? ==> r.value == "Z"
  {
    var veryLimitedOptions := map e | e in ALPHANUMERIC_CHARS :: Stringify(e) := false;
    veryLimitedOptions := veryLimitedOptions - {"Z"};
    forall x | x in ALPHABET && x != 'Z' ensures [x] in veryLimitedOptions {
      var i :| 0 <= i < |ALPHABET| && ALPHABET[i] == x;
      EntryText(i);
      assert ALPHANUMERIC_CHARS[i] in ALPHANUMERIC_CHARS;
    }
    r := GenerateRandomString(veryLimitedOptions, 1, maxAttempts);
    if r.Some? {
      OnlyFreeSingleCharacter(veryLimitedOptions.Keys, 'Z', r.value);
    }
  }

  // ---- account directory ----

  /** users[i] is the first user whose email, read by `emailOf`, is exactly `email`. */
  predicate IsFirstWithEmail<U>(users: seq<U>, emailOf: U -> string, email: string, i: int)
  {
    && 0 <= i < |users|
    && emailOf(users[i]) == email
    && forall j :: 0 <= j < i ==> emailOf(users[j]) != email
  }

  /**
   * getUserByEmail over `Object.values(users)` in enumeration order: refuses an
   * address of the wrong shape before any search, then returns the first user
   * with exactly (case-sensitively) that email, or None.
   */
  method GetUserByEmail(users: seq<User>, email: string) returns (r: Result<Option<User>, HelperError>)
    ensures r.Failure? <==> !EmailShape.IsEmail(email)
    ensures r.Failure? ==> r.error == InvalidEmail
    ensures r.Success? && r.value.Some? ==>
      exists i :: IsFirstWithEmail(users, (u: User) => u.email, email, i) && users[i] == r.value.value
    ensures r.Success? && r.value.None? ==> forall i :: 0 <= i < |users| ==> users[i].email != email
  {
    if !EmailShape.IsEmail(email) {
      return Failure(InvalidEmail);
    }
    var n := 0;
    while n < |users|
      invariant 0 <= n <= |users|
      invariant forall j :: 0 <= j < n ==> users[j].email != email
    {
      if users[n].email == email {
        return Success(Some(users[n]));
      }
      n := n + 1;
    }
    return Success(None);
  }

  // ---- mapping store ----

  /**
   * urlsForUser: refuses an id for which `userDatabase[userID]` is falsy, that
   * is neither a key of the user database (every user object is truthy) nor a
   * property inherited from Object.prototype; otherwise returns exactly the
   * links the user owns, under their own keys.
   */
  method UrlsForUser(urlDatabase: map<string, TinyURL>, userDatabase: map<string, User>, userID: string)
    returns (r: Result<map<string, TinyURL>, HelperError>)
    ensures r.Failure? <==> userID !in userDatabase && !Inherits(userDatabase, userID)
    ensures r.Failure? ==> r.error == UnknownUser(userID)
    ensures r.Success? ==> forall key :: key in r.value <==>
      key in urlDatabase && urlDatabase[key].IsOwnedBy(userID)
    ensures r.Success? ==> forall key :: key in r.value ==> r.value[key] == urlDatabase[key]
  {
    if userID !in userDatabase && userID !in PROTOTYPE_PROPERTIES {
      return Failure(UnknownUser(userID));
    }
    var urls: map<string, TinyURL> := map[];
    var remaining := urlDatabase.Keys;
    while remaining != {}
      invariant remaining <= urlDatabase.Keys
      invariant forall key :: key in urls <==>
        key in urlDatabase && key !in remaining && urlDatabase[key].userID == userID
      invariant forall key :: key in urls ==> urls[key] == urlDatabase[key]
      decreases remaining
    {
      var key :| key in remaining;
      if urlDatabase[key].userID == userID {
        urls := urls[key := urlDatabase[key]];
      }
      remaining := remaining - {key};
    }
    return Success(urls);
  }
}
