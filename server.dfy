/**
 * The early express_server.js: the in-memory `users` and `urlDatabase`
 * dictionaries and the effect each request handler has on them. Requests come
 * in as parameters; what the handler asks of the response comes out as a Reply.
 */
module Server {
  import opened Wrappers
  import Helpers
  import opened LegacyHelpers
  import opened JsObjects
  import opened Users

  /** What a handler does with the response. */
  datatype Reply =
    | Redirect(path: string)
    | RedirectToInherited(name: string)        // res.redirect handed the Object.prototype property `name`
    | LogIn(userId: string)                    // res.cookie('user_id', userId) then redirect to /urls
    | Status(code: nat, statusMessage: string) // res.status(code).end()
    | Send(text: string)
    | ShowUrl(id: string, longURL: string)     // render 'urls_show'
    | GaveUp                                   // the id generator ran out of attempts

  const ID_LENGTH: nat := 6
  const BLANK_FIELDS: string := "email and password fields cannot be blank"
  const ALREADY_REGISTERED: string := "a user with that email has already been registered"
  const MUST_LOG_IN: string :=
    "UNAUTHORIZED: You must have a registered account and be logged in in order to use TinyURL.\n\n"

  function LinkNotFound(id: string): string
  {
    "LINK NOT FOUND: An address corresponding to TinyURL " + id + " doesn't exist in our records.\n\n"
  }

  class App {
    var users: map<string, UserEntry>
    var urlDatabase: map<string, string>

    /**
     * Each user is stored under its own id, no two users share an email, and
     * `__proto__` is never an own key of the links (assignment cannot make it one).
     */
    ghost predicate Valid()
      reads this
    {
      && (forall k :: k in users ==> users[k].id == k)
      && (forall k, k' :: k in users && k' in users && users[k].email == users[k'].email ==> k == k')
      && PROTO !in urlDatabase
    }

    /** The two links and two accounts the server starts with. */
    constructor ()
      ensures Valid()
      ensures urlDatabase == map["b2xVn2" := "http://www.lighthouselabs.ca", "9sm5xK" := "http://www.google.com"]
      ensures users == map[
        "userRandomID" := UserEntry("userRandomID", "user@example.com", "purple-monkey-dinosaur"),
        "user2RandomID" := UserEntry("user2RandomID", "user2@example.com", "dishwasher-funk")]
    {
      urlDatabase := map["b2xVn2" := "http://www.lighthouselabs.ca", "9sm5xK" := "http://www.google.com"];
      users := map[
        "userRandomID" := UserEntry("userRandomID", "user@example.com", "purple-monkey-dinosaur"),
        "user2RandomID" := UserEntry("user2RandomID", "user2@example.com", "dishwasher-funk")];
    }

    /** The server's generateRandomString: fresh with respect to urlDatabase only. */
    method GenerateRandomString(stringLength: int, maxAttempts: nat) returns (r: Option<string>)
      ensures r.Some? ==> Helpers.IsRandomString(r.value, stringLength) && r.value !in urlDatabase
    {
      r := Helpers.GenerateRandomString(urlDatabase, stringLength, maxAttempts);
    }

    /** getUser: a user whose email is exactly `email`, or None when there is none. */
    method GetUser(email: string) returns (u: Option<UserEntry>)
      ensures u.Some? ==> u.value in users.Values && u.value.email == email
      ensures u.None? <==> forall k :: k in users ==> users[k].email != email
    {
      var remaining := users.Keys;
      while remaining != {}
        invariant remaining <= users.Keys
        invariant forall k :: k in users && k !in remaining ==> users[k].email != email
        decreases remaining
      {
        var k :| k in remaining;
        if users[k].email == email {
          return Some(users[k]);
        }
        remaining := remaining - {k};
      }
      return None;
    }

    /**
     * POST /register. Blank fields are refused. A known email is refused when
     * the password differs and logs that account in when it is the same. A new
     * email is stored under a new id, which is then the session's user.
     */
    method Register(email: string, password: string, maxAttempts: nat) returns (reply: Reply)
      requires Valid()
      modifies this`users
      ensures Valid()
      ensures email == "" || password == "" ==> reply == Status(400, BLANK_FIELDS) && users == old(users)
      ensures email != "" && password != "" ==>
        forall k :: k in old(users) && old(users)[k].email == email ==>
          && users == old(users)
          && reply == (if old(users)[k].password == password then LogIn(k) else Status(400, ALREADY_REGISTERED))
      ensures email != "" && password != "" && (forall k :: k in old(users) ==> old(users)[k].email != email) ==>
        || (reply == GaveUp && users == old(users))
        || (&& reply.LogIn?
            && Helpers.IsRandomString(reply.userId, ID_LENGTH)
            && reply.userId !in urlDatabase
            && users == old(users)[reply.userId := UserEntry(reply.userId, email, password)])
    {
      var user := GetUser(email);
      if email == "" || password == "" {
        return Status(400, BLANK_FIELDS);
      }
      if user.Some? && user.value.password != password {
        return Status(400, ALREADY_REGISTERED);
      }
      if user.Some? && user.value.password == password {
        return LogIn(user.value.id);
      }
      var id := GenerateRandomString(ID_LENGTH, maxAttempts);
      if id.None? {
        return GaveUp;
      }
      users := users[id.value := UserEntry(id.value, email, password)];
      reply := LogIn(id.value);
    }

    /** POST /login: logs in exactly when an account has this email and this password. */
    method Login(email: string, password: string) returns (reply: Reply)
      requires Valid()
      ensures reply.LogIn? <==>
        exists k :: k in users && users[k].email == email && users[k].password == password
      ensures reply.LogIn? ==>
        reply.userId in users && users[reply.userId].email == email && users[reply.userId].password == password
      ensures !reply.LogIn? ==> reply == Status(403, "")
    {
      var user := GetUser(email);
      if user.Some? && user.value.password == password {
        return LogIn(user.value.id);
      }
      return Status(403, "");
    }

    /**
     * POST /urls: refused without a user cookie; otherwise the link is stored
     * under a new id. The cookie's user is not looked up.
     */
    method CreateUrl(cookieUserId: Option<string>, longURL: string, maxAttempts: nat) returns (reply: Reply)
      requires Valid()
      modifies this`urlDatabase
      ensures Valid()
      ensures !Truthy(cookieUserId) ==> reply == Send(MUST_LOG_IN) && urlDatabase == old(urlDatabase)
      ensures Truthy(cookieUserId) ==>
        || (reply == GaveUp && urlDatabase == old(urlDatabase))
        || (&& reply.ShowUrl?
            && reply.longURL == longURL
            && Helpers.IsRandomString(reply.id, ID_LENGTH)
            && reply.id !in old(urlDatabase)
            && urlDatabase == old(urlDatabase)[reply.id := longURL])
    {
      if !Truthy(cookieUserId) {
        return Send(MUST_LOG_IN);
      }
      var id := GenerateRandomString(ID_LENGTH, maxAttempts);
      if id.None? {
        return GaveUp;
      }
      urlDatabase := urlDatabase[id.value := longURL];
      reply := ShowUrl(id.value, longURL);
    }

    /** POST /urls/:id/delete: removes the key, whoever asks. */
    method DeleteUrl(id: string) returns (reply: Reply)
      requires Valid()
      modifies this`urlDatabase
      ensures Valid()
      ensures urlDatabase == old(urlDatabase) - {id}
      ensures reply == Redirect("/urls")
    {
      urlDatabase := urlDatabase - {id};
      reply := Redirect("/urls");
    }

    /**
     * POST /urls/:id: stores the new address under the key, whoever asks, even
     * for a new key; `__proto__` goes to the inherited setter and stores nothing.
     */
    method UpdateUrl(id: string, longURL: string) returns (reply: Reply)
      requires Valid()
      modifies this`urlDatabase
      ensures Valid()
      ensures id != PROTO ==> urlDatabase == old(urlDatabase)[id := longURL]
      ensures id == PROTO ==> urlDatabase == old(urlDatabase)
      ensures reply == Redirect("/urls")
    {
      urlDatabase := Assign(urlDatabase, id, longURL);
      reply := Redirect("/urls");
    }

    /**
     * GET /u/:id: redirects to whatever `urlDatabase[id]` reads when that is
     * truthy: a stored non-empty address, or a property inherited from
     * Object.prototype; otherwise reports that there is no such link.
     */
    method Resolve(id: string) returns (reply: Reply)
      ensures reply.Redirect? <==> id in urlDatabase && urlDatabase[id] != ""
      ensures reply.Redirect? ==> reply.path == urlDatabase[id]
      ensures reply.RedirectToInherited? <==> Inherits(urlDatabase, id)
      ensures reply.RedirectToInherited? ==> reply.name == id
      ensures !reply.Redirect? && !reply.RedirectToInherited? ==> reply == Send(LinkNotFound(id))
    {
      if id in urlDatabase {
        if urlDatabase[id] == "" {
          return Send(LinkNotFound(id));
        }
        return Redirect(urlDatabase[id]);
      }
      if id in PROTOTYPE_PROPERTIES {
        return RedirectToInherited(id);
      }
      return Send(LinkNotFound(id));
    }
  }

  /** In a valid server an email names at most one account. */
  lemma EmailIdentifiesUser(app: App, a: UserEntry, b: UserEntry)
    requires app.Valid()
    requires a in app.users.Values && b in app.users.Values && a.email == b.email
    ensures a == b
  {
    var ka :| ka in app.users && app.users[ka] == a;
    var kb :| kb in app.users && app.users[kb] == b;
  }

  /** A link that was just created resolves to its address; once deleted, it does not resolve. */
  method CreateResolveDelete(app: App, cookieUserId: Option<string>, longURL: string, maxAttempts: nat)
    returns (created: Reply, resolved: Reply, afterDelete: Reply)
    requires app.Valid()
    requires Truthy(cookieUserId) && longURL != ""
    modifies app
    ensures created.ShowUrl? ==> resolved == Redirect(longURL)
    ensures created.ShowUrl? ==> afterDelete == Send(LinkNotFound(created.id))
  {
    created := app.CreateUrl(cookieUserId, longURL, maxAttempts);
    resolved := Send("");
    afterDelete := Send("");
    if created.ShowUrl? {
      ShortKeysNotInherited(created.id);
      resolved := app.Resolve(created.id);
      var _ := app.DeleteUrl(created.id);
      afterDelete := app.Resolve(created.id);
    }
  }
}
