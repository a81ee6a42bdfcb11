/** The User entity of public/scripts/entities/user.js and the session it writes to. */
module Users {
  import opened Wrappers

  /** JavaScript truthiness of an optional string: present and not the empty string. */
  predicate Truthy(s: Option<string>)
  {
    s.Some? && s.value != ""
  }

  /**
   * The cookie-session object of a request. Only `user_id` is read or written
   * by the core; JavaScript's `undefined` and `null` are both None.
   */
  class Session {
    var userId: Option<string>

    constructor (userId: Option<string>)
      ensures this.userId == userId
    {
      this.userId := userId;
    }

    /** `session.user_id` is truthy. */
    predicate HasUser()
      reads this
    {
      Truthy(userId)
    }
  }

  /**
   * A registered account. The fields have getters and no setters, so they are
   * constants; the id, drawn from uuidv4 in the source, is a parameter here.
   */
  class User {
    const id: string
    const email: string
    const password: string

    constructor (id: string, email: string, password: string)
      ensures this.id == id && this.email == email && this.password == password
    {
      this.id := id;
      this.email := email;
      this.password := password;
    }

    /** `session.user_id = this.id`; the assignment's value is returned. */
    method GiveCookie(session: Session) returns (r: string)
      modifies session`userId
      ensures session.userId == Some(id)
      ensures r == id
    {
      session.userId := Some(id);
      r := id;
    }

    /** `session.user_id = null`. */
    method DeleteCookie(session: Session)
      modifies session`userId
      ensures session.userId == None
      ensures !session.HasUser()
    {
      session.userId := None;
    }
  }

  /**
   * Giving the cookie twice leaves the session as giving it once; deleting it
   * afterwards leaves no user in the session, and nothing but `user_id` is
   * ever touched.
   */
  method GiveTwiceThenDelete(u: User, session: Session) returns (first: string, second: string)
    modifies session`userId
    ensures first == second == u.id
    ensures session.userId == None
  {
    first := u.GiveCookie(session);
    var afterFirst := session.userId;
    second := u.GiveCookie(session);
    assert session.userId == afterFirst;
    u.DeleteCookie(session);
  }
}
