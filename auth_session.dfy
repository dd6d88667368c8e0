/**
 * The session value (AuthSession): a user name and a session token,
 * immutable, compared and hashed by both fields.  Java's `equals(Object)`
 * takes any object, so its argument is a `JavaObject`: null, a session,
 * or an object of some other class.
 */
module Sessions {
  import opened Support

  /** `java.util.UUID`: two 64-bit halves; equal when both halves are. */
  datatype Uuid = Uuid(mostSigBits: bv64, leastSigBits: bv64)

  /** `UUID.hashCode`: the two 32-bit halves of `most ^ least`, xor-ed together. */
  function UuidHash(u: Uuid): int32 {
    var hilo := u.mostSigBits ^ u.leastSigBits;
    Wrap((((hilo >> 32) ^ hilo) & 0xFFFF_FFFF) as int)
  }

  /** `String.hashCode`: `h = 31 * h + c` over the characters, from 0, with wrap-around. */
  function StringHash(s: string): int32
    decreases |s|
  {
    if s == [] then 0 else Wrap(31 * StringHash(s[..|s| - 1]) as int + s[|s| - 1] as int)
  }

  /** An immutable session: the getters are the datatype's fields. */
  datatype AuthSession = AuthSession(username: string, sessionToken: Uuid) {

    /** `getUsername`. */
    function GetUsername(): (r: string)
      ensures this == AuthSession(r, sessionToken)
    {
      username
    }

    /** `getSessionToken`. */
    function GetSessionToken(): (r: Uuid)
      ensures this == AuthSession(username, r)
    {
      sessionToken
    }

    /** `equals`: true exactly for a session with the same user name and the same token. */
    function Equals(o: JavaObject): (r: bool)
      ensures o.Null? || o.OtherObject? ==> !r
      ensures r <==> o == Session(this)
    {
      match o
      case Null => false
      case OtherObject(_) => false
      case Session(that) => username == that.username && sessionToken == that.sessionToken
    }

    /** `hashCode`: `Objects.hash(username, sessionToken)`, that is `31 * (31 + h(username)) + h(token)`. */
    function HashCode(): (r: int32)
      ensures r == ArrayHash([StringHash(username), UuidHash(sessionToken)])
    {
      ArrayHashOfTwo(StringHash(username), UuidHash(sessionToken));
      Wrap(31 * Wrap(31 * 1 + StringHash(username) as int) as int + UuidHash(sessionToken) as int)
    }
  }

  /** The argument of `equals(Object)`. */
  datatype JavaObject = Null | Session(session: AuthSession) | OtherObject(className: string)

  /** Two sessions are equal exactly when both the user names and the tokens are. */
  lemma EqualsIffFieldsEqual(a: AuthSession, b: AuthSession)
    ensures a.Equals(Session(b)) <==> a.username == b.username && a.sessionToken == b.sessionToken
  {
  }

  /** `equals` is reflexive and symmetric. */
  lemma EqualsReflexiveSymmetric(a: AuthSession, b: AuthSession)
    ensures a.Equals(Session(a))
    ensures a.Equals(Session(b)) == b.Equals(Session(a))
  {
  }

  /** Equal sessions have equal hash codes. */
  lemma EqualSessionsHashAlike(a: AuthSession, b: AuthSession)
    requires a.Equals(Session(b))
    ensures a.HashCode() == b.HashCode()
  {
  }

  /** The constructor stores exactly its arguments, and the getters return them. */
  lemma GettersReturnArguments(username: string, token: Uuid)
    ensures AuthSession(username, token).GetUsername() == username
    ensures AuthSession(username, token).GetSessionToken() == token
  {
  }

  /** Sessions that share a token but not a user name differ. */
  lemma DifferentUserSameTokenDiffer(token: Uuid)
    ensures !AuthSession("firstUser", token).Equals(Session(AuthSession("secondUser", token)))
  {
    assert "firstUser"[0] != "secondUser"[0];
  }

  /** Sessions of the same user with different tokens differ. */
  lemma SameUserDifferentTokenDiffer(t1: Uuid, t2: Uuid)
    requires t1 != t2
    ensures !AuthSession("myUser", t1).Equals(Session(AuthSession("myUser", t2)))
  {
  }
}
