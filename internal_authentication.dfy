/**
 * The internal password backend (InternalAuthenticationBackend): users and
 * their salted hashes come from the `internalusers` configuration, which
 * the caller hands in (None when the repository has none).  The bcrypt
 * comparison is the uninterpreted predicate `checkpw`; nothing is cached
 * between calls.
 */
module InternalAuthentication {
  import opened Support

  const TYPE := "internal"
  const OLD_TYPE := "intern"

  /** A Java `byte`: signed, 8 bits. */
  newtype byte = x: int | -0x80 <= x < 0x80

  /** The keys `<name>.hash`, `<name>.username` and `<name>.roles` of one user. */
  datatype UserEntry = UserEntry(hash: Option<string>, username: Option<string>, roles: Option<seq<string>>)

  /**
   * The `internalusers` settings: the entry of every top-level name, and
   * those names in the order `names()` iterates them.
   */
  datatype UsersConfig = UsersConfig(users: map<string, UserEntry>, names: seq<string>)

  /** `names` lists every user of the configuration exactly once. */
  predicate WellFormed(cfg: UsersConfig) {
    && cfg.users.Keys == set n | n in cfg.names
    && (forall i, j :: 0 <= i < j < |cfg.names| ==> cfg.names[i] != cfg.names[j])
  }

  /** `cfg.get(n + ".hash")`. */
  function HashOf(cfg: UsersConfig, n: string): Option<string> {
    if n in cfg.users then cfg.users[n].hash else None
  }

  /** `cfg.get(n + ".username")`. */
  function AliasOf(cfg: UsersConfig, n: string): Option<string> {
    if n in cfg.users then cfg.users[n].username else None
  }

  /** `cfg.getAsArray(n + ".roles", new String[0])`. */
  function RolesOf(cfg: UsersConfig, n: string): seq<string> {
    if n in cfg.users && cfg.users[n].roles.Some? then cfg.users[n].roles.value else []
  }

  /** The position of the first name, from `k` on, whose `.username` is `name`; `|cfg.names|` if none. */
  function FirstAliasFrom(cfg: UsersConfig, name: string, k: nat): (i: nat)
    requires k <= |cfg.names|
    ensures k <= i <= |cfg.names|
    ensures forall j :: k <= j < i ==> AliasOf(cfg, cfg.names[j]) != Some(name)
    ensures i < |cfg.names| ==> AliasOf(cfg, cfg.names[i]) == Some(name)
    decreases |cfg.names| - k
  {
    if k == |cfg.names| then k
    else if AliasOf(cfg, cfg.names[k]) == Some(name) then k
    else FirstAliasFrom(cfg, name, k + 1)
  }

  /**
   * The stored hash for a presented name: `<name>.hash`, else the hash of
   * the first entry whose `.username` is the name (None when that entry
   * has no hash: the scan stops there).
   */
  function LookupHash(cfg: UsersConfig, name: string): (r: Option<string>)
    ensures HashOf(cfg, name).Some? ==> r == HashOf(cfg, name)
    ensures HashOf(cfg, name).None? && r.Some? ==>
      exists i :: 0 <= i < |cfg.names| && AliasOf(cfg, cfg.names[i]) == Some(name) && r == HashOf(cfg, cfg.names[i])
    ensures HashOf(cfg, name).None? && (forall i :: 0 <= i < |cfg.names| ==> AliasOf(cfg, cfg.names[i]) != Some(name)) ==> r.None?
    ensures HashOf(cfg, name).None? ==>
      forall i :: (0 <= i < |cfg.names| && AliasOf(cfg, cfg.names[i]) == Some(name) &&
                   forall j :: 0 <= j < i ==> AliasOf(cfg, cfg.names[j]) != Some(name)) ==> r == HashOf(cfg, cfg.names[i])
  {
    if HashOf(cfg, name).Some? then HashOf(cfg, name)
    else
      var i := FirstAliasFrom(cfg, name, 0);
      if i < |cfg.names| then HashOf(cfg, cfg.names[i]) else None
  }

  /**
   * In a well-formed configuration the alias scan finds an entry exactly
   * when some user has the presented name as its `username`.
   */
  lemma ScanFindsEveryAlias(cfg: UsersConfig, name: string)
    requires WellFormed(cfg)
    ensures FirstAliasFrom(cfg, name, 0) < |cfg.names| <==> exists n :: n in cfg.users && AliasOf(cfg, n) == Some(name)
  {
    if exists n :: n in cfg.users && AliasOf(cfg, n) == Some(name) {
      var n :| n in cfg.users && AliasOf(cfg, n) == Some(name);
      var i :| 0 <= i < |cfg.names| && cfg.names[i] == n;
      assert FirstAliasFrom(cfg, name, 0) <= i;
    }
  }

  /** The lookup shared by `exists` and `authenticate`: direct key, then the scan with early `break`. */
  method FindHash(cfg: UsersConfig, name: string) returns (hashed: Option<string>)
    ensures hashed == LookupHash(cfg, name)
  {
    hashed := HashOf(cfg, name);
    if hashed.None? {
      var i := 0;
      while i < |cfg.names|
        invariant 0 <= i <= |cfg.names|
        invariant forall j :: 0 <= j < i ==> AliasOf(cfg, cfg.names[j]) != Some(name)
        invariant hashed.None?
      {
        var u := AliasOf(cfg, cfg.names[i]);
        if u == Some(name) {
          hashed := HashOf(cfg, cfg.names[i]);
          break;
        }
        i := i + 1;
      }
      assert i == |cfg.names| || AliasOf(cfg, cfg.names[i]) == Some(name);
      assert FirstAliasFrom(cfg, name, 0) == i;
    }
  }

  /** The user object that `exists` adds roles to (only its name and roles are modelled). */
  class User {
    const name: string
    var roles: set<string>

    constructor (name: string)
      ensures this.name == name && roles == {}
    {
      this.name := name;
      roles := {};
    }

    method AddRoles(rs: seq<string>)
      modifies this`roles
      ensures roles == old(roles) + set r | r in rs
    {
      roles := roles + set r | r in rs;
    }
  }

  /**
   * `exists`: true exactly when a hash is found for the user's name; then
   * the roles under `<name>.roles` are added to the user.
   */
  method Exists(cfg: Option<UsersConfig>, user: User) returns (found: bool)
    modifies user`roles
    ensures found <==> cfg.Some? && LookupHash(cfg.value, user.name).Some?
    ensures user.roles == if found then old(user.roles) + set r | r in RolesOf(cfg.value, user.name) else old(user.roles)
  {
    if cfg.None? {
      return false;
    }
    var hashed := FindHash(cfg.value, user.name);
    if hashed.None? {
      return false;
    }
    user.AddRoles(RolesOf(cfg.value, user.name));
    found := true;
  }

  /** Credentials as presented: the password bytes may be null. */
  datatype Credentials = Credentials(username: string, password: Option<seq<byte>>)

  /** The user `authenticate` returns. */
  datatype Identity = Identity(name: string, roles: seq<string>)

  datatype AuthError = NotConfigured | NotFound(username: string) | EmptyPassword | PasswordMismatch

  datatype AuthResult = Authenticated(user: Identity) | Rejected(error: AuthError)

  /** `BCrypt.checkpw(password, hashed)`, left uninterpreted. */
  type PasswordCheck = (seq<byte>, string) -> bool

  /** What `authenticate` returns or raises. */
  function Authentication(cfg: Option<UsersConfig>, c: Credentials, checkpw: PasswordCheck): (r: AuthResult)
    ensures cfg.None? ==> r == Rejected(NotConfigured)
    ensures cfg.Some? && LookupHash(cfg.value, c.username).None? ==> r == Rejected(NotFound(c.username))
    ensures (c.password.None? || c.password == Some([])) ==> !r.Authenticated?
    ensures r.Authenticated? <==>
      && cfg.Some? && LookupHash(cfg.value, c.username).Some?
      && c.password.Some? && |c.password.value| > 0
      && checkpw(c.password.value, LookupHash(cfg.value, c.username).value)
    ensures r.Authenticated? ==> r.user == Identity(c.username, RolesOf(cfg.value, c.username))
  {
    if cfg.None? then Rejected(NotConfigured)
    else match LookupHash(cfg.value, c.username)
      case None => Rejected(NotFound(c.username))
      case Some(hashed) =>
        if c.password.None? || |c.password.value| == 0 then Rejected(EmptyPassword)
        else if checkpw(c.password.value, hashed) then Authenticated(Identity(c.username, RolesOf(cfg.value, c.username)))
        else Rejected(PasswordMismatch)
  }

  /** `authenticate`. */
  method Authenticate(cfg: Option<UsersConfig>, c: Credentials, checkpw: PasswordCheck) returns (r: AuthResult)
    ensures r == Authentication(cfg, c, checkpw)
  {
    if cfg.None? {
      return Rejected(NotConfigured);
    }
    var hashed := FindHash(cfg.value, c.username);
    if hashed.None? {
      return Rejected(NotFound(c.username));
    }
    var password := c.password;
    if password.None? || |password.value| == 0 {
      return Rejected(EmptyPassword);
    }
    if checkpw(password.value, hashed.value) {
      r := Authenticated(Identity(c.username, RolesOf(cfg.value, c.username)));
    } else {
      r := Rejected(PasswordMismatch);
    }
  }

  /** `getType`. */
  function GetType(): (t: string)
    ensures t == "internal" && t != OLD_TYPE
  {
    TYPE
  }

  // ---------------------------------------------------------------------
  // The password hash-code regression
  // ---------------------------------------------------------------------

  /** A Java `byte` widened to `int` (sign extension keeps the value). */
  function Widen(b: byte): int32 {
    b as int as int32
  }

  /** The array `bytes`, each element widened to `int`. */
  function Widened(bytes: seq<byte>): (r: seq<int32>)
    ensures |r| == |bytes| && forall i :: 0 <= i < |bytes| ==> r[i] == Widen(bytes[i])
  {
    seq(|bytes|, i requires 0 <= i < |bytes| => Widen(bytes[i]))
  }

  /** `java.util.Arrays.hashCode(byte[])`, with Java's 32-bit wrap-around. */
  function ByteArrayHash(bytes: seq<byte>): int32
    decreases |bytes|
  {
    if bytes == [] then 1 else Wrap(31 * ByteArrayHash(bytes[..|bytes| - 1]) as int + Widen(bytes[|bytes| - 1]) as int)
  }

  /** The byte-array hash code is the array hash code of the widened bytes. */
  lemma {:induction false} ByteArrayHashIsArrayHash(bytes: seq<byte>)
    ensures ByteArrayHash(bytes) == ArrayHash(Widened(bytes))
    decreases |bytes|
  {
    if bytes != [] {
      var prefix := bytes[..|bytes| - 1];
      ByteArrayHashIsArrayHash(prefix);
      assert Widened(bytes)[..|bytes| - 1] == Widened(prefix);
    }
  }

  /** The bytes of an ASCII string. */
  function Ascii(s: string): (r: seq<byte>)
    requires forall i :: 0 <= i < |s| ==> s[i] < 128 as char
    ensures |r| == |s| && forall i :: 0 <= i < |s| ==> r[i] as int == s[i] as int
  {
    seq(|s|, i requires 0 <= i < |s| => (s[i] as int) as byte)
  }

  /** One step of the hash: `next` is the hash of `bytes` followed by `b` when `h` is the hash of `bytes`. */
  lemma HashStep(bytes: seq<byte>, b: byte, h: int32, next: int32)
    requires ByteArrayHash(bytes) == h && next == Wrap(31 * h as int + Widen(b) as int)
    ensures ByteArrayHash(bytes + [b]) == next
  {
    assert (bytes + [b])[..|bytes|] == bytes;
  }

  /** The array hash code of the bytes of "Wikohy8b", through the hash of every prefix. */
  lemma FirstPasswordHash()
    ensures ByteArrayHash([87, 105, 107, 111, 104, 121, 56, 98]) == 1360841682
  {
    var b: seq<byte> := [87, 105, 107, 111, 104, 121, 56, 98];
    HashStep(b[..0], b[0], 1, 118);
    assert b[..1] == b[..0] + [b[0]];
    HashStep(b[..1], b[1], 118, 3763);
    assert b[..2] == b[..1] + [b[1]];
    HashStep(b[..2], b[2], 3763, 116760);
    assert b[..3] == b[..2] + [b[2]];
    HashStep(b[..3], b[3], 116760, 3619671);
    assert b[..4] == b[..3] + [b[3]];
    HashStep(b[..4], b[4], 3619671, 112209905);
    assert b[..5] == b[..4] + [b[4]];
    HashStep(b[..5], b[5], 112209905, -816460120);
    assert b[..6] == b[..5] + [b[5]];
    HashStep(b[..6], b[6], -816460120, 459540112);
    assert b[..7] == b[..6] + [b[6]];
    HashStep(b[..7], b[7], 459540112, 1360841682);
    assert b[..8] == b[..7] + [b[7]];
    assert b[..8] == b;
  }

  /** The bytes of "Wikohy8b". */
  lemma FirstPasswordBytes()
    ensures Ascii("Wikohy8b") == [87, 105, 107, 111, 104, 121, 56, 98]
  {
  }

  /** The array hash code of the bytes of "aaaqscnch", through the hash of every prefix. */
  lemma SecondPasswordHash()
    ensures ByteArrayHash([97, 97, 97, 113, 115, 99, 110, 99, 104]) == 1360841682
  {
    var b: seq<byte> := [97, 97, 97, 113, 115, 99, 110, 99, 104];
    HashStep(b[..0], b[0], 1, 128);
    assert b[..1] == b[..0] + [b[0]];
    HashStep(b[..1], b[1], 128, 4065);
    assert b[..2] == b[..1] + [b[1]];
    HashStep(b[..2], b[2], 4065, 126112);
    assert b[..3] == b[..2] + [b[2]];
    HashStep(b[..3], b[3], 126112, 3909585);
    assert b[..4] == b[..3] + [b[3]];
    HashStep(b[..4], b[4], 3909585, 121197250);
    assert b[..5] == b[..4] + [b[4]];
    HashStep(b[..5], b[5], 121197250, -537852447);
    assert b[..6] == b[..5] + [b[5]];
    HashStep(b[..6], b[6], -537852447, 506443437);
    assert b[..7] == b[..6] + [b[6]];
    HashStep(b[..7], b[7], 506443437, -1480122538);
    assert b[..8] == b[..7] + [b[7]];
    HashStep(b[..8], b[8], -1480122538, 1360841682);
    assert b[..9] == b[..8] + [b[8]];
    assert b[..9] == b;
  }

  /** The bytes of "aaaqscnch". */
  lemma SecondPasswordBytes()
    ensures Ascii("aaaqscnch") == [97, 97, 97, 113, 115, 99, 110, 99, 104]
  {
  }

  /** The two passwords of the hash-code regression have the same 32-bit array hash code. */
  lemma TestPasswordsCollide()
    ensures ByteArrayHash(Ascii("Wikohy8b")) == ByteArrayHash(Ascii("aaaqscnch")) == 1360841682
  {
    FirstPasswordBytes();
    FirstPasswordHash();
    SecondPasswordBytes();
    SecondPasswordHash();
  }

  /**
   * The regression itself: passwords with the same array hash code are
   * still told apart, because the decision is `checkpw` on the full password
   * and nothing is remembered from an earlier success.
   */
  lemma CollidingPasswordIsRejected(cfg: UsersConfig, name: string, checkpw: PasswordCheck)
    requires LookupHash(cfg, name).Some?
    requires checkpw(Ascii("Wikohy8b"), LookupHash(cfg, name).value)
    requires !checkpw(Ascii("aaaqscnch"), LookupHash(cfg, name).value)
    ensures ByteArrayHash(Ascii("Wikohy8b")) == ByteArrayHash(Ascii("aaaqscnch"))
    ensures Authentication(Some(cfg), Credentials(name, Some(Ascii("Wikohy8b"))), checkpw).Authenticated?
    ensures Authentication(Some(cfg), Credentials(name, Some(Ascii("aaaqscnch"))), checkpw) == Rejected(PasswordMismatch)
  {
    TestPasswordsCollide();
  }
}
