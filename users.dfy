/** The parts of users/models.py that are not database plumbing: the name and
    string accessors of `User`, and the flags `UserManager` gives new users.

    E-mail normalisation (a method of the framework's base manager) is passed
    in as a function, the clock as a timestamp, and password hashing is kept
    symbolic: the record says which raw password was hashed, or that the
    password is unusable. Saving to the database is not part of this model. */
module Users {
  import opened PyStr

  datatype Option<T> = None | Some(value: T)

  /** What `set_password` leaves on the user: `None` makes the password
      unusable, anything else is stored as its hash. */
  datatype Password = Unusable | HashOf(raw: string)

  /** The fields `extra_fields` can set on a new user; both have model defaults
      (`""` is what an unset `CharField` holds, `False` is `is_verified`'s default). */
  datatype ExtraFields = ExtraFields(fullName: string, isVerified: bool)

  datatype User = User(
    email: string,
    fullName: string,
    password: Password,
    isVerified: bool,
    isStaff: bool,
    isActive: bool,
    isSuperuser: bool,
    lastLogin: int,
    dateJoined: int)

  /** `get_full_name`: the stored name. */
  function FullName(u: User): (r: string)
    ensures r == u.fullName
  {
    u.fullName
  }

  /** `__str__`: the stored e-mail address. */
  function Str(u: User): (r: string)
    ensures r == u.email
  {
    u.email
  }

  /** `get_short_name`: `full_name.partition(' ')[0]`, the text before the
      first space, or the whole name if it has none. */
  function ShortName(u: User): (r: string)
    ensures |r| <= |u.fullName| && r == u.fullName[..|r|]
    ensures ' ' !in r
    ensures |r| < |u.fullName| ==> u.fullName[|r|] == ' '
  {
    var parts := Partition(u.fullName, ' ');
    assert u.fullName == parts.head + parts.separator + parts.tail;
    parts.head
  }

  /** The short name is exactly the text before the first space: any prefix of
      the full name that has no space and ends at a space or at the end of the
      name is the short name. */
  lemma {:induction false} ShortNameUnique(u: User, p: string)
    requires |p| <= |u.fullName| && p == u.fullName[..|p|] && ' ' !in p
    requires |p| == |u.fullName| || u.fullName[|p|] == ' '
    ensures ShortName(u) == p
  {
    var r := ShortName(u);
    assert forall k :: 0 <= k < |p| ==> u.fullName[k] != ' ' by {
      forall k | 0 <= k < |p| ensures u.fullName[k] != ' ' { assert p[k] == u.fullName[k]; }
    }
    assert forall k :: 0 <= k < |r| ==> u.fullName[k] != ' ' by {
      forall k | 0 <= k < |r| ensures u.fullName[k] != ' ' { assert r[k] == u.fullName[k]; }
    }
    assert |r| == |p|;
  }

  /** A name without a space is its own short name; a name starting with a
      space has an empty short name. */
  lemma ShortNameCases(u: User)
    ensures ' ' !in u.fullName ==> ShortName(u) == u.fullName
    ensures |u.fullName| > 0 && u.fullName[0] == ' ' ==> ShortName(u) == []
  {
    if ' ' !in u.fullName {
      ShortNameUnique(u, u.fullName);
    }
    if |u.fullName| > 0 && u.fullName[0] == ' ' {
      ShortNameUnique(u, []);
    }
  }

  /** `_create_user`: a new, active user with the normalised e-mail, both login
      and join time set to `now`, the given staff and superuser flags, the
      extra fields, and the password run through `set_password`. */
  function CreateUserWith(
    email: string, password: Option<string>, isStaff: bool, isSuperuser: bool,
    extra: ExtraFields, normalize: string -> string, now: int): (u: User)
    ensures u.isActive
    ensures u.isStaff == isStaff && u.isSuperuser == isSuperuser
    ensures u.email == normalize(email)
    ensures u.fullName == extra.fullName && u.isVerified == extra.isVerified
    ensures u.lastLogin == now && u.dateJoined == now
    ensures password.None? <==> u.password == Unusable
    ensures password.Some? ==> u.password == HashOf(password.value)
  {
    var pw := match password
      case None => Unusable
      case Some(raw) => HashOf(raw);
    User(normalize(email), extra.fullName, pw, extra.isVerified, isStaff, true, isSuperuser, now, now)
  }

  /** `create_user`: an ordinary, active user (the password may be left out). */
  function CreateUser(
    email: string, password: Option<string>, extra: ExtraFields,
    normalize: string -> string, now: int): (u: User)
    ensures u.isActive && !u.isStaff && !u.isSuperuser
    ensures u.email == normalize(email) && u.fullName == extra.fullName
  {
    CreateUserWith(email, password, false, false, extra, normalize, now)
  }

  /** `create_superuser`: an active staff member with every permission. The
      password argument must be given, but it may be `None`, which leaves the
      password unusable. */
  function CreateSuperuser(
    email: string, password: Option<string>, extra: ExtraFields,
    normalize: string -> string, now: int): (u: User)
    ensures u.isActive && u.isStaff && u.isSuperuser
    ensures u.email == normalize(email)
    ensures u.password == (if password.None? then Unusable else HashOf(password.value))
  {
    CreateUserWith(email, password, true, true, extra, normalize, now)
  }

  /** The two creation paths build the same user except for the staff and
      superuser flags. */
  lemma SuperuserDiffersOnlyInFlags(
    email: string, password: Option<string>, extra: ExtraFields,
    normalize: string -> string, now: int)
    ensures CreateSuperuser(email, password, extra, normalize, now) ==
            CreateUser(email, password, extra, normalize, now).(isStaff := true, isSuperuser := true)
  {
  }
}
