/** The client-side auth store (`isAuthenticated` and the current user), the
    partial update it applies to the user, and the rule that keeps it in step
    with the server session. */
module Auth {
  import opened Common

  /** The client's user record; every field after `email` may be absent. */
  datatype User = User(
    id: string,
    name: string,
    email: string,
    image: Option<string>,
    phone: Option<string>,
    location: Option<string>,
    bio: Option<string>,
    isSteward: Option<bool>,
    isVerified: Option<bool>,
    rating: Option<real>,
    totalReviews: Option<int>,
    createdAt: Option<string>)

  /** A `Partial<User>`: `None` for a key the update leaves out, `Some(v)`
      for a key it carries, so an optional field may be set to `Some(None)`,
      the absent value. */
  datatype UserPatch = UserPatch(
    id: Option<string>,
    name: Option<string>,
    email: Option<string>,
    image: Option<Option<string>>,
    phone: Option<Option<string>>,
    location: Option<Option<string>>,
    bio: Option<Option<string>>,
    isSteward: Option<Option<bool>>,
    isVerified: Option<Option<bool>>,
    rating: Option<Option<real>>,
    totalReviews: Option<Option<int>>,
    createdAt: Option<Option<string>>)

  /** The update that carries no key. */
  const NoChange := UserPatch(None, None, None, None, None, None, None, None, None, None, None, None)

  /** One key of a spread: the update's value when it carries the key. */
  function Override<T>(current: T, update: Option<T>): (r: T)
    ensures update.Some? ==> r == update.value
    ensures update.None? ==> r == current
  {
    if update.Some? then update.value else current
  }

  /** `{ ...user, ...updates }`. */
  function MergeUser(u: User, p: UserPatch): (r: User)
    ensures p.id.Some? ==> r.id == p.id.value
    ensures p.id.None? ==> r.id == u.id
    ensures p.name.Some? ==> r.name == p.name.value
    ensures p.name.None? ==> r.name == u.name
    ensures p.email.Some? ==> r.email == p.email.value
    ensures p.email.None? ==> r.email == u.email
    ensures p.image.Some? ==> r.image == p.image.value
    ensures p.image.None? ==> r.image == u.image
    ensures p.phone.Some? ==> r.phone == p.phone.value
    ensures p.phone.None? ==> r.phone == u.phone
    ensures p.location.Some? ==> r.location == p.location.value
    ensures p.location.None? ==> r.location == u.location
    ensures p.bio.Some? ==> r.bio == p.bio.value
    ensures p.bio.None? ==> r.bio == u.bio
    ensures p.isSteward.Some? ==> r.isSteward == p.isSteward.value
    ensures p.isSteward.None? ==> r.isSteward == u.isSteward
    ensures p.isVerified.Some? ==> r.isVerified == p.isVerified.value
    ensures p.isVerified.None? ==> r.isVerified == u.isVerified
    ensures p.rating.Some? ==> r.rating == p.rating.value
    ensures p.rating.None? ==> r.rating == u.rating
    ensures p.totalReviews.Some? ==> r.totalReviews == p.totalReviews.value
    ensures p.totalReviews.None? ==> r.totalReviews == u.totalReviews
    ensures p.createdAt.Some? ==> r.createdAt == p.createdAt.value
    ensures p.createdAt.None? ==> r.createdAt == u.createdAt
  {
    User(Override(u.id, p.id), Override(u.name, p.name), Override(u.email, p.email),
         Override(u.image, p.image), Override(u.phone, p.phone), Override(u.location, p.location),
         Override(u.bio, p.bio), Override(u.isSteward, p.isSteward), Override(u.isVerified, p.isVerified),
         Override(u.rating, p.rating), Override(u.totalReviews, p.totalReviews),
         Override(u.createdAt, p.createdAt))
  }

  /** `{ ...p, ...q }`: the keys of both, `q`'s value where both carry one. */
  function ThenPatch(p: UserPatch, q: UserPatch): UserPatch {
    UserPatch(OrNext(p.id, q.id), OrNext(p.name, q.name), OrNext(p.email, q.email),
              OrNext(p.image, q.image), OrNext(p.phone, q.phone), OrNext(p.location, q.location),
              OrNext(p.bio, q.bio), OrNext(p.isSteward, q.isSteward), OrNext(p.isVerified, q.isVerified),
              OrNext(p.rating, q.rating), OrNext(p.totalReviews, q.totalReviews),
              OrNext(p.createdAt, q.createdAt))
  }

  function OrNext<T>(first: Option<T>, second: Option<T>): Option<T> {
    if second.Some? then second else first
  }

  /** The update that carries no key is the identity; applying an update
      twice is applying it once. */
  lemma MergeIdentityAndIdempotence(u: User, p: UserPatch)
    ensures MergeUser(u, NoChange) == u
    ensures MergeUser(MergeUser(u, p), p) == MergeUser(u, p)
  {
  }

  /** Two updates in a row are the one update that carries the keys of both. */
  lemma MergeSequence(u: User, p: UserPatch, q: UserPatch)
    ensures MergeUser(MergeUser(u, p), q) == MergeUser(u, ThenPatch(p, q))
  {
  }

  class AuthStore {
    var isAuthenticated: bool
    var user: Option<User>

    ghost predicate Valid()
      reads this
    {
      isAuthenticated <==> user.Some?
    }

    /** The store starts logged out. */
    constructor ()
      ensures Valid()
      ensures !isAuthenticated && user.None?
    {
      isAuthenticated := false;
      user := None;
    }

    method Login(u: User)
      modifies this
      ensures Valid()
      ensures isAuthenticated && user == Some(u)
    {
      isAuthenticated := true;
      user := Some(u);
    }

    /** Logging out leaves the same state from any state, so a second
        logout changes nothing. */
    method Logout()
      modifies this
      ensures Valid()
      ensures !isAuthenticated && user.None?
    {
      isAuthenticated := false;
      user := None;
    }

    /** Merges `updates` into the user; without a user nothing changes. */
    method UpdateUser(updates: UserPatch)
      requires Valid()
      modifies this
      ensures Valid()
      ensures isAuthenticated == old(isAuthenticated)
      ensures old(user).None? ==> user.None?
      ensures old(user).Some? ==> user == Some(MergeUser(old(user).value, updates))
    {
      if user.Some? {
        user := Some(MergeUser(user.value, updates));
      }
    }
  }

  /** The `user` of a next-auth session, as the client reads it. */
  datatype SessionUser = SessionUser(
    id: string,
    name: Option<string>,
    email: Option<string>,
    image: Option<string>,
    role: Option<string>)

  datatype SessionStatus = Authenticated | Unauthenticated | Loading

  /** The store user built from the session user. */
  function SessionToUser(s: SessionUser): (u: User)
    ensures u.id == s.id
    ensures Truthy(s.name) ==> u.name == s.name.value
    ensures !Truthy(s.name) ==> u.name == ""
    ensures Truthy(s.email) ==> u.email == s.email.value
    ensures !Truthy(s.email) ==> u.email == ""
    ensures u.image.Some? <==> Truthy(s.image)
    ensures u.image.Some? ==> u.image == s.image
    ensures u.isSteward == Some(true) <==> s.role == Some("STEWARD")
    ensures u.isSteward.Some?
    ensures u.phone.None? && u.location.None? && u.bio.None? && u.isVerified.None?
    ensures u.rating.None? && u.totalReviews.None? && u.createdAt.None?
  {
    User(s.id, OrElse(s.name, ""), OrElse(s.email, ""), NonEmpty(s.image),
         None, None, None, Some(s.role == Some("STEWARD")), None, None, None, None)
  }

  datatype SyncAction = DoLogin(user: User) | DoLogout | NoAction

  /** The effect's decision. `session` is `None` when there is no session or
      it carries no user. */
  function Decide(status: SessionStatus, session: Option<SessionUser>, isAuthenticated: bool): (a: SyncAction)
    ensures a.DoLogin? <==> status == Authenticated && session.Some?
    ensures a.DoLogin? ==> a.user == SessionToUser(session.value)
    ensures a.DoLogout? <==> status == Unauthenticated && isAuthenticated
    ensures status == Loading ==> a == NoAction
  {
    if status == Authenticated && session.Some? then DoLogin(SessionToUser(session.value))
    else if status == Unauthenticated && isAuthenticated then DoLogout
    else NoAction
  }

  /** The effect runs again when `isAuthenticated` changes. After a login it
      decides the same login again, and after a logout it decides nothing, so
      the store settles after one change. */
  lemma DecideSettles(status: SessionStatus, session: Option<SessionUser>, isAuthenticated: bool)
    ensures var a := Decide(status, session, isAuthenticated);
      && (a.DoLogin? ==> Decide(status, session, true) == a)
      && (a.DoLogout? ==> Decide(status, session, false) == NoAction)
  {
  }

  /** One run of the effect on `store`. */
  method Sync(store: AuthStore, status: SessionStatus, session: Option<SessionUser>)
    requires store.Valid()
    modifies store
    ensures store.Valid()
    ensures var a := Decide(status, session, old(store.isAuthenticated));
      match a
      case DoLogin(u) => store.isAuthenticated && store.user == Some(u)
      case DoLogout => !store.isAuthenticated && store.user.None?
      case NoAction => store.isAuthenticated == old(store.isAuthenticated) && store.user == old(store.user)
  {
    var action := Decide(status, session, store.isAuthenticated);
    match action
    case DoLogin(u) =>
      store.Login(u);
    case DoLogout =>
      store.Logout();
    case NoAction =>
  }
}
