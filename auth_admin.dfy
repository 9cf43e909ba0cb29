/** The admin check shared by the admin routes: a signed-in user is an
    admin when their first e-mail address is one of the comma-separated
    addresses configured in `ADMIN_EMAIL`. */
module AuthAdmin {
  import opened Js

  /** What the identity provider's `getUser` call gives back: the user's
      e-mail addresses in order, or a failure. */
  datatype UserLookup = Found(emails: seq<string>) | LookupFailed

  /** `authAdmin(userId)`. The lookup result and the `ADMIN_EMAIL` variable
      are inputs. Every exception of the source is caught into `false`: a
      failed lookup, a user without an e-mail address, an unset variable. */
  function IsAdmin(userId: Option<string>, lookup: UserLookup, adminEmail: Option<string>): (r: bool)
    ensures r ==> Truthy(userId)
    ensures r ==> lookup.Found? && |lookup.emails| > 0 && adminEmail.Some?
    ensures !Truthy(userId) ==> !r
  {
    if !Truthy(userId) then false
    else if lookup.LookupFailed? || |lookup.emails| == 0 || adminEmail.None? then false
    else lookup.emails[0] in Split(adminEmail.value, ',')
  }

  /** What an admin handler has to go on: the caller's id from the session,
      what the identity lookup gives back for it, and `ADMIN_EMAIL`. */
  datatype Caller = Caller(userId: Option<string>, lookup: UserLookup, adminEmail: Option<string>)

  /** `await authAdmin(userId)` as an admin handler calls it. */
  predicate IsAdminCaller(c: Caller) {
    IsAdmin(c.userId, c.lookup, c.adminEmail)
  }

  /** An address list written as the variable: addresses without commas,
      joined by commas. */
  predicate AddressList(admins: seq<string>) {
    |admins| >= 1 && forall a :: a in admins ==> ',' !in a
  }

  /** With `ADMIN_EMAIL` set to a list of addresses, a signed-in user found by
      the lookup is an admin exactly when their first address is in the list. */
  lemma AdminExactlyWhenListed(userId: Option<string>, emails: seq<string>, admins: seq<string>)
    requires Truthy(userId) && |emails| > 0 && AddressList(admins)
    ensures IsAdmin(userId, Found(emails), Some(Join(admins, ','))) <==> emails[0] in admins
  {
    SplitJoin(admins, ',');
  }

  /** Only the first address counts: a later address that is the
      configured one does not make the user an admin. */
  lemma OnlyFirstAddressCounts(userId: Option<string>, first: string, later: string, admin: string)
    requires Truthy(userId) && ',' !in admin && first != admin
    ensures !IsAdmin(userId, Found([first, later]), Some(admin))
    ensures IsAdmin(userId, Found([admin, later]), Some(admin))
  {
    SplitNoSeparator(admin, ',');
  }

  /** The pieces are compared as they are: in "a, b" the second piece is
      " b", so the address `b` is not an admin and " b" is. */
  lemma NoTrimming(userId: Option<string>, a: string, b: string)
    requires Truthy(userId) && ',' !in a && ',' !in b && a != b
    ensures !IsAdmin(userId, Found([b]), Some(a + ", " + b))
    ensures IsAdmin(userId, Found([" " + b]), Some(a + ", " + b))
  {
    assert a + ", " + b == a + [','] + (" " + b);
    SplitSeparatorPrefix(a, " " + b, ',');
    assert ',' !in " " + b;
    SplitNoSeparator(" " + b, ',');
    assert |" " + b| != |b|;
  }

  /** Letter case matters: the upper-cased form of a configured address
      with lower-case letters in it is not an admin. */
  lemma NoCaseFolding(userId: Option<string>, admin: string)
    requires Truthy(userId) && ',' !in admin && Upper(admin) != admin
    ensures !IsAdmin(userId, Found([Upper(admin)]), Some(admin))
  {
    SplitNoSeparator(admin, ',');
  }

  /** Every path that is not a successful match yields `false`; none fails. */
  lemma FailuresAreNotAdmin(userId: Option<string>, lookup: UserLookup, adminEmail: Option<string>)
    requires lookup.LookupFailed? || (lookup.Found? && lookup.emails == []) || adminEmail.None?
    ensures !IsAdmin(userId, lookup, adminEmail)
  {
  }
}
