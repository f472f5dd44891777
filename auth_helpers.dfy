/** `getOrCreateUser`: resolve the signed-in session to its user record, creating the record
    from the authentication provider's profile on first use.

    The session (`auth()`) and the profile (`currentUser()`) are inputs; the user table is a
    class whose `users` field the operation updates; the id the database would assign to a new
    record is an input that no existing record carries. */
module AuthHelpers {
  import opened Js
  import opened Users

  /** The fields of the provider's profile that are copied; absent names are `null`. */
  datatype ClerkProfile = ClerkProfile(emailAddresses: seq<string>, firstName: Option<string>,
                                       lastName: Option<string>, imageUrl: string)

  /** A possibly-null name in a string concatenation: `null` renders as "null". */
  function NullText(s: Option<string>): string {
    match s
    case Some(v) => v
    case None => "null"
  }

  /** The TypeError of reading `emailAddresses[0].emailAddress` from an empty address list. */
  const NoEmailMessage: string := "Cannot read properties of undefined (reading 'emailAddress')"

  /** The record created for a session from its profile. */
  function NewUser(id: string, clerkUserId: string, profile: ClerkProfile): (u: User)
    requires profile.emailAddresses != []
    ensures u.id == id && u.clerkUserId == clerkUserId && u.imageUrl == profile.imageUrl
    ensures u.email == profile.emailAddresses[0]
    ensures u.name == NullText(profile.firstName) + " " + NullText(profile.lastName)
  {
    User(id, clerkUserId, profile.emailAddresses[0],
         NullText(profile.firstName) + " " + NullText(profile.lastName), profile.imageUrl)
  }

  /** The specification of `getOrCreateUser` on a table: the result and the table afterwards.
      Failures leave the table as it was; success returns the session's record, and the table
      either stays as it was (the record existed) or gains exactly that record at its end. */
  function GetOrCreate(users: seq<User>, session: Option<string>, profile: Option<ClerkProfile>,
                       newId: string): (res: (Result<User>, seq<User>))
    ensures res.0.Thrown? ==> res.1 == users
    ensures !Truthy(session) ==> res.0 == Thrown("Unauthorized")
    ensures Truthy(session) && FindUnique(users, ByClerkUserId, session.value).None? && profile.None? ==>
      res.0 == Thrown("No clerk user found")
    ensures Truthy(session) && FindUnique(users, ByClerkUserId, session.value).None?
            && profile.Some? && profile.value.emailAddresses == [] ==>
      res.0 == Thrown(NoEmailMessage)
    ensures res.0.Ok? <==>
      (Truthy(session)
       && (FindUnique(users, ByClerkUserId, session.value).Some? || (profile.Some? && profile.value.emailAddresses != [])))
    ensures res.0.Ok? ==> res.0.value.clerkUserId == session.value
    ensures res.0.Ok? && FindUnique(users, ByClerkUserId, session.value).Some? ==>
      res.0.value == FindUnique(users, ByClerkUserId, session.value).value && res.1 == users
    ensures res.0.Ok? && FindUnique(users, ByClerkUserId, session.value).None? ==>
      res.1 == users + [res.0.value] && res.0.value == NewUser(newId, session.value, profile.value)
  {
    if !Truthy(session) then (Thrown("Unauthorized"), users)
    else match FindUnique(users, ByClerkUserId, session.value)
      case Some(u) => (Ok(u), users)
      case None =>
        if profile.None? then (Thrown("No clerk user found"), users)
        else if profile.value.emailAddresses == [] then (Thrown(NoEmailMessage), users)
        else
          var u := NewUser(newId, session.value, profile.value);
          (Ok(u), users + [u])
  }

  /** No record carries `id`. */
  ghost predicate IdFree(users: seq<User>, id: string) {
    forall u :: u in users ==> u.id != id
  }

  /** Creation keeps both keys of the table unique. */
  lemma GetOrCreateKeepsKeys(users: seq<User>, session: Option<string>, profile: Option<ClerkProfile>, newId: string)
    requires UniqueKeys(users) && IdFree(users, newId)
    ensures UniqueKeys(GetOrCreate(users, session, profile, newId).1)
  {
    var (r, after) := GetOrCreate(users, session, profile, newId);
    if after != users {
      var u := r.value;
      forall i, j | 0 <= i < j < |after|
        ensures after[i].id != after[j].id && after[i].clerkUserId != after[j].clerkUserId
      {
        if j == |users| {
          assert after[i] in users;
        } else {
          assert after[i] == users[i] && after[j] == users[j];
        }
      }
    }
  }

  /** A second call with the same session returns the same record and leaves the table as the
      first call left it, whatever the profile and the fresh id of the second call. */
  lemma {:induction false} GetOrCreateIdempotent(users: seq<User>, session: Option<string>,
                                                 p1: Option<ClerkProfile>, id1: string,
                                                 p2: Option<ClerkProfile>, id2: string)
    requires GetOrCreate(users, session, p1, id1).0.Ok?
    ensures var (r1, t1) := GetOrCreate(users, session, p1, id1);
      GetOrCreate(t1, session, p2, id2) == (r1, t1)
  {
    var (r1, t1) := GetOrCreate(users, session, p1, id1);
    if t1 != users {
      FindUniqueAppend(users, ByClerkUserId, r1.value, session.value);
    }
  }

  /** The user table, updated in place. `Valid()` is the table invariant, both unique keys: the
      constructor establishes it and `GetOrCreateUser` maintains it, so every lookup of the
      specification functions on `users` finds the one record with that key
      (Users.FindUniqueExact). */
  class UserTable {
    var users: seq<User>

    ghost predicate Valid()
      reads this
    {
      UniqueKeys(users)
    }

    constructor ()
      ensures Valid() && users == []
    {
      users := [];
    }

    /** `getOrCreateUser()` against this table. */
    method GetOrCreateUser(session: Option<string>, profile: Option<ClerkProfile>, newId: string)
      returns (r: Result<User>)
      requires Valid() && IdFree(users, newId)
      modifies this
      ensures Valid()
      ensures (r, users) == GetOrCreate(old(users), session, profile, newId)
    {
      GetOrCreateKeepsKeys(users, session, profile, newId);
      if !Truthy(session) {
        return Thrown("Unauthorized");
      }
      var user := FindUnique(users, ByClerkUserId, session.value);
      if user.None? {
        if profile.None? {
          return Thrown("No clerk user found");
        }
        if profile.value.emailAddresses == [] {
          return Thrown(NoEmailMessage);
        }
        var created := NewUser(newId, session.value, profile.value);
        users := users + [created];
        user := Some(created);
      }
      return Ok(user.value);
    }
  }
}
