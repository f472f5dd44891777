/** The user table shared by the route handlers, held in memory as a sequence of
    records in table order. */
module Users {
  import opened Js

  /** A user record: the internal id, the authentication provider's id, and the profile copy. */
  datatype User = User(id: string, clerkUserId: string, email: string, name: string, imageUrl: string)

  /** Both `id` and `clerkUserId` are unique keys of the table. */
  ghost predicate UniqueKeys(users: seq<User>) {
    forall i, j :: 0 <= i < j < |users| ==>
      users[i].id != users[j].id && users[i].clerkUserId != users[j].clerkUserId
  }

  /** The two unique keys of the table. */
  datatype Key = ById | ByClerkUserId

  /** The value of a record's key field. */
  function KeyOf(u: User, key: Key): string {
    match key
    case ById => u.id
    case ByClerkUserId => u.clerkUserId
  }

  /** `findUnique({ where: { id } })` or `findUnique({ where: { clerkUserId } })`: the record
      whose key field holds `value`, or nothing when there is none. */
  function FindUnique(users: seq<User>, key: Key, value: string): (r: Option<User>)
    ensures r.Some? ==> r.value in users && KeyOf(r.value, key) == value
    ensures r.None? <==> forall u :: u in users ==> KeyOf(u, key) != value
  {
    if users == [] then None
    else if KeyOf(users[0], key) == value then Some(users[0])
    else FindUnique(users[1..], key, value)
  }

  /** Under unique keys, a lookup by either key finds exactly the record that carries it. */
  lemma {:induction false} FindUniqueExact(users: seq<User>, key: Key, u: User)
    requires UniqueKeys(users) && u in users
    ensures FindUnique(users, key, KeyOf(u, key)) == Some(u)
  {
    if users[0] != u {
      assert KeyOf(users[0], key) != KeyOf(u, key) by {
        var j :| 0 <= j < |users| && users[j] == u;
      }
      assert UniqueKeys(users[1..]) by {
        forall i, j | 0 <= i < j < |users[1..]|
          ensures users[1..][i].id != users[1..][j].id && users[1..][i].clerkUserId != users[1..][j].clerkUserId
        {
          assert users[1..][i] == users[i + 1] && users[1..][j] == users[j + 1];
        }
      }
      FindUniqueExact(users[1..], key, u);
    }
  }

  /** Appending a record whose key value is new leaves every lookup of another value as it
      was, and makes the new value resolve to the new record. */
  lemma {:induction false} FindUniqueAppend(users: seq<User>, key: Key, u: User, value: string)
    requires forall v :: v in users ==> KeyOf(v, key) != KeyOf(u, key)
    ensures FindUnique(users + [u], key, value) ==
      if value == KeyOf(u, key) then Some(u) else FindUnique(users, key, value)
  {
    if users == [] {
      assert users + [u] == [u];
    } else {
      assert (users + [u])[1..] == users[1..] + [u];
      FindUniqueAppend(users[1..], key, u, value);
    }
  }
}
