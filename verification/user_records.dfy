/** The user record held by the users page, and the three list values its
    handlers compute: the filter that drops a deleted id, the append of a
    created record, and the map that rewrites the name and email of the
    records carrying the edited id. Ids are NOT assumed unique: the client
    never enforces it, and a create may append a record whose id is already
    present. */
module UserRecords {

  datatype Option<T> = None | Some(value: T)

  datatype Address = Address(street: string, city: string, zipcode: string)

  datatype Company = Company(name: string)

  /** Every field of a record besides id, name and email: the ones either
      page displays (the company only on the detail page). They are only
      rendered; no handler ever changes them. */
  datatype Profile = Profile(
    username: string,
    address: Option<Address>,
    phone: string,
    website: string,
    company: Option<Company>)

  datatype User = User(id: int, name: string, email: string, profile: Profile)

  /** Number of records in `users` whose id is `id`. */
  function CountId(users: seq<User>, id: int): (n: nat)
    ensures n <= |users|
    ensures n == 0 <==> forall u :: u in users ==> u.id != id
  {
    if users == [] then 0
    else (if users[0].id == id then 1 else 0) + CountId(users[1..], id)
  }

  /** The list after deleting `id`: every record whose id is `id` is gone,
      every other record stays. */
  function WithoutId(users: seq<User>, id: int): (r: seq<User>)
    ensures |r| == |users| - CountId(users, id)
    ensures forall u :: u in r <==> u in users && u.id != id
  {
    if users == [] then []
    else if users[0].id != id then [users[0]] + WithoutId(users[1..], id)
    else WithoutId(users[1..], id)
  }

  /** `u` with the name and email an update sends, every other field kept. */
  function WithContact(u: User, name: string, email: string): (r: User)
    ensures r.name == name && r.email == email
    ensures r.id == u.id && r.profile == u.profile
  {
    u.(name := name, email := email)
  }

  /** The list after updating `id`: the same records in the same order, those
      whose id is `id` with the new name and email, all others unchanged. */
  function WithUpdatedContact(users: seq<User>, id: int, name: string, email: string): (r: seq<User>)
    ensures |r| == |users|
    ensures forall i :: 0 <= i < |r| ==> r[i].id == users[i].id && r[i].profile == users[i].profile
    ensures forall i :: 0 <= i < |r| && users[i].id == id ==> r[i].name == name && r[i].email == email
    ensures forall i :: 0 <= i < |r| && users[i].id != id ==> r[i] == users[i]
  {
    if users == [] then []
    else
      var head := if users[0].id == id then WithContact(users[0], name, email) else users[0];
      [head] + WithUpdatedContact(users[1..], id, name, email)
  }

  /** `r` is the records of `users` at the strictly increasing `positions`:
      `r` is a subsequence of `users`, nothing reordered. For `r` the result of
      WithoutId this pins the positions down to exactly the indices whose id
      is not `id`, since WithoutId keeps only such records and keeps
      |users| - CountId(users, id) of them. */
  ghost predicate InOrderAt(r: seq<User>, users: seq<User>, positions: seq<int>)
  {
    && |positions| == |r|
    && (forall j, k :: 0 <= j < k < |positions| ==> positions[j] < positions[k])
    && (forall k :: 0 <= k < |positions| ==> 0 <= positions[k] < |users| && users[positions[k]] == r[k])
  }

  /** Every position moved one place to the right. */
  function ShiftRight(p: seq<int>): seq<int>
  {
    seq(|p|, k requires 0 <= k < |p| => p[k] + 1)
  }

  /** A record put in front of both sequences keeps a subsequence one. */
  lemma PrependBoth(x: User, r: seq<User>, rest: seq<User>, p: seq<int>)
    requires InOrderAt(r, rest, p)
    ensures InOrderAt([x] + r, [x] + rest, [0] + ShiftRight(p))
  {
  }

  /** A record put in front of the longer sequence only keeps a subsequence one. */
  lemma PrependSkipped(x: User, r: seq<User>, rest: seq<User>, p: seq<int>)
    requires InOrderAt(r, rest, p)
    ensures InOrderAt(r, [x] + rest, ShiftRight(p))
  {
  }

  /** Delete keeps every other record in its original relative order. */
  lemma {:induction false} WithoutIdKeepsOrder(users: seq<User>, id: int)
    ensures exists positions :: InOrderAt(WithoutId(users, id), users, positions)
  {
    if users == [] {
      assert InOrderAt(WithoutId(users, id), users, []);
    } else {
      WithoutIdKeepsOrder(users[1..], id);
      var tail := WithoutId(users[1..], id);
      var p :| InOrderAt(tail, users[1..], p);
      assert users == [users[0]] + users[1..];
      if users[0].id != id {
        PrependBoth(users[0], tail, users[1..], p);
        assert InOrderAt(WithoutId(users, id), users, [0] + ShiftRight(p));
      } else {
        PrependSkipped(users[0], tail, users[1..], p);
        assert InOrderAt(WithoutId(users, id), users, ShiftRight(p));
      }
    }
  }

  /** Deleting an id that is absent leaves the list as it was. */
  lemma {:induction false} WithoutAbsentId(users: seq<User>, id: int)
    requires CountId(users, id) == 0
    ensures WithoutId(users, id) == users
  {
    if users != [] {
      assert users[0] in users;
      WithoutAbsentId(users[1..], id);
    }
  }

  /** Deleting twice is deleting once. */
  lemma {:induction false} WithoutIdIdempotent(users: seq<User>, id: int)
    ensures WithoutId(WithoutId(users, id), id) == WithoutId(users, id)
  {
    WithoutAbsentId(WithoutId(users, id), id);
  }

  /** Delete distributes over concatenation. */
  lemma {:induction false} WithoutIdConcat(a: seq<User>, b: seq<User>, id: int)
    ensures WithoutId(a + b, id) == WithoutId(a, id) + WithoutId(b, id)
  {
    if a == [] {
      assert a + b == b;
    } else {
      var ab := a + b;
      assert ab[0] == a[0] && ab[1..] == a[1..] + b;
      WithoutIdConcat(a[1..], b, id);
      if a[0].id != id {
        calc {
          WithoutId(ab, id);
          [a[0]] + WithoutId(a[1..] + b, id);
          [a[0]] + (WithoutId(a[1..], id) + WithoutId(b, id));
          ([a[0]] + WithoutId(a[1..], id)) + WithoutId(b, id);
        }
      }
    }
  }

  /** Appending a record adds exactly one occurrence of its id. */
  lemma {:induction false} AppendedCountsOnce(users: seq<User>, u: User)
    ensures CountId(users + [u], u.id) == CountId(users, u.id) + 1
  {
    if users != [] {
      assert (users + [u])[1..] == users[1..] + [u];
      AppendedCountsOnce(users[1..], u);
    } else {
      assert users + [u] == [u];
    }
  }

  /** Deleting the id of a just-appended record whose id was new restores the
      list as it was before the append. */
  lemma CreateThenDeleteRestores(users: seq<User>, u: User)
    requires CountId(users, u.id) == 0
    ensures WithoutId(users + [u], u.id) == users
  {
    WithoutIdConcat(users, [u], u.id);
    WithoutAbsentId(users, u.id);
  }

  /** Repeating the same update changes nothing more. */
  lemma WithUpdatedContactIdempotent(users: seq<User>, id: int, name: string, email: string)
    ensures WithUpdatedContact(WithUpdatedContact(users, id, name, email), id, name, email)
         == WithUpdatedContact(users, id, name, email)
  {
  }

  /** Updating records that are then deleted leaves no trace: the records the
      update touches are exactly the ones the delete removes. */
  lemma {:induction false} UpdateThenDelete(users: seq<User>, id: int, name: string, email: string)
    ensures WithoutId(WithUpdatedContact(users, id, name, email), id) == WithoutId(users, id)
  {
    if users != [] {
      var rest := WithUpdatedContact(users[1..], id, name, email);
      assert WithUpdatedContact(users, id, name, email)[1..] == rest;
      UpdateThenDelete(users[1..], id, name, email);
    }
  }
}
