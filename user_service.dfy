/** The user half of the data-access layer (backend/services/userService.js): user
    profiles stored at (USER#<t>, PROFILE). The password hash and the clock are
    parameters: `hash` stands for bcrypt's hash, `clock` for `Date.now()` and `now`
    for `new Date().toISOString()`. */
module UserService {
  import opened Seqs
  import opened Text
  import opened KeyedTable

  datatype Result<T> = Success(value: T) | Failure(error: string)

  /** The `{ id, email, createdAt }` object `createUser` returns. */
  datatype CreatedUser = CreatedUser(id: string, email: string, createdAt: string)

  const UserExists := "User already exists"
  const UserNotFound := "User not found"
  const PasswordUpdated := "Password updated successfully"

  /** `USER#${Date.now()}` */
  function UserId(clock: nat): (id: string)
    ensures StartsWith(id, UserPrefix)
  {
    assert (UserPrefix + Digits(clock))[..|UserPrefix|] == UserPrefix;
    UserPrefix + Digits(clock)
  }

  /** The profile item `createUser` writes: the password is stored only as its hash. */
  function NewProfile(email: string, password: string, hash: string -> string, clock: nat, now: string): (item: Item)
    ensures item.Profile? && item.EntityType() == "USER"
    ensures item.Key() == (UserId(clock), ProfileSK)
    ensures item.email == email && item.password == hash(password)
    ensures item.createdAt == item.updatedAt == now
    ensures Shaped(item)
  {
    Profile(UserId(clock), ProfileSK, email, hash(password), now, now)
  }

  /** The Scan filter `email = :email AND entityType = 'USER'`. */
  function IsUserWithEmail(email: string): (p: Item -> bool)
    ensures forall x: Item :: p(x) ==> x.EntityType() == "USER" && x.Profile? && x.email == email
    ensures forall x: Item :: x.Profile? && x.email == email ==> p(x)
  {
    (x: Item) => x.Profile? && x.email == email
  }

  /** Some stored profile has this email. */
  predicate HasUserWithEmail(items: map<Key, Item>, email: string)
  {
    exists k :: k in items && items[k].Profile? && items[k].email == email
  }

  /** `createUser`: a conditional put that fails, changing nothing, when the generated
      key is taken. The email is not checked: two profiles may share one. */
  method CreateUser(t: Table, email: string, password: string, hash: string -> string, clock: nat, now: string)
    returns (r: Result<CreatedUser>)
    requires t.Valid()
    modifies t
    ensures t.Valid()
    ensures old(t.WellFormed()) ==> t.WellFormed()
    ensures var item := NewProfile(email, password, hash, clock, now);
      if item.Key() in old(t.items) then
        r == Failure(UserExists) && t.items == old(t.items)
      else
        r == Success(CreatedUser(item.PK, email, item.createdAt)) && t.items == old(t.items)[item.Key() := item]
  {
    var item := NewProfile(email, password, hash, clock, now);
    var written := t.PutIfAbsent(item);
    if written {
      r := Success(CreatedUser(item.PK, email, item.createdAt));
    } else {
      r := Failure(UserExists);
    }
  }

  /** `findUserByEmail`: the first item of a filtered Scan. Which of several profiles
      with the same email comes first is not specified. */
  method FindUserByEmail(t: Table, email: string) returns (r: Option<Item>)
    requires t.Valid()
    ensures r.Some? ==> r.value in t.items.Values && r.value.EntityType() == "USER"
    ensures r.Some? ==> r.value.Profile? && r.value.email == email
    ensures r.None? <==> !HasUserWithEmail(t.items, email)
  {
    var found := t.Select(IsUserWithEmail(email));
    if |found| > 0 {
      r := Some(found[0]);
      assert IsUserWithEmail(email)(found[0]);
    } else {
      r := None;
      forall k | k in t.items ensures !(t.items[k].Profile? && t.items[k].email == email) {
        assert t.items[k] in t.items.Values;
        assert t.items[k] !in found;
      }
    }
  }

  /** `getUserById`: the profile stored under the id, or null. */
  function GetUserById(t: Table, id: string): (r: Option<Item>)
    reads t
    ensures r.Some? <==> (id, ProfileSK) in t.items
    ensures r.Some? && t.Valid() ==> r.value.PK == id && r.value.SK == ProfileSK
    ensures r.Some? && t.WellFormed() ==> r.value.Profile? && r.value.EntityType() == "USER"
  {
    ProfileSortKeyIsNotANoteKey();
    t.Get((id, ProfileSK))
  }

  /** `updatePassword`: resolves the user by email, then sets the new hash and the
      update time on that user's profile; every other attribute and item is unchanged. */
  method UpdatePassword(t: Table, email: string, newPassword: string, hash: string -> string, now: string)
    returns (r: Result<string>)
    requires t.WellFormed()
    modifies t
    ensures t.WellFormed()
    ensures r.Failure? <==> !HasUserWithEmail(old(t.items), email)
    ensures r.Failure? ==> r.error == UserNotFound && t.items == old(t.items)
    ensures r.Success? ==> r.value == PasswordUpdated
    ensures r.Success? ==>
      exists k :: k in old(t.items) && old(t.items)[k].Profile? && old(t.items)[k].email == email &&
        t.items == old(t.items)[k := old(t.items)[k].(password := hash(newPassword), updatedAt := now)]
  {
    var user := FindUserByEmail(t, email);
    if user.None? {
      return Failure(UserNotFound);
    }
    var k :| k in t.items && t.items[k] == user.value;
    assert Shaped(t.items[k]);
    var key := (user.value.PK, ProfileSK);
    assert key == k;
    t.SetPassword(key, hash(newPassword), now);
    r := Success(PasswordUpdated);
  }

  /** The round trip of registration: when no profile has the email yet, the profile
      `createUser` writes is the only profile with that email afterwards, so
      `findUserByEmail` can return nothing else, and its stored hash verifies the
      original password for a comparator that accepts a password against its own hash. */
  lemma {:induction false} CreatedUserIsFound(
    items: map<Key, Item>, email: string, password: string, hash: string -> string, clock: nat, now: string,
    compare: (string, string) -> bool)
    requires !HasUserWithEmail(items, email)
    requires compare(password, hash(password))
    ensures var item := NewProfile(email, password, hash, clock, now);
      var after := items[item.Key() := item];
      HasUserWithEmail(after, email) &&
      (forall x :: x in after.Values && x.Profile? && x.email == email ==> x == item) &&
      compare(password, item.password)
  {
    var item := NewProfile(email, password, hash, clock, now);
    var after := items[item.Key() := item];
    assert after[item.Key()] == item;
    forall x | x in after.Values && x.Profile? && x.email == email ensures x == item {
      var k :| k in after && after[k] == x;
    }
  }

  /** Uniqueness is checked on the key only: when the generated key is free, a second
      profile is written next to one that already has the same email. */
  lemma DuplicateEmailAccepted(
    items: map<Key, Item>, email: string, password: string, hash: string -> string, clock: nat, now: string)
    requires HasUserWithEmail(items, email)
    requires (UserId(clock), ProfileSK) !in items
    ensures var item := NewProfile(email, password, hash, clock, now);
      var after := items[item.Key() := item];
      after[item.Key()].email == email &&
      exists k :: k in after && k != item.Key() && after[k].Profile? && after[k].email == email
  {
    var item := NewProfile(email, password, hash, clock, now);
    var after := items[item.Key() := item];
    var k :| k in items && items[k].Profile? && items[k].email == email;
    assert k != item.Key() && after[k] == items[k];
  }
}
