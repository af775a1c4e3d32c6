/** The SyncGoogleUser use case of lib/application/use-cases/auth/SyncGoogleUser.js:
    make sure a Google-authenticated account exists, creating it on first sight. */
module SyncGoogleUserUseCase {
  import opened Wrappers
  import opened Text
  import opened UserEntity
  import opened Repositories

  const IdAndEmailRequired: string := "ID and email are required"
  /** The placeholder password stored for Google accounts. */
  const GooglePassword: string := "password123"

  datatype SyncResult = SyncResult(user: UserRow, isNew: bool)

  /** The account created on first sight. */
  function GoogleUserRow(id: string, email: string, name: Option<string>, now: int): (u: UserRow)
    ensures u.id == id && u.email == email && u.starredGptIds == [] && u.password == GooglePassword
    ensures u.name == Some(NameOrEmailLocalPart(name, email))
  {
    UserRow(id, email, Some(NameOrEmailLocalPart(name, email)), GooglePassword, now, [])
  }

  class SyncGoogleUser {
    const users: UserRepository

    constructor (users: UserRepository)
      ensures this.users == users
    {
      this.users := users;
    }

    /** `execute({id, email, name})`: create-or-fetch. */
    method Execute(id: Option<string>, email: Option<string>, name: Option<string>, now: int)
      returns (r: Result<SyncResult>)
      requires users.Valid()
      modifies users
      ensures users.Valid()
      ensures !Truthy(id) || !Truthy(email) ==> r == Err(IdAndEmailRequired) && users.rows == old(users.rows)
      ensures Truthy(id) && Truthy(email) && id.value in old(users.rows) ==>
                r == Ok(SyncResult(old(users.rows)[id.value], false)) && users.rows == old(users.rows)
      ensures Truthy(id) && Truthy(email) && id.value !in old(users.rows) ==>
                var u := GoogleUserRow(id.value, email.value, name, now);
                r == Ok(SyncResult(u, true)) && users.rows == old(users.rows)[id.value := u]
      ensures r.Ok? ==> id.value in users.rows && users.rows[id.value] == r.value.user
    {
      if !Truthy(id) || !Truthy(email) {
        return Err(IdAndEmailRequired);
      }
      var existing := users.FindById(id.value);
      if existing.None? {
        var user := new User.FromRow(GoogleUserRow(id.value, email.value, name, now));
        var created := users.Create(user);
        return Ok(SyncResult(created.value, true));
      }
      r := Ok(SyncResult(existing.value, false));
    }

    /** Two syncs of the same account: the second reports `isNew == false`,
        returns what the first stored, and writes nothing; at most one
        account is created. */
    method SyncTwice(id: Option<string>, email: Option<string>, name: Option<string>, now1: int, now2: int)
      returns (first: Result<SyncResult>, second: Result<SyncResult>)
      requires users.Valid()
      modifies users
      ensures users.Valid()
      ensures first.Ok? <==> second.Ok?
      ensures second.Ok? ==> !second.value.isNew && second.value.user == first.value.user
      ensures users.rows.Keys <= old(users.rows).Keys + {id.GetOr("")}
    {
      first := Execute(id, email, name, now1);
      ghost var afterFirst := users.rows;
      second := Execute(id, email, name, now2);
      assert users.rows == afterFirst;
    }
  }
}
