/** The SignUpUser use case of lib/application/use-cases/auth/SignUpUser.js:
    check the required fields, refuse a taken id, store the new account. */
module SignUpUserUseCase {
  import opened Wrappers
  import opened Text
  import opened UserEntity
  import opened Repositories

  const MissingFields: string := "Missing required fields"
  const UserExists: string := "User already exists"

  /** `{id, email, name}`: the only fields the result exposes. */
  datatype UserSummary = UserSummary(id: string, email: string, name: Option<string>)

  /** The stored account: the name defaults to the email's local part and
      no GPT is starred. */
  function NewUserRow(id: string, email: string, name: Option<string>, password: string, now: int): (u: UserRow)
    ensures u.id == id && u.email == email && u.password == password && u.createdAt == now
    ensures u.starredGptIds == []
    ensures u.name == Some(NameOrEmailLocalPart(name, email))
  {
    UserRow(id, email, Some(NameOrEmailLocalPart(name, email)), password, now, [])
  }

  /** `!id || !email || !password`. */
  predicate MissingRequired(id: Option<string>, email: Option<string>, password: Option<string>) {
    !Truthy(id) || !Truthy(email) || !Truthy(password)
  }

  /** A signed-up user's display name is the given name, or else the
      email's local part. */
  lemma {:induction false} NewUserDisplayName(id: string, email: string, name: Option<string>, password: string, now: int)
    ensures Truthy(name) ==> NewUserRow(id, email, name, password, now).name == name
    ensures !Truthy(name) ==> var n := NewUserRow(id, email, name, password, now).name.value;
                              n <= email && '@' !in n && (|n| < |email| ==> email[|n|] == '@')
  {
  }

  class SignUpUser {
    const users: UserRepository

    constructor (users: UserRepository)
      ensures this.users == users
    {
      this.users := users;
    }

    /** `execute({id, email, name, password})`. */
    method Execute(id: Option<string>, email: Option<string>, name: Option<string>,
                   password: Option<string>, now: int)
      returns (r: Result<UserSummary>)
      requires users.Valid()
      modifies users
      ensures users.Valid()
      ensures MissingRequired(id, email, password) ==> r == Err(MissingFields) && users.rows == old(users.rows)
      ensures !MissingRequired(id, email, password) && id.value in old(users.rows) ==>
                r == Err(UserExists) && users.rows == old(users.rows)
      ensures !MissingRequired(id, email, password) && id.value !in old(users.rows) ==>
                var u := NewUserRow(id.value, email.value, name, password.value, now);
                r == Ok(UserSummary(u.id, u.email, u.name)) && users.rows == old(users.rows)[id.value := u]
    {
      if MissingRequired(id, email, password) {
        return Err(MissingFields);
      }
      var existing := users.FindById(id.value);
      if existing.Some? {
        return Err(UserExists);
      }
      var user := new User.FromRow(NewUserRow(id.value, email.value, name, password.value, now));
      var created := users.Create(user);
      r := Ok(UserSummary(created.value.id, created.value.email, created.value.name));
    }
  }
}
