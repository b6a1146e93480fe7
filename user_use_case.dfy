/**
 * The user workflow (UserUseCase): existence-checked lookup, update and
 * delete, and an unchecked create.
 */
module UserUseCase {
  import opened Domain
  import opened Store

  /** getUserById: the stored user, or UserNotFound. */
  function GetUserById(users: map<nat, User>, id: nat): (r: Result<User>)
    ensures r.Ok? <==> id in users
    ensures r.Ok? ==> r.value == users[id]
    ensures r.Err? ==> r.error == UserNotFound(UserNotFoundMessage)
  {
    if id in users then Ok(users[id]) else Err(UserNotFound(UserNotFoundMessage))
  }

  /** createdUser: saves the user as given, without any check. */
  method CreatedUser(store: Store, u: User) returns (saved: User)
    requires store.Valid()
    modifies store`users, store`nextUserId
    ensures store.Valid()
    ensures saved.name == u.name && saved.email == u.email
    ensures saved.id.Some? && (u.id.Some? ==> saved.id == u.id)
    ensures u.id.None? ==> saved.id.value !in old(store.users)
    ensures store.users == old(store.users)[saved.id.value := saved]
  {
    saved := store.SaveUser(u);
  }

  /** deleteUser: deletes a stored user; an unknown id is UserNotFound and
    * deletes nothing. Tasks naming the user keep their user id. */
  method DeleteUser(store: Store, id: nat) returns (r: Outcome)
    requires store.Valid()
    modifies store`users
    ensures store.Valid()
    ensures r.Pass? <==> id in old(store.users)
    ensures r.Fail? ==> r.error == UserNotFound(UserNotFoundMessage) && store.users == old(store.users)
    ensures r.Pass? ==> store.users == old(store.users) - {id}
  {
    var found := GetUserById(store.users, id);
    if found.Err? {
      return Fail(found.error);
    }
    store.DeleteUser(id);
    return Pass;
  }

  /** updateUser: overwrites the name and the email of a stored user, keeps
    * its id, and saves; an unknown id is UserNotFound and nothing is saved. */
  method UpdateUser(store: Store, id: nat, u: User) returns (r: Result<User>)
    requires store.Valid()
    modifies store`users, store`nextUserId
    ensures store.Valid()
    ensures r.Err? <==> id !in old(store.users)
    ensures r.Err? ==> r.error == UserNotFound(UserNotFoundMessage) && store.users == old(store.users)
    ensures r.Ok? ==>
              && r.value.id == Some(id)
              && r.value.name == u.name
              && r.value.email == u.email
              && store.users == old(store.users)[id := r.value]
  {
    var found := GetUserById(store.users, id);
    if found.Err? {
      return Err(found.error);
    }
    var existing := found.value;
    existing := existing.(name := u.name);
    existing := existing.(email := u.email);
    var saved := store.SaveUser(existing);
    return Ok(saved);
  }
}
