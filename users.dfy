/** The authenticated account (src/domain/user.py). */
module Users {
  import opened Wrappers
  import opened Exceptions

  /** A user: internal id, identity-provider (Firebase) id, the two name
      parts and an avatar, which is absent when the provider gave none. */
  datatype User = User(userId: string, firebaseId: string, firstName: string, lastName: string,
                       imageUrl: Option<string>)

  /** `user.user_id` on a possibly absent user: absent raises AttributeError. */
  function UserIdOf(user: Option<User>): (r: Result<string, Fault>)
    ensures r.Success? <==> user.Some?
    ensures r.Success? ==> r.value == user.value.userId
    ensures r.Failure? ==> r.error == NoUser
  {
    match user
    case None => Failure(NoUser)
    case Some(u) => Success(u.userId)
  }
}
