/** A player profile and its construction from a request body
    (src/domain/player.py). */
module Players {
  import opened Wrappers
  import opened Exceptions
  import opened Users

  /** A player profile. The skill level is a float in the source; it is only
      carried, never computed with, so a real stands for it. */
  datatype Player = Player(
    playerId: string,
    ownerUserId: string,
    isOwner: bool,
    imageUrl: Option<string>,
    firstName: string,
    lastName: string,
    dominantHand: Option<string>,
    notes: Option<string>,
    phoneNumber: Option<string>,
    email: Option<string>,
    level: Option<real>)

  /** A player object as it appears in a request body or in `to_dict`'s
      output: one field per key, None when the key is absent (for the keys
      read with `get` and no default, also when it is null). */
  datatype PlayerDict = PlayerDict(
    playerId: Option<string>,
    ownerUserId: Option<string>,
    isOwner: Option<bool>,
    imageUrl: Option<string>,
    firstName: Option<string>,
    lastName: Option<string>,
    dominantHand: Option<string>,
    notes: Option<string>,
    phoneNumber: Option<string>,
    email: Option<string>,
    level: Option<real>)

  /** `d.get(key, "")`, replaced by a freshly generated id when empty. */
  function IdOrFresh(supplied: Option<string>, freshId: string): (id: string)
    requires freshId != ""
    ensures id != ""
    ensures supplied.Some? && supplied.value != "" ==> id == supplied.value
    ensures supplied.None? || supplied.value == "" ==> id == freshId
  {
    var given := supplied.GetOr("");
    if given == "" then freshId else given
  }

  /** `d[key]`: the value, or the DomainException naming the missing key. */
  function Required<T>(v: Option<T>, key: string): (r: Result<T, Fault>)
    ensures r.Success? <==> v.Some?
    ensures r.Success? ==> r.value == v.value
    ensures r.Failure? ==> r.error == MissingKey(key)
  {
    match v
    case None => Failure(MissingKey(key))
    case Some(x) => Success(x)
  }

  /** True when a body has both required name keys. */
  predicate HasNames(d: PlayerDict) {
    d.firstName.Some? && d.lastName.Some?
  }

  /** `Player.from_dict`. The owner is the authenticated user whatever the
      body says, `is_owner` is always false, the id rule is `IdOrFresh`, and a
      missing name key is reported, first name first, after the user check
      (the keyword arguments are evaluated in order). */
  function FromDict(d: PlayerDict, user: Option<User>, freshId: string): (r: Result<Player, Fault>)
    requires freshId != ""
    ensures r.Success? <==> user.Some? && HasNames(d)
    ensures user.None? ==> r == Failure(NoUser)
    ensures user.Some? && d.firstName.None? ==> r == Failure(MissingKey("first_name"))
    ensures user.Some? && d.firstName.Some? && d.lastName.None? ==> r == Failure(MissingKey("last_name"))
    ensures r.Success? ==> r.value.playerId != ""
    ensures r.Success? && d.playerId.Some? && d.playerId.value != "" ==> r.value.playerId == d.playerId.value
    ensures r.Success? && (d.playerId.None? || d.playerId.value == "") ==> r.value.playerId == freshId
    ensures r.Success? ==> r.value.ownerUserId == user.value.userId && !r.value.isOwner
    ensures r.Success? ==> r.value.firstName == d.firstName.value && r.value.lastName == d.lastName.value
    ensures r.Success? ==> r.value.imageUrl == d.imageUrl && r.value.dominantHand == d.dominantHand
                           && r.value.notes == d.notes && r.value.phoneNumber == d.phoneNumber
                           && r.value.email == d.email && r.value.level == d.level
  {
    var playerId := IdOrFresh(d.playerId, freshId);
    var ownerUserId :- UserIdOf(user);
    var firstName :- Required(d.firstName, "first_name");
    var lastName :- Required(d.lastName, "last_name");
    Success(Player(playerId, ownerUserId, false, d.imageUrl, firstName, lastName,
                   d.dominantHand, d.notes, d.phoneNumber, d.email, d.level))
  }

  /** The body's own "owner_user_id" and "is_owner" never reach the player. */
  lemma OwnerKeysIgnored(d: PlayerDict, user: Option<User>, freshId: string,
                         ownerUserId: Option<string>, isOwner: Option<bool>)
    requires freshId != ""
    ensures FromDict(d.(ownerUserId := ownerUserId, isOwner := isOwner), user, freshId) == FromDict(d, user, freshId)
  {
  }

  /** `to_dict` (src/domain/base.py): every field under its own key, so the
      result always carries the keys `from_dict` requires, and the player's
      own id. */
  function ToDict(p: Player): (d: PlayerDict)
    ensures HasNames(d) && d.firstName == Some(p.firstName) && d.lastName == Some(p.lastName)
    ensures d.playerId == Some(p.playerId)
  {
    PlayerDict(Some(p.playerId), Some(p.ownerUserId), Some(p.isOwner), p.imageUrl,
               Some(p.firstName), Some(p.lastName), p.dominantHand, p.notes,
               p.phoneNumber, p.email, p.level)
  }

  /** What a player built from a body always satisfies: a non-empty id, owned
      by `user`, not the owner's own profile. */
  predicate BuiltFor(p: Player, user: User) {
    p.playerId != "" && p.ownerUserId == user.userId && !p.isOwner
  }

  /** Posting a player's `to_dict` back gives the same player exactly when it
      is one that could have been built for this user: the id is kept (no
      fresh id is drawn) and nothing else changes. */
  lemma FromDictOfToDict(p: Player, user: User, freshId: string)
    requires freshId != ""
    ensures FromDict(ToDict(p), Some(user), freshId) == Success(p) <==> BuiltFor(p, user)
  {
  }

  /** A player built from a body survives being sent back: the second build
      draws no fresh id and gives the same player. */
  lemma RebuildIsStable(d: PlayerDict, user: User, freshId: string, otherFreshId: string)
    requires freshId != "" && otherFreshId != ""
    requires FromDict(d, Some(user), freshId).Success?
    ensures FromDict(ToDict(FromDict(d, Some(user), freshId).value), Some(user), otherFreshId)
            == FromDict(d, Some(user), freshId)
  {
  }
}
