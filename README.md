# Request validation and sign-in for a pickleball match tracker

This project models, in Dafny, the core of a backend that records players, matches and per-shot
statistics for a racquet-sport tracking application:

- **Player construction** (`Players`): `Player.from_dict` turns an untrusted request body into a
  `Player`. A missing or empty `player_id` is replaced by a freshly generated id. The owner is the
  authenticated user, never a value from the body. `is_owner` is always false. `first_name` and
  `last_name` are required, and the other fields are copied or left absent. `to_dict` projects a
  player back to a dictionary.
- **Match construction and projection** (`Matches`): `GameScore.from_dict`, `Stat.from_dict`,
  `Match.from_dict` and `Match.to_dict`. A body is checked in the order the Python code evaluates
  it: the teams, the scores, the stats, the authenticated user, the date, then the players at team
  positions 0 and 1. Each check raises the exact DomainException message the source raises.
- **Identity resolution** (`Identity`): `Manager.validate_token`, a class with a mutable `user`
  field over a user store keyed by Firebase id. Given a token's verified claims, it either clears
  the user, adopts the stored user with that Firebase id, or builds, stores and adopts a new one.
  The new user's name is split at its first space.

Modelling choices:

- A request body (a Python dict) is a record with one `Option` field per key. `None` means the key
  is absent. For keys read with `dict.get` and no default, `None` also covers an explicit null. `to_dict`'s output
  uses the same records, so the round trip `from_dict(to_dict(x))` can be stated directly.
- The authenticated user is an `Option<User>`. Reading `user.user_id` when there is no user raises
  AttributeError (fault `NoUser`). This happens at that keyword argument's place in the evaluation
  order.
- The date is opaque. `strptime` is a parameter `string -> Option<DateTime>`. A date that does not
  parse raises ValueError (fault `DateMalformed`), and the code does not turn this into a
  DomainException. `to_dict` outputs the datetime object itself. Handing that object to `strptime`
  raises TypeError (fault `DateNotText`).
- `uuid.uuid4()` is replaced by fresh ids passed as parameters and required to be non-empty. A
  match takes five of them (`FreshIds`): one for the match and one per player slot.
- The token verifier (the Firebase client) is a function from token to claims, held by the
  `Manager` as the source holds its client. The user store is a `UserStore` object over a map from
  Firebase id to `User`.
- `User` follows src/domain/user.py. `image_url` is optional because the code fills it from an
  optional claim.

## Model

| member | source | states |
|---|---|---|
| `Wrappers.ParseEach` | src/domain/match.py:64-67 | A list comprehension whose element parser can raise either parses every element, keeping length and order, or fails with the error of the first failing element. The elements before it all parse. |
| `Wrappers.ParseEachOfImages` | src/domain/match.py:89-90 | Parsing the element-wise images of a list gives the list back when the parser inverts the image on each element. |
| `Exceptions.MissingKeyNamesTheKey` | src/domain/match.py:80-81 | The "Missing required key '<k>' in request body" message determines the key `k`. |
| `Users.UserIdOf` | src/domain/match.py:71 | `user.user_id` gives the authenticated user's id and fails with AttributeError exactly when there is no user. |
| `Players.IdOrFresh` | src/domain/player.py:27-29 | A supplied non-empty id is kept verbatim. A missing or empty id becomes the fresh id. The result is never empty. |
| `Players.Required` | src/domain/player.py:36-45 | `d[key]` gives the value when present and otherwise the DomainException naming that key. |
| `Players.FromDict` | src/domain/player.py:25-45 | Succeeds exactly when there is a user and both names are present. With no user the error is AttributeError. A missing `first_name` is reported before a missing `last_name`. The id follows the fresh-id rule. The owner is the user. `is_owner` is false. Every supplied field is copied unchanged, and absent optional fields stay absent. |
| `Players.OwnerKeysIgnored` | src/domain/player.py:33-34 | The body's `owner_user_id` and `is_owner` have no effect on the result. |
| `Players.FromDictOfToDict` | src/domain/player.py:25-45 | Rebuilding a player from its `to_dict` gives the same player exactly when its id is non-empty, its owner is the user and it is not the owner profile. |
| `Players.RebuildIsStable` | src/domain/player.py:27-29 | A player built from a body and sent back is rebuilt unchanged. No second fresh id is drawn. |
| `Matches.ScoreFromDict` | src/domain/match.py:18-22 | Both scores are required, and `team1_score` is reported first. On success the scores are copied. |
| `Matches.StatFromDict` | src/domain/match.py:34-38 | `player_id`, `game_index`, `shot_result` and `shot_type` are required and reported in that order. `shot_side` is optional. On success the fields are copied. |
| `Matches.ParseDate` | src/domain/match.py:72 | Succeeds exactly when the date is text that `strptime` parses. A non-text date gives TypeError, and text that does not parse gives ValueError. |
| `Matches.SecondPlayer` | src/domain/match.py:74 | With at most one team entry there is no second player. Otherwise the result is `Player.from_dict` of entry 1, including its error. |
| `Matches.FromDict` | src/domain/match.py:54-81 | `Match.from_dict` succeeds exactly when: both teams are present and non-empty; the scores are present, non-empty and complete; every stat is complete; there is a user; the date parses; and the players at positions 0 and 1 have both names. A built match is one built for the user: a non-empty id, owned by the user, with players that are non-owner profiles of the user and at least one score. |
| `Matches.FromDictErrorOrder` | src/domain/match.py:55-81 | The error precedence is: missing `team1`, then missing `team2`, then "Not enough players provided in each team" (whatever the scores are), then missing `scores`, then the first bad score, then "No scores in the request body…", then the first bad stat, then no user, then missing `date`, then a non-text or malformed date, then each player slot in order (team1 entry 0, team1 entry 1, team2 entry 0, team2 entry 1), the first slot without both names giving its own `Player.from_dict` error. |
| `Matches.FromDictRaisesDomainExceptions` | src/domain/exceptions.py:10-12 | Every ServiceException that `Match.from_dict` raises has status 400. |
| `Matches.FromDictBuilds` | src/domain/match.py:56-78 | A built match has: the supplied non-empty id or else the fresh one; the user's id as owner; the parsed date; second players present exactly when the team list has more than one entry; entries 0 and 1 built by `Player.from_dict`; scores and stats parsed element-wise in order, with absent stats meaning none; at least one score. |
| `Matches.UserIdKeyIgnored` | src/domain/match.py:71 | The body's `user_id` has no effect on the result. |
| `Matches.OnlyTwoPlayersPerTeamRead` | src/domain/match.py:73-76 | Team entries after the second are never read. Cutting both teams to two entries changes neither the match nor the error. |
| `Matches.ToDict` | src/domain/match.py:83-91 | Each team is exactly the `TeamToList` of its two player slots: one or two player dicts, first player first, with an absent second player omitted. Scores and stats are projected element-wise in order. The owner is not projected. The date stays a datetime. |
| `Matches.ScoreToDict` | src/domain/match.py:89 | A score's `to_dict` is read back by `GameScore.from_dict` as the same score. |
| `Matches.StatToDict` | src/domain/match.py:90 | A stat's `to_dict` is read back by `Stat.from_dict` as the same stat. |
| `Players.ToDict` | src/domain/base.py:4-5 | A player's `to_dict` always carries both name keys with the player's names, and the player's own id. |
| `Matches.TeamToList` | src/domain/match.py:87-88 | A team list has one or two entries, the first player's dict first, and two exactly when the second player is present. |
| `Matches.FromDictOfToDict` | src/domain/match.py:54-91 | Take a match's `to_dict`, with its date serialised to text that parses back to the same instant. Rebuilding from it gives the same match exactly when the match has a non-empty id, belongs to the user, has at least one score, and its players are non-owner profiles of the user with ids. |
| `Matches.BuiltMatchComesBack` | src/domain/match.py:54-91 | This is the forward direction of `FromDictOfToDict`. |
| `Matches.ToDictDateIsNotText` | src/domain/match.py:86 | Posting `to_dict`'s output back unchanged fails with TypeError, because its date is a datetime object and not text. |
| `Matches.RebuildIsStable` | src/domain/match.py:56-58 | A match built from a body and sent back with its date serialised is rebuilt unchanged, whatever fresh ids the second build gets. |
| `Identity.SplitAtFirstSpace` | src/bl.py:23 | `name.split(" ", 1)` unpacks into two parts exactly when the name contains a space. The name is then first part, space, rest, and the first part has no space. |
| `Identity.SplitAtFirstSpaceIsUnique` | src/bl.py:23 | The split is the only decomposition with a space-free first part. |
| `Identity.NewUser` | src/bl.py:23-24 | A new user is built exactly when the `name` claim exists and has a space. It has the fresh id and the claim's Firebase id. Its name parts rejoin to the `name` claim with the first part free of spaces. Its avatar is the `picture` claim, or absent. |
| `Identity.Resolve` | src/bl.py:21-27 | No `user_id` claim gives no user and leaves the store unchanged. A known Firebase id adopts the stored user and leaves the store unchanged. An unknown id with an unsplittable or missing name gives no user and leaves the store unchanged. An unknown id with a splittable name adopts `NewUser` of the claims and stores it under the claim's Firebase id. At most one user is added, and only when the lookup found none. A resolved user carries the claim's Firebase id and is the stored entry under it. The store invariant is kept. |
| `Identity.ResolveTwiceIsStable` | src/bl.py:21-22 | Signing in again with the same claims finds the user the first sign-in stored, and changes nothing. |
| `Identity.UserStore.GetUserByFirebaseId` | src/bl.py:21 | The lookup finds a user exactly when one is stored under that Firebase id, and that user has that Firebase id. |
| `Identity.UserStore.CreateUser` | src/bl.py:25 | The user is filed under its Firebase id, the rest of the store is unchanged, and the store invariant is kept. |
| `Identity.Manager.constructor` | src/bl.py:9-12 | A new manager holds the given verifier and store, and has no user. |
| `Identity.Manager.ValidateToken` | src/bl.py:14-27 | With no token, neither the user nor the store changes. Otherwise the user and the store become what `Resolve` gives for the token's claims, so every property of `Resolve` above holds of the call. The store invariant is kept. |

## Left out

- src/da.py (the MySQL data-access object) is not part of this model: connection handling, SQL
  statements, cursors and positional row-to-object mapping are I/O. The store is modelled as a map
  from Firebase id to `User`. (The `Dao` in src/da.py has no `get_user_by_firebase_id`, and
  its `create_user` does not write the Firebase id.)
- src/handler.py (event dispatch, JSON parsing and printing, datetime formatting, the global
  handler instance) is not part of this model. It only forwards bodies and the current user to the
  functions above. The round-trip lemmas assume only some text whose parse is the match's date.
  src/handler.py:84 formats dates with a literal `Z` and drops the UTC offset. A match whose date
  has a non-UTC offset therefore does not meet that hypothesis when the handler's own output is
  posted back. That case is not modelled.
- src/firebase_client.py: token verification is a foreign library. It is the `verifyToken`
  function, and any exception the verifier itself raises is not modelled. `print(firebase_user)`
  is output only.
- Date parsing (`strptime` with "%Y-%m-%dT%H:%M:%S%z") is a parameter. The format itself is not
  modelled.
- JSON values of the wrong type (a team that is not a list, a name that is not a string, a body
  that is not an object) and explicit nulls under required keys are not modelled. The TypeError or
  AttributeError these raise in Python is therefore not modelled, and neither is a null stored in
  a required field.
- Players.IdOrFresh: an explicit null `player_id` (or `match_id`) is read by `get` with a default.
  In the source that null is kept, so the object gets a null id. The model treats it as absent and
  draws a fresh id instead.
- Matches.FromDict: an explicit null `stats` is read by `get` with a default. In the source it
  reaches the list comprehension and raises TypeError. The model treats it as absent, meaning no
  stats. The same null `match_id` rule as `Players.IdOrFresh` applies.
- `level` is a float in the source. It is carried as a `real` and never computed with.
- Fresh ids: `uuid.uuid4()` is a parameter, so the model does not say that two fresh ids differ.
  The model passes them in even on paths where the code draws none.
- src/domain.py (an older four-field `User`) and DomainBase.from_db (src/domain/base.py:7-9) are
  not used by the modelled code.
