/** A match with its game scores and shot statistics, its construction from a
    request body and its projection back to a dictionary
    (src/domain/match.py). */
module Matches {
  import opened Wrappers
  import opened Exceptions
  import opened Users
  import Players

  /** The score of one game. */
  datatype GameScore = GameScore(team1Score: int, team2Score: int)

  /** One recorded shot: who played it, in which game, and how it went. */
  datatype Stat = Stat(playerId: string, gameIndex: int, shotResult: string, shotType: string,
                       shotSide: Option<string>)

  /** A point in time. The source parses it with `strptime` and never looks
      inside it; the model does not either. */
  datatype DateTime = DateTime(year: int, month: int, day: int, hour: int, minute: int, second: int,
                               utcOffsetMinutes: Option<int>)

  /** A match: two teams of one or two players, at least one game score when
      built from a body, and the shots recorded during it. */
  datatype Match = Match(
    matchId: string,
    userId: string,
    date: DateTime,
    team1Player1: Players.Player,
    team1Player2: Option<Players.Player>,
    team2Player1: Players.Player,
    team2Player2: Option<Players.Player>,
    scores: seq<GameScore>,
    stats: seq<Stat>)

  /** Score, stat and match objects of a request body or of `to_dict`'s
      output: one field per key, None when the key is absent. */
  datatype GameScoreDict = GameScoreDict(team1Score: Option<int>, team2Score: Option<int>)

  datatype StatDict = StatDict(playerId: Option<string>, gameIndex: Option<int>,
                               shotResult: Option<string>, shotType: Option<string>,
                               shotSide: Option<string>)

  /** The value under "date": text in a request body, the datetime object
      itself in `to_dict`'s output. */
  datatype DateValue = DateText(text: string) | DateTimeValue(dateTime: DateTime)

  datatype MatchDict = MatchDict(
    matchId: Option<string>,
    userId: Option<string>,
    date: Option<DateValue>,
    team1: Option<seq<Players.PlayerDict>>,
    team2: Option<seq<Players.PlayerDict>>,
    scores: Option<seq<GameScoreDict>>,
    stats: Option<seq<StatDict>>)

  /** The ids `uuid4` would supply, one per id slot that a body may leave empty. */
  datatype FreshIds = FreshIds(matchId: string, team1Player1Id: string, team1Player2Id: string,
                               team2Player1Id: string, team2Player2Id: string)
  {
    predicate NonEmpty() {
      matchId != "" && team1Player1Id != "" && team1Player2Id != "" &&
      team2Player1Id != "" && team2Player2Id != ""
    }
  }

  const NotEnoughPlayers: Fault :=
    Service(DomainException("Not enough players provided in each team"))
  const NoScores: Fault :=
    Service(DomainException("No scores in the request body. A match must consist of at least one game"))

  /** `GameScore.from_dict`: both scores are required, team 1's looked up first. */
  function ScoreFromDict(d: GameScoreDict): (r: Result<GameScore, Fault>)
    ensures r.Success? <==> d.team1Score.Some? && d.team2Score.Some?
    ensures d.team1Score.None? ==> r == Failure(MissingKey("team1_score"))
    ensures d.team1Score.Some? && d.team2Score.None? ==> r == Failure(MissingKey("team2_score"))
    ensures r.Success? ==> r.value.team1Score == d.team1Score.value && r.value.team2Score == d.team2Score.value
  {
    var team1Score :- Players.Required(d.team1Score, "team1_score");
    var team2Score :- Players.Required(d.team2Score, "team2_score");
    Success(GameScore(team1Score, team2Score))
  }

  /** True when a stat body has the four required keys. */
  predicate StatComplete(d: StatDict) {
    d.playerId.Some? && d.gameIndex.Some? && d.shotResult.Some? && d.shotType.Some?
  }

  /** `Stat.from_dict`: four required keys, looked up in field order; the shot
      side is optional. */
  function StatFromDict(d: StatDict): (r: Result<Stat, Fault>)
    ensures r.Success? <==> StatComplete(d)
    ensures d.playerId.None? ==> r == Failure(MissingKey("player_id"))
    ensures d.playerId.Some? && d.gameIndex.None? ==> r == Failure(MissingKey("game_index"))
    ensures d.playerId.Some? && d.gameIndex.Some? && d.shotResult.None? ==> r == Failure(MissingKey("shot_result"))
    ensures d.playerId.Some? && d.gameIndex.Some? && d.shotResult.Some? && d.shotType.None? ==>
              r == Failure(MissingKey("shot_type"))
    ensures r.Success? ==> r.value == Stat(d.playerId.value, d.gameIndex.value, d.shotResult.value,
                                           d.shotType.value, d.shotSide)
  {
    var playerId :- Players.Required(d.playerId, "player_id");
    var gameIndex :- Players.Required(d.gameIndex, "game_index");
    var shotResult :- Players.Required(d.shotResult, "shot_result");
    var shotType :- Players.Required(d.shotType, "shot_type");
    Success(Stat(playerId, gameIndex, shotResult, shotType, d.shotSide))
  }

  /** `datetime.strptime` on the "date" value, the parser being a parameter. */
  function ParseDate(v: DateValue, strptime: string -> Option<DateTime>): (r: Result<DateTime, Fault>)
    ensures r.Success? <==> v.DateText? && strptime(v.text).Some?
    ensures r.Success? ==> r.value == strptime(v.text).value
    ensures v.DateTimeValue? ==> r == Failure(DateNotText)
    ensures v.DateText? && strptime(v.text).None? ==> r == Failure(DateMalformed)
  {
    match v
    case DateTimeValue(_) => Failure(DateNotText)
    case DateText(text) =>
      match strptime(text)
      case None => Failure(DateMalformed)
      case Some(dt) => Success(dt)
  }

  /** `Player.from_dict(team[1]) if len(team) > 1 else None`. */
  function SecondPlayer(team: seq<Players.PlayerDict>, user: Option<User>, freshId: string)
    : (r: Result<Option<Players.Player>, Fault>)
    requires freshId != ""
    ensures |team| <= 1 ==> r == Success(None)
    ensures |team| > 1 ==> r.Success? == Players.FromDict(team[1], user, freshId).Success?
    ensures |team| > 1 && r.Success? ==> r.value == Some(Players.FromDict(team[1], user, freshId).value)
    ensures |team| > 1 && r.Failure? ==> r.error == Players.FromDict(team[1], user, freshId).error
  {
    if |team| > 1 then
      var p :- Players.FromDict(team[1], user, freshId);
      Success(Some(p))
    else
      Success(None)
  }

  /** True when a score body has both required keys. */
  predicate ScoreComplete(d: GameScoreDict) {
    d.team1Score.Some? && d.team2Score.Some?
  }

  /** Both team lists are present and neither is empty. */
  predicate TeamsPresent(d: MatchDict) {
    d.team1.Some? && d.team2.Some? && |d.team1.value| > 0 && |d.team2.value| > 0
  }

  /** The score list is present, not empty, and every score is complete. */
  predicate ScoresComplete(d: MatchDict) {
    d.scores.Some? && |d.scores.value| > 0 &&
    forall i :: 0 <= i < |d.scores.value| ==> ScoreComplete(d.scores.value[i])
  }

  /** Every stat (an absent list counts as empty) is complete. */
  predicate StatsComplete(d: MatchDict) {
    forall i :: 0 <= i < |d.stats.GetOr([])| ==> StatComplete(d.stats.GetOr([])[i])
  }

  /** The date is present, is text, and parses. */
  predicate DateParses(d: MatchDict, strptime: string -> Option<DateTime>) {
    d.date.Some? && d.date.value.DateText? && strptime(d.date.value.text).Some?
  }

  /** The players that are read (positions 0 and 1 of each team) have names. */
  predicate TeamNamed(team: seq<Players.PlayerDict>) {
    |team| > 0 && Players.HasNames(team[0]) && (|team| > 1 ==> Players.HasNames(team[1]))
  }

  /** Every check before the players are built passes. */
  predicate PassesUpToPlayers(d: MatchDict, user: Option<User>, strptime: string -> Option<DateTime>) {
    TeamsPresent(d) && ScoresComplete(d) && StatsComplete(d) && user.Some? && DateParses(d, strptime)
  }

  /** What a body needs for `Match.from_dict` to return a match. */
  predicate BodyAccepted(d: MatchDict, user: Option<User>, strptime: string -> Option<DateTime>) {
    PassesUpToPlayers(d, user, strptime) && TeamNamed(d.team1.value) && TeamNamed(d.team2.value)
  }

  /** What a match built from a body for `user` always satisfies. */
  predicate BuiltFor(m: Match, user: User) {
    && m.matchId != ""
    && m.userId == user.userId
    && |m.scores| > 0
    && Players.BuiltFor(m.team1Player1, user)
    && (m.team1Player2.Some? ==> Players.BuiltFor(m.team1Player2.value, user))
    && Players.BuiltFor(m.team2Player1, user)
    && (m.team2Player2.Some? ==> Players.BuiltFor(m.team2Player2.value, user))
  }

  /** `Match.from_dict`, in the source's order of evaluation: the fresh id,
      the teams, the scores, the stats, the user, the date, then the players
      at team positions 0 and 1. */
  function FromDict(d: MatchDict, user: Option<User>, ids: FreshIds, strptime: string -> Option<DateTime>)
    : (r: Result<Match, Fault>)
    requires ids.NonEmpty()
    ensures r.Success? <==> BodyAccepted(d, user, strptime)
    ensures r.Success? ==> BuiltFor(r.value, user.value)
  {
    var matchId := Players.IdOrFresh(d.matchId, ids.matchId);
    var team1 :- Players.Required(d.team1, "team1");
    var team2 :- Players.Required(d.team2, "team2");
    if |team1| == 0 || |team2| == 0 then Failure(NotEnoughPlayers)
    else
      var scoreDicts :- Players.Required(d.scores, "scores");
      var scores :- ParseEach(scoreDicts, ScoreFromDict);
      if |scores| == 0 then Failure(NoScores)
      else
        var stats :- ParseEach(d.stats.GetOr([]), StatFromDict);
        var ownerId :- UserIdOf(user);
        var dateValue :- Players.Required(d.date, "date");
        var date :- ParseDate(dateValue, strptime);
        var team1Player1 :- Players.FromDict(team1[0], user, ids.team1Player1Id);
        var team1Player2 :- SecondPlayer(team1, user, ids.team1Player2Id);
        var team2Player1 :- Players.FromDict(team2[0], user, ids.team2Player1Id);
        var team2Player2 :- SecondPlayer(team2, user, ids.team2Player2Id);
        Success(Match(matchId, ownerId, date, team1Player1, team1Player2, team2Player1, team2Player2,
                      scores, stats))
  }

  /** `Match.to_dict`: teams as lists without the absent second players,
      scores and stats element by element; the owner is not projected. */
  function ToDict(m: Match): (d: MatchDict)
    ensures d.matchId == Some(m.matchId) && d.userId.None? && d.date == Some(DateTimeValue(m.date))
    ensures d.team1 == Some(TeamToList(m.team1Player1, m.team1Player2))
    ensures d.team2 == Some(TeamToList(m.team2Player1, m.team2Player2))
    ensures d.scores.Some? && |d.scores.value| == |m.scores|
    ensures forall i :: 0 <= i < |m.scores| ==> d.scores.value[i] == ScoreToDict(m.scores[i])
    ensures d.stats.Some? && |d.stats.value| == |m.stats|
    ensures forall i :: 0 <= i < |m.stats| ==> d.stats.value[i] == StatToDict(m.stats[i])
  {
    MatchDict(
      Some(m.matchId),
      None,
      Some(DateTimeValue(m.date)),
      Some(TeamToList(m.team1Player1, m.team1Player2)),
      Some(TeamToList(m.team2Player1, m.team2Player2)),
      Some(seq(|m.scores|, i requires 0 <= i < |m.scores| => ScoreToDict(m.scores[i]))),
      Some(seq(|m.stats|, i requires 0 <= i < |m.stats| => StatToDict(m.stats[i]))))
  }

  /** `[p.to_dict() for p in [first, second] if p is not None]`. */
  function TeamToList(first: Players.Player, second: Option<Players.Player>): (team: seq<Players.PlayerDict>)
    ensures 1 <= |team| <= 2
    ensures team[0] == Players.ToDict(first)
    ensures |team| == 2 <==> second.Some?
    ensures |team| == 2 ==> team[1] == Players.ToDict(second.value)
  {
    match second
    case None => [Players.ToDict(first)]
    case Some(p) => [Players.ToDict(first), Players.ToDict(p)]
  }

  /** `GameScore.to_dict`: both scores under their keys, so that
      `GameScore.from_dict` gives the score back. */
  function ScoreToDict(s: GameScore): (d: GameScoreDict)
    ensures ScoreFromDict(d) == Success(s)
  {
    GameScoreDict(Some(s.team1Score), Some(s.team2Score))
  }

  /** `Stat.to_dict`: every field under its key, so that `Stat.from_dict`
      gives the stat back. */
  function StatToDict(s: Stat): (d: StatDict)
    ensures StatFromDict(d) == Success(s)
  {
    StatDict(Some(s.playerId), Some(s.gameIndex), Some(s.shotResult), Some(s.shotType), s.shotSide)
  }

  // ---- properties of Match.from_dict ----

  /** The first failing check decides the error. */
  lemma FromDictErrorOrder(d: MatchDict, user: Option<User>, ids: FreshIds, strptime: string -> Option<DateTime>,
                   r: Result<Match, Fault>)
    requires ids.NonEmpty() && r == FromDict(d, user, ids, strptime)
    ensures d.team1.None? ==> r == Failure(MissingKey("team1"))
    ensures d.team1.Some? && d.team2.None? ==> r == Failure(MissingKey("team2"))
    ensures d.team1.Some? && d.team2.Some? && !TeamsPresent(d) ==> r == Failure(NotEnoughPlayers)
    ensures TeamsPresent(d) && d.scores.None? ==> r == Failure(MissingKey("scores"))
    ensures TeamsPresent(d) && d.scores.Some? && !ScoresComplete(d) && |d.scores.value| > 0 ==>
              r.Failure? &&
              exists i :: 0 <= i < |d.scores.value| && ScoreFromDict(d.scores.value[i]) == Failure(r.error) &&
                          forall j :: 0 <= j < i ==> ScoreComplete(d.scores.value[j])
    ensures TeamsPresent(d) && d.scores == Some([]) ==> r == Failure(NoScores)
    ensures TeamsPresent(d) && ScoresComplete(d) && !StatsComplete(d) ==>
              var stats := d.stats.GetOr([]);
              r.Failure? &&
              exists i :: 0 <= i < |stats| && StatFromDict(stats[i]) == Failure(r.error) &&
                          forall j :: 0 <= j < i ==> StatComplete(stats[j])
    ensures TeamsPresent(d) && ScoresComplete(d) && StatsComplete(d) && user.None? ==> r == Failure(NoUser)
    ensures TeamsPresent(d) && ScoresComplete(d) && StatsComplete(d) && user.Some? && d.date.None? ==>
              r == Failure(MissingKey("date"))
    ensures TeamsPresent(d) && ScoresComplete(d) && StatsComplete(d) && user.Some? && d.date.Some? ==>
              (d.date.value.DateTimeValue? ==> r == Failure(DateNotText)) &&
              (d.date.value.DateText? && strptime(d.date.value.text).None? ==> r == Failure(DateMalformed))
    // the players are built in slot order: team1[0], team1[1], team2[0], team2[1]
    ensures PassesUpToPlayers(d, user, strptime) && !Players.HasNames(d.team1.value[0]) ==>
              r == Failure(Players.FromDict(d.team1.value[0], user, ids.team1Player1Id).error)
    ensures PassesUpToPlayers(d, user, strptime) && Players.HasNames(d.team1.value[0]) &&
            |d.team1.value| > 1 && !Players.HasNames(d.team1.value[1]) ==>
              r == Failure(Players.FromDict(d.team1.value[1], user, ids.team1Player2Id).error)
    ensures PassesUpToPlayers(d, user, strptime) && TeamNamed(d.team1.value) &&
            !Players.HasNames(d.team2.value[0]) ==>
              r == Failure(Players.FromDict(d.team2.value[0], user, ids.team2Player1Id).error)
    ensures PassesUpToPlayers(d, user, strptime) && TeamNamed(d.team1.value) && Players.HasNames(d.team2.value[0]) &&
            |d.team2.value| > 1 && !Players.HasNames(d.team2.value[1]) ==>
              r == Failure(Players.FromDict(d.team2.value[1], user, ids.team2Player2Id).error)
  {
  }

  /** Every ServiceException raised here is a DomainException (status 400). */
  lemma FromDictRaisesDomainExceptions(d: MatchDict, user: Option<User>, ids: FreshIds, strptime: string -> Option<DateTime>,
                   r: Result<Match, Fault>)
    requires ids.NonEmpty() && r == FromDict(d, user, ids, strptime)
    ensures r.Failure? && r.error.Service? ==> r.error.exception.statusCode == 400
  {
  }

  /** What a built match holds. */
  lemma FromDictBuilds(d: MatchDict, user: Option<User>, ids: FreshIds, strptime: string -> Option<DateTime>,
                   r: Result<Match, Fault>)
    requires ids.NonEmpty() && r == FromDict(d, user, ids, strptime)
    ensures r.Success? && d.matchId.Some? && d.matchId.value != "" ==> r.value.matchId == d.matchId.value
    ensures r.Success? && (d.matchId.None? || d.matchId.value == "") ==> r.value.matchId == ids.matchId
    ensures r.Success? ==> BuiltFor(r.value, user.value)
    ensures r.Success? ==> Some(r.value.date) == strptime(d.date.value.text)
    ensures r.Success? ==>
              && Success(r.value.team1Player1) == Players.FromDict(d.team1.value[0], user, ids.team1Player1Id)
              && Success(r.value.team2Player1) == Players.FromDict(d.team2.value[0], user, ids.team2Player1Id)
    ensures r.Success? ==>
              && (r.value.team1Player2.Some? <==> |d.team1.value| > 1)
              && (r.value.team2Player2.Some? <==> |d.team2.value| > 1)
    ensures r.Success? && r.value.team1Player2.Some? ==>
              Success(r.value.team1Player2.value) == Players.FromDict(d.team1.value[1], user, ids.team1Player2Id)
    ensures r.Success? && r.value.team2Player2.Some? ==>
              Success(r.value.team2Player2.value) == Players.FromDict(d.team2.value[1], user, ids.team2Player2Id)
    ensures r.Success? ==>
              && |r.value.scores| == |d.scores.value|
              && forall i :: 0 <= i < |d.scores.value| ==> ScoreFromDict(d.scores.value[i]) == Success(r.value.scores[i])
    ensures r.Success? ==>
              && |r.value.stats| == |d.stats.GetOr([])|
              && forall i :: 0 <= i < |d.stats.GetOr([])| ==>
                   StatFromDict(d.stats.GetOr([])[i]) == Success(r.value.stats[i])
  {
  }

  /** The body's own "user_id" never reaches the match. */
  lemma UserIdKeyIgnored(d: MatchDict, user: Option<User>, ids: FreshIds,
                         strptime: string -> Option<DateTime>, userId: Option<string>)
    requires ids.NonEmpty()
    ensures FromDict(d.(userId := userId), user, ids, strptime) == FromDict(d, user, ids, strptime)
  {
  }

  /** Team entries after the second are never read: cutting both teams to
      their first two entries changes neither the match nor the error. */
  lemma OnlyTwoPlayersPerTeamRead(d: MatchDict, user: Option<User>, ids: FreshIds,
                                  strptime: string -> Option<DateTime>)
    requires ids.NonEmpty()
    requires d.team1.Some? && d.team2.Some?
    ensures var cut := d.(team1 := Some(FirstTwo(d.team1.value)), team2 := Some(FirstTwo(d.team2.value)));
            FromDict(cut, user, ids, strptime) == FromDict(d, user, ids, strptime)
  {
  }

  /** The first two entries of a team list (all of it when shorter). */
  function FirstTwo(team: seq<Players.PlayerDict>): (r: seq<Players.PlayerDict>)
    ensures |r| == if |team| < 2 then |team| else 2
    ensures forall i :: 0 <= i < |r| ==> r[i] == team[i]
  {
    if |team| <= 2 then team else team[..2]
  }

  // ---- Match.to_dict against Match.from_dict ----

  /** `to_dict` with its datetime object replaced by the text `text`. */
  function WithDateText(d: MatchDict, text: string): (e: MatchDict)
    ensures e.date == Some(DateText(text))
    ensures e.(date := d.date) == d
  {
    d.(date := Some(DateText(text)))
  }

  /** Posting a match's `to_dict` back, its date serialised to text that
      parses to the same instant, gives the same match exactly when it is one
      that could have been built for this user: its ids are kept, its owner is
      the user, its teams, scores and stats come back in order. */
  lemma FromDictOfToDict(m: Match, user: User, ids: FreshIds,
                         strptime: string -> Option<DateTime>, text: string)
    requires ids.NonEmpty()
    requires strptime(text) == Some(m.date)
    ensures FromDict(WithDateText(ToDict(m), text), Some(user), ids, strptime) == Success(m)
            <==> BuiltFor(m, user)
  {
    var d := WithDateText(ToDict(m), text);
    var r := FromDict(d, Some(user), ids, strptime);
    FromDictBuilds(d, Some(user), ids, strptime, r);
    if BuiltFor(m, user) {
      BuiltMatchComesBack(m, user, ids, strptime, text);
    }
  }

  /** The forward half of `FromDictOfToDict`. */
  lemma BuiltMatchComesBack(m: Match, user: User, ids: FreshIds,
                            strptime: string -> Option<DateTime>, text: string)
    requires ids.NonEmpty()
    requires strptime(text) == Some(m.date)
    requires BuiltFor(m, user)
    ensures FromDict(WithDateText(ToDict(m), text), Some(user), ids, strptime) == Success(m)
  {
    var d := WithDateText(ToDict(m), text);
    var t1 := TeamToList(m.team1Player1, m.team1Player2);
    var t2 := TeamToList(m.team2Player1, m.team2Player2);
    assert d.team1 == Some(t1) && d.team2 == Some(t2);
    Players.FromDictOfToDict(m.team1Player1, user, ids.team1Player1Id);
    Players.FromDictOfToDict(m.team2Player1, user, ids.team2Player1Id);
    if m.team1Player2.Some? {
      Players.FromDictOfToDict(m.team1Player2.value, user, ids.team1Player2Id);
    }
    if m.team2Player2.Some? {
      Players.FromDictOfToDict(m.team2Player2.value, user, ids.team2Player2Id);
    }
    assert TeamNamed(t1) && TeamNamed(t2);
    ParseEachOfImages(m.scores, ScoreToDict, ScoreFromDict);
    assert ScoresComplete(d);
    ParseEachOfImages(m.stats, StatToDict, StatFromDict);
    assert StatsComplete(d);
    var r := FromDict(d, Some(user), ids, strptime);
    FromDictBuilds(d, Some(user), ids, strptime, r);
    assert r.value.scores == m.scores;
    assert r.value.stats == m.stats;
    assert r.value.team1Player2 == m.team1Player2;
    assert r.value.team2Player2 == m.team2Player2;
  }

  /** `to_dict`'s own output cannot be posted back as it is: its date is a
      datetime object, which `strptime` refuses. */
  lemma ToDictDateIsNotText(m: Match, user: User, ids: FreshIds, strptime: string -> Option<DateTime>)
    requires ids.NonEmpty()
    requires BuiltFor(m, user)
    ensures FromDict(ToDict(m), Some(user), ids, strptime) == Failure(DateNotText)
  {
  }

  /** A match built from a body and sent back, its date serialised, is
      rebuilt unchanged, whatever fresh ids the second build is given. */
  lemma RebuildIsStable(d: MatchDict, user: User, ids: FreshIds, otherIds: FreshIds,
                        strptime: string -> Option<DateTime>, text: string)
    requires ids.NonEmpty() && otherIds.NonEmpty()
    requires FromDict(d, Some(user), ids, strptime).Success?
    requires strptime(text) == strptime(d.date.value.text)
    ensures var m := FromDict(d, Some(user), ids, strptime).value;
            FromDict(WithDateText(ToDict(m), text), Some(user), otherIds, strptime) == Success(m)
  {
    var r := FromDict(d, Some(user), ids, strptime);
    FromDictBuilds(d, Some(user), ids, strptime, r);
    FromDictOfToDict(r.value, user, otherIds, strptime, text);
  }
}
