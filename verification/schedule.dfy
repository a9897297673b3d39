/** The schedule response and the game list taken from it. */
module Schedule {
  import opened Wrappers
  import opened Errors
  import opened Classifier

  /** Provider-assigned identifier of one scheduled game. */
  type GamePk = int

  /** One game record of the schedule. `home` and `away` are the names at
      `teams.home.team.name` and `teams.away.team.name`, absent when any key
      on that path is missing. */
  datatype Game = Game(gamePk: Option<GamePk>, home: Option<string>, away: Option<string>)

  /** What the live-feed GET for a game gives back: a decoded body, or a
      request or decoding error. */
  datatype FeedResponse = FeedUnavailable | FeedBody(feed: LiveFeed)

  /** What the webhook POST gives back: a status code with its body text, or
      an error raised by the transport before any status arrived. */
  datatype Delivery = Status(code: int, text: string) | TransportError

  /** A game of the schedule together with the answers the network gives,
      during this cycle, to the requests made for it. */
  datatype ScheduledGame = ScheduledGame(game: Game, feed: FeedResponse, delivery: Delivery)

  /** One element of the schedule's `dates` list; `games` may be absent. */
  datatype DateBucket = DateBucket(games: Option<seq<ScheduledGame>>)

  /** What the schedule GET gives back: a decoded body whose `dates` list may
      be absent, or a request or decoding error. */
  datatype ScheduleResponse = ScheduleUnavailable | ScheduleBody(dates: Option<seq<DateBucket>>)

  /** The games of the first date bucket. An absent or empty `dates` list
      raises at `[0]`; an absent `games` list gives no games. */
  function GetGames(response: ScheduleResponse): (r: Result<seq<ScheduledGame>, Failure>)
    ensures response.ScheduleUnavailable? ==> r == Failure(ScheduleFetchFailed)
    ensures response.ScheduleBody? ==> (r == Failure(NoDates) <==> response.dates.GetOr([]) == [])
    ensures r.Success? ==> && response.ScheduleBody? && response.dates.Some?
                           && |response.dates.value| > 0
                           && r.value == response.dates.value[0].games.GetOr([])
    ensures r.Failure? ==> r.error == ScheduleFetchFailed || r.error == NoDates
  {
    match response
    case ScheduleUnavailable => Failure(ScheduleFetchFailed)
    case ScheduleBody(dates) =>
      var buckets := dates.GetOr([]);
      if |buckets| == 0 then Failure(NoDates) else Success(buckets[0].games.GetOr([]))
  }
}
