/** The exceptions that can end one polling cycle of the notifier early. */
module Errors {

  datatype Failure =
    | ScheduleFetchFailed  // the schedule GET or its JSON decoding raised
    | NoDates              // IndexError: the schedule body has no date bucket to take [0] of
    | MissingGamePk        // KeyError: a scheduled game has no `gamePk`
    | FeedFetchFailed      // the live-feed GET or its JSON decoding raised
    | MissingTeamName      // KeyError: `teams.home.team.name` or `teams.away.team.name` is absent
    | PostFailed           // the webhook POST raised before any status came back
}
