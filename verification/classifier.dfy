/** The extra-innings classifier over a game's live line score. */
module Classifier {
  import opened Wrappers

  /** Innings in a regulation game. */
  const RegulationInnings: int := 9

  /** The half-states in which the provider reports a game as under way. */
  const PlayingStates: set<string> := {"Top", "Bottom"}

  /** `liveData.linescore` of a live feed; either field may be absent. */
  datatype LineScore = LineScore(currentInning: Option<int>, inningState: Option<string>)

  /** `liveData` of a live feed; the `linescore` map may be absent. */
  datatype LiveData = LiveData(linescore: Option<LineScore>)

  /** The decoded body of a live-feed response; the `liveData` map may be absent. */
  datatype LiveFeed = LiveFeed(liveData: Option<LiveData>)

  /** The `{}` that stands in for an absent map. */
  const EmptyLineScore: LineScore := LineScore(None, None)

  /** The line score of a feed, an absent map at either level giving `{}`. */
  function LineScoreOf(feed: LiveFeed): (ls: LineScore)
    ensures feed.liveData.Some? && feed.liveData.value.linescore.Some?
            ==> ls == feed.liveData.value.linescore.value
    ensures feed.liveData.None? || feed.liveData.value.linescore.None? ==> ls == EmptyLineScore
  {
    feed.liveData.GetOr(LiveData(None)).linescore.GetOr(EmptyLineScore)
  }

  /** Whether a game is in extra innings: past the ninth and in a playing half.
      An absent inning reads as 0 and an absent state as the empty string,
      so either absence makes the answer false. */
  function IsExtraInnings(ls: LineScore): (r: bool)
    ensures r <==> && ls.currentInning.Some? && ls.currentInning.value > 9
                   && ls.inningState.Some?
                   && (ls.inningState.value == "Top" || ls.inningState.value == "Bottom")
  {
    ls.currentInning.GetOr(0) > RegulationInnings && ls.inningState.GetOr("") in PlayingStates
  }

  /** A feed without a line score, at either level, is never in extra innings. */
  lemma MissingLineScoreIsNeverExtra(feed: LiveFeed)
    requires feed.liveData.None? || feed.liveData.value.linescore.None?
    ensures !IsExtraInnings(LineScoreOf(feed))
  {
  }
}
