/** The polling agent: one cycle over the day's schedule, and a finite run
    of cycles sharing one set of notified game ids. */
module Agent {
  import opened Wrappers
  import opened Errors
  import opened Classifier
  import opened Schedule
  import opened Alert

  /** An outbound request made while walking the schedule, in the order made. */
  datatype Request =
    | FeedGet(pk: GamePk)
    | AlertPost(pk: GamePk, payload: Payload, delivery: Delivery)

  /** A POST after which `notify` returned normally, so the id gets recorded. */
  predicate Completed(q: Request) {
    q.AlertPost? && q.delivery.Status?
  }

  /** The ids of the completed POSTs among `requests`. */
  function CompletedIds(requests: seq<Request>): set<GamePk> {
    set q | q in requests && Completed(q) :: q.pk
  }

  lemma CompletedIdsAppend(a: seq<Request>, b: seq<Request>)
    ensures CompletedIds(a + b) == CompletedIds(a) + CompletedIds(b)
  {
  }

  /** The ids of the live-feed requests among `requests`, in order. */
  function FeedIds(requests: seq<Request>): seq<GamePk> {
    if requests == [] then []
    else (if requests[0].FeedGet? then [requests[0].pk] else []) + FeedIds(requests[1..])
  }

  lemma {:induction false} FeedIdsAppend(a: seq<Request>, b: seq<Request>)
    ensures FeedIds(a + b) == FeedIds(a) + FeedIds(b)
  {
    if a == [] {
      assert a + b == b;
    } else {
      assert (a + b)[0] == a[0];
      assert (a + b)[1..] == a[1..] + b;
      FeedIdsAppend(a[1..], b);
    }
  }

  /** The state a cycle leaves behind: the notified set, the requests it
      made, and the exception that ended it, if any. */
  datatype Effects = Effects(notified: set<GamePk>, requests: seq<Request>, failure: Option<Failure>)

  /** A game is alerted when it has an id, its feed was fetched, its line
      score says extra innings and its id has not been notified yet. */
  predicate Qualifies(notified: set<GamePk>, sg: ScheduledGame) {
    && sg.game.gamePk.Some?
    && sg.feed.FeedBody?
    && IsExtraInnings(LineScoreOf(sg.feed.feed))
    && sg.game.gamePk.value !in notified
  }

  /** Both team names of a game are present, so `notify` can build its alert. */
  predicate HasTeams(game: Game) {
    game.home.Some? && game.away.Some?
  }

  /** One pass of the loop body for one scheduled game: read the id, fetch
      the feed, classify it, and notify and record the id when it qualifies. */
  function Step(notified: set<GamePk>, sg: ScheduledGame): (r: Effects)
    ensures r.failure.Some? ==> r.notified == notified
    ensures r.notified == if Qualifies(notified, sg) && HasTeams(sg.game) && sg.delivery.Status?
                          then notified + {sg.game.gamePk.value} else notified
    ensures sg.game.gamePk.None? ==> r.failure == Some(MissingGamePk)
    ensures sg.game.gamePk.Some? && sg.feed.FeedUnavailable? ==> r.failure == Some(FeedFetchFailed)
    ensures Qualifies(notified, sg) && !HasTeams(sg.game) ==> r.failure == Some(MissingTeamName)
    ensures Qualifies(notified, sg) && HasTeams(sg.game) && sg.delivery.TransportError?
            ==> r.failure == Some(PostFailed)
    ensures r.failure.None? <==> && sg.game.gamePk.Some? && sg.feed.FeedBody?
                                 && (Qualifies(notified, sg) ==> HasTeams(sg.game) && sg.delivery.Status?)
    ensures r.requests == [] <==> sg.game.gamePk.None?
    ensures r.requests != [] ==> r.requests[0] == FeedGet(sg.game.gamePk.value) && |r.requests| <= 2
    ensures |r.requests| == 2 <==> Qualifies(notified, sg) && HasTeams(sg.game)
    ensures |r.requests| == 2 ==>
              r.requests[1] == AlertPost(sg.game.gamePk.value,
                                         Payload(AlertText(sg.game.away.value, sg.game.home.value)),
                                         sg.delivery)
  {
    match sg.game.gamePk
    case None => Effects(notified, [], Some(MissingGamePk))
    case Some(pk) =>
      match sg.feed
      case FeedUnavailable => Effects(notified, [FeedGet(pk)], Some(FeedFetchFailed))
      case FeedBody(feed) =>
        if !(IsExtraInnings(LineScoreOf(feed)) && pk !in notified) then
          Effects(notified, [FeedGet(pk)], None)
        else
          var sent := Notify(sg.game, sg.delivery);
          var requests := [FeedGet(pk)] + if sent.post.Some? then [AlertPost(pk, sent.post.value, sg.delivery)] else [];
          match sent.outcome
          case Failure(e) => Effects(notified, requests, Some(e))
          case Success(_) => Effects(notified + {pk}, requests, None)
  }

  /** The loop over the games of one cycle, in schedule order; the first
      exception ends it with everything done before it kept. */
  function ProcessGames(notified: set<GamePk>, games: seq<ScheduledGame>): (r: Effects)
    ensures notified <= r.notified
    decreases |games|
  {
    if games == [] then Effects(notified, [], None)
    else
      var before := ProcessGames(notified, games[..|games| - 1]);
      if before.failure.Some? then before
      else
        var step := Step(before.notified, games[|games| - 1]);
        Effects(step.notified, before.requests + step.requests, step.failure)
  }

  /** One cycle: take the day's games, then walk them. */
  function Cycle(notified: set<GamePk>, schedule: ScheduleResponse): (r: Effects)
    ensures notified <= r.notified
    ensures schedule.ScheduleUnavailable? || schedule.dates.GetOr([]) == []
            ==> r.failure.Some? && r.requests == [] && r.notified == notified
  {
    match GetGames(schedule)
    case Failure(e) => Effects(notified, [], Some(e))
    case Success(games) => ProcessGames(notified, games)
  }

  /** The record of a run of cycles: the final notified set, every request
      made, and how each cycle ended. */
  datatype History = History(notified: set<GamePk>, requests: seq<Request>, outcomes: seq<Option<Failure>>)

  /** Consecutive cycles sharing one notified set, which keeps every addition
      whether or not the cycle ends in an exception. */
  function Run(notified: set<GamePk>, schedules: seq<ScheduleResponse>): (h: History)
    ensures notified <= h.notified
    ensures |h.outcomes| == |schedules|
    decreases |schedules|
  {
    if schedules == [] then History(notified, [], [])
    else
      var before := Run(notified, schedules[..|schedules| - 1]);
      var cycle := Cycle(before.notified, schedules[|schedules| - 1]);
      History(cycle.notified, before.requests + cycle.requests, before.outcomes + [cycle.failure])
  }

  // ---------------------------------------------------------------------
  // What the notified set holds

  lemma StepRecordsCompleted(notified: set<GamePk>, sg: ScheduledGame)
    ensures Step(notified, sg).notified == notified + CompletedIds(Step(notified, sg).requests)
  {
    var r := Step(notified, sg);
    if |r.requests| == 2 {
      assert r.requests == [r.requests[0], r.requests[1]];
    }
  }

  /** After a cycle's walk, the set is the initial set plus exactly the ids
      whose POST completed: nothing else is added, nothing removed. */
  lemma {:induction false} ProcessGamesRecordsCompleted(notified: set<GamePk>, games: seq<ScheduledGame>)
    ensures ProcessGames(notified, games).notified == notified + CompletedIds(ProcessGames(notified, games).requests)
    decreases |games|
  {
    if games != [] {
      var before := ProcessGames(notified, games[..|games| - 1]);
      ProcessGamesRecordsCompleted(notified, games[..|games| - 1]);
      if before.failure.None? {
        var step := Step(before.notified, games[|games| - 1]);
        StepRecordsCompleted(before.notified, games[|games| - 1]);
        CompletedIdsAppend(before.requests, step.requests);
      }
    }
  }

  lemma CycleRecordsCompleted(notified: set<GamePk>, schedule: ScheduleResponse)
    ensures Cycle(notified, schedule).notified == notified + CompletedIds(Cycle(notified, schedule).requests)
  {
    if GetGames(schedule).Success? {
      ProcessGamesRecordsCompleted(notified, GetGames(schedule).value);
    }
  }

  /** Over a run of cycles, those that raised included, the set is the
      initial set plus exactly the ids whose POST completed. */
  lemma {:induction false} RunRecordsCompleted(notified: set<GamePk>, schedules: seq<ScheduleResponse>)
    ensures Run(notified, schedules).notified == notified + CompletedIds(Run(notified, schedules).requests)
    decreases |schedules|
  {
    if schedules != [] {
      var before := Run(notified, schedules[..|schedules| - 1]);
      RunRecordsCompleted(notified, schedules[..|schedules| - 1]);
      var cycle := Cycle(before.notified, schedules[|schedules| - 1]);
      CycleRecordsCompleted(before.notified, schedules[|schedules| - 1]);
      CompletedIdsAppend(before.requests, cycle.requests);
    }
  }

  // ---------------------------------------------------------------------
  // At most one alert per id

  /** No POST for an id already notified, and no POST for an id after a
      completed POST for that id. */
  predicate NoRepeatAlerts(notified: set<GamePk>, requests: seq<Request>) {
    && (forall j | 0 <= j < |requests| && requests[j].AlertPost? :: requests[j].pk !in notified)
    && (forall i, j | 0 <= i < j < |requests| && Completed(requests[i]) && requests[j].AlertPost? ::
          requests[i].pk != requests[j].pk)
  }

  lemma NoRepeatAlertsAppend(notified: set<GamePk>, a: seq<Request>, b: seq<Request>)
    requires NoRepeatAlerts(notified, a)
    requires NoRepeatAlerts(notified + CompletedIds(a), b)
    ensures NoRepeatAlerts(notified, a + b)
  {
  }

  lemma StepNoRepeatAlerts(notified: set<GamePk>, sg: ScheduledGame)
    ensures NoRepeatAlerts(notified, Step(notified, sg).requests)
  {
  }

  /** Within one cycle, even one listing an id twice, an id is POSTed only
      while it is not yet notified, and never again after a completed POST. */
  lemma {:induction false} ProcessGamesNoRepeatAlerts(notified: set<GamePk>, games: seq<ScheduledGame>)
    ensures NoRepeatAlerts(notified, ProcessGames(notified, games).requests)
    decreases |games|
  {
    if games != [] {
      var before := ProcessGames(notified, games[..|games| - 1]);
      ProcessGamesNoRepeatAlerts(notified, games[..|games| - 1]);
      if before.failure.None? {
        ProcessGamesRecordsCompleted(notified, games[..|games| - 1]);
        StepNoRepeatAlerts(before.notified, games[|games| - 1]);
        NoRepeatAlertsAppend(notified, before.requests, Step(before.notified, games[|games| - 1]).requests);
      }
    }
  }

  /** Over any run of cycles, an id is POSTed only while it is not yet
      notified, and at most one POST per id completes. */
  lemma {:induction false} RunNoRepeatAlerts(notified: set<GamePk>, schedules: seq<ScheduleResponse>)
    ensures NoRepeatAlerts(notified, Run(notified, schedules).requests)
    ensures var rs := Run(notified, schedules).requests;
            forall i, j | 0 <= i < |rs| && 0 <= j < |rs| && i != j && Completed(rs[i]) && Completed(rs[j]) ::
              rs[i].pk != rs[j].pk
    decreases |schedules|
  {
    if schedules != [] {
      var before := Run(notified, schedules[..|schedules| - 1]);
      RunNoRepeatAlerts(notified, schedules[..|schedules| - 1]);
      RunRecordsCompleted(notified, schedules[..|schedules| - 1]);
      var schedule := schedules[|schedules| - 1];
      match GetGames(schedule)
      case Failure(_) =>
        assert Run(notified, schedules).requests == before.requests;
      case Success(games) =>
        ProcessGamesNoRepeatAlerts(before.notified, games);
        NoRepeatAlertsAppend(notified, before.requests, Cycle(before.notified, schedule).requests);
    }
  }

  // ---------------------------------------------------------------------
  // Order and abort

  /** Walking `a + b` is walking `a`, then, unless that raised, walking `b`
      from the set `a` left behind. */
  lemma {:induction false} ProcessGamesAppend(notified: set<GamePk>, a: seq<ScheduledGame>, b: seq<ScheduledGame>)
    ensures var first := ProcessGames(notified, a);
            var rest := ProcessGames(first.notified, b);
            ProcessGames(notified, a + b)
              == if first.failure.Some? then first
                 else Effects(rest.notified, first.requests + rest.requests, rest.failure)
    decreases |b|
  {
    var first := ProcessGames(notified, a);
    if b == [] {
      assert a + b == a;
    } else {
      var b', x := b[..|b| - 1], b[|b| - 1];
      assert a + b == (a + b') + [x];
      assert b == b' + [x];
      ProcessGamesAppend(notified, a, b');
      ProcessGamesSnoc(notified, a + b', x);
      ProcessGamesSnoc(first.notified, b', x);
      if first.failure.None? {
        var rest' := ProcessGames(first.notified, b');
        if rest'.failure.None? {
          var step := Step(rest'.notified, x);
          assert (first.requests + rest'.requests) + step.requests
              == first.requests + (rest'.requests + step.requests);
        }
      }
    }
  }

  /** Walking one more game. */
  lemma ProcessGamesSnoc(notified: set<GamePk>, games: seq<ScheduledGame>, x: ScheduledGame)
    ensures var before := ProcessGames(notified, games);
            var step := Step(before.notified, x);
            ProcessGames(notified, games + [x])
              == if before.failure.Some? then before
                 else Effects(step.notified, before.requests + step.requests, step.failure)
  {
    assert (games + [x])[..|games|] == games;
  }

  /** Once the walk of a prefix has raised, the games after it change nothing. */
  lemma {:induction false} AbortIsFinal(notified: set<GamePk>, games: seq<ScheduledGame>, m: nat)
    requires m <= |games|
    requires ProcessGames(notified, games[..m]).failure.Some?
    ensures ProcessGames(notified, games) == ProcessGames(notified, games[..m])
    decreases |games|
  {
    if m == |games| {
      assert games[..m] == games;
    } else {
      var shorter := games[..|games| - 1];
      assert shorter[..m] == games[..m];
      AbortIsFinal(notified, shorter, m);
    }
  }

  /** If game k raises, the cycle ends with the effects of games 0..k-1, the
      requests game k made, and game k's exception; game k is not recorded
      and no later game is touched. */
  lemma FailureEndsCycle(notified: set<GamePk>, games: seq<ScheduledGame>, k: nat)
    requires k < |games|
    requires ProcessGames(notified, games[..k]).failure.None?
    requires Step(ProcessGames(notified, games[..k]).notified, games[k]).failure.Some?
    ensures var before := ProcessGames(notified, games[..k]);
            var step := Step(before.notified, games[k]);
            ProcessGames(notified, games) == Effects(before.notified, before.requests + step.requests, step.failure)
  {
    assert games[..k + 1][..k] == games[..k];
    AbortIsFinal(notified, games, k + 1);
  }

  /** A cycle that ends normally fetched the feed of every game, in schedule order. */
  lemma {:induction false} FeedsInScheduleOrder(notified: set<GamePk>, games: seq<ScheduledGame>)
    requires ProcessGames(notified, games).failure.None?
    ensures var ids := FeedIds(ProcessGames(notified, games).requests);
            |ids| == |games| && forall k | 0 <= k < |games| :: games[k].game.gamePk == Some(ids[k])
    decreases |games|
  {
    if games != [] {
      var games' := games[..|games| - 1];
      var before := ProcessGames(notified, games');
      var step := Step(before.notified, games[|games| - 1]);
      FeedsInScheduleOrder(notified, games');
      FeedIdsAppend(before.requests, step.requests);
      assert FeedIds(step.requests) == [games[|games| - 1].game.gamePk.value] by {
        var rest := step.requests[1..];
        if |rest| == 1 {
          assert rest[1..] == [];
        }
        assert FeedIds(rest) == [];
      }
      forall k | 0 <= k < |games| - 1 ensures games[k] == games'[k] { }
    }
  }

  // ---------------------------------------------------------------------
  // No alert before extra innings

  /** A cycle in which no fetched line score is past the ninth (a missing
      line score counts as inning 0) sends no alert and records no id. */
  lemma {:induction false} RegulationSendsNothing(notified: set<GamePk>, games: seq<ScheduledGame>)
    requires forall k | 0 <= k < |games| && games[k].feed.FeedBody? ::
               LineScoreOf(games[k].feed.feed).currentInning.GetOr(0) <= RegulationInnings
    ensures var r := ProcessGames(notified, games);
            r.notified == notified && forall q | q in r.requests :: !q.AlertPost?
    decreases |games|
  {
    if games != [] {
      var games' := games[..|games| - 1];
      RegulationSendsNothing(notified, games');
      var before := ProcessGames(notified, games');
      if before.failure.None? {
        assert !Qualifies(before.notified, games[|games| - 1]);
      }
    }
  }

  /** Status 204 and any other status both record the id; they differ only
      in the line logged. */
  lemma AnyStatusRecords(notified: set<GamePk>, sg: ScheduledGame)
    requires Qualifies(notified, sg) && sg.game.home.Some? && sg.game.away.Some?
    requires sg.delivery.Status?
    ensures Step(notified, sg).notified == notified + {sg.game.gamePk.value}
    ensures Step(notified, sg).failure.None?
    ensures Notify(sg.game, sg.delivery).outcome.value
            == if sg.delivery.code == NoContent then Delivered(AlertText(sg.game.away.value, sg.game.home.value))
               else Rejected(sg.delivery.code, sg.delivery.text)
  {
  }

  /** Notified ids are never removed: the set after i cycles is contained in
      the set after any later number of cycles. */
  lemma {:induction false} RunGrows(notified: set<GamePk>, schedules: seq<ScheduleResponse>, i: nat, j: nat)
    requires i <= j <= |schedules|
    ensures Run(notified, schedules[..i]).notified <= Run(notified, schedules[..j]).notified
    decreases j
  {
    if i < j {
      assert schedules[..j][..j - 1] == schedules[..j - 1];
      RunGrows(notified, schedules, i, j - 1);
    }
  }

  /** The schedule of the Red Sox at the Yankees, game 100, in the top of the
      11th, with the webhook answering `delivery`. */
  function RedSoxAtYankees(delivery: Delivery): (schedule: ScheduleResponse)
    ensures GetGames(schedule).Success? && |GetGames(schedule).value| == 1
  {
    var game := Game(Some(100), Some("Yankees"), Some("Red Sox"));
    var feed := FeedBody(LiveFeed(Some(LiveData(Some(LineScore(Some(11), Some("Top")))))));
    ScheduleBody(Some([DateBucket(Some([ScheduledGame(game, feed, delivery)]))]))
  }

  /** With the webhook answering 500, the first cycle makes exactly one POST,
      carrying the alert with the away team first, and still records 100. */
  lemma RedSoxAtYankeesAlerted()
    ensures var delivery := Status(500, "Internal Server Error");
            var payload := Payload("\U{26BE} Extra Innings: Red Sox vs Yankees has entered extra innings!");
            Run({}, [RedSoxAtYankees(delivery)])
              == History({100}, [FeedGet(100), AlertPost(100, payload, delivery)], [None])
  {
    var delivery := Status(500, "Internal Server Error");
    var schedule := RedSoxAtYankees(delivery);
    var sg := GetGames(schedule).value[0];
    RedSoxAtYankeesText();
    var step := Step({}, sg);
    assert step == Effects({100}, [FeedGet(100), AlertPost(100, Payload(AlertText("Red Sox", "Yankees")), delivery)], None);
    assert [sg][..0] == [];
    assert ProcessGames({}, [sg]) == step;
    assert [schedule][..0] == [];
  }

  /** Once 100 is recorded, a cycle that still shows it in extra innings
      fetches its feed and POSTs nothing, whatever the webhook would answer. */
  lemma RedSoxAtYankeesNotRepeated(delivery: Delivery)
    ensures Cycle({100}, RedSoxAtYankees(delivery)) == Effects({100}, [FeedGet(100)], None)
  {
    var sg := GetGames(RedSoxAtYankees(delivery)).value[0];
    assert [sg][..0] == [];
    assert ProcessGames({100}, [sg]) == Step({100}, sg);
  }

  // ---------------------------------------------------------------------
  // The loop itself

  /** One cycle of the agent's loop over a notified set it updates as it
      goes; an exception ends the cycle but keeps the ids already added. */
  method RunCycle(notified: set<GamePk>, schedule: ScheduleResponse)
    returns (now: set<GamePk>, requests: seq<Request>, failure: Option<Failure>)
    ensures Effects(now, requests, failure) == Cycle(notified, schedule)
  {
    now, requests, failure := notified, [], None;
    var fetched := GetGames(schedule);
    if fetched.Failure? {
      failure := Some(fetched.error);
      return;
    }
    var games := fetched.value;
    var i := 0;
    while i < |games| && failure.None?
      invariant i <= |games|
      invariant Effects(now, requests, failure) == ProcessGames(notified, games[..i])
      decreases |games| - i
    {
      assert games[..i + 1][..i] == games[..i];
      var game := games[i].game;
      match game.gamePk {
        case None =>
          failure := Some(MissingGamePk);
        case Some(pk) =>
          requests := requests + [FeedGet(pk)];
          match games[i].feed {
            case FeedUnavailable =>
              failure := Some(FeedFetchFailed);
            case FeedBody(feed) =>
              if IsExtraInnings(LineScoreOf(feed)) && pk !in now {
                var sent := Notify(game, games[i].delivery);
                if sent.post.Some? {
                  requests := requests + [AlertPost(pk, sent.post.value, games[i].delivery)];
                }
                if sent.outcome.Failure? {
                  failure := Some(sent.outcome.error);
                } else {
                  now := now + {pk};
                }
              }
          }
      }
      i := i + 1;
    }
    if i < |games| {
      AbortIsFinal(notified, games, i);
    } else {
      assert games[..i] == games;
    }
  }

  /** A run of the agent over a finite sequence of cycles, starting from an
      empty notified set. */
  method RunAgent(schedules: seq<ScheduleResponse>)
    returns (notified: set<GamePk>, requests: seq<Request>, outcomes: seq<Option<Failure>>)
    ensures History(notified, requests, outcomes) == Run({}, schedules)
    ensures NoRepeatAlerts({}, requests)
  {
    notified, requests, outcomes := {}, [], [];
    for c := 0 to |schedules|
      invariant History(notified, requests, outcomes) == Run({}, schedules[..c])
    {
      assert schedules[..c + 1][..c] == schedules[..c];
      var now, made, failure := RunCycle(notified, schedules[c]);
      notified, requests, outcomes := now, requests + made, outcomes + [failure];
    }
    assert schedules[..|schedules|] == schedules;
    RunNoRepeatAlerts({}, schedules);
  }
}
