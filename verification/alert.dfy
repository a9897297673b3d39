/** The alert sent to the webhook when a game enters extra innings. */
module Alert {
  import opened Wrappers
  import opened Errors
  import opened Schedule

  const Lead: string := "\U{26BE} Extra Innings: "
  const Versus: string := " vs "
  const Tail: string := " has entered extra innings!"

  /** The webhook's status for a message accepted with no content. */
  const NoContent: int := 204

  /** The alert text: lead, away team, " vs ", home team, tail. */
  function AlertText(away: string, home: string): (m: string)
    ensures |m| == |Lead| + |away| + |Versus| + |home| + |Tail|
    ensures m[..|Lead|] == Lead
    ensures m[|Lead|..|Lead| + |away|] == away
    ensures m[|Lead| + |away|..|Lead| + |away| + |Versus|] == Versus
    ensures m[|m| - |Tail| - |home|..|m| - |Tail|] == home
    ensures m[|m| - |Tail|..] == Tail
  {
    Lead + away + Versus + home + Tail
  }

  /** Two alerts that agree on text and on the length of the away name name
      the same two teams in the same roles. The length is needed because
      " vs " may occur inside a team name: "A vs B" away at "C" and "A" away
      at "B vs C" give the same text. */
  lemma AlertTextNamesTeams(away1: string, home1: string, away2: string, home2: string)
    requires AlertText(away1, home1) == AlertText(away2, home2)
    requires |away1| == |away2|
    ensures away1 == away2 && home1 == home2
  {
  }

  /** The alert for the Red Sox visiting the Yankees. */
  lemma RedSoxAtYankeesText()
    ensures AlertText("Red Sox", "Yankees")
            == "\U{26BE} Extra Innings: Red Sox vs Yankees has entered extra innings!"
  {
    assert Lead + "Red Sox" == "\U{26BE} Extra Innings: Red Sox";
    assert "\U{26BE} Extra Innings: Red Sox" + Versus == "\U{26BE} Extra Innings: Red Sox vs ";
    assert "\U{26BE} Extra Innings: Red Sox vs " + "Yankees" == "\U{26BE} Extra Innings: Red Sox vs Yankees";
    assert "\U{26BE} Extra Innings: Red Sox vs Yankees" + Tail
        == "\U{26BE} Extra Innings: Red Sox vs Yankees has entered extra innings!";
  }

  /** The JSON body of the webhook POST. */
  datatype Payload = Payload(content: string)

  /** The line logged after a POST that came back with a status. */
  datatype Logged = Delivered(message: string) | Rejected(code: int, text: string)

  /** A call of `notify`: the payload POSTed, if the POST was made, and how
      the call ended. */
  datatype NotifyResult = NotifyResult(post: Option<Payload>, outcome: Result<Logged, Failure>)

  /** Reads both team names (raising if either is absent), POSTs the alert
      and logs by status. Any status returns normally; only an absent name
      or a transport error raises. */
  function Notify(game: Game, delivery: Delivery): (r: NotifyResult)
    ensures r.post.Some? <==> game.home.Some? && game.away.Some?
    ensures r.post.Some? ==> r.post.value == Payload(AlertText(game.away.value, game.home.value))
    ensures r.outcome.Failure? <==> r.post.None? || delivery.TransportError?
    ensures r.outcome.Failure? ==> r.outcome.error == (if r.post.None? then MissingTeamName else PostFailed)
    ensures r.outcome.Success? ==> (r.outcome.value.Delivered? <==> delivery.code == NoContent)
    ensures r.outcome.Success? && r.outcome.value.Delivered? ==> r.outcome.value.message == r.post.value.content
    ensures r.outcome.Success? && r.outcome.value.Rejected? ==> r.outcome.value == Rejected(delivery.code, delivery.text)
  {
    if game.home.None? || game.away.None? then NotifyResult(None, Failure(MissingTeamName))
    else
      var message := AlertText(game.away.value, game.home.value);
      match delivery
      case TransportError => NotifyResult(Some(Payload(message)), Failure(PostFailed))
      case Status(code, text) =>
        NotifyResult(Some(Payload(message)),
                     Success(if code == NoContent then Delivered(message) else Rejected(code, text)))
  }
}
