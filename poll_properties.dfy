/**
 * What a client observes across several calls to the poll relay, each
 * scenario run on a registry that holds nothing else.
 */
module PollProperties {
  import opened Wrappers
  import opened Text
  import opened PollRelay
  import SimpleReply

  /**
   * Register, then poll twice. The first poll already sees the job finished:
   * never pending or processing. A completed result is delivered once and the
   * second poll finds nothing; a failed job answers "error" without its message,
   * and goes on answering it.
   */
  method RegisterThenPollTwice(id: string, url: string, verb: Option<string>,
                               headers: Option<map<string, string>>, body: Option<string>,
                               now: int, parse: BodyParser, pick: nat)
    returns (ack: RegisterReply, first: PollReply, second: PollReply)
    requires id != "" && url != ""
    ensures ack == Registered(id)
    ensures first.Completed? || first == StatusOnly(Error)
    ensures first == StatusOnly(Error) <==> Contains(url, ChatPath) && parse(body).Failure?
    ensures first.Completed? ==> first.response.Some? && second == NotFound
    ensures first == StatusOnly(Error) ==> second == first
    ensures !Contains(url, ChatPath) ==> first == Completed(Some(ApiResponse(GeneralResponse, None)))
    ensures Contains(url, ChatPath) && parse(body).Success? ==>
      first == Completed(Some(ApiResponse(
        SimpleReply.GenerateSimpleResponse(parse(body).value, pick), Some(ChatStatus))))
  {
    var registry := new Registry();
    ack := registry.Register(Some(id), Some(url), verb, headers, body, now, parse, pick);
    first := registry.PollResult(Some(id));
    second := registry.PollResult(Some(id));
  }

  /**
   * A registration without an id or url is refused and stores nothing, so a
   * later poll for that id finds nothing (or is itself refused when the id is
   * missing).
   */
  method RejectedRegistration(id: Option<string>, url: Option<string>, verb: Option<string>,
                              headers: Option<map<string, string>>, body: Option<string>,
                              now: int, parse: BodyParser, pick: nat)
    returns (ack: RegisterReply, poll: PollReply)
    requires !Truthy(id) || !Truthy(url)
    ensures ack == Rejected(MissingParameters) && ack.StatusCode() == 400
    ensures poll == if Truthy(id) then NotFound else BadRequest(MissingId)
    ensures poll.StatusCode() == if Truthy(id) then 404 else 400
  {
    var registry := new Registry();
    ack := registry.Register(id, url, verb, headers, body, now, parse, pick);
    poll := registry.PollResult(id);
  }

  /**
   * Register at `now`, sweep at `later`, then poll: the job is gone exactly when
   * it is more than `MaxAge` old at the sweep.
   */
  method SweepThenPoll(id: string, url: string, verb: Option<string>,
                       headers: Option<map<string, string>>, body: Option<string>,
                       now: int, later: int, parse: BodyParser, pick: nat)
    returns (poll: PollReply)
    requires id != "" && url != ""
    ensures poll == NotFound <==> later - now > MaxAge
  {
    var registry := new Registry();
    var _ := registry.Register(Some(id), Some(url), verb, headers, body, now, parse, pick);
    registry.Sweep(later);
    poll := registry.PollResult(Some(id));
  }

  /**
   * Registering the same id twice keeps only the second job: the poll reports
   * the second job's outcome, decided by the second url and body alone.
   */
  method LastRegistrationWins(id: string, firstUrl: string, secondUrl: string,
                              firstBody: Option<string>, secondBody: Option<string>,
                              firstTime: int, secondTime: int, parse: BodyParser, pick: nat)
    returns (poll: PollReply)
    requires id != "" && firstUrl != "" && secondUrl != ""
    ensures poll == StatusOnly(Error) <==> Contains(secondUrl, ChatPath) && parse(secondBody).Failure?
    ensures !Contains(secondUrl, ChatPath) ==> poll == Completed(Some(ApiResponse(GeneralResponse, None)))
    ensures Contains(secondUrl, ChatPath) && parse(secondBody).Success? ==>
      poll == Completed(Some(ApiResponse(
        SimpleReply.GenerateSimpleResponse(parse(secondBody).value, pick), Some(ChatStatus))))
  {
    var registry := new Registry();
    var _ := registry.Register(Some(id), Some(firstUrl), None, None, firstBody, firstTime, parse, pick);
    var _ := registry.Register(Some(id), Some(secondUrl), None, None, secondBody, secondTime, parse, pick);
    poll := registry.PollResult(Some(id));
  }
}
