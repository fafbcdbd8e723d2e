/**
 * The poll relay: an in-memory table of jobs keyed by a client-chosen id.
 * A client registers a job, then polls for its outcome; a periodic sweep
 * evicts records older than five minutes.
 */
module PollRelay {
  import opened Wrappers
  import opened Text
  import SimpleReply

  /** Records older than this many milliseconds are evicted by the sweep. */
  const MaxAge: int := 5 * 60 * 1000

  /** A job whose url contains this path is answered by the keyword classifier. */
  const ChatPath := "/api/chat"
  const GeneralResponse := "Polling response for general request"
  const ChatStatus := "polling_success"
  const MissingParameters := "Missing required polling parameters"
  const MissingId := "Missing polling ID"

  datatype Status = Pending | Processing | Complete | Error

  /** The `apiResponse` object stored on a completed job. */
  datatype ApiResponse = ApiResponse(response: string, status: Option<string>)

  /**
   * One entry of `pollRequests`. `verb` is the request's HTTP `method`; `error`
   * is absent until the job fails.
   */
  datatype PollRecord = PollRecord(
    status: Status,
    created: int,
    url: string,
    verb: Option<string>,
    headers: Option<map<string, string>>,
    body: Option<string>,
    response: Option<ApiResponse>,
    error: Option<string>)

  /**
   * What a chat job does with its stored body before it can answer: `JSON.parse`,
   * the destructuring of the parsed value and `message.toLowerCase()`. It yields
   * the message text, or the message of the error one of those steps throws.
   */
  type BodyParser = Option<string> -> Result<string, string>

  /** Replies of `/api/poll-register`: 200 with the id, or 400. */
  datatype RegisterReply = Registered(id: string) | Rejected(error: string)
  {
    function StatusCode(): int { if Registered? then 200 else 400 }
  }

  /** Replies of `/api/poll-result`: 400, 404, or 200 with the status (and response). */
  datatype PollReply =
    | BadRequest(error: string)
    | NotFound
    | Completed(response: Option<ApiResponse>)
    | StatusOnly(status: Status)
  {
    function StatusCode(): int { if BadRequest? then 400 else if NotFound? then 404 else 200 }
  }

  /** JavaScript truthiness of a string parameter: present and not empty. */
  predicate Truthy(s: Option<string>) { s.Some? && s.value != "" }

  predicate Terminal(s: Status) { s == Complete || s == Error }

  /** A response is stored exactly on complete records, an error exactly on failed ones. */
  predicate WellFormed(r: PollRecord)
  {
    (r.status == Complete <==> r.response.Some?) && (r.status == Error <==> r.error.Some?)
  }

  /** The record `/api/poll-register` stores before the job runs. */
  function NewRecord(url: string, verb: Option<string>, headers: Option<map<string, string>>,
                     body: Option<string>, now: int): PollRecord
  {
    PollRecord(Pending, now, url, verb, headers, body, None, None)
  }

  /**
   * The record `processPollingRequest` leaves behind. It always ends in a
   * terminal state; it fails only when a chat job's body cannot be turned into
   * a message, and keeps the request fields and creation time it was given.
   */
  function JobOutcome(r: PollRecord, parse: BodyParser, pick: nat): (done: PollRecord)
    ensures Terminal(done.status)
    ensures done.status == Error <==> Contains(r.url, ChatPath) && parse(r.body).Failure?
    ensures done.status == Error ==> done.error == Some(parse(r.body).error) && done.response == r.response
    ensures done.status == Complete ==> done.response.Some? && done.error == r.error
    ensures done.(status := r.status, response := r.response, error := r.error) == r
  {
    if Contains(r.url, ChatPath) then
      match parse(r.body)
      case Failure(e) => r.(status := Error, error := Some(e))
      case Success(message) =>
        var reply := SimpleReply.GenerateSimpleResponse(message, pick);
        r.(status := Complete, response := Some(ApiResponse(reply, Some(ChatStatus))))
    else
      r.(status := Complete, response := Some(ApiResponse(GeneralResponse, None)))
  }

  /** A freshly registered record settles into a well-formed terminal record. */
  lemma NewRecordSettles(url: string, verb: Option<string>, headers: Option<map<string, string>>,
                         body: Option<string>, now: int, parse: BodyParser, pick: nat)
    ensures var done := JobOutcome(NewRecord(url, verb, headers, body, now), parse, pick);
      WellFormed(done) && Terminal(done.status) && done.created == now
  {
  }

  /** A completed chat job carries the keyword classifier's reply to its message. */
  lemma ChatJobAnswer(r: PollRecord, parse: BodyParser, pick: nat)
    requires Contains(r.url, ChatPath) && parse(r.body).Success?
    ensures JobOutcome(r, parse, pick).response
      == Some(ApiResponse(SimpleReply.GenerateSimpleResponse(parse(r.body).value, pick), Some(ChatStatus)))
  {
  }

  /** Any other job never reads its body and completes with the fixed general reply. */
  lemma GeneralJobAnswer(r: PollRecord, parse: BodyParser, pick: nat)
    requires !Contains(r.url, ChatPath)
    ensures JobOutcome(r, parse, pick).status == Complete
    ensures JobOutcome(r, parse, pick).response == Some(ApiResponse(GeneralResponse, None))
  {
  }

  /** The sweep's eviction test: strictly older than `MaxAge`. */
  predicate Expired(r: PollRecord, now: int) { now - r.created > MaxAge }

  /** The table the sweep leaves: every record that has not expired, unchanged. */
  function Swept(m: map<string, PollRecord>, now: int): (kept: map<string, PollRecord>)
    ensures forall id :: id in kept <==> id in m && !Expired(m[id], now)
    ensures forall id :: id in kept ==> kept[id] == m[id]
  {
    map id | id in m && !Expired(m[id], now) :: m[id]
  }

  /** A record exactly `MaxAge` old survives; one millisecond later it is gone. */
  lemma SweptBoundary(m: map<string, PollRecord>, id: string)
    requires id in m
    ensures id in Swept(m, m[id].created + MaxAge)
    ensures id !in Swept(m, m[id].created + MaxAge + 1)
  {
  }

  /** Sweeping twice at the same time removes nothing more. */
  lemma SweptIdempotent(m: map<string, PollRecord>, now: int)
    ensures Swept(Swept(m, now), now) == Swept(m, now)
  {
  }

  /** A later sweep keeps no record that an earlier one would have evicted. */
  lemma SweptMonotone(m: map<string, PollRecord>, earlier: int, later: int)
    requires earlier <= later
    ensures Swept(m, later).Keys <= Swept(m, earlier).Keys
  {
  }

  /**
   * `pollRequests` with the handlers that use it. Because `processPollingRequest`
   * never awaits, registration runs the job to its end before it replies, so
   * between requests every record is terminal.
   */
  class Registry {
    var requests: map<string, PollRecord>

    ghost predicate Valid()
      reads this
    {
      forall id :: id in requests ==> WellFormed(requests[id]) && Terminal(requests[id].status)
    }

    constructor ()
      ensures Valid() && requests == map[]
    {
      requests := map[];
    }

    /**
     * `processPollingRequest(id)`: a no-op for an unknown id; otherwise marks the
     * record processing, runs the job and stores its outcome under the same id.
     * Only `Register` calls it, on the fresh pending record it has just stored;
     * on a record that is already terminal the outcome need not be well-formed.
     */
    method Process(id: string, parse: BodyParser, pick: nat)
      modifies this
      ensures id !in old(requests) ==> requests == old(requests)
      ensures id in old(requests) ==>
        requests == old(requests)[id := JobOutcome(old(requests)[id], parse, pick)]
    {
      if id !in requests {
        return;
      }
      var record := requests[id];
      record := record.(status := Processing);
      requests := requests[id := record];
      var apiResponse;
      if Contains(record.url, ChatPath) {
        match parse(record.body)
        case Failure(e) =>
          record := record.(status := Error, error := Some(e));
          requests := requests[id := record];
          return;
        case Success(message) =>
          var reply := SimpleReply.GenerateSimpleResponse(message, pick);
          apiResponse := ApiResponse(reply, Some(ChatStatus));
      } else {
        apiResponse := ApiResponse(GeneralResponse, None);
      }
      record := record.(status := Complete, response := Some(apiResponse));
      requests := requests[id := record];
    }

    /**
     * `/api/poll-register`. A missing or empty id or url is refused with 400 and
     * nothing stored. Otherwise a new record replaces any earlier one under the
     * id, its job runs to completion, and the id is acknowledged.
     */
    method Register(id: Option<string>, url: Option<string>, verb: Option<string>,
                    headers: Option<map<string, string>>, body: Option<string>,
                    now: int, parse: BodyParser, pick: nat)
      returns (reply: RegisterReply)
      requires Valid()
      modifies this
      ensures Valid()
      ensures !Truthy(id) || !Truthy(url) ==>
        reply == Rejected(MissingParameters) && requests == old(requests)
      ensures Truthy(id) && Truthy(url) ==>
        && reply == Registered(id.value)
        && requests == old(requests)[id.value :=
             JobOutcome(NewRecord(url.value, verb, headers, body, now), parse, pick)]
      ensures reply.Registered? ==>
        && id.value in requests
        && var r := requests[id.value];
           && Terminal(r.status) && r.created == now && r.url == url.value
           && r.verb == verb && r.headers == headers && r.body == body
    {
      if !Truthy(id) || !Truthy(url) {
        return Rejected(MissingParameters);
      }
      requests := requests[id.value := NewRecord(url.value, verb, headers, body, now)];
      Process(id.value, parse, pick);
      NewRecordSettles(url.value, verb, headers, body, now, parse, pick);
      return Registered(id.value);
    }

    /**
     * `/api/poll-result`. A complete record is returned and removed; any other
     * record (pending, processing or error) is reported by status only and kept.
     */
    method PollResult(id: Option<string>) returns (reply: PollReply)
      requires Valid()
      modifies this
      ensures Valid()
      ensures !Truthy(id) ==> reply == BadRequest(MissingId) && requests == old(requests)
      ensures Truthy(id) && id.value !in old(requests) ==>
        reply == NotFound && requests == old(requests)
      ensures Truthy(id) && id.value in old(requests) && old(requests)[id.value].status == Complete ==>
        && reply == Completed(old(requests)[id.value].response)
        && requests == old(requests) - {id.value}
      ensures Truthy(id) && id.value in old(requests) && old(requests)[id.value].status != Complete ==>
        reply == StatusOnly(old(requests)[id.value].status) && requests == old(requests)
      ensures reply.Completed? ==> reply.response.Some?
    {
      if !Truthy(id) {
        return BadRequest(MissingId);
      }
      if id.value !in requests {
        return NotFound;
      }
      var record := requests[id.value];
      if record.status == Complete {
        requests := requests - {id.value};
        return Completed(record.response);
      }
      return StatusOnly(record.status);
    }

    /** The timer body: visits every record and deletes the expired ones. */
    method Sweep(now: int)
      requires Valid()
      modifies this
      ensures Valid()
      ensures requests == Swept(old(requests), now)
    {
      var unvisited := requests.Keys;
      while unvisited != {}
        invariant unvisited <= old(requests).Keys
        invariant forall id :: id in requests <==>
          id in old(requests) && (id in unvisited || !Expired(old(requests)[id], now))
        invariant forall id :: id in requests ==> requests[id] == old(requests)[id]
        decreases unvisited
      {
        var id :| id in unvisited;
        if now - requests[id].created > MaxAge {
          requests := requests - {id};
        }
        unvisited := unvisited - {id};
      }
    }
  }
}
