/**
 * The webhook receiver (POST /webhook): signature verification, the order in
 * which the request is checked, which events become jobs, which fields a job
 * carries, and the single LPUSH of an accepted job.
 */
module Ingestion {
  import opened Wrappers
  import opened Values
  import RedisList

  type Bytes = seq<bv8>

  /** The receiver's process-wide settings and the primitives it calls. */
  datatype Config = Config(
    secret: Option<string>,              // WEBHOOK_SECRET; None when unset
    redisConnected: bool,                // the startup ping succeeded, so a Redis client exists
    hmacHex: (string, Bytes) -> string,  // hex digest of HMAC-SHA256 of the body under the key
    dumps: Json -> string)               // json.dumps

  /** What the endpoint sees of one request. */
  datatype Request = Request(
    event: Option<string>,      // X-GitHub-Event header
    signature: Option<string>,  // X-Hub-Signature-256 header
    body: Bytes,                // the raw body, as received
    payload: Option<Json>)      // the body parsed as JSON; None when it is not JSON

  /** The `detail` or `message` of each response. */
  datatype Detail =
    | MissingSignature                   // "Missing signature"
    | UnsupportedAlgorithm               // "Unsupported signature algorithm"
    | InvalidSignature                   // "Invalid signature"
    | RedisConnectionFailed              // "Redis connection failed"
    | MalformedPayload(missing: string)  // "Malformed payload: missing '<key>'"
    | JobQueued(prNumber: Json)          // "Job queued for PR #<number>"
    | NotProcessed                       // "Event received but not processed"
    | InternalServerError                // an exception the handler does not catch

  datatype Response = Response(status: int, detail: Detail)

  /** The only algorithm prefix the signature header may carry. */
  const Algorithm := "sha256"

  /** The only event that can produce a job. */
  const PullRequestEvent := "pull_request"

  /** An unset and an empty secret both switch verification off. */
  predicate Configured(secret: Option<string>) {
    secret.Some? && secret.value != ""
  }

  /** Whether `verify_signature` returns normally or raises with a response. */
  datatype Verdict = Pass | Reject(response: Response)

  function VerifySignature(cfg: Config, req: Request): Verdict {
    if !Configured(cfg.secret) then Pass
    else if req.signature.None? || req.signature.value == "" then Reject(Response(403, MissingSignature))
    else
      var parts := SplitOnce(req.signature.value, '=');
      // `hash_algorithm, signature = ...` raises ValueError when there is no '='
      if |parts| != 2 then Reject(Response(500, InternalServerError))
      else if parts[0] != Algorithm then Reject(Response(400, UnsupportedAlgorithm))
      else
        var expected := cfg.hmacHex(cfg.secret.value, req.body);
        // compare_digest raises TypeError on a str holding a non-ASCII character
        if !IsAscii(expected) || !IsAscii(parts[1]) then Reject(Response(500, InternalServerError))
        else if expected != parts[1] then Reject(Response(403, InvalidSignature))
        else Pass
  }

  /**
   * With a secret, a request passes exactly when its header is `sha256=` followed
   * by the hex HMAC of the raw body; without one, every request passes.
   */
  lemma VerifyAcceptsExactly(cfg: Config, req: Request)
    ensures !Configured(cfg.secret) ==> VerifySignature(cfg, req) == Pass
    ensures Configured(cfg.secret) ==>
      var expected := cfg.hmacHex(cfg.secret.value, req.body);
      (VerifySignature(cfg, req) == Pass <==>
        req.signature == Some(Algorithm + "=" + expected) && IsAscii(expected))
  {
    if Configured(cfg.secret) {
      var expected := cfg.hmacHex(cfg.secret.value, req.body);
      if req.signature == Some(Algorithm + "=" + expected) {
        SplitOnceAt(Algorithm, '=', expected);
      }
      if VerifySignature(cfg, req) == Pass {
        var parts := SplitOnce(req.signature.value, '=');
        assert req.signature.value == parts[0] + "=" + parts[1];
      }
    }
  }

  /** Why a request is refused when a secret is set; the header splits at its first '='. */
  lemma VerifyRejections(cfg: Config, req: Request, algorithm: string, signature: string)
    requires Configured(cfg.secret)
    ensures req.signature.None? || req.signature == Some("") ==>
      VerifySignature(cfg, req) == Reject(Response(403, MissingSignature))
    ensures req.signature.Some? && req.signature.value != "" && '=' !in req.signature.value ==>
      VerifySignature(cfg, req) == Reject(Response(500, InternalServerError))
    ensures req.signature == Some(algorithm + "=" + signature) && '=' !in algorithm ==>
      var expected := cfg.hmacHex(cfg.secret.value, req.body);
      && (algorithm != Algorithm ==> VerifySignature(cfg, req) == Reject(Response(400, UnsupportedAlgorithm)))
      && (algorithm == Algorithm && IsAscii(expected) && IsAscii(signature) && signature != expected ==>
            VerifySignature(cfg, req) == Reject(Response(403, InvalidSignature)))
  {
    if req.signature == Some(algorithm + "=" + signature) && '=' !in algorithm {
      SplitOnceAt(algorithm, '=', signature);
    }
  }

  /** The three fields a job record carries, as found in the payload. */
  datatype JobFields = JobFields(repoFullName: Json, prNumber: Json, installationId: Json) {
    /** The `job_data` dict that is serialized onto the list. */
    function ToJson(): Json {
      JObj(map["repo_full_name" := repoFullName, "pr_number" := prNumber, "installation_id" := installationId])
    }
  }

  /** The three payload lookups, in source order; the first one that fails decides the error. */
  function ExtractJob(payload: Json): Result<JobFields, Exc> {
    var repository :- Subscript(payload, "repository");
    var repoFullName :- Subscript(repository, "full_name");
    var pullRequest :- Subscript(payload, "pull_request");
    var prNumber :- Subscript(pullRequest, "number");
    var installation :- Subscript(payload, "installation");
    var installationId :- Subscript(installation, "id");
    Success(JobFields(repoFullName, prNumber, installationId))
  }

  /** The actions of a pull_request event that ask for a review. */
  predicate Triggers(action: Json) {
    action == JStr("opened") || action == JStr("synchronize")
  }

  /** The `action` of a dict payload; a missing one reads as None. */
  function ActionOf(payload: Json): Json
    requires payload.JObj?
  {
    if "action" in payload.fields then payload.fields["action"] else JNull
  }

  /** What the handler does before any push: answer right away, or queue a job. */
  datatype Decision = Respond(response: Response) | Enqueue(job: JobFields)

  function Decide(cfg: Config, req: Request): Decision {
    match VerifySignature(cfg, req)
    case Reject(response) => Respond(response)
    case Pass =>
      if !cfg.redisConnected then Respond(Response(503, RedisConnectionFailed))
      else if req.payload.None? then Respond(Response(500, InternalServerError))
      else if req.event != Some(PullRequestEvent) then Respond(Response(200, NotProcessed))
      else match DictGet(req.payload.value, "action")
        case Failure(_) => Respond(Response(500, InternalServerError))
        case Success(action) =>
          if !Triggers(action) then Respond(Response(200, NotProcessed))
          else match ExtractJob(req.payload.value)
            case Success(job) => Enqueue(job)
            case Failure(KeyError(key)) => Respond(Response(400, MalformedPayload(key)))
            case Failure(_) => Respond(Response(500, InternalServerError))
  }

  /**
   * The endpoint. `pushOk` says whether the LPUSH itself goes through; when it
   * raises, the handler does not catch it. At most one record is pushed, and only
   * for a job.
   */
  method HandleWebhook(cfg: Config, req: Request, queue: RedisList.RedisList, pushOk: bool)
    returns (response: Response)
    modifies queue
    ensures Decide(cfg, req).Respond? ==>
      response == Decide(cfg, req).response && queue.items == old(queue.items)
    ensures Decide(cfg, req).Enqueue? && pushOk ==>
      var job := Decide(cfg, req).job;
      response == Response(200, JobQueued(job.prNumber)) &&
      queue.items == [cfg.dumps(job.ToJson())] + old(queue.items)
    ensures Decide(cfg, req).Enqueue? && !pushOk ==>
      response == Response(500, InternalServerError) && queue.items == old(queue.items)
  {
    var verdict := VerifySignature(cfg, req);
    if verdict.Reject? {
      return verdict.response;
    }
    if !cfg.redisConnected {
      return Response(503, RedisConnectionFailed);
    }
    if req.payload.None? {
      return Response(500, InternalServerError);
    }
    var payload := req.payload.value;
    if req.event == Some(PullRequestEvent) {
      var action := DictGet(payload, "action");
      if action.Failure? {
        return Response(500, InternalServerError);
      }
      if Triggers(action.value) {
        var job := ExtractJob(payload);
        if job.Failure? {
          if job.error.KeyError? {
            return Response(400, MalformedPayload(job.error.key));
          }
          return Response(500, InternalServerError);
        }
        if !pushOk {
          return Response(500, InternalServerError);
        }
        queue.LPush(cfg.dumps(job.value.ToJson()));
        return Response(200, JobQueued(job.value.prNumber));
      }
    }
    return Response(200, NotProcessed);
  }

  /**
   * Verification comes first, then the Redis check, and only then is the body
   * parsed: neither of the first two depends on the payload or the event.
   */
  lemma ChecksInOrder(cfg: Config, req: Request, payload: Option<Json>, event: Option<string>)
    ensures VerifySignature(cfg, req) == VerifySignature(cfg, req.(payload := payload, event := event))
    ensures VerifySignature(cfg, req).Reject? ==>
      Decide(cfg, req) == Respond(VerifySignature(cfg, req).response)
    ensures VerifySignature(cfg, req) == Pass && !cfg.redisConnected ==>
      Decide(cfg, req) == Respond(Response(503, RedisConnectionFailed))
  {
  }

  /**
   * A job is queued exactly for a verified pull_request event whose action is
   * opened or synchronize and whose payload holds all three paths; the job holds
   * exactly the three keys, taken from those paths.
   */
  lemma EnqueueExactly(cfg: Config, req: Request)
    ensures Decide(cfg, req).Enqueue? <==>
      && VerifySignature(cfg, req) == Pass
      && cfg.redisConnected
      && req.event == Some(PullRequestEvent)
      && req.payload.Some? && req.payload.value.JObj?
      && Triggers(ActionOf(req.payload.value))
      && HasPath(req.payload.value, "repository", "full_name")
      && HasPath(req.payload.value, "pull_request", "number")
      && HasPath(req.payload.value, "installation", "id")
    ensures Decide(cfg, req).Enqueue? ==>
      var p := req.payload.value.fields;
      var job := Decide(cfg, req).job;
      && job.repoFullName == p["repository"].fields["full_name"]
      && job.prNumber == p["pull_request"].fields["number"]
      && job.installationId == p["installation"].fields["id"]
      && job.ToJson().fields.Keys == {"repo_full_name", "pr_number", "installation_id"}
  {
  }

  /** Every other event or action, a missing action included, is acknowledged and not queued. */
  lemma NotProcessedOtherwise(cfg: Config, req: Request)
    requires VerifySignature(cfg, req) == Pass && cfg.redisConnected && req.payload.Some?
    ensures req.event != Some(PullRequestEvent) ==>
      Decide(cfg, req) == Respond(Response(200, NotProcessed))
    ensures req.event == Some(PullRequestEvent) && req.payload.value.JObj? ==>
      !Triggers(ActionOf(req.payload.value)) ==>
      Decide(cfg, req) == Respond(Response(200, NotProcessed))
  {
  }

  /** A selected event whose payload lacks a path is refused with 400 naming the first missing key. */
  lemma MalformedPayloads(cfg: Config, req: Request)
    requires VerifySignature(cfg, req) == Pass && cfg.redisConnected
    requires req.event == Some(PullRequestEvent)
    requires req.payload.Some? && req.payload.value.JObj? && Triggers(ActionOf(req.payload.value))
    ensures var extracted := ExtractJob(req.payload.value);
      extracted.Failure? && extracted.error.KeyError? ==>
        Decide(cfg, req) == Respond(Response(400, MalformedPayload(extracted.error.key)))
    ensures var p := req.payload.value;
      "repository" !in p.fields ==>
        Decide(cfg, req) == Respond(Response(400, MalformedPayload("repository")))
    ensures var p := req.payload.value;
      "repository" in p.fields && p.fields["repository"].JObj? &&
      "full_name" !in p.fields["repository"].fields ==>
        Decide(cfg, req) == Respond(Response(400, MalformedPayload("full_name")))
    ensures var p := req.payload.value;
      HasPath(p, "repository", "full_name") && "pull_request" !in p.fields ==>
        Decide(cfg, req) == Respond(Response(400, MalformedPayload("pull_request")))
    ensures var p := req.payload.value;
      HasPath(p, "repository", "full_name") &&
      "pull_request" in p.fields && p.fields["pull_request"].JObj? &&
      "number" !in p.fields["pull_request"].fields ==>
        Decide(cfg, req) == Respond(Response(400, MalformedPayload("number")))
    ensures var p := req.payload.value;
      HasPath(p, "repository", "full_name") && HasPath(p, "pull_request", "number") &&
      "installation" !in p.fields ==>
        Decide(cfg, req) == Respond(Response(400, MalformedPayload("installation")))
    ensures var p := req.payload.value;
      HasPath(p, "repository", "full_name") && HasPath(p, "pull_request", "number") &&
      "installation" in p.fields && p.fields["installation"].JObj? &&
      "id" !in p.fields["installation"].fields ==>
        Decide(cfg, req) == Respond(Response(400, MalformedPayload("id")))
  {
  }

  /** An opened pull request in acme/widgets, number 42, installation 7, becomes exactly that job. */
  lemma OpenedPullRequestExample(cfg: Config, body: Bytes)
    requires !Configured(cfg.secret) && cfg.redisConnected
    ensures
      var payload := JObj(map[
        "action" := JStr("opened"),
        "repository" := JObj(map["full_name" := JStr("acme/widgets")]),
        "pull_request" := JObj(map["number" := JNum(42)]),
        "installation" := JObj(map["id" := JNum(7)])]);
      var req := Request(Some(PullRequestEvent), None, body, Some(payload));
      Decide(cfg, req) == Enqueue(JobFields(JStr("acme/widgets"), JNum(42), JNum(7)))
  {
  }
}
