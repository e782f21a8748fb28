/**
 * The worker's dispatch loop: each iteration BRPOPs one record from the list,
 * decodes it, reads the three job fields, splits `owner/repo`, posts one comment
 * through the GitHub API, and on failure takes one of the three exception
 * handlers. The loop variable `job_json` outlives the iteration that bound it.
 */
module Worker {
  import opened Wrappers
  import opened Values
  import RedisList

  /** The fixed text of the comment the worker posts. */
  const CommentBody := "Hello from CodeScribe! I am preparing to review this PR."

  /** A comment created on a pull request by a client scoped to one installation. */
  datatype Comment = Comment(
    installationId: Json,  // the installation the client authenticates as
    owner: string,
    repo: string,
    issueNumber: Json,
    body: string)

  /** `json.loads`: a decoded value, or the exception it raises. */
  type Loads = string -> Result<Json, Exc>

  /**
   * The try block after the pop. `api` is what authenticating and creating the
   * comment raise, if anything.
   */
  function RunJob(record: string, loads: Loads, api: Option<Exc>): Result<Comment, Exc> {
    var data :- loads(record);
    var repoFullName :- Subscript(data, "repo_full_name");
    var prNumber :- Subscript(data, "pr_number");
    var installationId :- Subscript(data, "installation_id");
    var parts :- StrSplit(repoFullName, '/');
    var names :- Unpack2(parts);
    if api.Some? then Failure(api.value)
    else Success(Comment(installationId, names.0, names.1, prNumber, CommentBody))
  }

  /**
   * A comment is posted exactly when the record decodes to a dict with the three
   * keys, its `repo_full_name` is a string with one '/', and GitHub raises
   * nothing; the comment goes to that installation, owner, repository and PR.
   */
  lemma RunJobPosts(record: string, loads: Loads, api: Option<Exc>)
    ensures RunJob(record, loads, api).Success? <==>
      && api.None?
      && loads(record).Success?
      && var data := loads(record).value;
      && data.JObj?
      && "repo_full_name" in data.fields && "pr_number" in data.fields && "installation_id" in data.fields
      && data.fields["repo_full_name"].JStr?
      && multiset(data.fields["repo_full_name"].s)['/'] == 1
    ensures RunJob(record, loads, api).Success? ==>
      var data := loads(record).value.fields;
      var comment := RunJob(record, loads, api).value;
      && comment.installationId == data["installation_id"]
      && comment.issueNumber == data["pr_number"]
      && comment.body == CommentBody
      && comment.owner + "/" + comment.repo == data["repo_full_name"].s
      && '/' !in comment.owner && '/' !in comment.repo
  {
    if loads(record).Success? {
      var data := loads(record).value;
      if data.JObj? && "repo_full_name" in data.fields && data.fields["repo_full_name"].JStr? {
        OwnerRepoSplit(data.fields["repo_full_name"].s);
      }
    }
  }

  /** Which `except` clause catches an exception. */
  datatype Handler =
    | RequeueAtOnce      // json.JSONDecodeError: push the record back, no pause
    | Discard            // KeyError: log and drop
    | RequeueAndBackOff  // any other Exception: push `job_json` back if bound, then sleep 5

  function HandlerFor(e: Exc): Handler {
    match e
    case JSONDecodeError => RequeueAtOnce
    case KeyError(_) => Discard
    case _ => RequeueAndBackOff
  }

  /** What one iteration of the loop did. */
  datatype Event =
    | Commented(comment: Comment)           // the try block completed
    | Requeued(record: string)              // undecodable record pushed back
    | Dropped(record: string, key: string)  // record missing a key, discarded
    | BackedOff(requeued: Option<string>)   // other failure: push back `job_json` if bound, sleep 5
    | Waiting                               // the list is empty: BRPOP keeps blocking
    | Halted                                // a handler's own LPUSH raised: the loop ends

  /** What the outside world does during one iteration. */
  datatype Env = Env(
    brpopFails: bool,  // BRPOP raises instead of returning a record
    api: Option<Exc>,  // what authenticating or creating the comment raises
    pushOk: bool)      // a handler's LPUSH goes through

  /** The list and the loop variable `job_json` (None until a BRPOP first returns). */
  datatype State = State(queue: seq<string>, jobJson: Option<string>)

  /** The generic handler: re-push whatever `job_json` holds, if it is bound. */
  function BackOff(queue: seq<string>, jobJson: Option<string>, pushOk: bool): (State, Event) {
    match jobJson
    case None => (State(queue, None), BackedOff(None))
    case Some(record) =>
      if pushOk then (State([record] + queue, jobJson), BackedOff(jobJson))
      else (State(queue, jobJson), Halted)
  }

  /** One iteration of the `while True` loop. */
  function Transition(s: State, loads: Loads, env: Env): (State, Event) {
    if env.brpopFails then BackOff(s.queue, s.jobJson, env.pushOk)
    else if s.queue == [] then (s, Waiting)
    else
      var record := s.queue[|s.queue| - 1];
      var rest := s.queue[..|s.queue| - 1];
      match RunJob(record, loads, env.api)
      case Success(comment) => (State(rest, Some(record)), Commented(comment))
      case Failure(e) =>
        match HandlerFor(e)
        case RequeueAtOnce =>
          if env.pushOk then (State([record] + rest, Some(record)), Requeued(record))
          else (State(rest, Some(record)), Halted)
        case Discard => (State(rest, Some(record)), Dropped(record, e.key))
        case RequeueAndBackOff => BackOff(rest, Some(record), env.pushOk)
  }

  /**
   * After a record is popped: it is consumed (posted, dropped, or lost when the
   * push back fails) and the list shrinks by one, or it goes back at the head and
   * the list keeps its contents and length.
   */
  lemma PoppedRecordConserved(s: State, loads: Loads, env: Env)
    requires !env.brpopFails && s.queue != []
    ensures
      var (t, ev) := Transition(s, loads, env);
      var record := s.queue[|s.queue| - 1];
      var rest := s.queue[..|s.queue| - 1];
      && t.jobJson == Some(record)
      && (ev.Commented? || (ev.Dropped? && ev.record == record) || ev.Halted? ||
          ev == Requeued(record) || ev == BackedOff(Some(record)))
      && (ev.Commented? || ev.Dropped? || ev.Halted? ==>
            t.queue == rest && multiset(t.queue) + multiset{record} == multiset(s.queue) &&
            |t.queue| == |s.queue| - 1)
      && (ev.Requeued? || ev.BackedOff? ==>
            t.queue == [record] + rest && multiset(t.queue) == multiset(s.queue) &&
            |t.queue| == |s.queue|)
  {
    var record := s.queue[|s.queue| - 1];
    var rest := s.queue[..|s.queue| - 1];
    assert s.queue == rest + [record];
  }

  /**
   * The error-path table for a popped record: undecodable records go back with no
   * pause, records missing a key are dropped, and every other exception (a record
   * that is not a dict, a name that is not a string or does not split into
   * `owner/repo`, a GitHub failure) sends the record back followed by a pause.
   * Which handler runs depends only on the exception, wherever it was raised.
   */
  lemma FailurePaths(s: State, loads: Loads, env: Env)
    requires !env.brpopFails && s.queue != [] && env.pushOk
    ensures
      var (t, ev) := Transition(s, loads, env);
      var record := s.queue[|s.queue| - 1];
      var rest := s.queue[..|s.queue| - 1];
      && (loads(record) == Failure(JSONDecodeError) ==>
            t.queue == [record] + rest && ev == Requeued(record))
      && (loads(record).Success? && loads(record).value.JObj? ==>
            var data := loads(record).value.fields;
            && ("repo_full_name" !in data ==> t.queue == rest && ev == Dropped(record, "repo_full_name"))
            && ("repo_full_name" in data && "pr_number" !in data ==>
                  t.queue == rest && ev == Dropped(record, "pr_number"))
            && ("repo_full_name" in data && "pr_number" in data && "installation_id" !in data ==>
                  t.queue == rest && ev == Dropped(record, "installation_id"))
            && ("repo_full_name" in data && "pr_number" in data && "installation_id" in data &&
                data["repo_full_name"].JStr? && multiset(data["repo_full_name"].s)['/'] != 1 ==>
                  t.queue == [record] + rest && ev == BackedOff(Some(record))))
      && (RunJob(record, loads, None).Success? && env.api.Some? &&
          HandlerFor(env.api.value) == RequeueAndBackOff ==>
            t.queue == [record] + rest && ev == BackedOff(Some(record)))
      && (loads(record).Failure? && HandlerFor(loads(record).error) == RequeueAndBackOff ==>
            t.queue == [record] + rest && ev == BackedOff(Some(record)))
      && (loads(record).Success? && !loads(record).value.JObj? ==>
            t.queue == [record] + rest && ev == BackedOff(Some(record)))
      && (loads(record).Success? && loads(record).value.JObj? ==>
            var data := loads(record).value.fields;
            "repo_full_name" in data && "pr_number" in data && "installation_id" in data &&
            !data["repo_full_name"].JStr? ==>
              t.queue == [record] + rest && ev == BackedOff(Some(record)))
      && (var r := RunJob(record, loads, env.api);
          && (r.Failure? && HandlerFor(r.error) == RequeueAtOnce ==>
                t.queue == [record] + rest && ev == Requeued(record))
          && (r.Failure? && HandlerFor(r.error) == Discard ==>
                t.queue == rest && ev == Dropped(record, r.error.key))
          && (r.Failure? && HandlerFor(r.error) == RequeueAndBackOff ==>
                t.queue == [record] + rest && ev == BackedOff(Some(record))))
  {
    var record := s.queue[|s.queue| - 1];
    if loads(record).Success? && loads(record).value.JObj? {
      var data := loads(record).value.fields;
      if "repo_full_name" in data && data["repo_full_name"].JStr? {
        OwnerRepoSplit(data["repo_full_name"].s);
      }
    }
  }

  /** A requeued record loses its place: every record already waiting is popped before it. */
  lemma RequeueLosesPlace(s: State, loads: Loads, env: Env)
    requires !env.brpopFails && s.queue != []
    ensures
      var (t, ev) := Transition(s, loads, env);
      var record := s.queue[|s.queue| - 1];
      ev.Requeued? || ev.BackedOff? ==>
        RedisList.PopOrder(t.queue) == RedisList.PopOrder(s.queue[..|s.queue| - 1]) + [record]
  {
    PoppedRecordConserved(s, loads, env);
    RedisList.PopOrderPrepend(s.queue[|s.queue| - 1], s.queue[..|s.queue| - 1]);
  }

  /**
   * When BRPOP itself raises, the generic handler re-pushes whatever an earlier
   * iteration left in `job_json`: nothing before the first pop, and otherwise a
   * second copy of a record that was already taken off the list.
   */
  lemma BrpopFailureRequeuesStale(s: State, loads: Loads, env: Env)
    requires env.brpopFails
    ensures
      var (t, ev) := Transition(s, loads, env);
      && t.jobJson == s.jobJson
      && (s.jobJson.None? ==> t.queue == s.queue && ev == BackedOff(None))
      && (s.jobJson.Some? && env.pushOk ==>
            t.queue == [s.jobJson.value] + s.queue &&
            multiset(t.queue) == multiset(s.queue) + multiset{s.jobJson.value} &&
            ev == BackedOff(s.jobJson))
  {
  }

  /** A record posted in one iteration comes back onto the list if the next BRPOP raises. */
  lemma ConsumedRecordDuplicated(queue: seq<string>, jobJson: Option<string>, loads: Loads)
    requires queue != [] && RunJob(queue[|queue| - 1], loads, None).Success?
    ensures
      var record := queue[|queue| - 1];
      var (t1, ev1) := Transition(State(queue, jobJson), loads, Env(false, None, true));
      var (t2, ev2) := Transition(t1, loads, Env(true, None, true));
      && ev1.Commented?
      && t1.queue == queue[..|queue| - 1]
      && ev2 == BackedOff(Some(record))
      && t2.queue == [record] + queue[..|queue| - 1]
  {
  }

  /**
   * A job whose GitHub call raises once and then succeeds is posted on the second
   * iteration, after one pause, and exactly one comment results.
   */
  lemma RetryAfterOneFailure(record: string, jobJson: Option<string>, loads: Loads, e: Exc)
    requires RunJob(record, loads, None).Success? && HandlerFor(e) == RequeueAndBackOff
    ensures
      var (t1, ev1) := Transition(State([record], jobJson), loads, Env(false, Some(e), true));
      var (t2, ev2) := Transition(t1, loads, Env(false, None, true));
      && ev1 == BackedOff(Some(record)) && t1.queue == [record]
      && ev2 == Commented(RunJob(record, loads, None).value) && t2.queue == []
  {
  }

  /** Records the worker knows of: those on the list and the one `job_json` holds. */
  function Records(s: State): set<string> {
    (set x | x in s.queue) + (if s.jobJson.Some? then {s.jobJson.value} else {})
  }

  /** The loop over a finite prefix of its iterations; it ends early when a handler's push raises. */
  function Run(s: State, loads: Loads, envs: seq<Env>): (State, seq<Event>)
    decreases |envs|
  {
    if envs == [] then (s, [])
    else
      var (t, ev) := Transition(s, loads, envs[0]);
      if ev == Halted then (t, [ev])
      else
        var (u, evs) := Run(t, loads, envs[1..]);
        (u, [ev] + evs)
  }

  /** One iteration invents no record: whatever is on the list or bound afterwards was known before. */
  lemma TransitionKeepsRecords(s: State, loads: Loads, env: Env)
    ensures Records(Transition(s, loads, env).0) <= Records(s)
  {
  }

  /** No run of the loop alters a record: every record left is one that was there at the start. */
  lemma {:induction false} RunKeepsRecords(s: State, loads: Loads, envs: seq<Env>)
    ensures Records(Run(s, loads, envs).0) <= Records(s)
    decreases |envs|
  {
    if envs != [] {
      var (t, ev) := Transition(s, loads, envs[0]);
      TransitionKeepsRecords(s, loads, envs[0]);
      if ev != Halted {
        RunKeepsRecords(t, loads, envs[1..]);
      }
    }
  }

  /** The worker process: the list it serves, its decoder, and the loop variable. */
  class Worker {
    const queue: RedisList.RedisList
    const loads: Loads
    var jobJson: Option<string>

    constructor (queue: RedisList.RedisList, loads: Loads)
      ensures this.queue == queue && this.loads == loads && jobJson == None
    {
      this.queue := queue;
      this.loads := loads;
      jobJson := None;
    }

    ghost function Snapshot(): State
      reads this, queue
    {
      State(queue.items, jobJson)
    }

    /** One iteration of `while True`, with its three `except` clauses. */
    method Step(env: Env) returns (ev: Event)
      modifies this, queue
      ensures (Snapshot(), ev) == Transition(old(Snapshot()), loads, env)
    {
      var failure: Exc;
      if env.brpopFails {
        failure := RedisError;
      } else {
        var popped := queue.BRPop();
        if popped.None? {
          return Waiting;
        }
        jobJson := popped;
        var outcome := RunJob(popped.value, loads, env.api);
        if outcome.Success? {
          return Commented(outcome.value);
        }
        failure := outcome.error;
      }
      match HandlerFor(failure) {
        case RequeueAtOnce =>
          if !env.pushOk {
            return Halted;
          }
          queue.LPush(jobJson.value);
          ev := Requeued(jobJson.value);
        case Discard =>
          ev := Dropped(jobJson.value, failure.key);
        case RequeueAndBackOff =>
          if jobJson.None? {
            ev := BackedOff(None);
          } else if !env.pushOk {
            ev := Halted;
          } else {
            queue.LPush(jobJson.value);
            ev := BackedOff(jobJson);
          }
      }
    }

    /** `process_jobs` over the given iterations, stopping when a handler's push raises. */
    method ProcessJobs(envs: seq<Env>) returns (events: seq<Event>)
      modifies this, queue
      ensures (Snapshot(), events) == Run(old(Snapshot()), loads, envs)
    {
      events := [];
      var i := 0;
      assert envs[i..] == envs;
      ghost var whole := Run(Snapshot(), loads, envs);
      assert [] + whole.1 == whole.1;
      while i < |envs|
        invariant 0 <= i <= |envs|
        invariant Run(old(Snapshot()), loads, envs) ==
          (Run(Snapshot(), loads, envs[i..]).0, events + Run(Snapshot(), loads, envs[i..]).1)
      {
        ghost var before := Snapshot();
        var ev := Step(envs[i]);
        assert envs[i..][0] == envs[i] && envs[i..][1..] == envs[i + 1..];
        if ev == Halted {
          assert (Snapshot(), ev) == Transition(before, loads, envs[i]);
          assert Run(before, loads, envs[i..]) == (Snapshot(), [ev]);
          assert Run(old(Snapshot()), loads, envs) == (Snapshot(), events + [ev]);
          events := events + [ev];
          return;
        }
        ghost var later := Run(Snapshot(), loads, envs[i + 1..]);
        assert Run(before, loads, envs[i..]) == (later.0, [ev] + later.1);
        assert (events + [ev]) + later.1 == events + ([ev] + later.1);
        events := events + [ev];
        i := i + 1;
      }
      assert envs[i..] == [];
      assert events + [] == events;
    }
  }
}
