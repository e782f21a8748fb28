# Event-to-job pipeline of CodeScribe, modelled in Dafny

This project models two small services. They are joined by one Redis list.

- **Webhook receiver** (`ingestion_service/main.py`). It checks the GitHub signature header against an HMAC-SHA256 of the raw body. It then checks that Redis is available. Only after both does it parse the payload. A `pull_request` event with action `opened` or `synchronize` becomes a job record with `repo_full_name`, `pr_number` and `installation_id`. That record is LPUSHed onto the list. Every other request is answered without touching the list.
- **Worker** (`worker/main.py`). It runs a `while True` loop. Each iteration BRPOPs one record, decodes it, reads the three fields, splits `owner/repo`, and posts one fixed comment on the pull request through a client scoped to the installation. A failure takes one of three `except` clauses:
  - a JSON decode error pushes the record back at once;
  - a missing key drops the record;
  - any other error pushes back whatever the loop variable `job_json` holds, then sleeps.

Files:

- `wrappers.dfy`: `Option` and `Result`.
- `values.dfy`: decoded JSON values, the Python exceptions, and the Python operations the services apply (`v[key]`, `dict.get`, `str.split`).
- `redis_list.dfy`: the list as a class, with LPUSH at index 0 and BRPOP at the last index. `PopOrder` is the order in which BRPOPs return records. The file also holds the FIFO lemmas.
- `ingestion.dfy`: `VerifySignature` is `verify_signature`. `ExtractJob` performs the six payload lookups in source order. `Decide` gives the handler's answer or the job to queue. `HandleWebhook` is the handler method that pushes onto the list.
- `worker.dfy`: `RunJob` is the try block. `HandlerFor` picks the `except` clause for an exception. `BackOff` is the generic handler. `Transition` is one loop iteration as a pure function. The worker class carries the `Step` and `ProcessJobs` methods.
- `pipeline.dfy`: the end-to-end property, from queued job to posted comment.

Abstractions:

- HMAC-SHA256 (as hex), `json.dumps` and `json.loads` are parameters of function type.
- Whether Redis and GitHub calls succeed are boolean or exception parameters of each request or iteration.
- `time.sleep(5)` is the `BackedOff` event.

Notes on what the code does:

- There is one queue. No reply jobs or bot-comment filtering exist, and the record carries no `event_type`.
- A record that does not decode is pushed back with no pause.
- A record missing a key is dropped, not requeued.
- A payload missing a field is answered with 400.
- A signature header without `=` makes the tuple unpack raise. FastAPI answers that with 500, not with 400 or 403.
- Requeueing uses LPUSH, so the record is popped only after every record already waiting.

## Model

| member | source | states |
|---|---|---|
| `Values.SplitOnce` | ingestion_service/main.py:56 | `split('=', 1)` gives two parts exactly when the header holds `=`. Otherwise it gives the header itself. With two parts, part one has no `=` and the header equals part one, `=`, part two. |
| `Values.SplitOnceAt` | ingestion_service/main.py:56 | A header `a=b` with no `=` in `a` splits into exactly `a` and `b`. Everything after the first `=` is the signature. |
| `Values.Split` | worker/main.py:78 | `str.split('/')` always yields at least one part. |
| `Values.JoinSplit` | worker/main.py:78 | Joining the parts of `split('/')` with `/` gives back the original name. |
| `Values.SplitParts` | worker/main.py:78 | `split('/')` yields one part more than there are `/` characters, and no part contains `/`. |
| `Values.OwnerRepoSplit` | worker/main.py:78 | `owner, repo = name.split('/')` succeeds iff the name holds exactly one `/`. Then `owner + "/" + repo` is the name, and neither part holds `/`. |
| `RedisList.RedisList.LPush` | ingestion_service/main.py:108 | LPUSH puts the record at the head and leaves the rest of the list unchanged. |
| `RedisList.RedisList.BRPop` | worker/main.py:68 | BRPOP removes and returns the tail; the rest of the list is unchanged. On an empty list it returns nothing and changes nothing. |
| `RedisList.PopOrder` | worker/main.py:68 | Popping the list to the end takes as many BRPOPs as the list holds records. |
| `RedisList.RedisList.PopUntilEmpty` | worker/main.py:64-68 | BRPOPs issued until the list is empty return exactly `PopOrder` of the list, which ends empty. |
| `RedisList.PopOrderPermutes` | worker/main.py:68 | Successive BRPOPs return every record of the list exactly once, as a permutation. |
| `RedisList.PopOrderPrepend` | worker/main.py:97-104 | A record LPUSHed onto a list is popped after every record already in it. |
| `RedisList.FifoOrder` | ingestion_service/main.py:108 | LPUSH by the producer and BRPOP by the worker make the list FIFO. Pushed records come out after the waiting ones, in push order. |
| `Ingestion.VerifyAcceptsExactly` | ingestion_service/main.py:44-72 | With no secret, or an empty one, every request passes. With a secret, a request passes iff its header is `sha256=` plus the hex HMAC of the raw body (ASCII, as `compare_digest` requires). |
| `Ingestion.VerifyRejections` | ingestion_service/main.py:50-72 | With a secret set: a missing or empty header gives 403 "Missing signature". A header without `=` gives 500 (the unpack raises). A prefix other than `sha256` gives 400. A well-formed mismatching digest gives 403 "Invalid signature". |
| `Ingestion.ChecksInOrder` | ingestion_service/main.py:80-86 | Verification does not look at the payload or the event, and its rejection is the response. A verified request with Redis unavailable gets 503. Both checks come before the payload. |
| `Ingestion.EnqueueExactly` | ingestion_service/main.py:90-111 | A job is queued iff these all hold: the request is verified, Redis is up, the event is `pull_request`, the action is `opened`/`synchronize`, and all three payload paths exist. The job holds exactly the three keys, taken from `repository.full_name`, `pull_request.number` and `installation.id`. |
| `Ingestion.NotProcessedOtherwise` | ingestion_service/main.py:90-116 | Any other event, and any other or missing action, is answered 200 "Event received but not processed". |
| `Ingestion.MalformedPayloads` | ingestion_service/main.py:94-114 | A selected event whose payload lookup raises `KeyError(k)` is answered 400 naming `k`. In particular a payload that lacks `repository`, `repository.full_name`, `pull_request`, `pull_request.number`, `installation` or `installation.id` gets 400 naming the first missing key, in source order. |
| `Ingestion.HandleWebhook` | ingestion_service/main.py:75-116 | The handler returns the decided response. It pushes exactly one record, the serialized job, only when a job is decided and the push succeeds. The "Job queued" reply names that job's PR number. Otherwise the list is unchanged. |
| `Ingestion.OpenedPullRequestExample` | ingestion_service/main.py:96-105 | `opened` on `acme/widgets`, PR 42, installation 7 yields exactly that job. |
| `Worker.RunJobPosts` | worker/main.py:71-93 | The try block completes iff all of these hold: the record decodes to a dict with the three keys, `repo_full_name` is a string with one `/`, and GitHub raises nothing. The comment then goes through the job's installation, to its owner and repo, on issue `pr_number`, with the fixed body. |
| `Worker.PoppedRecordConserved` | worker/main.py:68-106 | After a pop, `job_json` holds the popped record. The record is consumed and the list shrinks by one, or it goes back at the head with the list's contents and length unchanged. |
| `Worker.FailurePaths` | worker/main.py:71-106 | Error-path table. A JSON decode error requeues the byte-identical record with no pause. A missing key (the first in source order) drops it. Every other exception requeues it and backs off. That covers a record that is not a dict, a `repo_full_name` that is not a string or has no single `/`, any other `loads` failure, and a GitHub exception other than KeyError or JSONDecodeError. The handler depends only on the exception, wherever the try block raised it. |
| `Worker.RequeueLosesPlace` | worker/main.py:95-104 | A record that goes back is popped only after every record that was waiting behind it. |
| `Worker.BrpopFailureRequeuesStale` | worker/main.py:100-106 | When BRPOP raises: before any pop, nothing is pushed and the worker only backs off. Later, the previous record is pushed again, which adds a copy to the list. |
| `Worker.ConsumedRecordDuplicated` | worker/main.py:64-104 | A record whose comment was posted comes back onto the list when the next BRPOP raises. |
| `Worker.RetryAfterOneFailure` | worker/main.py:100-106 | A job whose GitHub call fails once, then succeeds, gets one back-off and then exactly one comment. |
| `Worker.TransitionKeepsRecords` | worker/main.py:64-106 | One iteration creates no record: everything on the list or in `job_json` afterwards was known before. |
| `Worker.RunKeepsRecords` | worker/main.py:64-106 | No run of the loop alters or invents a record. |
| `Worker.Worker.Step` | worker/main.py:65-106 | One iteration changes the list, `job_json` and the outcome exactly as `Transition` says. |
| `Worker.Worker.ProcessJobs` | worker/main.py:64-106 | The loop runs the iterations in order and stops at the first one whose handler push raises. |
| `Pipeline.QueuedJobIsCommented` | worker/main.py:68-91 | A job queued for `owner/repo` is popped after the waiting records. Once it is at the tail, whatever was pushed after it, the worker pops it: the later records stay, and the fixed comment goes on that PR through that installation. This holds provided `json.loads` reads back what `json.dumps` wrote. |

## Left out

- `ingest_docs.py` is not part of this model. It loads documents into a vector store through external libraries.
- Redis connection setup and the startup `ping` are left out. Their result is `Config.redisConnected` on the receiver side.
- The worker's exit when it cannot connect at startup, and its environment and private-key checks, are left out.
- FastAPI request parsing, dotenv and logging are left out.
- HMAC-SHA256 is an uninterpreted parameter, and `compare_digest` is plain equality plus its ASCII check. The constant-time behaviour is not modelled. That a one-bit change to the body or header flips acceptance depends on HMAC itself, so it is not proved.
- The parsed payload is an input of each request, taken as given and not computed as `json.loads(body)`. No contract ties the queued job to the signed bytes; every lemma holds for every pairing of body and payload.
- `json.dumps` and `json.loads` are parameters. Their round trip is assumed only for the queued record, as a precondition of `Pipeline.QueuedJobIsCommented`.
- JSON numbers are integers; floating-point values are not modelled. Redis records are strings; the bytes the worker actually receives are not modelled. A failure to decode those bytes other than a JSON decode error is an exception that `loads` returns, so it takes the generic handler.
- The text of the "Job queued for PR #…" message is not rendered. The response carries the PR number value itself.
- GitHub App authentication and the comment REST call are one exception-or-nothing parameter of each iteration. A call that raises after the comment was created is not modelled.
- `time.sleep(5)` is the `BackedOff` event, not real time.
- BRPOP's blocking is the `Waiting` event. Several concurrent workers, and a BRPOP that raises after the server removed the record, are not modelled.
- The `while True` loop runs over a finite sequence of iterations in `Worker.Worker.ProcessJobs`.
