/** The receiver and the worker together, joined by the list. */
module Pipeline {
  import opened Wrappers
  import opened Values
  import Ingestion
  import Worker
  import RedisList

  /**
   * A job the receiver queues for `owner/repo` is popped only after every record
   * already waiting. Once it is at the tail, whatever records (`later`) were pushed
   * after it, the worker pops it and posts the fixed comment on that PR through
   * a client for that installation. This relies on `json.loads` reading back what
   * `json.dumps` wrote for that job.
   */
  lemma QueuedJobIsCommented(
    cfg: Ingestion.Config, req: Ingestion.Request, loads: Worker.Loads,
    waiting: seq<string>, later: seq<string>, jobJson: Option<string>, owner: string, repo: string)
    requires Ingestion.Decide(cfg, req).Enqueue?
    requires Ingestion.Decide(cfg, req).job.repoFullName == JStr(owner + "/" + repo)
    requires '/' !in owner && '/' !in repo
    requires var job := Ingestion.Decide(cfg, req).job;
      loads(cfg.dumps(job.ToJson())) == Success(job.ToJson())
    ensures
      var job := Ingestion.Decide(cfg, req).job;
      var record := cfg.dumps(job.ToJson());
      && RedisList.PopOrder([record] + waiting) == RedisList.PopOrder(waiting) + [record]
      && Worker.Transition(Worker.State(later + [record], jobJson), loads, Worker.Env(false, None, true)) ==
         (Worker.State(later, Some(record)),
          Worker.Commented(Worker.Comment(job.installationId, owner, repo, job.prNumber, Worker.CommentBody)))
  {
    var job := Ingestion.Decide(cfg, req).job;
    var record := cfg.dumps(job.ToJson());
    RedisList.PopOrderPrepend(record, waiting);
    var queue := later + [record];
    assert queue[|queue| - 1] == record && queue[..|queue| - 1] == later;
    var name := owner + "/" + repo;
    assert multiset(name) == multiset(owner) + multiset{'/'} + multiset(repo);
    assert multiset(name)['/'] == 1;
    Worker.RunJobPosts(record, loads, None);
    var comment := Worker.RunJob(record, loads, None).value;
    PrefixBeforeSeparator(comment.owner, comment.repo, owner, repo, '/');
  }
}
