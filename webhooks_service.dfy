// The intake side of webhook delivery: every truthy payload becomes one job
// on the `webhooks` queue, with fixed retry options; a falsy one is dropped.
module WebhooksService {
  import opened Wrappers
  import opened Gateway
  import Seqs

  datatype BackoffKind = Exponential
  datatype Backoff = Backoff(kind: BackoffKind, delayMs: nat)
  datatype JobOptions = JobOptions(removeOnComplete: bool, attempts: nat, backoff: Backoff)

  /** A queued job: its name, the payload it carries and its retry options. */
  datatype Job = Job(name: string, data: Envelope, opts: JobOptions)

  const JobName := "process-webhook"

  /** Three attempts, exponential backoff from one second, removed once completed. */
  const RetryOptions := JobOptions(true, 3, Backoff(Exponential, 1000))

  /** The reply to an accepted delivery. */
  datatype Ack = Ack(success: bool)

  /**
   * The queue after a delivery: unchanged for a falsy payload (`None`),
   * otherwise one job more, carrying the payload unchanged.
   */
  function Enqueued(jobs: seq<Job>, payload: Option<Envelope>): (r: seq<Job>)
    ensures payload.None? ==> r == jobs
    ensures payload.Some? ==> |r| == |jobs| + 1 && r[..|jobs|] == jobs
    ensures payload.Some? ==> r[|jobs|].name == JobName && r[|jobs|].data == payload.value
    ensures forall i :: |jobs| <= i < |r| ==> r[i].opts.attempts == 3 && r[i].opts.backoff == Backoff(Exponential, 1000)
    ensures forall i :: |jobs| <= i < |r| ==> r[i].opts.removeOnComplete
  {
    if payload.None? then jobs else jobs + [Job(JobName, payload.value, RetryOptions)]
  }

  /** Every job a run of deliveries adds carries the standard retry options. */
  lemma {:induction false} AllJobsRetry(jobs: seq<Job>, payloads: seq<Option<Envelope>>)
    requires forall i :: 0 <= i < |jobs| ==> jobs[i].opts == RetryOptions
    ensures var r := EnqueuedAll(jobs, payloads);
      forall i :: 0 <= i < |r| ==> r[i].opts == RetryOptions
    decreases |payloads|
  {
    if payloads != [] {
      var next := Enqueued(jobs, payloads[0]);
      forall i | 0 <= i < |next| ensures next[i].opts == RetryOptions {
        if i < |jobs| {
          assert next[i] == next[..|jobs|][i];
        }
      }
      AllJobsRetry(next, payloads[1..]);
      assert EnqueuedAll(jobs, payloads) == EnqueuedAll(next, payloads[1..]);
    }
  }

  /** The queue after a run of deliveries, in order. */
  function EnqueuedAll(jobs: seq<Job>, payloads: seq<Option<Envelope>>): (r: seq<Job>)
    ensures |jobs| <= |r| && r[..|jobs|] == jobs
    decreases |payloads|
  {
    if payloads == [] then jobs
    else
      var r := EnqueuedAll(Enqueued(jobs, payloads[0]), payloads[1..]);
      assert Enqueued(jobs, payloads[0])[..|jobs|] == jobs;
      assert r[..|jobs|] == Enqueued(jobs, payloads[0])[..|Enqueued(jobs, payloads[0])|][..|jobs|];
      r
  }

  /** A run of deliveries adds exactly one job per truthy payload. */
  lemma {:induction false} OneJobPerTruthyPayload(jobs: seq<Job>, payloads: seq<Option<Envelope>>)
    ensures |EnqueuedAll(jobs, payloads)| == |jobs| + Seqs.Count(payloads, (p: Option<Envelope>) => p.Some?)
    decreases |payloads|
  {
    if payloads != [] {
      OneJobPerTruthyPayload(Enqueued(jobs, payloads[0]), payloads[1..]);
    }
  }

  /** The job queue the service writes to. */
  class Queue {
    var jobs: seq<Job>

    constructor()
      ensures jobs == []
    {
      jobs := [];
    }
  }

  class WebhooksService {
    const queue: Queue

    constructor(queue: Queue)
      ensures this.queue == queue
    {
      this.queue := queue;
    }

    /** Accept one delivery: drop a falsy payload, otherwise enqueue it and acknowledge. */
    method HandleWebhook(payload: Option<Envelope>) returns (r: Option<Ack>)
      modifies queue
      ensures queue.jobs == Enqueued(old(queue.jobs), payload)
      ensures r.None? <==> payload.None?
      ensures r.Some? ==> r.value.success
    {
      if payload.None? {
        return None;
      }
      queue.jobs := queue.jobs + [Job(JobName, payload.value, RetryOptions)];
      r := Some(Ack(true));
    }
  }
}
