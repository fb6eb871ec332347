/** What a client submits is what gets done: over whole runs, from the arguments of
    scheduler_submit_job to the calls of the job's function. */
module DagSubmitted {
  import opened Basics
  import opened Splitting
  import opened TaskDag
  import opened DagInvariant
  import opened DagTheorems
  import opened DagOutcome
  import opened DagCalls

  /** A job of n indices, and the chunk size that the client asked for. */
  datatype Submission = Submission(n: nat, chunk: nat)

  /** The submission under way after event e, when it was `now` before. */
  function After(now: Option<Submission>, e: Event): Option<Submission> {
    if e.Submit? && e.m.SubmitRoot? then Some(Submission(e.m.n, e.m.chunk)) else now
  }

  /** What was submitted as job j: the arguments of the last call of scheduler_submit_job before the
      push that accepted it. */
  function SubmittedAs(es: seq<Event>, j: JobId, now: Option<Submission>): Option<Submission>
    decreases |es|
  {
    if es == [] then None
    else if es[0] == Submit(SubmitPush(j)) then now
    else SubmittedAs(es[1..], j, After(now, es[0]))
  }

  /** The record of a job, or of a submission, for q: its very size, and the chunk size asked for unless
      that is 0 or more than the size; then it is 128. */
  predicate Records(n: nat, chunk: nat, q: Submission) {
    && n == q.n
    && (1 <= q.chunk <= q.n ==> chunk == q.chunk)
    && (q.chunk == 0 || q.chunk > q.n ==> chunk == 128)
  }

  /** The submitting thread remembers what it was called with. */
  predicate Remembers(s: State, now: Option<Submission>) {
    match s.sub
    case HasRoot(_, n, chunk) => now.Some? && Records(n, chunk, now.value)
    case HasBoth(_, _, n, chunk) => now.Some? && Records(n, chunk, now.value)
    case _ => true
  }

  lemma StepRemembers(s: State, e: Event, now: Option<Submission>)
    requires Enabled(s, e) && Remembers(s, now)
    ensures Remembers(Apply(s, e), After(now, e))
  {
    match e
    case Loop(w, l) => LoopKeepsSubmitter(s, w, l);
    case Stack(w, f) => StackKeepsSubmitter(s, w, f);
    case Submit(_) =>
  }

  lemma LoopKeepsSubmitter(s: State, w: WorkerId, l: LoopEvent)
    requires LoopEnabled(s, w, l)
    ensures LoopApply(s, w, l).sub == s.sub
  {
  }

  lemma StackKeepsSubmitter(s: State, w: WorkerId, f: StackEvent)
    requires StackEnabled(s, w, f)
    ensures StackApply(s, w, f).sub == s.sub
  {
  }

  lemma {:induction false} RecordStays(s: State, es: seq<Event>, j: JobId)
    requires IsRun(s, es) && j in s.jobs
    ensures j in Final(s, es).jobs && Final(s, es).jobs[j].n == s.jobs[j].n && Final(s, es).jobs[j].chunk == s.jobs[j].chunk
    decreases |es|
  {
    if es != [] {
      JobStays(s, es[0], j);
      RecordStays(Apply(s, es[0]), es[1..], j);
    }
  }

  lemma {:induction false} RunRecords(s: State, es: seq<Event>, j: JobId, now: Option<Submission>)
    requires IsRun(s, es) && Remembers(s, now) && j !in s.jobs && j in Final(s, es).jobs
    ensures SubmittedAs(es, j, now).Some?
    ensures Records(Final(s, es).jobs[j].n, Final(s, es).jobs[j].chunk, SubmittedAs(es, j, now).value)
    decreases |es|
  {
    var s' := Apply(s, es[0]);
    StepRemembers(s, es[0], now);
    if es[0] == Submit(SubmitPush(j)) {
      RecordStays(s', es[1..], j);
    } else {
      if j in s'.jobs { NewJob(s, es[0], j); }
      RunRecords(s', es[1..], j, After(now, es[0]));
    }
  }

  /** In every reachable state the record of every accepted job is that of what its client submitted. */
  lemma RecordedAsSubmitted(s0: State, es: seq<Event>, j: JobId)
    requires Init(s0) && IsRun(s0, es) && j in Final(s0, es).jobs
    ensures SubmittedAs(es, j, None).Some?
    ensures Records(Final(s0, es).jobs[j].n, Final(s0, es).jobs[j].chunk, SubmittedAs(es, j, None).value)
  {
    RunRecords(s0, es, j, None);
  }

  ghost predicate Within(calls: seq<Range>, x: int) {
    exists k: nat :: k < |calls| && calls[k].Contains(x)
  }

  /** The headline, of what was submitted: when the job is DONE, every index below the submitted size is
      in exactly one call of its function, no other index is in any, and all nodes but, at most, the root
      are released. */
  lemma SubmittedIsDone(s0: State, es: seq<Event>, j: JobId, q: Submission)
    requires Init(s0) && IsRun(s0, es) && j in Final(s0, es).jobs && Final(s0, es).jobs[j].done
    requires SubmittedAs(es, j, None) == Some(q)
    ensures var calls := Final(s0, es).jobs[j].calls;
            && (forall x: nat :: x < q.n ==> Within(calls, x))
            && (forall x: int, k: nat, i: nat :: k < |calls| && i < |calls| && calls[k].Contains(x) && calls[i].Contains(x) ==> k == i)
            && (forall k: nat :: k < |calls| ==> calls[k].hi <= q.n && (calls[k].lo < calls[k].hi || q.n == 0))
            && (q.n == 0 ==> calls == [Range(0, 0)])
    ensures forall t :: t in Final(s0, es).tasks && Started(Final(s0, es).tasks[t]) && Final(s0, es).tasks[t].job == j ==>
              t == Final(s0, es).jobs[j].root
  {
    RecordedAsSubmitted(s0, es, j);
    JobDone(s0, es, j);
    CallsWhenDone(s0, es, j);
    var job := Final(s0, es).jobs[j];
    forall x: nat | x < q.n ensures Within(job.calls, x) {
      assert Covered(job, x);
      var k: nat :| InCall(job, k, x);
      assert job.calls[k].Contains(x);
    }
    forall x: int, k: nat, i: nat | k < |job.calls| && i < |job.calls| && job.calls[k].Contains(x) && job.calls[i].Contains(x)
      ensures k == i
    {
      assert InCall(job, k, x) && InCall(job, i, x);
    }
    forall k: nat | k < |job.calls| ensures job.calls[k].hi <= q.n && (job.calls[k].lo < job.calls[k].hi || q.n == 0) {
      CallsAreParts(s0, es, j, k);
    }
  }

  /** And of the chunk size asked for: in every reachable state every call starts at a multiple of it and
      ends at one or at the end of the job; a job of no more than one chunk has one call. */
  lemma SubmittedChunks(s0: State, es: seq<Event>, j: JobId, q: Submission, k: nat)
    requires Init(s0) && IsRun(s0, es) && j in Final(s0, es).jobs && k < |Final(s0, es).jobs[j].calls|
    requires SubmittedAs(es, j, None) == Some(q)
    ensures var c: pos := if q.chunk == 0 || q.chunk > q.n then 128 else q.chunk;
            var call := Final(s0, es).jobs[j].calls[k];
            && call.lo % c == 0 && (call.hi % c == 0 || call.hi == q.n)
            && (q.n <= c && Final(s0, es).jobs[j].done ==> Final(s0, es).jobs[j].calls == [Range(0, q.n)])
  {
    RecordedAsSubmitted(s0, es, j);
    CallsAreParts(s0, es, j, k);
    OneCallWhenDone(s0, es, j);
  }
}
