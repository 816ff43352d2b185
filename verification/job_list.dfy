/**
 * The application's list of submitted jobs: it starts empty, each submission
 * is appended at the end, and the demo reset empties it.
 */
module JobList {

  /** The list the application starts with. */
  function Initial<T>(): (r: seq<T>)
    ensures |r| == 0
  {
    []
  }

  /**
   * Recording a submission: the list grows by one, the new job is last, and
   * every earlier job keeps its place.
   */
  function Append<T>(jobs: seq<T>, job: T): (r: seq<T>)
    ensures |r| == |jobs| + 1
    ensures r[|jobs|] == job
    ensures forall i :: 0 <= i < |jobs| ==> r[i] == jobs[i]
  {
    jobs + [job]
  }

  /** The demo reset: the list is empty whatever it held. */
  function Reset<T>(jobs: seq<T>): (r: seq<T>)
    ensures |r| == 0
  {
    []
  }

  /** The flag the dashboard receives: at least one job has been submitted. */
  predicate HasSubmittedJobs<T>(jobs: seq<T>)
    ensures HasSubmittedJobs(jobs) <==> jobs != []
  {
    |jobs| > 0
  }

  /** Recording submissions one after another, left to right. */
  function AppendEach<T>(jobs: seq<T>, batch: seq<T>): seq<T>
    decreases |batch|
  {
    if |batch| == 0 then jobs else AppendEach(Append(jobs, batch[0]), batch[1..])
  }

  /**
   * Recording a series of submissions one by one leaves the earlier jobs
   * first and the new ones after them, in submission order.
   */
  lemma {:induction false} AppendEachKeepsOrder<T>(jobs: seq<T>, batch: seq<T>)
    decreases |batch|
    ensures |AppendEach(jobs, batch)| == |jobs| + |batch|
    ensures forall i :: 0 <= i < |jobs| ==> AppendEach(jobs, batch)[i] == jobs[i]
    ensures forall i :: 0 <= i < |batch| ==> AppendEach(jobs, batch)[|jobs| + i] == batch[i]
  {
    if |batch| > 0 {
      var next := Append(jobs, batch[0]);
      AppendEachKeepsOrder(next, batch[1..]);
      forall i | 0 <= i < |batch|
        ensures AppendEach(jobs, batch)[|jobs| + i] == batch[i]
      {
        if i > 0 {
          assert AppendEach(jobs, batch)[|next| + (i - 1)] == batch[1..][i - 1];
        }
      }
    }
  }

  /**
   * The has-jobs flag is true after any submission and false after a reset,
   * whatever came before.
   */
  lemma HasJobsFlag<T>(jobs: seq<T>, job: T)
    ensures HasSubmittedJobs(Append(jobs, job))
    ensures !HasSubmittedJobs(Reset(jobs))
    ensures !HasSubmittedJobs(Initial<T>())
    ensures HasSubmittedJobs(jobs) <==> jobs != []
  {
  }
}
