/**
 * The status poll of a Power BI export job. After the export is accepted the
 * function asks for the job's status, waiting ten seconds before each
 * request, for as long as the last status it read is "Running". A request
 * that throws (transport error, non-success status, unparsable body) leaves
 * the status unchanged, so the loop just asks again. A reply that parses
 * replaces the status with its `status` field, which may be absent.
 */
module ExportJob {
  import opened Common

  const Running := "Running"
  const Succeeded := "Succeeded"

  /** What one status request gives. `Transient` is any request that throws
      and is caught inside the loop. `Answered` is a parsed reply, with its
      `status` and `resourceLocation` fields (`None` when absent). */
  datatype PollReply = Transient | Answered(status: Option<string>, resourceLocation: Option<string>)

  /** How the loop ends. `Finished` carries the status and resource location
      of the reply that ended it and the number of requests made.

      The replies are a finite input, and the source loops for as long as the
      service keeps answering "Running" or failing. `NotTerminated` marks
      that the model ran out of replies while the loop would still be
      polling; it is a device of the model, not something the source
      returns. */
  datatype PollOutcome =
    | Finished(status: Option<string>, resourceLocation: Option<string>, statusRequests: nat)
    | NotTerminated(statusRequests: nat)

  /** A reply that stops the loop: a parsed reply whose status is anything
      other than "Running", including an absent status. */
  predicate Ends(r: PollReply) {
    r.Answered? && r.status != Some(Running)
  }

  /** The outcome of polling from request number `k` (counting from zero). */
  function PollFrom(polls: seq<PollReply>, k: nat): PollOutcome
    requires k <= |polls|
    decreases |polls| - k
  {
    if k == |polls| then NotTerminated(k)
    else if Ends(polls[k]) then Finished(polls[k].status, polls[k].resourceLocation, k + 1)
    else PollFrom(polls, k + 1)
  }

  /** The outcome of the whole poll. */
  function Poll(polls: seq<PollReply>): PollOutcome {
    PollFrom(polls, 0)
  }

  /** The `while (jobStatus == "Running")` loop, with the replies of its
      status requests given in order. */
  method PollExportJob(polls: seq<PollReply>) returns (outcome: PollOutcome)
    ensures outcome == Poll(polls)
  {
    var jobStatus: Option<string> := Some(Running);
    var resourceLocation: Option<string> := None;
    var retryCount: nat := 0;
    while jobStatus == Some(Running)
      invariant retryCount <= |polls|
      invariant jobStatus == Some(Running) ==> PollFrom(polls, retryCount) == Poll(polls)
      invariant jobStatus != Some(Running) ==> Poll(polls) == Finished(jobStatus, resourceLocation, retryCount)
      decreases |polls| - retryCount, if jobStatus == Some(Running) then 1 else 0
    {
      if retryCount == |polls| {
        return NotTerminated(retryCount);
      }
      retryCount := retryCount + 1;
      match polls[retryCount - 1]
      case Transient =>
      case Answered(status, location) =>
        jobStatus := status;
        resourceLocation := location;
    }
    outcome := Finished(jobStatus, resourceLocation, retryCount);
  }

  /** Polling from `k` ends at the first ending reply at or after `k`, or
      runs out of replies when there is none. */
  lemma {:induction false} PollFromEndsAtFirstEnding(polls: seq<PollReply>, k: nat)
    requires k <= |polls|
    ensures match PollFrom(polls, k)
            case Finished(status, location, n) =>
              && k < n <= |polls|
              && polls[n - 1] == Answered(status, location)
              && Ends(polls[n - 1])
              && (forall j :: k <= j < n - 1 ==> !Ends(polls[j]))
            case NotTerminated(n) =>
              && n == |polls|
              && (forall j :: k <= j < |polls| ==> !Ends(polls[j]))
    decreases |polls| - k
  {
    if k < |polls| && !Ends(polls[k]) {
      PollFromEndsAtFirstEnding(polls, k + 1);
    }
  }

  /** The loop makes exactly as many status requests as it takes to reach the
      first reply that is not "Running" (a transient failure counts as a
      request), and it ends with that reply's status and location. It runs
      on only when no reply ends it. */
  lemma PollEndsAtFirstEnding(polls: seq<PollReply>)
    ensures match Poll(polls)
            case Finished(status, location, n) =>
              && 1 <= n <= |polls|
              && polls[n - 1] == Answered(status, location)
              && status != Some(Running)
              && (forall j :: 0 <= j < n - 1 ==> !Ends(polls[j]))
            case NotTerminated(n) =>
              && n == |polls|
              && (forall j :: 0 <= j < |polls| ==> !Ends(polls[j]))
  {
    PollFromEndsAtFirstEnding(polls, 0);
  }

  /** The converse: a reply at index `n - 1` that ends the loop, with none
      before it, determines the outcome. */
  lemma {:induction false} FirstEndingDeterminesPoll(polls: seq<PollReply>, n: nat)
    requires 1 <= n <= |polls| && Ends(polls[n - 1])
    requires forall j :: 0 <= j < n - 1 ==> !Ends(polls[j])
    ensures Poll(polls) == Finished(polls[n - 1].status, polls[n - 1].resourceLocation, n)
  {
    PollEndsAtFirstEnding(polls);
  }

  /** Replies after the one that ends the loop are never read. */
  lemma {:induction false} LaterRepliesUnread(polls: seq<PollReply>, more: seq<PollReply>)
    requires Poll(polls).Finished?
    ensures Poll(polls + more) == Poll(polls)
  {
    PollEndsAtFirstEnding(polls);
    var n := Poll(polls).statusRequests;
    var all := polls + more;
    assert all[n - 1] == polls[n - 1];
    forall j | 0 <= j < n - 1 ensures !Ends(all[j]) {
      assert all[j] == polls[j];
    }
    FirstEndingDeterminesPoll(all, n);
  }
}
