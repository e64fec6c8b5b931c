/**
 * The chunked-task orchestrator of server.py: the registries that link an
 * uploaded track to the tasks its chunks were dispatched as, the Jobs that
 * stand for those tasks, and the frozen progress record written once the
 * stems are reassembled.
 *
 * The module-level globals of the server are the fields of one `Server`
 * object. Every request handler is a method of it. The worker pool is
 * outside the model: a dispatched task is named by a `Handle` (the track id
 * and the task counter it was sent with), and its state and result reach a
 * poll as the parameter `status`. The audio library is outside the model
 * too: a dispatch gets the decoded length of the stored track in
 * milliseconds as the parameter `duration` (None where decoding raises),
 * and `getsizeof` of each encoded chunk, in window order, as `sizes`.
 */
module Orchestrator {
  import opened Wrappers
  import opened Text
  import opened IdSpace
  import opened Chunking
  import opened Reassembly

  datatype Track = Track(trackId: nat, name: string)

  datatype Music = Music(musicId: nat, name: string, band: string, tracks: seq<Track>)

  datatype Instrument = Instrument(name: string, track: string)

  datatype Progress = Progress(progress: nat, instruments: seq<Instrument>, final: string)

  /** A Job; `time` and `trackIds` are set when its task is first seen to succeed. */
  datatype Job = Job(jobId: nat, size: nat, time: Option<nat>, musicId: nat, trackIds: seq<nat>)

  /** The title and artist frames of the upload's ID3 tag, when they can be read. */
  datatype Tags = Tags(title: string, artist: string)

  /** What the pool reports for task `h`; a task it does not know is reported pending, as Celery does. */
  function StateOf(status: map<Handle, TaskState>, h: Handle): TaskState
  {
    if h in status then status[h] else Pending
  }

  /** A dispatched task: the track it belongs to and its chunk index (`taskCounter`). */
  datatype Handle = Handle(musicId: nat, index: nat)

  /** What the worker pool reports for a task; a success carries its result, if any. */
  datatype TaskState = Pending | Failure | Success(info: Option<TaskInfo>)

  /** The answers of music_id_post; `Crashed` is an exception that escapes the handler. */
  datatype DispatchResult = Accepted | NotFound | AlreadySubmitted | InvalidTrack | Crashed

  /** The answers of music_id_get; `Crashed` is an exception that escapes the handler. */
  datatype PollResult =
    | NotFound
    | Cached(progress: Progress)
    | Running(progress: Progress)
    | Completed(progress: Progress, output: Reassembled)
    | Crashed

  /** The instrument names a submission may select, in the order of every link list. */
  const StemNames: seq<string> := ["bass", "drums", "vocals", "other"]

  lemma StemNamesKnown(name: string)
    ensures name in StemNames <==> StemNamed(name).Some?
  {
  }

  /** The handles of the first `n` chunks of track `id`, in dispatch order. */
  function Handles(id: nat, n: nat): (hs: seq<Handle>)
    ensures |hs| == n && forall k :: 0 <= k < n ==> hs[k] == Handle(id, k)
  {
    seq(n, k requires 0 <= k < n => Handle(id, k))
  }

  /** The same handles as a set. */
  function HandleSet(id: nat, n: nat): (hs: set<Handle>)
    ensures forall h :: h in hs <==> h.musicId == id && h.index < n
  {
    set k | 0 <= k < n :: Handle(id, k)
  }

  /** The address under which a file of a finished track is published. */
  function Link(id: nat, file: string): string
  {
    "localhost:5000/static/" + NatToString(id) + "/" + file + ".wav"
  }

  /** The answer below 100%: every link empty. */
  function EmptyLinks(percent: nat): Progress
  {
    Progress(percent, seq(4, i requires 0 <= i < 4 => Instrument(StemNames[i], "")), "")
  }

  /** The frozen answer of a finished track: all four stem links and the final mix. */
  function Finished(id: nat): Progress
  {
    Progress(100, seq(4, i requires 0 <= i < 4 => Instrument(StemNames[i], Link(id, StemNames[i]))), Link(id, "final"))
  }

  lemma ProgressShapes(id: nat, percent: nat)
    ensures var p := EmptyLinks(percent);
      p.progress == percent && p.final == "" && |p.instruments| == 4 &&
      forall i :: 0 <= i < 4 ==> p.instruments[i].name == StemNames[i] && p.instruments[i].track == ""
    ensures var p := Finished(id);
      p.progress == 100 && p.final == Link(id, "final") && |p.instruments| == 4 &&
      forall i :: 0 <= i < 4 ==> p.instruments[i].name == StemNames[i] && p.instruments[i].track == Link(id, StemNames[i])
  {
  }

  // ---------------------------------------------------------------------
  // Counting and percentage.
  // ---------------------------------------------------------------------

  /** How many of the tasks the pool reports as successful. */
  function SuccessCount(cbs: seq<Handle>, status: map<Handle, TaskState>): (n: nat)
    ensures n <= |cbs|
    ensures n == |cbs| <==> forall k :: 0 <= k < |cbs| ==> StateOf(status, cbs[k]).Success?
  {
    if |cbs| == 0 then 0
    else SuccessCount(cbs[..|cbs| - 1], status) + (if StateOf(status, cbs[|cbs| - 1]).Success? then 1 else 0)
  }

  /** `int(successes / total * 100)`, in whole percent: the exact percentage rounded down. */
  function Percent(successes: nat, total: nat): (p: nat)
    requires total > 0
    ensures p * total <= successes * 100 < (p + 1) * total
  {
    successes * 100 / total
  }

  /** The percentage lies in 0..100 and is 100 exactly when every task succeeded. */
  lemma PercentRange(successes: nat, total: nat)
    requires 0 < total && successes <= total
    ensures Percent(successes, total) <= 100
    ensures Percent(successes, total) == 100 <==> successes == total
  {
    var scaled := successes * 100;
    if successes < total {
      assert scaled < 100 * total;
      DivUpperBound(scaled, total, 99);
    } else {
      assert scaled == 100 * total;
      DivUnique(scaled, total, 100);
    }
  }

  /** A successful task whose result is missing: reading its timestamp raises. */
  predicate MissingInfo(st: TaskState)
  {
    st.Success? && st.info.None?
  }

  /** Where the counting loop stops: the first task whose success has no result, or the end. */
  function FirstMissing(cbs: seq<Handle>, status: map<Handle, TaskState>): (c: nat)
    ensures c <= |cbs|
    ensures forall q :: 0 <= q < c ==> !MissingInfo(StateOf(status, cbs[q]))
    ensures c < |cbs| ==> MissingInfo(StateOf(status, cbs[c]))
  {
    if |cbs| == 0 then 0
    else if MissingInfo(StateOf(status, cbs[0])) then 0
    else 1 + FirstMissing(cbs[1..], status)
  }

  /**
   * The timestamp each Job gets from the counting loop over `cbs`: the Job of
   * every successful task, with the time of the first such task, since a Job
   * that is already marked is left alone.
   */
  function SuccessTimes(cbs: seq<Handle>, status: map<Handle, TaskState>, jobOf: map<Handle, nat>): map<nat, nat>
    requires forall k :: 0 <= k < |cbs| ==> cbs[k] in jobOf
  {
    if |cbs| == 0 then map[]
    else
      var earlier := SuccessTimes(cbs[..|cbs| - 1], status, jobOf);
      var h := cbs[|cbs| - 1];
      if StateOf(status, h).Success? && StateOf(status, h).info.Some? && jobOf[h] !in earlier
      then earlier[jobOf[h] := StateOf(status, h).info.value.time]
      else earlier
  }

  /** The results of the successful tasks, in dispatch order. */
  function Infos(cbs: seq<Handle>, status: map<Handle, TaskState>): seq<TaskInfo>
  {
    if |cbs| == 0 then []
    else
      var st := StateOf(status, cbs[|cbs| - 1]);
      Infos(cbs[..|cbs| - 1], status) + (if st.Success? && st.info.Some? then [st.info.value] else [])
  }

  // ---------------------------------------------------------------------
  // Jobs and their marking.
  // ---------------------------------------------------------------------

  /** A Job whose task has not yet been seen to succeed. */
  predicate Unmarked(j: Job)
  {
    j.time.None? && j.trackIds == []
  }

  /** A Job that has been marked: a timestamp and four track ids. */
  predicate Marked(j: Job)
  {
    j.time.Some? && |j.trackIds| == 4
  }

  function UnmarkedCount(js: seq<Job>): (n: nat)
    ensures n <= |js|
  {
    if |js| == 0 then 0
    else UnmarkedCount(js[..|js| - 1]) + (if Unmarked(js[|js| - 1]) then 1 else 0)
  }

  lemma {:induction false} UnmarkedCountUpdate(js: seq<Job>, i: nat, j: Job)
    requires i < |js|
    ensures UnmarkedCount(js[i := j]) ==
      UnmarkedCount(js) - (if Unmarked(js[i]) then 1 else 0) + (if Unmarked(j) then 1 else 0)
    decreases |js|
  {
    var n := |js| - 1;
    if i < n {
      UnmarkedCountUpdate(js[..n], i, j);
      assert js[i := j][..n] == js[..n][i := j];
    } else {
      assert js[i := j][..n] == js[..n];
    }
  }

  /** Appending unmarked Jobs adds one unmarked Job each. */
  lemma {:induction false} UnmarkedCountGrow(j0: seq<Job>, j1: seq<Job>)
    requires |j1| >= |j0| && j1[..|j0|] == j0
    requires forall i :: |j0| <= i < |j1| ==> Unmarked(j1[i])
    ensures UnmarkedCount(j1) == UnmarkedCount(j0) + (|j1| - |j0|)
    decreases |j1|
  {
    if |j1| > |j0| {
      var init := j1[..|j1| - 1];
      assert init[..|j0|] == j0;
      UnmarkedCountGrow(j0, init);
    } else {
      assert j1 == j0;
    }
  }

  /** How many Jobs went from unmarked in `before` to marked in `after`. */
  function NewlyMarked(before: seq<Job>, after: seq<Job>): (n: nat)
    requires |after| == |before|
    ensures n <= |before|
  {
    if |before| == 0 then 0
    else
      var k := |before| - 1;
      NewlyMarked(before[..k], after[..k]) + (if Unmarked(before[k]) && !Unmarked(after[k]) then 1 else 0)
  }

  /**
   * `after` is `before` with every unmarked Job whose id has a time in
   * `times` marked with that time and four distinct ids drawn after
   * `oldIds`; every other Job is unchanged.
   */
  predicate MarkedBy(before: seq<Job>, after: seq<Job>, times: map<nat, nat>, oldIds: seq<nat>, ids: seq<nat>)
  {
    |after| == |before| && forall i :: 0 <= i < |before| ==> MarkedEntry(before[i], after[i], times, oldIds, ids)
  }

  /** One Job of MarkedBy: marked when it was unmarked and has a time, unchanged otherwise. */
  predicate MarkedEntry(before: Job, after: Job, times: map<nat, nat>, oldIds: seq<nat>, ids: seq<nat>)
  {
    if Unmarked(before) && before.jobId in times then
      && after == before.(time := Some(times[before.jobId]), trackIds := after.trackIds)
      && |after.trackIds| == 4 && Distinct(after.trackIds)
      && forall t | t in after.trackIds :: t in ids && t !in oldIds
    else after == before
  }

  /** A marking round leaves unmarked exactly the Jobs it did not newly mark. */
  lemma {:induction false} MarkedByCount(before: seq<Job>, after: seq<Job>, times: map<nat, nat>, oldIds: seq<nat>, ids: seq<nat>)
    requires MarkedBy(before, after, times, oldIds, ids)
    ensures UnmarkedCount(before) == UnmarkedCount(after) + NewlyMarked(before, after)
    decreases |before|
  {
    if |before| > 0 {
      var k := |before| - 1;
      MarkedByCount(before[..k], after[..k], times, oldIds, ids);
    }
  }

  /** Every id drawn by `u0` is still drawn by `u1` when `u1` extends it. */
  lemma PrefixSubset(u0: seq<nat>, u1: seq<nat>)
    requires |u1| >= |u0| && u1[..|u0|] == u0
    ensures forall t | t in u0 :: t in u1
  {
    forall t | t in u0 ensures t in u1 {
      var p :| 0 <= p < |u0| && u0[p] == t;
      assert u1[p] == t;
    }
  }

  /**
   * The marking loop after its first `i` Jobs: those are marked as MarkedBy
   * says, the rest are untouched, and the drawn ids have only grown.
   */
  predicate Marking(j0: seq<Job>, js: seq<Job>, i: nat, times: map<nat, nat>, u0: seq<nat>, u: seq<nat>)
  {
    && i <= |js| == |j0| && js[i..] == j0[i..]
    && |u| >= |u0| && u[..|u0|] == u0
    && MarkedBy(j0[..i], js[..i], times, u0, u)
  }

  /** The marking loop, one Job further. */
  lemma MarkStep(j0: seq<Job>, js: seq<Job>, i: nat, next: Job, times: map<nat, nat>, u0: seq<nat>, u1: seq<nat>, u2: seq<nat>)
    requires Marking(j0, js, i, times, u0, u1) && i < |j0|
    requires MarkedEntry(js[i], next, times, u1, u2)
    requires |u2| >= |u1| && u2[..|u1|] == u1
    ensures Marking(j0, js[i := next], i + 1, times, u0, u2)
  {
    PrefixSubset(u1, u2);
    PrefixSubset(u0, u1);
    assert js[i] == js[i..][0] == j0[i];
    var after := js[i := next];
    assert after[..i + 1] == js[..i] + [next];
    assert j0[..i + 1] == j0[..i] + [j0[i]];
    forall q | i + 1 <= q < |j0| ensures after[q] == j0[q] {
      assert js[q] == js[i..][q - i];
    }
    assert after[i + 1..] == j0[i + 1..];
    assert u2[..|u0|] == u1[..|u0|];
  }

  /** The marking loop at its end: every Job marked as MarkedBy says. */
  lemma MarkingDone(j0: seq<Job>, js: seq<Job>, times: map<nat, nat>, u0: seq<nat>, u: seq<nat>)
    requires Marking(j0, js, |j0|, times, u0, u)
    ensures MarkedBy(j0, js, times, u0, u)
  {
    assert js[..|j0|] == js && j0[..|j0|] == j0;
  }

  /** Does every selected instrument name one of the four stems? (the loop of server.py:218-220) */
  method CheckSelection(selection: seq<string>) returns (ok: bool)
    ensures ok <==> KnownNames(selection)
  {
    var i := 0;
    while i < |selection|
      invariant 0 <= i <= |selection|
      invariant KnownNames(selection[..i])
    {
      StemNamesKnown(selection[i]);
      if selection[i] !in StemNames {
        return false;
      }
      assert selection[..i + 1] == selection[..i] + [selection[i]];
      i := i + 1;
    }
    assert selection[..i] == selection;
    return true;
  }

  /** The results of the tasks, read once every task has succeeded with a result (server.py:354-355, 398-399). */
  method CollectInfos(cbs: seq<Handle>, status: map<Handle, TaskState>) returns (infos: seq<TaskInfo>)
    requires forall k :: 0 <= k < |cbs| ==> StateOf(status, cbs[k]).Success? && StateOf(status, cbs[k]).info.Some?
    ensures |infos| == |cbs|
    ensures forall k :: 0 <= k < |cbs| ==> infos[k] == StateOf(status, cbs[k]).info.value
    ensures infos == Infos(cbs, status)
  {
    infos := [];
    var k := 0;
    while k < |cbs|
      invariant 0 <= k <= |cbs| && |infos| == k
      invariant forall q :: 0 <= q < k ==> infos[q] == StateOf(status, cbs[q]).info.value
      invariant infos == Infos(cbs[..k], status)
    {
      assert cbs[..k + 1][..k] == cbs[..k];
      infos := infos + [StateOf(status, cbs[k]).info.value];
      k := k + 1;
    }
    assert cbs[..k] == cbs;
  }

  /** SuccessTimes on one more task. */
  lemma SuccessTimesSnoc(cbs: seq<Handle>, status: map<Handle, TaskState>, jobOf: map<Handle, nat>, k: nat)
    requires k < |cbs| && forall q :: 0 <= q < |cbs| ==> cbs[q] in jobOf
    ensures var earlier, h := SuccessTimes(cbs[..k], status, jobOf), cbs[k];
      SuccessTimes(cbs[..k + 1], status, jobOf) ==
        if StateOf(status, h).Success? && StateOf(status, h).info.Some? && jobOf[h] !in earlier
        then earlier[jobOf[h] := StateOf(status, h).info.value.time] else earlier
    ensures SuccessCount(cbs[..k + 1], status) == SuccessCount(cbs[..k], status) + (if StateOf(status, cbs[k]).Success? then 1 else 0)
  {
    assert cbs[..k + 1][..k] == cbs[..k];
  }

  /**
   * The counting loop after its first `stop` tasks, from Jobs `j0` and drawn
   * ids `u0`: no task so far lacks a result, `successes` counts the successes,
   * and the Job of each success is marked with the time SuccessTimes gives.
   */
  ghost predicate Counting(cbs: seq<Handle>, status: map<Handle, TaskState>, jobOf: map<Handle, nat>, stop: nat,
                           successes: nat, j0: seq<Job>, js: seq<Job>, u0: seq<nat>, u: seq<nat>)
  {
    && (forall k :: 0 <= k < |cbs| ==> cbs[k] in jobOf)
    && stop <= |cbs|
    && (forall q :: 0 <= q < stop ==> !MissingInfo(StateOf(status, cbs[q])))
    && successes == SuccessCount(cbs[..stop], status)
    && |u| >= |u0| && u[..|u0|] == u0
    && |u| + 4 * UnmarkedCount(js) == |u0| + 4 * UnmarkedCount(j0)
    && NewlyHeld(j0, js, u0, u)
    && MarkedBy(j0, js, SuccessTimes(cbs[..stop], status, jobOf), u0, u)
  }

  /**
   * What one round of the counting loop does to the Jobs `j1` and drawn ids
   * `u1`: a success marks every unmarked Job `jobId` with the task's time,
   * drawing four ids per Job it marks, which are then exactly the ids the
   * Jobs newly hold; any other state changes nothing.
   */
  ghost predicate RoundEffect(st: TaskState, jobId: nat, j1: seq<Job>, js: seq<Job>, u1: seq<nat>, u: seq<nat>)
  {
    if st.Success? then
      && st.info.Some?
      && |u| >= |u1| && u[..|u1|] == u1
      && MarkedBy(j1, js, map[jobId := st.info.value.time], u1, u)
      && |u| + 4 * UnmarkedCount(js) == |u1| + 4 * UnmarkedCount(j1)
      && NewlyHeld(j1, js, u1, u)
    else js == j1 && u == u1
  }

  lemma CountStart(cbs: seq<Handle>, status: map<Handle, TaskState>, jobOf: map<Handle, nat>, j0: seq<Job>, u0: seq<nat>)
    requires forall k :: 0 <= k < |cbs| ==> cbs[k] in jobOf
    ensures Counting(cbs, status, jobOf, 0, 0, j0, j0, u0, u0)
  {
    assert u0[..|u0|] == u0;
    NewlyHeldNone(j0, u0);
  }

  /** The counting loop, one task further: a success marks its Job, any other state changes nothing. */
  lemma CountStep(cbs: seq<Handle>, status: map<Handle, TaskState>, jobOf: map<Handle, nat>, stop: nat, successes: nat,
                  j0: seq<Job>, j1: seq<Job>, js: seq<Job>, u0: seq<nat>, u1: seq<nat>, u: seq<nat>)
    requires Counting(cbs, status, jobOf, stop, successes, j0, j1, u0, u1) && stop < |cbs|
    requires RoundEffect(StateOf(status, cbs[stop]), jobOf[cbs[stop]], j1, js, u1, u)
    ensures Counting(cbs, status, jobOf, stop + 1, successes + (if StateOf(status, cbs[stop]).Success? then 1 else 0),
                     j0, js, u0, u)
  {
    SuccessTimesSnoc(cbs, status, jobOf, stop);
    var st := StateOf(status, cbs[stop]);
    if st.Success? {
      MarkedCompose(j0, j1, js, SuccessTimes(cbs[..stop], status, jobOf), jobOf[cbs[stop]], st.info.value.time, u0, u1, u);
      NewlyHeldChain(j0, j1, js, u0, u1, u);
    } else {
      assert u[..|u1|] == u1;
    }
    assert u[..|u0|] == u1[..|u0|];
  }

  /** The stopping point of the counting loop is the one FirstMissing names. */
  lemma {:induction false} FirstMissingIs(cbs: seq<Handle>, status: map<Handle, TaskState>, c: nat)
    requires c <= |cbs|
    requires forall q :: 0 <= q < c ==> !MissingInfo(StateOf(status, cbs[q]))
    requires c < |cbs| ==> MissingInfo(StateOf(status, cbs[c]))
    ensures FirstMissing(cbs, status) == c
  {
    if c > 0 {
      FirstMissingIs(cbs[1..], status, c - 1);
    }
  }

  /** Some Job with id `jobId` is marked. */
  ghost predicate JobMarked(js: seq<Job>, jobId: nat)
  {
    exists i :: 0 <= i < |js| && js[i].jobId == jobId && Marked(js[i])
  }

  /**
   * What one poll of the tasks `cbs` does to the Jobs `j0` and the drawn ids
   * `u0`: the counting loop runs up to FirstMissing, every Job of a success
   * up to there is marked with the first time reported for it, every other
   * Job is unchanged, and exactly four ids are drawn per newly marked Job.
   * The ids drawn are exactly the ids the Jobs newly hold, so no two Jobs
   * marked in one poll share one.
   */
  ghost predicate PollMarks(cbs: seq<Handle>, status: map<Handle, TaskState>, jobOf: map<Handle, nat>,
                            j0: seq<Job>, j1: seq<Job>, u0: seq<nat>, u1: seq<nat>)
  {
    && (forall k :: 0 <= k < |cbs| ==> cbs[k] in jobOf)
    && (var stop := FirstMissing(cbs, status);
        && |u1| >= |u0| && u1[..|u0|] == u0
        && MarkedBy(j0, j1, SuccessTimes(cbs[..stop], status, jobOf), u0, u1)
        && |u1| == |u0| + 4 * NewlyMarked(j0, j1)
        && NewlyHeld(j0, j1, u0, u1)
        && (forall k :: 0 <= k < stop && StateOf(status, cbs[k]).Success? ==> JobMarked(j1, jobOf[cbs[k]])))
  }

  /** Every task of the loop so far that succeeded has its Job in SuccessTimes. */
  lemma {:induction false} SuccessTimesDomain(cbs: seq<Handle>, status: map<Handle, TaskState>, jobOf: map<Handle, nat>)
    requires forall k :: 0 <= k < |cbs| ==> cbs[k] in jobOf
    ensures forall k :: 0 <= k < |cbs| && StateOf(status, cbs[k]).Success? && StateOf(status, cbs[k]).info.Some? ==>
      jobOf[cbs[k]] in SuccessTimes(cbs, status, jobOf)
    decreases |cbs|
  {
    if |cbs| > 0 {
      var n := |cbs| - 1;
      SuccessTimesDomain(cbs[..n], status, jobOf);
      assert forall k :: 0 <= k < n ==> cbs[..n][k] == cbs[k];
    }
  }

  /** After a marking round, a Job whose id has a time is marked, when every Job was unmarked or marked before. */
  lemma MarkedJobsMarked(j0: seq<Job>, j1: seq<Job>, times: map<nat, nat>, u0: seq<nat>, u1: seq<nat>, jobId: nat, i: nat)
    requires MarkedBy(j0, j1, times, u0, u1) && jobId in times
    requires i < |j0| && j0[i].jobId == jobId && (Unmarked(j0[i]) || Marked(j0[i]))
    ensures JobMarked(j1, jobId)
  {
    assert MarkedEntry(j0[i], j1[i], times, u0, u1);
    assert j1[i].jobId == jobId && Marked(j1[i]);
  }

  /** The counting loop at its end: what it did to the Jobs and ids is what PollMarks says. */
  lemma CountingDone(cbs: seq<Handle>, status: map<Handle, TaskState>, jobOf: map<Handle, nat>, stop: nat,
                     successes: nat, j0: seq<Job>, js: seq<Job>, u0: seq<nat>, u: seq<nat>)
    requires Counting(cbs, status, jobOf, stop, successes, j0, js, u0, u)
    requires stop < |cbs| ==> MissingInfo(StateOf(status, cbs[stop]))
    requires JobsOk(u0, j0) && CallbacksOk(jobOf, j0)
    ensures stop == FirstMissing(cbs, status) && successes == SuccessCount(cbs[..stop], status)
    ensures |u| + 4 * UnmarkedCount(js) == |u0| + 4 * UnmarkedCount(j0)
    ensures PollMarks(cbs, status, jobOf, j0, js, u0, u)
    ensures CallbacksOk(jobOf, js)
  {
    FirstMissingIs(cbs, status, stop);
    var times := SuccessTimes(cbs[..stop], status, jobOf);
    MarkedByCount(j0, js, times, u0, u);
    SuccessTimesDomain(cbs[..stop], status, jobOf);
    forall k | 0 <= k < stop && StateOf(status, cbs[k]).Success? ensures JobMarked(js, jobOf[cbs[k]]) {
      assert cbs[..stop][k] == cbs[k];
      var h := cbs[k];
      var i := TrackJobWitness(j0, h.musicId, jobOf[h]);
      MarkedJobsMarked(j0, js, times, u0, u, jobOf[h], i);
    }
    MarkedKeepsCallbacks(jobOf, j0, js, times, u0, u);
  }

  /** Marking once more after a series of markings is one series of markings. */
  lemma MarkedCompose(j0: seq<Job>, j1: seq<Job>, j2: seq<Job>, times: map<nat, nat>, jobId: nat, time: nat,
                      u0: seq<nat>, u1: seq<nat>, u2: seq<nat>)
    requires MarkedBy(j0, j1, times, u0, u1)
    requires MarkedBy(j1, j2, map[jobId := time], u1, u2)
    requires |u1| >= |u0| && u1[..|u0|] == u0 && |u2| >= |u1| && u2[..|u1|] == u1
    ensures MarkedBy(j0, j2, if jobId in times then times else times[jobId := time], u0, u2)
  {
    forall t | t in u1 ensures t in u2 {
      var p :| 0 <= p < |u1| && u1[p] == t;
      assert u2[p] == t;
    }
    forall t | t in u0 ensures t in u1 {
      var p :| 0 <= p < |u0| && u0[p] == t;
      assert u1[p] == t;
    }
  }

  /**
   * Marking happens once: a Job that one poll marked, or found marked,
   * keeps its time and its four ids through every later poll.
   */
  lemma MarkedStays(j0: seq<Job>, j1: seq<Job>, j2: seq<Job>, t1: map<nat, nat>, t2: map<nat, nat>,
                    u0: seq<nat>, u1: seq<nat>, u2: seq<nat>)
    requires MarkedBy(j0, j1, t1, u0, u1) && MarkedBy(j1, j2, t2, u1, u2)
    ensures |j2| == |j0|
    ensures forall i :: 0 <= i < |j0| && !Unmarked(j1[i]) ==> j2[i] == j1[i]
    ensures forall i :: 0 <= i < |j0| && Unmarked(j0[i]) && j0[i].jobId in t1 ==>
      j2[i] == j1[i] && j2[i].time == Some(t1[j0[i].jobId]) && |j2[i].trackIds| == 4
  {
  }

  /** How often `t` occurs in `s`. */
  function Occurrences(s: seq<nat>, t: nat): nat
  {
    if |s| == 0 then 0
    else Occurrences(s[..|s| - 1], t) + (if s[|s| - 1] == t then 1 else 0)
  }

  lemma {:induction false} OccurrencesAppend(a: seq<nat>, b: seq<nat>, t: nat)
    ensures Occurrences(a + b, t) == Occurrences(a, t) + Occurrences(b, t)
    decreases |b|
  {
    if |b| == 0 {
      assert a + b == a;
    } else {
      var n := |b| - 1;
      assert (a + b)[..|a + b| - 1] == a + b[..n];
      OccurrencesAppend(a, b[..n], t);
    }
  }

  /** An id is in a list exactly when it occurs in it at least once. */
  lemma {:induction false} OccurrencesIn(s: seq<nat>, t: nat)
    ensures Occurrences(s, t) > 0 <==> t in s
    decreases |s|
  {
    if |s| > 0 {
      var n := |s| - 1;
      OccurrencesIn(s[..n], t);
      assert s == s[..n] + [s[n]];
    }
  }

  /** In a list of distinct ids every id occurs at most once. */
  lemma {:induction false} DistinctOnce(ids: seq<nat>, t: nat)
    requires Distinct(ids)
    ensures Occurrences(ids, t) <= 1
    decreases |ids|
  {
    if |ids| > 0 {
      var n := |ids| - 1;
      DistinctOnce(ids[..n], t);
      if ids[n] == t {
        forall p | 0 <= p < n ensures ids[..n][p] != t {
          assert ids[..n][p] == ids[p];
        }
        OccurrencesIn(ids[..n], t);
      }
    }
  }

  /** How often a Job holds `t`: as its own id or as one of its track ids. */
  function Holds(j: Job, t: nat): nat
  {
    (if j.jobId == t then 1 else 0) + Occurrences(j.trackIds, t)
  }

  /** How often the Jobs hold `t`, summed over the Jobs. */
  function Held(jobs: seq<Job>, t: nat): nat
  {
    if |jobs| == 0 then 0
    else Held(jobs[..|jobs| - 1], t) + Holds(jobs[|jobs| - 1], t)
  }

  /** Every id the Jobs hold is a drawn id, held no more often than it was drawn. */
  ghost predicate HeldDrawn(ids: seq<nat>, jobs: seq<Job>)
  {
    forall t :: Held(jobs, t) <= Occurrences(ids, t)
  }

  /** The ids the Jobs `j1` hold beyond those `j0` held are exactly the ids drawn after `u0` up to `u1`. */
  ghost predicate NewlyHeld(j0: seq<Job>, j1: seq<Job>, u0: seq<nat>, u1: seq<nat>)
  {
    |u1| >= |u0| && forall t :: Held(j1, t) == Held(j0, t) + Occurrences(u1[|u0|..], t)
  }

  lemma NewlyHeldNone(js: seq<Job>, u: seq<nat>)
    ensures NewlyHeld(js, js, u, u)
  {
    assert u[|u|..] == [];
  }

  lemma NewlyHeldChain(j0: seq<Job>, j1: seq<Job>, j2: seq<Job>, u0: seq<nat>, u1: seq<nat>, u2: seq<nat>)
    requires NewlyHeld(j0, j1, u0, u1) && NewlyHeld(j1, j2, u1, u2) && u2[..|u1|] == u1
    ensures NewlyHeld(j0, j2, u0, u2)
  {
    assert u2[|u0|..] == u1[|u0|..] + u2[|u1|..];
    forall t ensures Held(j2, t) == Held(j0, t) + Occurrences(u2[|u0|..], t) {
      OccurrencesAppend(u1[|u0|..], u2[|u1|..], t);
    }
  }

  /** Replacing one Job trades the ids it held for those its replacement holds. */
  lemma {:induction false} HeldUpdate(js: seq<Job>, i: nat, j: Job, t: nat)
    requires i < |js|
    ensures Held(js[i := j], t) + Holds(js[i], t) == Held(js, t) + Holds(j, t)
    decreases |js|
  {
    var n := |js| - 1;
    if i < n {
      HeldUpdate(js[..n], i, j, t);
      assert js[i := j][..n] == js[..n][i := j];
    } else {
      assert js[i := j][..n] == js[..n];
    }
  }

  /** Replacing one Job by one holding, besides, the ids drawn after `u1`. */
  lemma NewlyHeldStep(js: seq<Job>, i: nat, next: Job, u1: seq<nat>, u2: seq<nat>)
    requires i < |js| && |u2| >= |u1|
    requires forall t :: Holds(next, t) == Holds(js[i], t) + Occurrences(u2[|u1|..], t)
    ensures NewlyHeld(js, js[i := next], u1, u2)
  {
    forall t ensures Held(js[i := next], t) == Held(js, t) + Occurrences(u2[|u1|..], t) {
      HeldUpdate(js, i, next, t);
    }
  }

  /** Appending unmarked Jobs whose ids are the ids drawn meanwhile adds exactly those ids. */
  lemma {:induction false} HeldGrow(u0: seq<nat>, u1: seq<nat>, j0: seq<Job>, j1: seq<Job>, t: nat)
    requires |u1| - |u0| == |j1| - |j0| >= 0 && u1[..|u0|] == u0 && j1[..|j0|] == j0
    requires forall i :: |j0| <= i < |j1| ==> j1[i].jobId == u1[|u0| + (i - |j0|)] && Unmarked(j1[i])
    ensures Held(j1, t) == Held(j0, t) + Occurrences(u1[|u0|..], t)
    decreases |j1|
  {
    if |j1| == |j0| {
      assert j1 == j0 && u1[|u0|..] == [];
    } else {
      var n, m := |j1| - 1, |u1| - 1;
      var j, u := j1[..n], u1[..m];
      assert j[..|j0|] == j0 && u[..|u0|] == u0;
      assert forall i :: |j0| <= i < |j| ==> j[i] == j1[i] && u[|u0| + (i - |j0|)] == u1[|u0| + (i - |j0|)];
      HeldGrow(u0, u, j0, j, t);
      assert j1[n].jobId == u1[m] && Unmarked(j1[n]);
      assert u1[|u0|..][..|u1[|u0|..]| - 1] == u[|u0|..];
    }
  }

  /** Jobs that newly hold just the ids drawn since `u0` hold only drawn ids when the Jobs before did. */
  lemma HeldKeepsDrawn(u0: seq<nat>, u1: seq<nat>, j0: seq<Job>, j1: seq<Job>)
    requires HeldDrawn(u0, j0) && |u1| >= |u0| && u1[..|u0|] == u0 && NewlyHeld(j0, j1, u0, u1)
    ensures HeldDrawn(u1, j1)
  {
    assert u1 == u0 + u1[|u0|..];
    forall t ensures Held(j1, t) <= Occurrences(u1, t) {
      OccurrencesAppend(u0, u1[|u0|..], t);
    }
  }

  /** What one Job holds is part of what all Jobs hold. */
  lemma {:induction false} HeldOne(js: seq<Job>, i: nat, t: nat)
    requires i < |js|
    ensures Holds(js[i], t) <= Held(js, t)
    decreases |js|
  {
    var n := |js| - 1;
    if i < n {
      HeldOne(js[..n], i, t);
      assert js[..n][i] == js[i];
    }
  }

  /** What two different Jobs hold, together, is part of what all Jobs hold. */
  lemma {:induction false} HeldTwo(js: seq<Job>, i: nat, j: nat, t: nat)
    requires i < j < |js|
    ensures Holds(js[i], t) + Holds(js[j], t) <= Held(js, t)
    decreases |js|
  {
    var n := |js| - 1;
    assert js[..n][i] == js[i];
    if j < n {
      HeldTwo(js[..n], i, j, t);
      assert js[..n][j] == js[j];
    } else {
      HeldOne(js[..n], i, t);
    }
  }

  /**
   * No id is held twice: a track id of one Job is neither a track id nor the
   * id of any other Job, nor the Job's own id, and occurs once in its list.
   */
  lemma JobsShareNoIds(ids: seq<nat>, jobs: seq<Job>, i: nat, j: nat, t: nat)
    requires IdsOk(ids) && JobsOk(ids, jobs)
    requires i < |jobs| && j < |jobs| && i != j && t in jobs[i].trackIds
    ensures t !in jobs[j].trackIds && t != jobs[j].jobId
    ensures t != jobs[i].jobId && Occurrences(jobs[i].trackIds, t) == 1
  {
    DistinctOnce(ids, t);
    OccurrencesIn(jobs[i].trackIds, t);
    OccurrencesIn(jobs[j].trackIds, t);
    if i < j {
      HeldTwo(jobs, i, j, t);
    } else {
      HeldTwo(jobs, j, i, t);
    }
    assert Held(jobs, t) <= Occurrences(ids, t);
  }

  /** Every drawn id is in range and drawn once. */
  predicate IdsOk(ids: seq<nat>)
  {
    Distinct(ids) && forall i :: 0 <= i < |ids| ==> InRange(ids[i])
  }

  /**
   * Job ids are drawn ids, different Jobs have different ids, every Job is
   * unmarked or fully marked, and the ids the Jobs hold are drawn ids, each
   * held as often as it was drawn at most.
   */
  ghost predicate JobsOk(ids: seq<nat>, jobs: seq<Job>)
  {
    && HeldDrawn(ids, jobs)
    && (forall i :: 0 <= i < |jobs| ==> jobs[i].jobId in ids)
    && (forall i, j :: 0 <= i < j < |jobs| ==> jobs[i].jobId != jobs[j].jobId)
    && (forall i :: 0 <= i < |jobs| ==> Unmarked(jobs[i]) || Marked(jobs[i]))
  }

  /** Every uploaded track is registered under a drawn id. */
  predicate BytesOk(ids: seq<nat>, idBytes: map<nat, seq<bv8>>)
  {
    forall id | id in idBytes :: id in ids
  }

  /**
   * A dispatched track has a selection and a non-empty list of handles with
   * indices 0, 1, ... in order; every handle has a Job, and every Job's
   * handle belongs to a dispatched track.
   */
  predicate HandlesOk(idTracks: map<nat, seq<string>>, callbacks: map<nat, seq<Handle>>, jobOf: map<Handle, nat>)
  {
    && callbacks.Keys <= idTracks.Keys
    && (forall id | id in callbacks :: |callbacks[id]| > 0 && callbacks[id] == Handles(id, |callbacks[id]|))
    && (forall id, k | id in callbacks && 0 <= k < |callbacks[id]| :: callbacks[id][k] in jobOf)
    && (forall h | h in jobOf :: h.musicId in callbacks && h.index < |callbacks[h.musicId]|)
  }

  /** The ids of the Jobs of track `musicId`. */
  function TrackJobIds(jobs: seq<Job>, musicId: nat): set<nat>
  {
    if |jobs| == 0 then {}
    else
      var last := jobs[|jobs| - 1];
      TrackJobIds(jobs[..|jobs| - 1], musicId) + (if last.musicId == musicId then {last.jobId} else {})
  }

  /** Every handle's Job exists: a Job of the same track has the id the handle is bound to. */
  ghost predicate CallbacksOk(jobOf: map<Handle, nat>, jobs: seq<Job>)
  {
    forall h | h in jobOf :: jobOf[h] in TrackJobIds(jobs, h.musicId)
  }

  /** An id in TrackJobIds is the id of some Job of that track. */
  lemma {:induction false} TrackJobWitness(jobs: seq<Job>, musicId: nat, jobId: nat) returns (i: nat)
    requires jobId in TrackJobIds(jobs, musicId)
    ensures i < |jobs| && jobs[i].jobId == jobId && jobs[i].musicId == musicId
    decreases |jobs|
  {
    var n := |jobs| - 1;
    if jobs[n].musicId == musicId && jobs[n].jobId == jobId {
      i := n;
    } else {
      i := TrackJobWitness(jobs[..n], musicId, jobId);
    }
  }

  /** Each Job's id is among the ids of its track's Jobs. */
  lemma {:induction false} TrackJobMember(jobs: seq<Job>, i: nat)
    requires i < |jobs|
    ensures jobs[i].jobId in TrackJobIds(jobs, jobs[i].musicId)
    decreases |jobs|
  {
    var n := |jobs| - 1;
    if i < n {
      TrackJobMember(jobs[..n], i);
    }
  }

  /** Marking keeps every Job's id and track, so every handle keeps its Job. */
  lemma {:induction false} MarkedKeepsTrackJobIds(j0: seq<Job>, j1: seq<Job>, times: map<nat, nat>, u0: seq<nat>, u1: seq<nat>, musicId: nat)
    requires MarkedBy(j0, j1, times, u0, u1)
    ensures TrackJobIds(j1, musicId) == TrackJobIds(j0, musicId)
    decreases |j0|
  {
    if |j0| > 0 {
      var n := |j0| - 1;
      assert MarkedEntry(j0[n], j1[n], times, u0, u1);
      MarkedKeepsTrackJobIds(j0[..n], j1[..n], times, u0, u1, musicId);
    }
  }

  lemma MarkedKeepsCallbacks(jobOf: map<Handle, nat>, j0: seq<Job>, j1: seq<Job>, times: map<nat, nat>, u0: seq<nat>, u1: seq<nat>)
    requires CallbacksOk(jobOf, j0) && MarkedBy(j0, j1, times, u0, u1)
    ensures CallbacksOk(jobOf, j1)
  {
    forall h | h in jobOf ensures jobOf[h] in TrackJobIds(j1, h.musicId) {
      MarkedKeepsTrackJobIds(j0, j1, times, u0, u1, h.musicId);
    }
  }

  /** A dispatched track has a selection and at least one task, each with its Job. */
  lemma DispatchedTasks(idTracks: map<nat, seq<string>>, callbacks: map<nat, seq<Handle>>, jobOf: map<Handle, nat>, id: nat)
    requires HandlesOk(idTracks, callbacks, jobOf) && id in callbacks
    ensures id in idTracks && |callbacks[id]| > 0
    ensures forall k :: 0 <= k < |callbacks[id]| ==> callbacks[id][k] in jobOf
  {
  }

  /** Only dispatched tracks have a frozen answer, and it is the finished answer of that track. */
  predicate ProgressOk(callbacks: map<nat, seq<Handle>>, idProgress: map<nat, Progress>)
  {
    forall id | id in idProgress :: id in callbacks && idProgress[id] == Finished(id)
  }

  lemma ExtendIds(u0: seq<nat>, u1: seq<nat>, jobs: seq<Job>, idBytes: map<nat, seq<bv8>>)
    requires JobsOk(u0, jobs) && BytesOk(u0, idBytes)
    requires |u1| >= |u0| && u1[..|u0|] == u0
    ensures JobsOk(u1, jobs) && BytesOk(u1, idBytes)
  {
    assert u1 == u0 + u1[|u0|..];
    forall t ensures Held(jobs, t) <= Occurrences(u1, t) {
      OccurrencesAppend(u0, u1[|u0|..], t);
    }
    forall t | t in u0 ensures t in u1 {
      var p :| 0 <= p < |u0| && u0[p] == t;
      assert u1[p] == t;
    }
  }

  /**
   * A poll keeps the Jobs consistent with the drawn ids; in particular, by
   * JobsShareNoIds, no two Jobs share an id afterwards.
   */
  lemma PollKeepsJobsOk(cbs: seq<Handle>, status: map<Handle, TaskState>, jobOf: map<Handle, nat>,
                        j0: seq<Job>, j1: seq<Job>, u0: seq<nat>, u1: seq<nat>)
    requires PollMarks(cbs, status, jobOf, j0, j1, u0, u1) && JobsOk(u0, j0)
    ensures JobsOk(u1, j1)
  {
    var stop := FirstMissing(cbs, status);
    MarkingKeepsJobsOk(j0, j1, SuccessTimes(cbs[..stop], status, jobOf), u0, u1);
  }

  /** Marking keeps the Jobs consistent with the drawn ids. */
  lemma MarkingKeepsJobsOk(j0: seq<Job>, j1: seq<Job>, times: map<nat, nat>, u0: seq<nat>, u1: seq<nat>)
    requires JobsOk(u0, j0) && MarkedBy(j0, j1, times, u0, u1)
    requires |u1| >= |u0| && u1[..|u0|] == u0
    requires NewlyHeld(j0, j1, u0, u1)
    ensures JobsOk(u1, j1)
  {
    HeldKeepsDrawn(u0, u1, j0, j1);
    forall t | t in u0 ensures t in u1 {
      var p :| 0 <= p < |u0| && u0[p] == t;
      assert u1[p] == t;
    }
    forall i | 0 <= i < |j1| ensures j1[i].jobId == j0[i].jobId { }
  }

  /** What the chunk loop of a dispatch leaves behind keeps the Jobs consistent. */
  lemma AppendedJobsOk(u0: seq<nat>, u1: seq<nat>, j0: seq<Job>, j1: seq<Job>, n: nat)
    requires IdsOk(u1) && JobsOk(u0, j0)
    requires |u1| == |u0| + n && u1[..|u0|] == u0
    requires |j1| == |j0| + n && j1[..|j0|] == j0
    requires forall i :: |j0| <= i < |j1| ==> j1[i].jobId == u1[|u0| + (i - |j0|)] && Unmarked(j1[i])
    ensures JobsOk(u1, j1)
  {
    forall t ensures Held(j1, t) == Held(j0, t) + Occurrences(u1[|u0|..], t) {
      HeldGrow(u0, u1, j0, j1, t);
    }
    HeldKeepsDrawn(u0, u1, j0, j1);
    forall i | 0 <= i < |j1| ensures j1[i].jobId in u1 {
      if i < |j0| {
        assert j1[i] == j0[i];
        var p :| 0 <= p < |u0| && u0[p] == j0[i].jobId;
        assert u1[p] == u0[p];
      } else {
        assert j1[i].jobId == u1[|u0| + (i - |j0|)];
      }
    }
    forall i, j | 0 <= i < j < |j1| ensures j1[i].jobId != j1[j].jobId {
      if j >= |j0| {
        var q := |u0| + (j - |j0|);
        assert j1[j].jobId == u1[q];
        if i < |j0| {
          assert j1[i] == j0[i];
          var p :| 0 <= p < |u0| && u0[p] == j0[i].jobId;
          assert u1[p] == u0[p] && p < q;
        } else {
          assert j1[i].jobId == u1[|u0| + (i - |j0|)];
        }
      } else {
        assert j1[i] == j0[i] && j1[j] == j0[j];
      }
    }
    forall i | 0 <= i < |j1| ensures Unmarked(j1[i]) || Marked(j1[i]) {
      if i < |j0| {
        assert j1[i] == j0[i];
      }
    }
  }

  /** Registering the handles of a newly dispatched track keeps the handle registries consistent. */
  lemma AddedHandlesOk(idTracks: map<nat, seq<string>>, c0: map<nat, seq<Handle>>, jc0: map<Handle, nat>,
                       c1: map<nat, seq<Handle>>, jc1: map<Handle, nat>, id: nat, n: nat)
    requires HandlesOk(idTracks, c0, jc0) && id in idTracks && id !in c0 && n > 0
    requires c1 == c0[id := Handles(id, n)]
    requires jc1.Keys == jc0.Keys + HandleSet(id, n)
    ensures HandlesOk(idTracks, c1, jc1)
  {
  }

  /**
   * The registries after the chunk loop over `windows` for track `id`: one
   * new id drawn per window, in order; one unmarked Job per window with that
   * id and the size of the window; the handles `Handle(id, 0)`, ... in order;
   * each new handle bound to its Job's id, and earlier bindings kept.
   */
  ghost predicate WindowsDispatched(u0: seq<nat>, u1: seq<nat>, j0: seq<Job>, j1: seq<Job>,
                                    c0: map<nat, seq<Handle>>, c1: map<nat, seq<Handle>>,
                                    jc0: map<Handle, nat>, jc1: map<Handle, nat>,
                                    id: nat, windows: seq<Window>, sizes: seq<nat>)
  {
    var n := |windows|;
    && n > 0 && |sizes| == n
    && |u1| == |u0| + n && u1[..|u0|] == u0
    && |j1| == |j0| + n && j1[..|j0|] == j0
    && (forall i :: |j0| <= i < |j1| ==> j1[i] == Job(u1[|u0| + (i - |j0|)], sizes[i - |j0|], None, id, []))
    && c1 == c0[id := Handles(id, n)]
    && jc1.Keys == jc0.Keys + HandleSet(id, n)
    && (forall h | h in jc0 :: jc1[h] == jc0[h])
    && (forall k :: 0 <= k < n ==> jc1[Handle(id, k)] == u1[|u0| + k])
  }

  /** The chunk loop after its first `t` tasks of track `id`. */
  ghost predicate Dispatching(u0: seq<nat>, u: seq<nat>, j0: seq<Job>, js: seq<Job>,
                              c0: map<nat, seq<Handle>>, cbs: map<nat, seq<Handle>>,
                              jc0: map<Handle, nat>, jc: map<Handle, nat>, id: nat, sizes: seq<nat>, t: nat)
  {
    && t <= |sizes|
    && |u| == |u0| + t && u[..|u0|] == u0
    && |js| == |j0| + t && js[..|j0|] == j0
    && (forall i :: |j0| <= i < |js| ==> js[i] == Job(u[|u0| + (i - |j0|)], sizes[i - |j0|], None, id, []))
    && cbs == (if t == 0 then c0 else c0[id := Handles(id, t)])
    && jc.Keys == jc0.Keys + HandleSet(id, t)
    && (forall h | h in jc0 :: jc[h] == jc0[h])
    && (forall k :: 0 <= k < t ==> jc[Handle(id, k)] == u[|u0| + k])
  }

  lemma DispatchStart(u0: seq<nat>, j0: seq<Job>, c0: map<nat, seq<Handle>>, jc0: map<Handle, nat>, id: nat, sizes: seq<nat>)
    ensures Dispatching(u0, u0, j0, j0, c0, c0, jc0, jc0, id, sizes, 0)
  {
    assert u0[..|u0|] == u0 && j0[..|j0|] == j0;
    assert HandleSet(id, 0) == {};
  }

  /** The chunk loop, one task further: a new Job, a new handle bound to it, the handle listed for the track. */
  lemma DispatchStep(u0: seq<nat>, u: seq<nat>, j0: seq<Job>, js: seq<Job>,
                     c0: map<nat, seq<Handle>>, cbs: map<nat, seq<Handle>>,
                     jc0: map<Handle, nat>, jc: map<Handle, nat>, id: nat, sizes: seq<nat>, t: nat, jobId: nat)
    requires Dispatching(u0, u, j0, js, c0, cbs, jc0, jc, id, sizes, t) && t < |sizes|
    requires id !in c0 && forall h | h in jc0 :: h.musicId != id
    ensures var handle := Handle(id, t);
      Dispatching(u0, u + [jobId], j0, js + [Job(jobId, sizes[t], None, id, [])], c0,
                  if id in cbs then cbs[id := cbs[id] + [handle]] else cbs[id := [handle]],
                  jc0, jc[handle := jobId], id, sizes, t + 1)
  {
    var handle := Handle(id, t);
    DispatchStepJobs(u0, u, j0, js, id, sizes, t, jobId);
    DispatchStepHandles(c0, cbs, jc0, jc, id, t, jobId);
    assert jc[handle := jobId][handle] == (u + [jobId])[|u0| + t];
  }

  /** The id and Job halves of DispatchStep. */
  lemma DispatchStepJobs(u0: seq<nat>, u: seq<nat>, j0: seq<Job>, js: seq<Job>, id: nat, sizes: seq<nat>, t: nat, jobId: nat)
    requires t < |sizes| && |u| == |u0| + t && u[..|u0|] == u0 && |js| == |j0| + t && js[..|j0|] == j0
    requires forall i :: |j0| <= i < |js| ==> js[i] == Job(u[|u0| + (i - |j0|)], sizes[i - |j0|], None, id, [])
    ensures var u', js' := u + [jobId], js + [Job(jobId, sizes[t], None, id, [])];
      && u'[..|u0|] == u0 && js'[..|j0|] == j0
      && forall i :: |j0| <= i < |js'| ==> js'[i] == Job(u'[|u0| + (i - |j0|)], sizes[i - |j0|], None, id, [])
  {
    var u', js' := u + [jobId], js + [Job(jobId, sizes[t], None, id, [])];
    assert u'[..|u0|] == u[..|u0|];
    assert js'[..|j0|] == js[..|j0|];
  }

  /** The handle halves of DispatchStep. */
  lemma DispatchStepHandles(c0: map<nat, seq<Handle>>, cbs: map<nat, seq<Handle>>,
                            jc0: map<Handle, nat>, jc: map<Handle, nat>, id: nat, t: nat, jobId: nat)
    requires cbs == (if t == 0 then c0 else c0[id := Handles(id, t)])
    requires jc.Keys == jc0.Keys + HandleSet(id, t)
    requires id !in c0 && forall h | h in jc0 :: h.musicId != id
    ensures var handle := Handle(id, t);
      && (if id in cbs then cbs[id := cbs[id] + [handle]] else cbs[id := [handle]]) == c0[id := Handles(id, t + 1)]
      && jc[handle := jobId].Keys == jc0.Keys + HandleSet(id, t + 1)
      && handle !in jc0
  {
    var handle := Handle(id, t);
    assert Handles(id, t + 1) == Handles(id, t) + [handle];
    if id !in cbs {
      assert t == 0 && Handles(id, 1) == [handle];
    }
    assert HandleSet(id, t + 1) == HandleSet(id, t) + {handle};
  }

  lemma DispatchDone(u0: seq<nat>, u: seq<nat>, j0: seq<Job>, js: seq<Job>,
                     c0: map<nat, seq<Handle>>, cbs: map<nat, seq<Handle>>,
                     jc0: map<Handle, nat>, jc: map<Handle, nat>, id: nat, windows: seq<Window>, sizes: seq<nat>)
    requires |windows| > 0 && |sizes| == |windows|
    requires Dispatching(u0, u, j0, js, c0, cbs, jc0, jc, id, sizes, |windows|)
    ensures WindowsDispatched(u0, u, j0, js, c0, cbs, jc0, jc, id, windows, sizes)
  {
  }

  /** The registries after dispatching track `id` of `total` milliseconds: one task per window of the track. */
  ghost predicate ChunksDispatched(u0: seq<nat>, u1: seq<nat>, j0: seq<Job>, j1: seq<Job>,
                                   c0: map<nat, seq<Handle>>, c1: map<nat, seq<Handle>>,
                                   jc0: map<Handle, nat>, jc1: map<Handle, nat>,
                                   id: nat, total: nat, sizes: seq<nat>)
  {
    total > 0 && WindowsDispatched(u0, u1, j0, j1, c0, c1, jc0, jc1, id, Windows(total, ChunkLengthMs(total)), sizes)
  }

  /** The Jobs a dispatch appends are the Jobs of the handles it binds, so every handle keeps a Job. */
  lemma AddedCallbacksOk(u0: seq<nat>, u1: seq<nat>, j0: seq<Job>, j1: seq<Job>,
                         c0: map<nat, seq<Handle>>, c1: map<nat, seq<Handle>>, jc0: map<Handle, nat>, jc1: map<Handle, nat>,
                         idTracks: map<nat, seq<string>>, id: nat, windows: seq<Window>, sizes: seq<nat>)
    requires CallbacksOk(jc0, j0) && HandlesOk(idTracks, c0, jc0) && id !in c0
    requires WindowsDispatched(u0, u1, j0, j1, c0, c1, jc0, jc1, id, windows, sizes)
    ensures CallbacksOk(jc1, j1)
  {
    forall h | h in jc1 ensures jc1[h] in TrackJobIds(j1, h.musicId) {
      if h in jc0 {
        var i := TrackJobWitness(j0, h.musicId, jc0[h]);
        assert j1[..|j0|][i] == j1[i];
        TrackJobMember(j1, i);
      } else {
        var k := h.index;
        assert h == Handle(id, k) && k < |windows|;
        assert j1[|j0| + k] == Job(u1[|u0| + k], sizes[k], None, id, []);
        TrackJobMember(j1, |j0| + k);
      }
    }
  }

  /** A dispatch keeps every registry consistent and adds one unmarked Job per window. */
  lemma DispatchedValid(u0: seq<nat>, u1: seq<nat>, j0: seq<Job>, j1: seq<Job>,
                        c0: map<nat, seq<Handle>>, c1: map<nat, seq<Handle>>, jc0: map<Handle, nat>, jc1: map<Handle, nat>,
                        idTracks: map<nat, seq<string>>, idBytes: map<nat, seq<bv8>>, idProgress: map<nat, Progress>,
                        id: nat, windows: seq<Window>, sizes: seq<nat>)
    requires JobsOk(u0, j0) && BytesOk(u0, idBytes) && HandlesOk(idTracks, c0, jc0) && ProgressOk(c0, idProgress)
    requires CallbacksOk(jc0, j0)
    requires IdsOk(u1) && id in idTracks && id !in c0
    requires WindowsDispatched(u0, u1, j0, j1, c0, c1, jc0, jc1, id, windows, sizes)
    ensures JobsOk(u1, j1) && BytesOk(u1, idBytes) && HandlesOk(idTracks, c1, jc1) && ProgressOk(c1, idProgress)
    ensures CallbacksOk(jc1, j1)
    ensures UnmarkedCount(j1) == UnmarkedCount(j0) + |windows|
  {
    AppendedJobsOk(u0, u1, j0, j1, |windows|);
    ExtendIds(u0, u1, j0, idBytes);
    AddedHandlesOk(idTracks, c0, jc0, c1, jc1, id, |windows|);
    AddedCallbacksOk(u0, u1, j0, j1, c0, c1, jc0, jc1, idTracks, id, windows, sizes);
    UnmarkedCountGrow(j0, j1);
  }

  /**
   * The answer of music_id_get for a dispatched track without a frozen
   * answer, given what the pool reports for its tasks `cbs`: an exception
   * at a success without a result; empty links and the percentage while
   * some task has not succeeded; otherwise the finished links, if the
   * stems can be reassembled.
   */
  function Outcome(id: nat, cbs: seq<Handle>, status: map<Handle, TaskState>, selection: seq<string>): (r: PollResult)
    requires |cbs| > 0
    ensures r.Running? ==> r.progress.progress < 100 && r.progress == EmptyLinks(r.progress.progress)
    ensures r.Completed? ==> r.progress == Finished(id) && r.progress.progress == 100
    ensures r.Completed? ==> forall k :: 0 <= k < |cbs| ==> StateOf(status, cbs[k]).Success? && StateOf(status, cbs[k]).info.Some?
  {
    var s := SuccessCount(cbs, status);
    PercentRange(s, |cbs|);
    if FirstMissing(cbs, status) < |cbs| then PollResult.Crashed
    else if s < |cbs| then Running(EmptyLinks(Percent(s, |cbs|)))
    else
      var out := Assemble(Flatten(Infos(cbs, status)), selection);
      if out.Some? then Completed(Finished(id), out.value) else PollResult.Crashed
  }

  /**
   * The answer of music_id_get computed from the counting loop's result
   * (server.py:320-474): a crash where the loop stopped early, the
   * percentage while tasks are unfinished, else the reassembled track.
   */
  method Decide(id: nat, cbs: seq<Handle>, successes: nat, stop: nat, status: map<Handle, TaskState>,
                selection: seq<string>) returns (r: PollResult)
    requires |cbs| > 0
    requires stop == FirstMissing(cbs, status) && successes == SuccessCount(cbs[..stop], status)
    ensures r == Outcome(id, cbs, status, selection)
  {
    if stop < |cbs| {
      return PollResult.Crashed;
    }
    assert cbs[..stop] == cbs;
    var total := |cbs|;
    PercentRange(successes, total);
    var percentage := Percent(successes, total);
    if percentage != 100 {
      return Running(EmptyLinks(percentage));
    }
    // At 100% every task succeeded with a result, so the check of
    // server.py:353-379 for a missing result cannot fire.
    var infos := CollectInfos(cbs, status);
    var out := Reassemble(infos, selection);
    if out.None? {
      return PollResult.Crashed;
    }
    return Completed(Finished(id), out.value);
  }

  class Server {
    var usedIds: seq<nat>
    var musics: seq<Music>
    var tracks: seq<Track>
    var idBytes: map<nat, seq<bv8>>
    var idTracks: map<nat, seq<string>>
    var callbacks: map<nat, seq<Handle>>
    var jobCallback: map<Handle, nat>
    var jobs: seq<Job>
    var idProgress: map<nat, Progress>

    /** The registries agree with each other. */
    ghost predicate Valid()
      reads this
    {
      IdsOk(usedIds) && JobsOk(usedIds, jobs) && BytesOk(usedIds, idBytes) &&
      HandlesOk(idTracks, callbacks, jobCallback) && CallbacksOk(jobCallback, jobs) && ProgressOk(callbacks, idProgress)
    }

    /** Enough ids remain for every unmarked Job to be marked. */
    ghost predicate Room()
      reads this
    {
      |usedIds| + 4 * UnmarkedCount(jobs) <= Span
    }

    /** The server as it starts, and as reset leaves it: every registry empty. */
    constructor ()
      ensures Valid() && Room()
      ensures usedIds == [] && musics == [] && tracks == [] && jobs == []
      ensures idBytes == map[] && idTracks == map[] && callbacks == map[] && jobCallback == map[] && idProgress == map[]
    {
      usedIds, musics, tracks, jobs := [], [], [], [];
      idBytes, idTracks, callbacks, jobCallback, idProgress := map[], map[], map[], map[], map[];
    }

    /** generateID (server.py:643-649): a fresh id in range, recorded as used. */
    method GenerateId() returns (id: nat)
      requires IdsOk(usedIds) && |usedIds| < Span
      modifies this`usedIds
      ensures IdsOk(usedIds)
      ensures InRange(id) && id !in old(usedIds)
      ensures usedIds == old(usedIds) + [id]
    {
      FreshIdExists(usedIds);
      id :| MinId <= id <= MaxId && id !in usedIds;
      usedIds := usedIds + [id];
    }

    /** createMusicObj (server.py:553-597): four track ids, drums, bass, vocals, other, then the music id. */
    method CreateMusicObj(name: string, band: string) returns (music: Music)
      requires IdsOk(usedIds) && |usedIds| + 5 <= Span
      modifies this`usedIds, this`tracks, this`musics
      ensures IdsOk(usedIds)
      ensures |usedIds| == old(|usedIds|) + 5 && usedIds[..old(|usedIds|)] == old(usedIds)
      ensures forall i :: old(|usedIds|) <= i < |usedIds| ==> usedIds[i] !in old(usedIds)
      ensures var n := old(|usedIds|);
        music == Music(usedIds[n + 4], name, band,
          [Track(usedIds[n], "drums"), Track(usedIds[n + 1], "bass"), Track(usedIds[n + 2], "vocals"), Track(usedIds[n + 3], "other")])
      ensures tracks == old(tracks) + music.tracks && musics == old(musics) + [music]
    {
      var drums := GenerateId();
      var bass := GenerateId();
      var vocals := GenerateId();
      var other := GenerateId();
      var made := [Track(drums, "drums"), Track(bass, "bass"), Track(vocals, "vocals"), Track(other, "other")];
      tracks := tracks + made;
      var id := GenerateId();
      music := Music(id, name, band, made);
      musics := musics + [music];
    }

    /**
     * music_post (server.py:107-146): registers the upload under a new music
     * id and keeps its bytes. The title and band are 'Unknown' when the tag
     * cannot be read; a request without a file gets 'Invalid input'.
     */
    method MusicPost(file: Option<seq<bv8>>, tags: Option<Tags>) returns (r: Option<Music>)
      requires Valid() && |usedIds| + 4 * UnmarkedCount(jobs) + 5 <= Span
      modifies this`usedIds, this`musics, this`tracks, this`idBytes
      ensures Valid() && Room()
      ensures r.None? <==> file.None?
      ensures file.None? ==> usedIds == old(usedIds) && musics == old(musics) && tracks == old(tracks) && idBytes == old(idBytes)
      ensures r.Some? ==>
        && r.value.name == (if tags.Some? then tags.value.title else "Unknown")
        && r.value.band == (if tags.Some? then tags.value.artist else "Unknown")
        && r.value.musicId !in old(usedIds) && r.value.musicId in usedIds
        && |usedIds| == old(|usedIds|) + 5 && usedIds[..old(|usedIds|)] == old(usedIds)
        && (var n := old(|usedIds|);
            r.value == Music(usedIds[n + 4], r.value.name, r.value.band,
              [Track(usedIds[n], "drums"), Track(usedIds[n + 1], "bass"), Track(usedIds[n + 2], "vocals"), Track(usedIds[n + 3], "other")]))
        && musics == old(musics) + [r.value] && tracks == old(tracks) + r.value.tracks
        && idBytes == old(idBytes)[r.value.musicId := file.value]
    {
      if file.None? {
        return None;
      }
      var name, band := "Unknown", "Unknown";
      if tags.Some? {
        name, band := tags.value.title, tags.value.artist;
      }
      ghost var before := usedIds;
      var music := CreateMusicObj(name, band);
      ExtendIds(before, usedIds, jobs, idBytes);
      idBytes := idBytes[music.musicId := file.value];
      return Some(music);
    }

    /**
     * music_id_post (server.py:203-281). The checks run in order: unknown
     * id, already submitted, then the selection. The selection is recorded
     * before it is checked, so a rejected selection still counts as a
     * submission. An accepted track is cut into windows and one task, one
     * Job and one handle are made per window, in window order.
     */
    method Dispatch(id: nat, instruments: Option<string>, duration: Option<nat>, sizes: seq<nat>)
      returns (r: DispatchResult)
      requires Valid() && Room()
      requires id in idBytes && id !in idTracks && instruments.Some? &&
               KnownNames(Split(instruments.value, ',')) && duration.Some? ==>
               |usedIds| + 4 * UnmarkedCount(jobs) + 5 * ChunkCount(duration.value) <= Span &&
               |sizes| == ChunkCount(duration.value)
      modifies this`idTracks, this`usedIds, this`jobs, this`callbacks, this`jobCallback
      ensures Valid() && Room()
      ensures r == DispatchResult.NotFound <==> id !in idBytes
      ensures r == AlreadySubmitted <==> id in idBytes && id in old(idTracks)
      ensures r == InvalidTrack <==>
        id in idBytes && id !in old(idTracks) && instruments.Some? && !KnownNames(Split(instruments.value, ','))
      ensures r == Accepted <==>
        id in idBytes && id !in old(idTracks) && instruments.Some? && KnownNames(Split(instruments.value, ',')) &&
        duration.Some? && duration.value > 0
      ensures idTracks == if id in idBytes && id !in old(idTracks) && instruments.Some?
                          then old(idTracks)[id := Split(instruments.value, ',')] else old(idTracks)
      ensures r != Accepted ==>
        usedIds == old(usedIds) && jobs == old(jobs) && callbacks == old(callbacks) && jobCallback == old(jobCallback)
      ensures r == Accepted ==>
        ChunksDispatched(old(usedIds), usedIds, old(jobs), jobs, old(callbacks), callbacks, old(jobCallback), jobCallback,
                         id, duration.value, sizes)
    {
      if id !in idBytes {
        return DispatchResult.NotFound;
      }
      if id in idTracks {
        return AlreadySubmitted;
      }
      if instruments.None? {
        // `None.split(',')` raises before anything is recorded.
        return DispatchResult.Crashed;
      }
      var selection := Split(instruments.value, ',');
      idTracks := idTracks[id := selection];
      r := Start(id, selection, duration, sizes);
    }

    /** music_id_post once the selection is recorded (server.py:218-275): check it, decode, and dispatch. */
    method Start(id: nat, selection: seq<string>, duration: Option<nat>, sizes: seq<nat>)
      returns (r: DispatchResult)
      requires Valid() && Room() && id in idBytes && id in idTracks && id !in callbacks
      requires KnownNames(selection) && duration.Some? ==>
               |usedIds| + 4 * UnmarkedCount(jobs) + 5 * ChunkCount(duration.value) <= Span &&
               |sizes| == ChunkCount(duration.value)
      modifies this`usedIds, this`jobs, this`callbacks, this`jobCallback
      ensures Valid() && Room()
      ensures r == InvalidTrack || r == Accepted || r == DispatchResult.Crashed
      ensures r == InvalidTrack <==> !KnownNames(selection)
      ensures r == Accepted <==> KnownNames(selection) && duration.Some? && duration.value > 0
      ensures r != Accepted ==>
        usedIds == old(usedIds) && jobs == old(jobs) && callbacks == old(callbacks) && jobCallback == old(jobCallback)
      ensures r == Accepted ==>
        ChunksDispatched(old(usedIds), usedIds, old(jobs), jobs, old(callbacks), callbacks, old(jobCallback), jobCallback,
                         id, duration.value, sizes)
    {
      var ok := CheckSelection(selection);
      if !ok {
        return InvalidTrack;
      }
      // The check of server.py:230 cannot fire: every key of idBytes is a drawn id.
      assert id in usedIds;
      if duration.None? {
        // AudioSegment.from_file raises on bytes it cannot decode.
        return DispatchResult.Crashed;
      }
      var total := duration.value;
      if ChunkLengthMs(total) == 0 {
        // `range(0, 0, 0)` raises: a track of length zero is refused by the loop header.
        return DispatchResult.Crashed;
      }
      Enqueue(id, total, sizes);
      return Accepted;
    }

    /** The accepted branch of music_id_post (server.py:241-275): cut the track and start one task per window. */
    method Enqueue(id: nat, total: nat, sizes: seq<nat>)
      requires Valid() && Room() && id in idTracks && id !in callbacks && total > 0
      requires |usedIds| + 4 * UnmarkedCount(jobs) + 5 * ChunkCount(total) <= Span && |sizes| == ChunkCount(total)
      modifies this`usedIds, this`jobCallback, this`jobs, this`callbacks
      ensures Valid() && Room()
      ensures ChunksDispatched(old(usedIds), usedIds, old(jobs), jobs, old(callbacks), callbacks, old(jobCallback), jobCallback,
                               id, total, sizes)
    {
      var length := ChunkLengthMs(total);
      var windows := SplitWindows(total, length);
      ghost var u0, j0, c0, jc0 := usedIds, jobs, callbacks, jobCallback;
      DispatchChunks(id, windows, sizes);
      DispatchedValid(u0, usedIds, j0, jobs, c0, callbacks, jc0, jobCallback, idTracks, idBytes, idProgress, id, windows, sizes);
    }

    /** The chunk loop of server.py:251-273: one task, one Job id and one handle per window. */
    method DispatchChunks(id: nat, windows: seq<Window>, sizes: seq<nat>)
      requires IdsOk(usedIds) && |usedIds| + |windows| <= Span && |windows| > 0 && |sizes| == |windows|
      requires id !in callbacks && forall h | h in jobCallback :: h.musicId != id
      modifies this`usedIds, this`jobCallback, this`jobs, this`callbacks
      ensures IdsOk(usedIds)
      ensures WindowsDispatched(old(usedIds), usedIds, old(jobs), jobs, old(callbacks), callbacks, old(jobCallback), jobCallback,
                                id, windows, sizes)
    {
      ghost var u0 := usedIds;
      var j0: seq<Job>, c0: map<nat, seq<Handle>>, jc0: map<Handle, nat> := jobs, callbacks, jobCallback;
      var js: seq<Job>, cbs: map<nat, seq<Handle>>, jc: map<Handle, nat> := jobs, callbacks, jobCallback;
      var taskCounter := 0;
      DispatchStart(u0, j0, c0, jc0, id, sizes);
      while taskCounter < |windows|
        invariant IdsOk(usedIds)
        invariant Dispatching(u0, usedIds, j0, js, c0, cbs, jc0, jc, id, sizes, taskCounter)
        decreases |windows| - taskCounter
      {
        var handle := Handle(id, taskCounter);
        ghost var u := usedIds;
        var jobId := GenerateId();
        DispatchStep(u0, u, j0, js, c0, cbs, jc0, jc, id, sizes, taskCounter, jobId);
        jc := jc[handle := jobId];
        js := js + [Job(jobId, sizes[taskCounter], None, id, [])];
        if id in cbs {
          cbs := cbs[id := cbs[id] + [handle]];
        } else {
          cbs := cbs[id := [handle]];
        }
        taskCounter := taskCounter + 1;
      }
      DispatchDone(u0, usedIds, j0, js, c0, cbs, jc0, jc, id, windows, sizes);
      jobs, callbacks, jobCallback := js, cbs, jc;
    }

    /** `for key in range(4): generateID()` (server.py:311-316). */
    method AllocateTrackIds() returns (ids: seq<nat>)
      requires IdsOk(usedIds) && |usedIds| + 4 <= Span
      modifies this`usedIds
      ensures IdsOk(usedIds)
      ensures |ids| == 4 && Distinct(ids)
      ensures usedIds == old(usedIds) + ids
      ensures forall t | t in ids :: t !in old(usedIds)
    {
      ids := [];
      var key := 0;
      while key < 4
        invariant 0 <= key <= 4 && |ids| == key
        invariant IdsOk(usedIds) && Distinct(ids)
        invariant usedIds == old(usedIds) + ids
        invariant forall t | t in ids :: t !in old(usedIds)
      {
        var trackId := GenerateId();
        assert forall t | t in ids :: t in old(usedIds) + ids;
        ids := ids + [trackId];
        key := key + 1;
      }
    }

    /**
     * One Job of the inner loop of server.py:308-318: marked with the time and
     * four fresh track ids when it has the id and is unmarked, else kept.
     */
    method MarkJob(job: Job, jobId: nat, time: nat) returns (next: Job)
      requires IdsOk(usedIds) && (job.jobId == jobId && Unmarked(job) ==> |usedIds| + 4 <= Span)
      modifies this`usedIds
      ensures IdsOk(usedIds)
      ensures |usedIds| >= old(|usedIds|) && usedIds[..old(|usedIds|)] == old(usedIds)
      ensures MarkedEntry(job, next, map[jobId := time], old(usedIds), usedIds)
      ensures |usedIds| == old(|usedIds|) + (if Unmarked(job) && !Unmarked(next) then 4 else 0)
      ensures forall t :: Holds(next, t) == Holds(job, t) + Occurrences(usedIds[old(|usedIds|)..], t)
    {
      next := job;
      if job.jobId == jobId && Unmarked(job) {
        var ids := AllocateTrackIds();
        next := job.(time := Some(time), trackIds := ids);
        assert usedIds[old(|usedIds|)..] == ids;
      } else {
        assert usedIds[..|usedIds|] == usedIds && usedIds[|usedIds|..] == [];
      }
    }

    /**
     * The inner loop of server.py:308-318: every Job with the given id that is
     * still unmarked gets the timestamp and four fresh track ids.
     */
    method MarkJobs(jobId: nat, time: nat)
      requires IdsOk(usedIds) && JobsOk(usedIds, jobs) && Room()
      modifies this`usedIds, this`jobs
      ensures IdsOk(usedIds) && JobsOk(usedIds, jobs) && Room()
      ensures |usedIds| >= old(|usedIds|) && usedIds[..old(|usedIds|)] == old(usedIds)
      ensures MarkedBy(old(jobs), jobs, map[jobId := time], old(usedIds), usedIds)
      ensures |usedIds| + 4 * UnmarkedCount(jobs) == old(|usedIds|) + 4 * UnmarkedCount(old(jobs))
      ensures NewlyHeld(old(jobs), jobs, old(usedIds), usedIds)
    {
      ghost var u0 := usedIds;
      var j0 := jobs;
      var js := jobs;
      var i := 0;
      assert Marking(j0, js, 0, map[jobId := time], u0, usedIds) by {
        assert usedIds[..|u0|] == u0;
      }
      NewlyHeldNone(j0, u0);
      while i < |js|
        invariant IdsOk(usedIds) && |usedIds| + 4 * UnmarkedCount(js) == |u0| + 4 * UnmarkedCount(j0)
        invariant Marking(j0, js, i, map[jobId := time], u0, usedIds)
        invariant NewlyHeld(j0, js, u0, usedIds)
        decreases |js| - i
      {
        ghost var u1 := usedIds;
        if js[i].jobId == jobId && Unmarked(js[i]) {
          UnmarkedCountUpdate(js, i, js[i].(time := Some(time)));
        }
        var next := MarkJob(js[i], jobId, time);
        UnmarkedCountUpdate(js, i, next);
        NewlyHeldStep(js, i, next, u1, usedIds);
        NewlyHeldChain(j0, js, js[i := next], u0, u1, usedIds);
        MarkStep(j0, js, i, next, map[jobId := time], u0, u1, usedIds);
        js := js[i := next];
        i := i + 1;
      }
      MarkingDone(j0, js, map[jobId := time], u0, usedIds);
      MarkingKeepsJobsOk(j0, js, map[jobId := time], u0, usedIds);
      jobs := js;
    }

    /**
     * The counting loop of server.py:301-319 over the tasks `cbs`. It stops
     * at `stop`: the end, or the first success without a result, on which the
     * handler raises.
     */
    method CountSuccesses(cbs: seq<Handle>, status: map<Handle, TaskState>) returns (successes: nat, stop: nat)
      requires IdsOk(usedIds) && JobsOk(usedIds, jobs) && BytesOk(usedIds, idBytes) && Room()
      requires CallbacksOk(jobCallback, jobs)
      requires forall k :: 0 <= k < |cbs| ==> cbs[k] in jobCallback
      modifies this`usedIds, this`jobs
      ensures IdsOk(usedIds) && JobsOk(usedIds, jobs) && BytesOk(usedIds, idBytes) && Room()
      ensures CallbacksOk(jobCallback, jobs)
      ensures stop == FirstMissing(cbs, status)
      ensures successes == SuccessCount(cbs[..stop], status)
      ensures PollMarks(cbs, status, jobCallback, old(jobs), jobs, old(usedIds), usedIds)
    {
      ghost var j0, u0 := jobs, usedIds;
      var jobOf: map<Handle, nat> := jobCallback;
      successes, stop := 0, 0;
      CountStart(cbs, status, jobOf, j0, u0);
      while stop < |cbs| && !MissingInfo(StateOf(status, cbs[stop]))
        invariant IdsOk(usedIds) && JobsOk(usedIds, jobs) && BytesOk(usedIds, idBytes) && Room()
        invariant Counting(cbs, status, jobOf, stop, successes, j0, jobs, u0, usedIds)
        decreases |cbs| - stop
      {
        var added := CountTask(cbs, status, jobOf, stop, successes, j0, u0);
        successes, stop := successes + added, stop + 1;
      }
      CountingDone(cbs, status, jobOf, stop, successes, j0, jobs, u0, usedIds);
    }

    /**
     * One round of the counting loop (server.py:303-318) on a task whose state
     * can be read: a success counts and marks its Job, anything else is skipped.
     */
    method CountTask(cbs: seq<Handle>, status: map<Handle, TaskState>, jobOf: map<Handle, nat>, stop: nat, successes: nat,
                     ghost j0: seq<Job>, ghost u0: seq<nat>) returns (added: nat)
      requires IdsOk(usedIds) && JobsOk(usedIds, jobs) && BytesOk(usedIds, idBytes) && Room()
      requires Counting(cbs, status, jobOf, stop, successes, j0, jobs, u0, usedIds) && stop < |cbs|
      requires !MissingInfo(StateOf(status, cbs[stop]))
      modifies this`usedIds, this`jobs
      ensures IdsOk(usedIds) && JobsOk(usedIds, jobs) && BytesOk(usedIds, idBytes) && Room()
      ensures added == if StateOf(status, cbs[stop]).Success? then 1 else 0
      ensures RoundEffect(StateOf(status, cbs[stop]), jobOf[cbs[stop]], old(jobs), jobs, old(usedIds), usedIds)
      ensures Counting(cbs, status, jobOf, stop + 1, successes + added, j0, jobs, u0, usedIds)
    {
      var st := StateOf(status, cbs[stop]);
      ghost var j1, u1 := jobs, usedIds;
      if st.Success? {
        MarkJobs(jobOf[cbs[stop]], st.info.value.time);
        ExtendIds(u1, usedIds, j1, idBytes);
        added := 1;
      } else {
        added := 0;
      }
      CountStep(cbs, status, jobOf, stop, successes, j0, j1, jobs, u0, u1, usedIds);
    }

    /**
     * music_id_get (server.py:285-474). An unknown track is not found, and a
     * finished one gets its frozen answer. Otherwise the tasks are counted
     * and the Job of each success is marked once, and the answer is the one
     * Outcome names; a finished answer is frozen.
     */
    method Poll(id: nat, status: map<Handle, TaskState>) returns (r: PollResult)
      requires Valid() && Room()
      modifies this`usedIds, this`jobs, this`idProgress
      ensures Valid() && Room()
      ensures r == PollResult.NotFound <==> id !in callbacks
      ensures id in old(idProgress) ==> r == Cached(Finished(id)) && r == Cached(old(idProgress)[id])
      ensures id !in callbacks || id in old(idProgress) ==>
        usedIds == old(usedIds) && jobs == old(jobs) && idProgress == old(idProgress)
      ensures id in callbacks && id !in old(idProgress) ==>
        && r == Outcome(id, callbacks[id], status, idTracks[id])
        && idProgress == (if r.Completed? then old(idProgress)[id := Finished(id)] else old(idProgress))
        && PollMarks(callbacks[id], status, jobCallback, old(jobs), jobs, old(usedIds), usedIds)
    {
      if id !in callbacks {
        return PollResult.NotFound;
      }
      if id in idProgress {
        return Cached(idProgress[id]);
      }
      r := Advance(id, status);
    }

    /** music_id_get for a dispatched track without a frozen answer (server.py:296-474). */
    method Advance(id: nat, status: map<Handle, TaskState>) returns (r: PollResult)
      requires Valid() && Room() && id in callbacks && id !in idProgress
      modifies this`usedIds, this`jobs, this`idProgress
      ensures Valid() && Room()
      ensures r == Outcome(id, callbacks[id], status, idTracks[id])
      ensures idProgress == if r.Completed? then old(idProgress)[id := Finished(id)] else old(idProgress)
      ensures PollMarks(callbacks[id], status, jobCallback, old(jobs), jobs, old(usedIds), usedIds)
    {
      var cbs := callbacks[id];
      DispatchedTasks(idTracks, callbacks, jobCallback, id);
      var successes, stop := CountSuccesses(cbs, status);
      r := Respond(id, cbs, successes, stop, status);
    }

    /** The answer of music_id_get after the counting loop (server.py:320-474); a finished answer is frozen. */
    method Respond(id: nat, cbs: seq<Handle>, successes: nat, stop: nat, status: map<Handle, TaskState>) returns (r: PollResult)
      requires ProgressOk(callbacks, idProgress) && id in callbacks && id in idTracks && cbs == callbacks[id] && |cbs| > 0
      requires stop == FirstMissing(cbs, status) && successes == SuccessCount(cbs[..stop], status)
      modifies this`idProgress
      ensures ProgressOk(callbacks, idProgress)
      ensures r == Outcome(id, cbs, status, idTracks[id])
      ensures idProgress == if r.Completed? then old(idProgress)[id := Finished(id)] else old(idProgress)
    {
      r := Decide(id, cbs, successes, stop, status, idTracks[id]);
      if r.Completed? {
        idProgress := idProgress[id := r.progress];
      }
    }

    /** job_get (server.py:478-487): the ids of all Jobs, in creation order. */
    method ListJobs() returns (ids: seq<nat>)
      ensures |ids| == |jobs|
      ensures forall i :: 0 <= i < |jobs| ==> ids[i] == jobs[i].jobId
    {
      ids := [];
      var i := 0;
      while i < |jobs|
        invariant 0 <= i <= |jobs| && |ids| == i
        invariant forall q :: 0 <= q < i ==> ids[q] == jobs[q].jobId
      {
        ids := ids + [jobs[i].jobId];
        i := i + 1;
      }
    }

    /** job_get_id (server.py:490-496): the first Job with the id, or 'Job not found'. */
    method GetJob(jobId: nat) returns (r: Option<Job>)
      ensures r.None? <==> forall i :: 0 <= i < |jobs| ==> jobs[i].jobId != jobId
      ensures r.Some? ==> exists i :: 0 <= i < |jobs| && jobs[i] == r.value && r.value.jobId == jobId &&
                                     forall q :: 0 <= q < i ==> jobs[q].jobId != jobId
    {
      var i := 0;
      while i < |jobs|
        invariant 0 <= i <= |jobs|
        invariant forall q :: 0 <= q < i ==> jobs[q].jobId != jobId
      {
        if jobs[i].jobId == jobId {
          return Some(jobs[i]);
        }
        i := i + 1;
      }
      return None;
    }

    /** reset (server.py:500-549): every registry and the list of drawn ids emptied. */
    method Reset()
      modifies this
      ensures Valid() && Room()
      ensures usedIds == [] && musics == [] && tracks == [] && jobs == []
      ensures idBytes == map[] && idTracks == map[] && callbacks == map[] && jobCallback == map[] && idProgress == map[]
    {
      usedIds, musics, tracks, jobs := [], [], [], [];
      idBytes, idTracks, callbacks, jobCallback, idProgress := map[], map[], map[], map[], map[];
    }

    /**
     * A selection that is rejected is still recorded (server.py:214), so the
     * track can never be submitted again, not even with a valid selection.
     */
    method RetryAfterRejection(id: nat, duration: Option<nat>, sizes: seq<nat>)
      returns (first: DispatchResult, second: DispatchResult)
      requires Valid() && Room() && id in idBytes && id !in idTracks
      modifies this`idTracks, this`usedIds, this`jobs, this`callbacks, this`jobCallback
      ensures first == InvalidTrack && second == AlreadySubmitted
      ensures idTracks == old(idTracks)[id := ["piano"]]
    {
      SplitWithoutSeparator("piano", ',');
      assert StemNamed("piano").None? by {
        assert "piano"[0] != "drums"[0] && "piano"[0] != "other"[0];
      }
      assert Split("piano", ',')[0] == "piano";
      first := Dispatch(id, Some("piano"), duration, sizes);
      second := Dispatch(id, Some("bass"), duration, sizes);
    }
  }
}
