/** The two-slot scheduler of image downloads, which drains its children on every exit. */
module ImageDownload {
  import opened Basics

  // Completion order, exit codes, whether a child is still alive when it is to be killed, and
  // whether a child can be started at all are nondeterministic.

  type Image = string

  datatype Outcome = Passed | Failed | Cancelled | NotStarted

  datatype Download = Download(image: Image, completed: bool, outcome: Outcome)

  /** What happens to the child processes: a child starts, or is reaped with an exit code, after it
      was sent the kill signal or not. */
  datatype Event = Start(image: Image) | Finish(image: Image, code: int, killed: bool)

  /** A history, oldest event innermost. */
  datatype Log = Begin | After(earlier: Log, event: Event)

  const SIGKILL := 9

  function DownloadResult(image: Image, code: int, cancelled: bool): Download {
    Download(image, code == 0 && !cancelled, if cancelled then Cancelled else if code == 0 then Passed else Failed)
  }

  // ----- properties of a history ---------------------------------------------------------------

  /** The children that were started and not yet reaped. */
  function Running(trace: Log): set<Image> {
    match trace
    case Begin => {}
    case After(earlier, Start(image)) => Running(earlier) + {image}
    case After(earlier, Finish(image, _, _)) => Running(earlier) - {image}
  }

  function Started(trace: Log): set<Image> {
    match trace
    case Begin => {}
    case After(earlier, Start(image)) => Started(earlier) + {image}
    case After(earlier, Finish(_, _, _)) => Started(earlier)
  }

  function Reported(image: Image, outcome: Outcome): Download {
    Download(image, outcome == Passed, outcome)
  }

  /** How a reaped child ended: only one that died of the kill signal it was sent is cancelled. */
  function Ended(event: Event): Outcome
    requires event.Finish?
  {
    if event.killed && event.code == -9 then Cancelled else if event.code == 0 then Passed else Failed
  }

  /** What was recorded for each reaped child, filed under its image. */
  function Results(trace: Log): map<Image, Download> {
    match trace
    case Begin => map[]
    case After(earlier, Start(_)) => Results(earlier)
    case After(earlier, Finish(image, _, _)) => Results(earlier)[image := Reported(image, Ended(trace.event))]
  }

  predicate FailureSeen(trace: Log) {
    trace.After? && (FailureSeen(trace.earlier) || (trace.event.Finish? && Ended(trace.event) != Passed))
  }

  /** A child that failed by itself, not one that was killed. */
  predicate OwnFailureSeen(trace: Log) {
    trace.After? && (OwnFailureSeen(trace.earlier) || (trace.event.Finish? && Ended(trace.event) == Failed))
  }

  /** No image is started twice, only running children finish, never more than two run at once,
      and none starts after a failure is recorded. */
  predicate Orderly(trace: Log) {
    match trace
    case Begin => true
    case After(earlier, Start(image)) =>
      Orderly(earlier) && image !in Started(earlier) && |Running(earlier)| < 2 && !FailureSeen(earlier)
    case After(earlier, Finish(image, _, _)) => Orderly(earlier) && image in Running(earlier)
  }

  /** In an orderly history every started image is either running or filed, not both. */
  lemma {:induction false} RunningOrFiled(trace: Log)
    requires Orderly(trace)
    ensures Running(trace) !! Results(trace).Keys
    ensures Running(trace) + Results(trace).Keys == Started(trace)
    ensures |Running(trace)| <= 2
    ensures forall image :: image in Results(trace) ==>
              Results(trace)[image].image == image && Results(trace)[image].outcome != NotStarted
              && (Results(trace)[image].completed <==> Results(trace)[image].outcome == Passed)
  {
    StartedSplits(trace);
    if trace.After? {
      RunningOrFiled(trace.earlier);
      SubsetSize(Running(trace.earlier) - {trace.event.image}, Running(trace.earlier));
    }
  }

  lemma {:induction false} StartedSplits(trace: Log)
    requires Orderly(trace)
    ensures Running(trace) !! Results(trace).Keys
    ensures Running(trace) + Results(trace).Keys == Started(trace)
  {
    if trace.After? { StartedSplits(trace.earlier); }
  }

  /** Two slots, at every moment of an orderly history. */
  lemma {:induction false} NeverMoreThanTwo(trace: Log, moment: Log)
    requires Orderly(trace) && Within(moment, trace)
    ensures |Running(moment)| <= 2
  {
    if moment == trace { RunningOrFiled(trace); } else { NeverMoreThanTwo(trace.earlier, moment); }
  }

  predicate Within(moment: Log, trace: Log) {
    moment == trace || (trace.After? && Within(moment, trace.earlier))
  }

  ghost predicate AnyIncomplete(results: map<Image, Download>) {
    exists image :: image in results && !results[image].completed
  }

  lemma {:induction false} OneMoreResult(results: map<Image, Download>, image: Image, d: Download)
    requires image !in results
    ensures AnyIncomplete(results[image := d]) <==> AnyIncomplete(results) || !d.completed
  {
    var more := results[image := d];
    assert image in more && more[image] == d;
    if other :| other in results && !results[other].completed {
      assert other in more && !more[other].completed;
    }
  }

  /** Some result is incomplete exactly when a child ended otherwise than passed. */
  lemma {:induction false} UnfailedPassed(trace: Log)
    requires Orderly(trace)
    ensures FailureSeen(trace) <==> AnyIncomplete(Results(trace))
  {
    if trace.After? {
      UnfailedPassed(trace.earlier);
      RunningOrFiled(trace.earlier);
      if trace.event.Finish? {
        OneMoreResult(Results(trace.earlier), trace.event.image, Reported(trace.event.image, Ended(trace.event)));
      }
    }
  }

  lemma {:induction false} OwnFailureFiled(trace: Log) returns (image: Image)
    requires Orderly(trace) && OwnFailureSeen(trace)
    ensures image in Results(trace) && Results(trace)[image].outcome == Failed
  {
    if trace.event.Finish? && Ended(trace.event) == Failed {
      image := trace.event.image;
    } else {
      image := OwnFailureFiled(trace.earlier);
      RunningOrFiled(trace.earlier);
    }
  }

  // ----- the scheduler -----------------------------------------------------------------------------

  function Images(selected: seq<Image>): set<Image> {
    if selected == [] then {} else Images(selected[..|selected| - 1]) + {selected[|selected| - 1]}
  }

  lemma {:induction false} InImages(selected: seq<Image>, image: Image)
    ensures image in Images(selected) <==> image in selected
  {
    if selected != [] {
      var k := |selected| - 1;
      InImages(selected[..k], image);
      assert selected == selected[..k] + [selected[k]];
    }
  }

  lemma {:induction false} NextImage(selected: seq<Image>, k: nat)
    requires NoDup(selected) && k < |selected|
    ensures Images(selected[..k + 1]) == Images(selected[..k]) + {selected[k]}
    ensures selected[k] !in Images(selected[..k])
  {
    assert selected[..k + 1][..k] == selected[..k];
    InImages(selected[..k], selected[k]);
  }

  /** The loop invariant: the first `k` images are started, and `active` and `results` are what
      the history says, so each selected image is in exactly one of pending, active and results. */
  ghost predicate Inv(selected: seq<Image>, k: nat, active: set<Image>, results: map<Image, Download>, trace: Log) {
    && k <= |selected| && Started(trace) == Images(selected[..k])
    && active == Running(trace) && results == Results(trace)
    && Orderly(trace)
  }

  /** Fills the free slots; `ok` is false when a child could not be started, or was killed and
      reaped at once because nobody could be set to wait for it. */
  method Refill(selected: seq<Image>, k0: nat, active0: set<Image>, results: map<Image, Download>, trace0: Log)
    returns (ok: bool, k: nat, active: set<Image>, trace: Log)
    requires NoDup(selected) && Inv(selected, k0, active0, results, trace0) && !FailureSeen(trace0)
    ensures Inv(selected, k, active, results, trace) && !FailureSeen(trace)
    ensures k - |active| == k0 - |active0|
    ensures ok ==> k == |selected| || |active| >= 2
  {
    k, active, trace := k0, active0, trace0;
    RunningOrFiled(trace);
    while k < |selected| && |active| < 2
      invariant Inv(selected, k, active, results, trace) && !FailureSeen(trace)
      invariant active <= Started(trace)
      invariant k - |active| == k0 - |active0|
      decreases |selected| - k
    {
      var image := selected[k];
      var starts: bool := *;
      if !starts {
        return false, k, active, trace;
      }
      NextImage(selected, k);
      k, active, trace := k + 1, active + {image}, After(trace, Start(image));
    }
    ok := true;
  }

  /** Filing a result is recording how the child ended. */
  lemma {:induction false} FinishStep(trace: Log, image: Image, code: int, killed: bool)
    requires Orderly(trace) && image in Running(trace)
    ensures var d := DownloadResult(image, code, killed && code == -SIGKILL);
            var trace' := After(trace, Finish(image, code, killed));
            && Orderly(trace')
            && Running(trace') == Running(trace) - {image} && Started(trace') == Started(trace)
            && Results(trace') == Results(trace)[image := d]
            && (OwnFailureSeen(trace) ==> OwnFailureSeen(trace'))
            && (!killed && FailureSeen(trace') && !FailureSeen(trace) ==> OwnFailureSeen(trace'))
  {
    var event := Finish(image, code, killed);
    assert DownloadResult(image, code, killed && code == -SIGKILL) == Reported(image, Ended(event));
  }

  /** The child of the image was reaped with this code. */
  predicate ReapedWith(trace: Log, image: Image, code: int, killed: bool) {
    trace.After? && (trace.event == Finish(image, code, killed) || ReapedWith(trace.earlier, image, code, killed))
  }

  /** A result tells how the one child of its image ended: passed means exit code 0, cancelled
      means killed by the signal sent to it, failed any other end. */
  lemma {:induction false} ResultsTellCodes(trace: Log, image: Image) returns (code: int, killed: bool)
    requires Orderly(trace) && image in Results(trace)
    ensures ReapedWith(trace, image, code, killed)
    ensures Results(trace)[image].outcome == Passed <==> code == 0
    ensures Results(trace)[image].completed <==> code == 0
    ensures Results(trace)[image].outcome == Cancelled <==> killed && code == -9
  {
    if trace.event.Finish? && trace.event.image == image {
      code, killed := trace.event.code, trace.event.killed;
    } else {
      code, killed := ResultsTellCodes(trace.earlier, image);
    }
  }

  /** Collects a whole finished batch before anything is refilled. */
  method Collect(selected: seq<Image>, k: nat, active0: set<Image>, results0: map<Image, Download>,
                 trace0: Log, done: set<Image>)
    returns (active: set<Image>, results: map<Image, Download>, trace: Log)
    requires Inv(selected, k, active0, results0, trace0) && done <= active0 && done != {} && !FailureSeen(trace0)
    ensures Inv(selected, k, active, results, trace) && |active| < |active0|
    ensures FailureSeen(trace) ==> OwnFailureSeen(trace)
  {
    active, results, trace := active0, results0, trace0;
    var left := done;
    while left != {}
      invariant left <= active && |active| - |left| == |active0| - |done|
      invariant Inv(selected, k, active, results, trace)
      invariant FailureSeen(trace) ==> OwnFailureSeen(trace)
      decreases left
    {
      var image :| image in left;
      var code: int := *;
      var d := DownloadResult(image, code, false);
      FinishStep(trace, image, code, false);
      active, results, trace, left :=
        active - {image}, results[image := d], After(trace, Finish(image, code, false)), left - {image};
    }
  }

  /** The `finally` clause: kills what is still alive and reaps every child. */
  method Drain(active0: set<Image>, results0: map<Image, Download>, trace0: Log)
    returns (results: map<Image, Download>, trace: Log)
    requires active0 == Running(trace0) && results0 == Results(trace0) && Orderly(trace0)
    ensures Running(trace) == {} && results == Results(trace) && Orderly(trace)
    ensures Started(trace) == Started(trace0)
    ensures active0 == {} ==> trace == trace0
    ensures OwnFailureSeen(trace0) ==> OwnFailureSeen(trace)
  {
    results, trace := results0, trace0;
    var active := active0;
    while active != {}
      invariant active == Running(trace) && results == Results(trace) && Orderly(trace)
      invariant Started(trace) == Started(trace0)
      invariant active0 == {} ==> active == {} && trace == trace0
      invariant OwnFailureSeen(trace0) ==> OwnFailureSeen(trace)
      decreases active
    {
      var image :| image in active;
      var alive: bool, signalled: bool := *, *;
      var cancelled := alive && signalled;
      var code: int := *;
      var d := DownloadResult(image, code, cancelled && code == -SIGKILL);
      FinishStep(trace, image, code, cancelled);
      active, results, trace := active - {image}, results[image := d], After(trace, Finish(image, code, cancelled));
    }
  }

  /** What a normal return promises: one result per image in selection order, each the recorded
      one or `not_started`, and nothing dropped, cancelled or failed unless some image failed. */
  ghost predicate Complete(selected: seq<Image>, downloads: seq<Download>, trace: Log) {
    && |downloads| == |selected|
    && (forall i :: 0 <= i < |selected| ==>
          downloads[i] == if selected[i] in Results(trace) then Results(trace)[selected[i]]
                          else Reported(selected[i], NotStarted))
    && (forall i :: 0 <= i < |selected| ==>
          downloads[i].image == selected[i] && (downloads[i].outcome == NotStarted <==> selected[i] !in Started(trace)))
    && ((exists i :: 0 <= i < |downloads| && downloads[i].outcome != Passed) ==>
          exists i :: 0 <= i < |downloads| && downloads[i].outcome == Failed)
  }

  /** Every exit, an exceptional one included, leaves no child running and an orderly history.
      A normal return has one result per image. */
  method DownloadAll(selected: seq<Image>) returns (raised: bool, downloads: seq<Download>, trace: Log)
    requires NoDup(selected)
    ensures Running(trace) == {} && Orderly(trace) && Started(trace) <= Images(selected)
    ensures !raised ==> Complete(selected, downloads, trace)
  {
    var k, active, results := 0, {}, map[];
    trace := Begin;
    while k < |selected| || active != {}
      invariant Inv(selected, k, active, results, trace) && !FailureSeen(trace)
      decreases |selected| - k + |active|
    {
      var ok;
      ok, k, active, trace := Refill(selected, k, active, results, trace);
      // Waiting for the first child to end may be interrupted.
      var interrupted: bool := *;
      if !ok || interrupted {
        ImagesGrow(selected, k);
        results, trace := Drain(active, results, trace);
        return true, [], trace;
      }
      var done :| done <= active && done != {};
      active, results, trace := Collect(selected, k, active, results, trace, done);
      UnfailedPassed(trace);
      if exists image :: image in results && !results[image].completed {
        break;
      }
    }
    ghost var failed := FailureSeen(trace);
    ImagesGrow(selected, k);
    results, trace := Drain(active, results, trace);
    raised := false;
    downloads := Tally(selected, k, results, trace, failed);
  }

  lemma {:induction false} ImagesGrow(selected: seq<Image>, k: nat)
    requires k <= |selected|
    ensures Images(selected[..k]) <= Images(selected)
  {
    forall image | image in Images(selected[..k]) ensures image in Images(selected) {
      InImages(selected[..k], image);
      InImages(selected, image);
    }
  }

  /** The results, and `not_started` for every other image. */
  ghost predicate Padded(all: map<Image, Download>, results: map<Image, Download>) {
    && results.Keys <= all.Keys
    && forall image :: image in all ==>
         all[image] == if image in results then results[image] else Reported(image, NotStarted)
  }

  /** Files the images that were never started. */
  method FilePending(selected: seq<Image>, k: nat, results: map<Image, Download>) returns (all: map<Image, Download>)
    requires NoDup(selected) && k <= |selected| && results.Keys == Images(selected[..k])
    ensures all.Keys == Images(selected) && Padded(all, results)
  {
    all := results;
    var i := k;
    while i < |selected|
      invariant k <= i <= |selected|
      invariant all.Keys == Images(selected[..i]) && Padded(all, results)
      decreases |selected| - i
    {
      NextImage(selected, i);
      all := all[selected[i] := Reported(selected[i], NotStarted)];
      i := i + 1;
    }
    assert selected[..i] == selected;
  }

  /** Lists all results in selection order. */
  method Tally(selected: seq<Image>, k: nat, results: map<Image, Download>, trace: Log, ghost failed: bool)
    returns (downloads: seq<Download>)
    requires NoDup(selected) && Inv(selected, k, {}, results, trace)
    requires if failed then OwnFailureSeen(trace) else k == |selected| && !FailureSeen(trace)
    ensures Complete(selected, downloads, trace)
  {
    RunningOrFiled(trace);
    ImagesGrow(selected, k);
    assert selected[..|selected|] == selected;
    var all := FilePending(selected, k, results);
    forall j | 0 <= j < |selected| ensures selected[j] in all {
      InImages(selected, selected[j]);
    }
    downloads := seq(|selected|, j requires 0 <= j < |selected| && selected[j] in all => all[selected[j]]);
    TallyComplete(selected, downloads, trace, failed);
  }

  lemma {:induction false} TallyComplete(selected: seq<Image>, downloads: seq<Download>, trace: Log, failed: bool)
    requires Orderly(trace) && Running(trace) == {} && Started(trace) <= Images(selected)
    requires if failed then OwnFailureSeen(trace) else Started(trace) == Images(selected) && !FailureSeen(trace)
    requires |downloads| == |selected|
    requires forall i :: 0 <= i < |selected| ==>
               downloads[i] == if selected[i] in Results(trace) then Results(trace)[selected[i]]
                               else Reported(selected[i], NotStarted)
    ensures Complete(selected, downloads, trace)
  {
    RunningOrFiled(trace);
    if failed {
      var image := OwnFailureFiled(trace);
      InImages(selected, image);
      var j :| 0 <= j < |selected| && selected[j] == image;
      assert downloads[j].outcome == Failed;
    } else {
      UnfailedPassed(trace);
      forall j | 0 <= j < |downloads| ensures downloads[j].outcome == Passed {
        InImages(selected, selected[j]);
      }
    }
  }
}
