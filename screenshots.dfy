/** The backend's bounded screenshot history: a list of saved file paths,
    oldest first, capped at a fixed length, with a continuous-capture flag.
    The screen grab, the file system and the clock are inputs: a capture is
    either a failure or the path it saved, the files present on disk are a
    set of paths, and a file's creation time is a function of its path.
    Times are real-valued seconds, like the floats the clock returns. */
module Screenshots {
  import opened Text

  /** A screenshot file older than this many seconds is removed by the cleanup. */
  const MaxAgeSeconds: real := 3600.0

  /** What grabbing and saving the screen produced. */
  datatype Capture = CaptureFailed | Saved(path: string)

  /** The history after a saved capture: the new path goes last, and when that
      makes the list longer than `cap` the oldest entry (index 0) goes. */
  function Admit(shots: seq<string>, path: string, cap: nat): (r: seq<string>)
    ensures |shots| <= cap ==> |r| <= cap
    ensures |shots| < cap ==> r == shots + [path]
    ensures |shots| >= cap && shots != [] ==> r == shots[1..] + [path]
    ensures 0 < cap ==> r != [] && r[|r| - 1] == path
  {
    var grown := shots + [path];
    if |grown| > cap then grown[1..] else grown
  }

  /** The entry that `Admit` drops, if any. */
  function Evicted(shots: seq<string>, path: string, cap: nat): (e: Option<string>)
    ensures e.None? <==> |shots| < cap
    ensures e.Some? ==> Admit(shots, path, cap) == (shots + [path])[1..] && e.value == (shots + [path])[0]
  {
    if |shots| + 1 > cap then Some((shots + [path])[0]) else None
  }

  /** The cleanup's test: the file still exists and is more than an hour old. */
  predicate Expired(p: string, files: set<string>, created: string -> real, now: real) {
    p in files && now - created(p) > MaxAgeSeconds
  }

  /** Python `list.remove(x)`: drops the first occurrence of `x`. */
  function RemoveFirst(s: seq<string>, x: string): (r: seq<string>)
    ensures x in s ==> |r| == |s| - 1
    ensures x !in s ==> r == s
  {
    if s == [] then []
    else if s[0] == x then s[1..]
    else [s[0]] + RemoveFirst(s[1..], x)
  }

  /** The cleanup loop as written: walk a copy (`pending`) of the history; for
      every entry whose file exists and is expired, delete the file and remove
      the first occurrence of that path from the live list. Returns the new list
      and the set of files still on disk. */
  function Sweep(pending: seq<string>, list: seq<string>, files: set<string>,
                 created: string -> real, now: real): (seq<string>, set<string>)
  {
    if pending == [] then (list, files)
    else
      var p := pending[0];
      if Expired(p, files, created, now) then
        Sweep(pending[1..], RemoveFirst(list, p), files - {p}, created, now)
      else
        Sweep(pending[1..], list, files, created, now)
  }

  /** The reference definition of the cleanup: keep, in order, exactly the
      entries that are not expired. */
  function Fresh(shots: seq<string>, files: set<string>, created: string -> real, now: real): (r: seq<string>)
    ensures forall x :: x in r ==> x in shots && !Expired(x, files, created, now)
    ensures forall x :: x in shots && !Expired(x, files, created, now) ==> x in r
  {
    if shots == [] then []
    else (if Expired(shots[0], files, created, now) then [] else [shots[0]])
         + Fresh(shots[1..], files, created, now)
  }

  predicate Distinct(s: seq<string>) {
    forall i, j :: 0 <= i < j < |s| ==> s[i] != s[j]
  }

  lemma {:induction false} SweepShrinks(pending: seq<string>, list: seq<string>, files: set<string>,
                                        created: string -> real, now: real)
    ensures |Sweep(pending, list, files, created, now).0| <= |list|
    ensures Sweep(pending, list, files, created, now).1 <= files
  {
    if pending != [] {
      var p := pending[0];
      if Expired(p, files, created, now) {
        SweepShrinks(pending[1..], RemoveFirst(list, p), files - {p}, created, now);
      } else {
        SweepShrinks(pending[1..], list, files, created, now);
      }
    }
  }

  lemma {:induction false} FreshIgnoresOther(shots: seq<string>, files: set<string>, x: string,
                                             created: string -> real, now: real)
    requires x !in shots
    ensures Fresh(shots, files - {x}, created, now) == Fresh(shots, files, created, now)
  {
    if shots != [] {
      FreshIgnoresOther(shots[1..], files, x, created, now);
    }
  }

  lemma {:induction false} RemoveFirstBehind(kept: seq<string>, p: string, rest: seq<string>)
    requires p !in kept
    ensures RemoveFirst(kept + [p] + rest, p) == kept + rest
  {
    if kept != [] {
      assert (kept + [p] + rest)[1..] == kept[1..] + [p] + rest;
      RemoveFirstBehind(kept[1..], p, rest);
    }
  }

  lemma DistinctTail(s: seq<string>)
    requires s != [] && Distinct(s)
    ensures Distinct(s[1..]) && s[0] !in s[1..]
  {
    assert forall i :: 0 <= i < |s[1..]| ==> s[1..][i] == s[i + 1];
  }

  /** The loop invariant behind `CleanupRemovesExactlyExpired`: the live list is
      the already-decided prefix `kept` followed by the entries still pending. */
  lemma {:induction false} SweepDistinct(pending: seq<string>, kept: seq<string>, files: set<string>,
                                         created: string -> real, now: real)
    requires Distinct(pending)
    requires forall x :: x in pending ==> x !in kept
    ensures Sweep(pending, kept + pending, files, created, now).0 == kept + Fresh(pending, files, created, now)
    decreases |pending|, 1
  {
    if pending == [] {
      assert kept + pending == kept;
    } else if Expired(pending[0], files, created, now) {
      SweepDistinctDrop(pending, kept, files, created, now);
    } else {
      SweepDistinctKeep(pending, kept, files, created, now);
    }
  }

  lemma {:induction false} SweepDistinctDrop(pending: seq<string>, kept: seq<string>, files: set<string>,
                                             created: string -> real, now: real)
    requires pending != [] && Expired(pending[0], files, created, now)
    requires Distinct(pending)
    requires forall x :: x in pending ==> x !in kept
    ensures Sweep(pending, kept + pending, files, created, now).0 == kept + Fresh(pending, files, created, now)
    decreases |pending|, 0
  {
    var p, rest := pending[0], pending[1..];
    DistinctTail(pending);
    assert kept + pending == kept + [p] + rest;
    RemoveFirstBehind(kept, p, rest);
    assert RemoveFirst(kept + pending, p) == kept + rest;
    assert Sweep(pending, kept + pending, files, created, now)
        == Sweep(rest, kept + rest, files - {p}, created, now);
    assert forall x :: x in rest ==> x in pending;
    SweepDistinct(rest, kept, files - {p}, created, now);
    FreshIgnoresOther(rest, files, p, created, now);
    assert Fresh(pending, files, created, now) == Fresh(rest, files, created, now);
  }

  lemma {:induction false} SweepDistinctKeep(pending: seq<string>, kept: seq<string>, files: set<string>,
                                             created: string -> real, now: real)
    requires pending != [] && !Expired(pending[0], files, created, now)
    requires Distinct(pending)
    requires forall x :: x in pending ==> x !in kept
    ensures Sweep(pending, kept + pending, files, created, now).0 == kept + Fresh(pending, files, created, now)
    decreases |pending|, 0
  {
    var p, rest := pending[0], pending[1..];
    var live := kept + pending;
    assert Sweep(pending, live, files, created, now) == Sweep(rest, live, files, created, now);
    assert live == (kept + [p]) + rest;
    assert forall x :: x in rest ==> x !in kept + [p] by {
      DistinctTail(pending);
      assert forall x :: x in rest ==> x in pending && x != p;
    }
    SweepDistinct(rest, kept + [p], files, created, now);
    assert Fresh(pending, files, created, now) == [p] + Fresh(rest, files, created, now);
    AppendAssoc(kept, [p], Fresh(rest, files, created, now));
  }

  lemma AppendAssoc<T>(a: seq<T>, b: seq<T>, c: seq<T>)
    ensures a + (b + c) == (a + b) + c
  {
  }

  /** With no path listed twice, the cleanup removes exactly the entries whose
      file exists and is older than an hour, and keeps all others in order. */
  lemma CleanupRemovesExactlyExpired(shots: seq<string>, files: set<string>, created: string -> real, now: real)
    requires Distinct(shots)
    ensures Sweep(shots, shots, files, created, now).0 == Fresh(shots, files, created, now)
  {
    SweepDistinct(shots, [], files, created, now);
    assert [] + shots == shots;
  }

  /** A path listed twice (two captures in the same second get the same file
      name): its file is deleted once, and the second occurrence stays listed
      because the file no longer exists when the loop reaches it. */
  lemma CleanupKeepsSecondCopy(p: string, files: set<string>, created: string -> real, now: real)
    requires Expired(p, files, created, now)
    ensures Sweep([p, p], [p, p], files, created, now) == ([p], files - {p})
  {
    assert [p, p][1..] == [p];
    assert RemoveFirst([p, p], p) == [p];
    assert !Expired(p, files - {p}, created, now);
    assert Sweep([p, p], [p, p], files, created, now) == Sweep([p], [p], files - {p}, created, now);
    assert Sweep([p], [p], files - {p}, created, now) == Sweep([], [p], files - {p}, created, now);
  }

  class ScreenshotManager {
    /** `MAX_SCREENSHOTS` */
    const cap: nat
    /** Saved screenshot paths, oldest first. */
    var screenshots: seq<string>
    var isCapturing: bool

    ghost predicate Valid()
      reads this
    {
      |screenshots| <= cap
    }

    constructor (cap: nat)
      ensures Valid() && this.cap == cap
      ensures screenshots == [] && !isCapturing
    {
      this.cap := cap;
      screenshots := [];
      isCapturing := false;
    }

    /** `take_screenshot`. `files` is the set of files on disk when the evicted
        entry is looked up; `removeRaises` says whether deleting it raises.
        `removed` is the file whose deletion is attempted. */
    method TakeScreenshot(capture: Capture, files: set<string>, removeRaises: bool)
      returns (path: Option<string>, removed: Option<string>)
      requires Valid()
      modifies this`screenshots
      ensures Valid()
      ensures capture.CaptureFailed? ==> screenshots == old(screenshots) && path == None && removed == None
      ensures capture.Saved? ==> screenshots == Admit(old(screenshots), capture.path, cap)
      ensures capture.Saved? ==>
                removed == (var e := Evicted(old(screenshots), capture.path, cap);
                            if e.Some? && e.value in files then e else None)
      ensures capture.Saved? ==> path == if removed.Some? && removeRaises then None else Some(capture.path)
      ensures path.Some? && 0 < cap ==> Latest() == path
    {
      removed := None;
      if capture.CaptureFailed? {
        return None, None;
      }
      screenshots := screenshots + [capture.path];
      if |screenshots| > cap {
        var oldest := screenshots[0];
        screenshots := screenshots[1..];
        if oldest in files {
          removed := Some(oldest);
          if removeRaises {
            return None, removed;
          }
        }
      }
      path := Some(capture.path);
    }

    /** `start_continuous_capture`: does nothing while already capturing;
        `started` says whether a capture thread is started. */
    method StartContinuousCapture() returns (started: bool)
      modifies this`isCapturing
      ensures isCapturing
      ensures started == !old(isCapturing)
    {
      if isCapturing {
        return false;
      }
      isCapturing := true;
      started := true;
    }

    /** `stop_continuous_capture` */
    method StopContinuousCapture()
      modifies this`isCapturing
      ensures !isCapturing
    {
      isCapturing := false;
    }

    /** `get_latest_screenshot` */
    function Latest(): (r: Option<string>)
      reads this
      ensures r.None? <==> screenshots == []
      ensures r.Some? ==> r.value == screenshots[|screenshots| - 1]
    {
      if screenshots != [] then Some(screenshots[|screenshots| - 1]) else None
    }

    /** `get_screenshot_for_analysis`: the latest path, provided it is a
        non-empty path whose file still exists. */
    function ForAnalysis(files: set<string>): (r: Option<string>)
      reads this
      ensures r.Some? <==> screenshots != [] && screenshots[|screenshots| - 1] != "" && screenshots[|screenshots| - 1] in files
      ensures r.Some? ==> r == Latest()
    {
      var latest := Latest();
      if Truthy(latest) && latest.value in files then latest else None
    }

    /** `cleanup_old_screenshots`. Returns the files left on disk. */
    method CleanupOldScreenshots(files: set<string>, created: string -> real, now: real)
      returns (remaining: set<string>)
      requires Valid()
      modifies this`screenshots
      ensures Valid()
      ensures (screenshots, remaining) == Sweep(old(screenshots), old(screenshots), files, created, now)
    {
      var snapshot := screenshots;
      remaining := files;
      var i := 0;
      while i < |snapshot|
        invariant 0 <= i <= |snapshot|
        invariant |screenshots| <= |snapshot|
        invariant Sweep(snapshot[i..], screenshots, remaining, created, now)
                  == Sweep(snapshot, snapshot, files, created, now)
      {
        var shot := snapshot[i];
        assert snapshot[i..][1..] == snapshot[i + 1..];
        if shot in remaining && now - created(shot) > MaxAgeSeconds {
          remaining := remaining - {shot};
          screenshots := RemoveFirst(screenshots, shot);
        }
        i := i + 1;
      }
    }
  }
}
