/** The upload sequencer of the play page (handlers/www/assets/app-simplified.js,
    `uploadFiles`): the picked files are taken off the front of their array
    one at a time, each is posted before the next is taken, the status line
    says which file of how many is going, the progress bar shows a whole
    percentage, and an empty array resets both. The HTTP transport is left
    out: a post is recorded as its URL and its completion is a step. */
module Upload {
  import opened Decimal
  import opened JsValues

  /** The status line while the k-th of `total` files, `name`, is uploading. */
  function StatusLine(k: nat, total: nat, name: string): string {
    "Uploading file(s) " + NatToString(k) + "/" + NatToString(total) + " : " + name
  }

  /** The line starts with the fixed text and ends with the file name. */
  lemma StatusLineShape(k: nat, total: nat, name: string)
    ensures var m := StatusLine(k, total, name);
      && IsPrefix("Uploading file(s) ", m)
      && IsSuffix(" : " + name, m)
  {
    var m := StatusLine(k, total, name);
    assert m == "Uploading file(s) " + (NatToString(k) + "/" + NatToString(total)) + (" : " + name);
  }

  /** `parseInt(100.0 * loaded / total)`: the whole percentage, rounded
      down; `NaN` (here `None`) when the event reports a zero total. */
  function Percent(loaded: nat, total: nat): (p: Option<nat>)
    ensures p.None? <==> total == 0
    ensures p.Some? ==> p.value * total <= 100 * loaded < (p.value + 1) * total
    ensures p.Some? && loaded <= total ==> p.value <= 100
  {
    if total == 0 then None else
      var q := (100 * loaded) / total;
      assert q * total + (100 * loaded) % total == 100 * loaded;
      PercentAtMost100(loaded, total, q);
      Some(q)
  }

  lemma PercentAtMost100(loaded: nat, total: nat, q: nat)
    requires total > 0 && q * total <= 100 * loaded
    ensures loaded <= total ==> q <= 100
  {
    if loaded <= total {
      assert q * total <= 100 * total;
      LessByFactor(q, 101, total);
    }
  }

  lemma LessByFactor(x: nat, y: nat, t: nat)
    requires t > 0 && x * t < y * t
    ensures x < y
  {
  }

  /** More bytes loaded never shows a smaller percentage. */
  lemma PercentMonotone(a: nat, b: nat, total: nat)
    requires a <= b && total > 0
    ensures Percent(a, total).value <= Percent(b, total).value
  {
    var p, q := Percent(a, total).value, Percent(b, total).value;
    assert p * total <= 100 * a <= 100 * b < (q + 1) * total;
    LessByFactor(p, q + 1, total);
  }

  /** One value of the status line: file `k` of `total`, `name`, is going;
      or cleared once the array is drained. */
  datatype Line = Going(k: nat, total: nat, name: string) | Cleared

  /** The text `$scope.uploadMessage` holds for a line. */
  function Text(l: Line): string {
    match l
    case Going(k, total, name) => StatusLine(k, total, name)
    case Cleared => ""
  }

  /** The first `n` status lines of a call over `names`, numbered from 1. */
  function Lines(names: seq<string>, n: nat): (ls: seq<Line>)
    requires n <= |names|
    ensures |ls| == n
    decreases n
  {
    if n == 0 then [] else Lines(names, n - 1) + [Going(n, |names|, names[n - 1])]
  }

  /** Every status line one call of `uploadFiles` shows, in order: one per
      file, then the cleared line when the array is drained. */
  function Schedule(names: seq<string>): (ms: seq<Line>)
    ensures |ms| == |names| + 1 && ms[|names|] == Cleared
  {
    Lines(names, |names|) + [Cleared]
  }

  /** The k-th line (from 0) names the k-th file as number k+1 of all of them. */
  lemma {:induction false} LinesIndex(names: seq<string>, n: nat, k: nat)
    requires k < n <= |names|
    ensures Lines(names, n)[k] == Going(k + 1, |names|, names[k])
    decreases n
  {
    if k < n - 1 {
      LinesIndex(names, n - 1, k);
    }
  }

  /** Line k of the schedule reads "Uploading file(s) k+1/total : name". */
  lemma ScheduleIndex(names: seq<string>)
    ensures forall k :: 0 <= k < |names| ==> Text(Schedule(names)[k]) == StatusLine(k + 1, |names|, names[k])
    ensures Text(Schedule(names)[|names|]) == ""
  {
    forall k | 0 <= k < |names|
      ensures Text(Schedule(names)[k]) == StatusLine(k + 1, |names|, names[k])
    {
      LinesIndex(names, |names|, k);
    }
  }

  /** Taking the file at position `n` off the untaken tail of `names`
      leaves the rest of the tail, and its status line extends `Lines` by one. */
  lemma TakeStep(names: seq<string>, n: nat)
    requires n < |names|
    ensures names[n + 1..] == names[n..][1..]
    ensures Lines(names, n + 1) == Lines(names, n) + [Going(n + 1, |names|, names[n])]
  {
  }

  /** The request path a file of instance `name` is posted to. */
  function UploadUrl(sessionId: string, name: string): string {
    "/sessions/" + sessionId + "/instances/" + name + "/uploads"
  }

  /** One `Upload.upload` call: the URL it posts to and the file it sends. */
  datatype Post = Post(url: string, file: string)

  /** The posts of `files`, in order, all to `url`. */
  function Posts(url: string, files: seq<string>): (r: seq<Post>)
    ensures |r| == |files|
    decreases |files|
  {
    if files == [] then [] else Posts(url, files[..|files| - 1]) + [Post(url, files[|files| - 1])]
  }

  /** Post k of `Posts` sends file k. */
  lemma {:induction false} PostsAt(url: string, files: seq<string>)
    ensures forall k :: 0 <= k < |files| ==> Posts(url, files)[k] == Post(url, files[k])
    decreases |files|
  {
    if files != [] {
      var init := files[..|files| - 1];
      PostsAt(url, init);
      assert forall k :: 0 <= k < |init| ==> files[k] == init[k];
    }
  }

  /** One more file taken adds its post at the end. */
  lemma PostsStep(url: string, files: seq<string>, n: nat)
    requires n < |files|
    ensures Posts(url, files[..n + 1]) == Posts(url, files[..n]) + [Post(url, files[n])]
  {
    assert files[..n + 1][..n] == files[..n];
  }

  /** `$scope.uploadMessage` and `$scope.uploadProgress` (`None` is `NaN`). */
  class UploadStatus {
    var message: string
    var progress: Option<nat>

    constructor ()
      ensures message == "" && progress == Some(0)
    {
      message := "";
      progress := Some(0);
    }
  }

  /** Where one chain of `uploadFile` calls stands: not started, waiting for
      the post of `file`, drained, or stopped by the `TypeError` of reading
      `$scope.instance.name` after the instance went away. */
  datatype Phase = NotStarted | Uploading(file: string) | Drained | Stalled

  /** The closure state of one `uploadFiles(files)` call: the caller's array,
      which `shift` empties, and `total`, its length at the start. */
  class UploadChain {
    const status: UploadStatus
    const sessionId: string
    const total: nat
    ghost const original: seq<string>
    var files: seq<string>
    var phase: Phase
    ghost var shown: seq<Line>
    var requests: seq<Post>

    /** The files taken so far are the front of the original array, and the
        status lines set so far are the first ones of `Schedule`. */
    ghost predicate Valid()
      reads this
    {
      && total == |original| && |files| <= total
      && original[total - |files|..] == files
      && shown == Lines(original, total - |files|) + (if phase.Drained? then [Cleared] else [])
      && (phase.NotStarted? ==> files == original)
      && (phase.Uploading? ==> total - |files| >= 1 && phase.file == original[total - |files| - 1])
      && (phase.Drained? ==> files == [])
    }

    constructor (status: UploadStatus, sessionId: string, files: seq<string>)
      ensures Valid() && this.status == status && this.sessionId == sessionId
      ensures original == files && this.files == files && total == |files|
      ensures phase == NotStarted && shown == [] && requests == []
    {
      this.status := status;
      this.sessionId := sessionId;
      total := |files|;
      original := files;
      this.files := files;
      phase := NotStarted;
      shown := [];
      requests := [];
    }

    /** `uploadFile()`: take the next file; with none left, reset the status
        line and the progress; otherwise show which file is going and post
        it to the current instance, or stop when there is none. */
    method Next(instanceName: Option<string>)
      requires Valid() && (phase.NotStarted? || phase.Uploading?)
      modifies this`files, this`phase, this`shown, this`requests, status
      ensures Valid()
      ensures instanceName.Some? ==> |requests| + |files| == |old(requests)| + |old(files)|
      ensures old(files) == [] ==>
        && phase == Drained && files == [] && status.message == "" && status.progress == Some(0)
        && requests == old(requests) && shown == Schedule(original)
      ensures old(files) != [] ==>
        && files == old(files)[1..]
        && status.message == StatusLine(total - |files|, total, old(files)[0])
        && status.progress == old(status.progress)
        && phase == (if instanceName.None? then Stalled else Uploading(old(files)[0]))
        && requests == old(requests) + (if instanceName.None? then [] else [Post(UploadUrl(sessionId, instanceName.value), old(files)[0])])
    {
      if files == [] {
        Drain();
      } else {
        Take(instanceName);
      }
    }

    /** The branch of `uploadFile` where `shift` found no file left. */
    method Drain()
      requires Valid() && files == [] && (phase.NotStarted? || phase.Uploading?)
      modifies this`phase, this`shown, status
      ensures Valid() && phase == Drained
      ensures status.message == "" && status.progress == Some(0)
      ensures shown == Schedule(original)
    {
      status.message := "";
      status.progress := Some(0);
      phase := Drained;
      shown := shown + [Cleared];
    }

    /** The branch of `uploadFile` where `shift` took a file. */
    method Take(instanceName: Option<string>)
      requires Valid() && files != [] && (phase.NotStarted? || phase.Uploading?)
      modifies this`files, this`phase, this`shown, this`requests, status`message
      ensures Valid()
      ensures files == old(files)[1..]
      ensures instanceName.Some? ==> |requests| + |files| == |old(requests)| + |old(files)|
      ensures status.message == StatusLine(total - |files|, total, old(files)[0])
      ensures phase == (if instanceName.None? then Stalled else Uploading(old(files)[0]))
      ensures requests == old(requests) + (if instanceName.None? then [] else [Post(UploadUrl(sessionId, instanceName.value), old(files)[0])])
    {
      var file := files[0];
      ghost var n := total - |files|;
      assert file == original[n];
      TakeStep(original, n);
      files := files[1..];
      status.message := StatusLine(total - |files|, total, file);
      if instanceName.None? {
        phase := Stalled;
      } else {
        requests := requests + [Post(UploadUrl(sessionId, instanceName.value), file)];
        phase := Uploading(file);
      }
      shown := shown + [Going(total - |files|, total, file)];
      assert total - |files| == n + 1 && original[n + 1..] == files;
      assert shown == Lines(original, n + 1);
    }

    /** A progress event of the current post. */
    method Progress(loaded: nat, eventTotal: nat)
      requires Valid() && phase.Uploading?
      modifies status`progress
      ensures status.progress == Percent(loaded, eventTotal)
    {
      status.progress := Percent(loaded, eventTotal);
    }

    /** The post of the current file settled, on success or failure: its
        `finally` runs `uploadFile` again. */
    method Settle(instanceName: Option<string>)
      requires Valid() && phase.Uploading?
      modifies this`files, this`phase, this`shown, this`requests, status
      ensures Valid()
      ensures phase.Drained? ==> shown == Schedule(original) && status.message == "" && status.progress == Some(0)
      ensures old(files) != [] ==> files == old(files)[1..] && status.message == StatusLine(total - |files|, total, old(files)[0])
      ensures instanceName.Some? ==> phase.Uploading? || phase.Drained?
      ensures instanceName.Some? ==> |requests| + |files| == |old(requests)| + |old(files)|
      ensures phase.Uploading? ==> |files| < |old(files)|
    {
      Next(instanceName);
    }
  }

  /** The start of `uploadFiles` once an instance is present: a chain over
      the caller's array, and its first `uploadFile` call. */
  method StartChain(status: UploadStatus, sessionId: string, files: seq<string>, instanceName: string)
    returns (chain: UploadChain)
    modifies status
    ensures fresh(chain) && chain.Valid() && chain.status == status
    ensures chain.sessionId == sessionId && chain.original == files
    ensures files == [] ==> chain.phase == Drained && status.message == "" && status.progress == Some(0)
    ensures files != [] ==>
      && chain.phase == Uploading(files[0]) && status.message == StatusLine(1, |files|, files[0])
      && chain.requests == [Post(UploadUrl(sessionId, instanceName), files[0])]
  {
    chain := new UploadChain(status, sessionId, files);
    chain.Next(Some(instanceName));
    assert files != [] ==> chain.total - |chain.files| == 1;
  }

  /** Driving one chain to the end, with the instance present throughout,
      shows every status line of `Schedule` in order and posts every file. */
  method DrainAll(status: UploadStatus, sessionId: string, names: seq<string>, instanceName: string)
    returns (chain: UploadChain)
    modifies status
    ensures fresh(chain) && chain.phase == Drained
    ensures chain.shown == Schedule(names) && chain.original == names
    ensures |chain.requests| == |names|
    ensures chain.requests == Posts(UploadUrl(sessionId, instanceName), names)
    ensures status.message == "" && status.progress == Some(0)
  {
    chain := new UploadChain(status, sessionId, names);
    ghost var url := UploadUrl(sessionId, instanceName);
    ghost var i := 0;
    while chain.files != []
      invariant fresh(chain) && chain.Valid() && chain.status == status && chain.original == names
      invariant chain.sessionId == sessionId
      invariant chain.phase.NotStarted? || chain.phase.Uploading?
      invariant i + |chain.files| == |names|
      invariant chain.requests == Posts(url, names[..i])
      decreases |chain.files|
    {
      ghost var before := chain.requests;
      PostsStep(url, names, i);
      chain.Next(Some(instanceName));
      assert chain.phase.file == names[i];
      assert chain.requests == before + [Post(url, names[i])];
      i := i + 1;
    }
    assert names[..i] == names;
    chain.Next(Some(instanceName));
  }
}
