/** The job pipelines (`download_object` of `main.py`, `process_audio` of
    the other versions) as a fold over the results of their stages. Every
    stage that calls out (S3, ffmpeg, the recognizer, the database) either
    completes or raises; which do is a parameter. The admission stages are
    decided from the file's size, the free space and the duration probe as
    `Admission` states them. A raised exception ends the fold: no later
    stage is attempted. */
module Lifecycle {
  import opened Wrappers
  import opened Admission
  import opened UrlDecode
  import opened Audio
  import opened Identity

  datatype Stage =
    | MakeWorkDir | Download | EarlyAck | CheckSize | CheckDisk | CheckDuration
    | SaveOriginal | Normalize | Transcribe | Transcode | WriteMaster | Upload
    | StatusUpdate | IndexUpsert | DeleteTemp | MoveOriginal

  /** Stages whose failure the code catches and only logs: the early
      delete of `main.py`, the database update and the vector upsert of
      `run.py`. */
  predicate Advisory(s: Stage)
  {
    s == EarlyAck || s == StatusUpdate || s == IndexUpsert
  }

  /** What the outside world does during one job. */
  datatype World = World(completes: Stage -> bool, size: nat, free: nat, probe: Option<real>)

  /** Whether a stage lets the job go on. */
  predicate Passes(w: World, s: Stage)
  {
    match s
    case CheckSize => w.size <= MaxFileBytes
    case CheckDisk => w.free >= 2 * w.size
    case CheckDuration => !(w.probe.Some? && w.probe.value > MaxDurationSeconds)
    case _ => Advisory(s) || w.completes(s)
  }

  /** The stages a job began, in order, and whether the last of them
      raised. */
  datatype Trace = Trace(attempted: seq<Stage>, raised: bool)

  /** Every stage lets the job go on. */
  predicate AllPass(stages: seq<Stage>, w: World)
  {
    forall i :: 0 <= i < |stages| ==> Passes(w, stages[i])
  }

  /** Running the stages in order until one raises. */
  function Fold(stages: seq<Stage>, w: World): (t: Trace)
    ensures |t.attempted| <= |stages|
    ensures !t.raised ==> t.attempted == stages
    decreases |stages|
  {
    if stages == [] then Trace([], false)
    else if !Passes(w, stages[0]) then Trace([stages[0]], true)
    else
      var rest := Fold(stages[1..], w);
      Trace([stages[0]] + rest.attempted, rest.raised)
  }

  /** The job raises exactly when some stage fails. */
  lemma {:induction false} FoldRaisesIff(stages: seq<Stage>, w: World)
    ensures Fold(stages, w).raised <==> !AllPass(stages, w)
    decreases |stages|
  {
    if stages != [] {
      FoldRaisesIff(stages[1..], w);
      assert forall i :: 0 < i < |stages| ==> stages[i] == stages[1..][i - 1];
    }
  }

  /** The stages begun are a prefix of the list; all but the last passed,
      and the last failed when the job raised. */
  lemma {:induction false} FoldTrace(stages: seq<Stage>, w: World)
    ensures var t := Fold(stages, w);
      t.attempted == stages[..|t.attempted|]
      && (t.raised ==> |t.attempted| > 0 && !Passes(w, t.attempted[|t.attempted| - 1]))
      && forall i :: 0 <= i < |t.attempted| - 1 ==> Passes(w, t.attempted[i])
    decreases |stages|
  {
    if stages != [] && Passes(w, stages[0]) {
      FoldTrace(stages[1..], w);
      var rest := Fold(stages[1..], w);
      var t := Fold(stages, w);
      assert t.attempted == [stages[0]] + rest.attempted;
      assert forall i :: 0 < i < |t.attempted| ==> t.attempted[i] == rest.attempted[i - 1];
    }
  }

  /** The stage that raised, if one did. */
  function FailedAt(t: Trace): Option<Stage>
  {
    if t.raised && |t.attempted| > 0 then Some(t.attempted[|t.attempted| - 1]) else None
  }

  lemma {:induction false} FoldConcat(a: seq<Stage>, b: seq<Stage>, w: World)
    ensures Fold(a + b, w)
         == if Fold(a, w).raised then Fold(a, w)
            else Trace(a + Fold(b, w).attempted, Fold(b, w).raised)
    decreases |a|
  {
    if a == [] {
      assert a + b == b;
    } else {
      var ab := a + b;
      assert ab[0] == a[0];
      assert ab[1..] == a[1..] + b;
      if Passes(w, a[0]) {
        FoldConcat(a[1..], b, w);
        var rest := Fold(a[1..], w);
        assert Fold(ab, w) == Trace([a[0]] + Fold(a[1..] + b, w).attempted, Fold(a[1..] + b, w).raised);
        assert Fold(a, w) == Trace([a[0]] + rest.attempted, rest.raised);
        if !rest.raised {
          assert [a[0]] + (a[1..] + Fold(b, w).attempted) == a + Fold(b, w).attempted;
        }
      }
    }
  }

  /** The fold only looks at whether each stage passes. */
  lemma {:induction false} FoldDependsOnPasses(stages: seq<Stage>, w1: World, w2: World)
    requires forall i :: 0 <= i < |stages| ==> (Passes(w1, stages[i]) <==> Passes(w2, stages[i]))
    ensures Fold(stages, w1) == Fold(stages, w2)
    decreases |stages|
  {
    if stages != [] {
      FoldDependsOnPasses(stages[1..], w1, w2);
    }
  }

  // ------------------------------------------------------------ admission

  /** `file_size_mb > 500`, `check_disk_space`, the duration check. */
  const AdmissionStages: seq<Stage> := [CheckSize, CheckDisk, CheckDuration]

  /** The stage that reports each refusal. */
  function RefusedBy(v: Verdict): Option<Stage>
  {
    match v
    case TooLarge => Some(CheckSize)
    case LowDisk => Some(CheckDisk)
    case TooLong => Some(CheckDuration)
    case Admitted => None
  }

  /** The admission stages refuse the file exactly as `Admit` does, and the
      stage that raises names the refusal. */
  lemma AdmissionFold(w: World)
    ensures var t := Fold(AdmissionStages, w);
      (t.raised <==> Admit(w.size, w.free, w.probe) != Admitted)
      && FailedAt(t) == RefusedBy(Admit(w.size, w.free, w.probe))
  {
    var t := Fold(AdmissionStages, w);
    var s := AdmissionStages;
    assert s[1..] == [CheckDisk, CheckDuration] && s[1..][1..] == [CheckDuration];
    assert [CheckDuration][1..] == [];
  }

  // ---------------------------------------------------------- main.py

  const MainBefore: seq<Stage> := [MakeWorkDir, Download, EarlyAck]
  const MainWork: seq<Stage> := [SaveOriginal, Normalize, Transcribe, Transcode, WriteMaster, Upload]

  /** The stages of `download_object`, in order. */
  const MainStages: seq<Stage> := MainBefore + AdmissionStages + MainWork

  /** What `download_object` did: whether the key was skipped as
      non-audio, the stages run, and whether `cleanup_job` ran. */
  datatype MainJob = MainJob(skipped: bool, trace: Trace, cleaned: bool)

  function MainDownload(key: string, w: World): (j: MainJob)
    ensures j.skipped <==> !IsAudioFile(UnquotePlus(key))
    ensures j.skipped ==> j.trace == Trace([], false) && !j.cleaned
    ensures !j.skipped ==> j.cleaned
  {
    if !IsAudioFile(UnquotePlus(key)) then MainJob(true, Trace([], false), false)
    else MainJob(false, Fold(MainStages, w), true)
  }

  /** Whether the message was deleted from inside the job. */
  predicate Acked(j: MainJob)
  {
    EarlyAck in j.trace.attempted
  }

  lemma MainFold(w: World)
    ensures Fold(MainStages, w)
         == if Fold(MainBefore, w).raised then Fold(MainBefore, w)
            else var t := Fold(AdmissionStages + MainWork, w); Trace(MainBefore + t.attempted, t.raised)
  {
    assert MainStages == MainBefore + (AdmissionStages + MainWork);
    FoldConcat(MainBefore, AdmissionStages + MainWork, w);
  }

  lemma MainBeforeFold(w: World)
    ensures Fold(MainBefore, w).raised <==> !(w.completes(MakeWorkDir) && w.completes(Download))
    ensures !Fold(MainBefore, w).raised ==> Fold(MainBefore, w).attempted == MainBefore
    ensures EarlyAck in Fold(MainBefore, w).attempted <==> !Fold(MainBefore, w).raised
  {
    var s := MainBefore;
    assert s[1..] == [Download, EarlyAck] && s[1..][1..] == [EarlyAck] && [EarlyAck][1..] == [];
  }

  /** The message is deleted from inside the job exactly when the key is
      audio and the work directory and the download succeeded; skipped keys
      are never deleted here. */
  lemma MainAckIffDownloaded(key: string, w: World)
    ensures Acked(MainDownload(key, w)) <==>
      IsAudioFile(UnquotePlus(key)) && w.completes(MakeWorkDir) && w.completes(Download)
  {
    if IsAudioFile(UnquotePlus(key)) {
      MainFold(w);
      MainBeforeFold(w);
      var b := Fold(MainBefore, w);
      if !b.raised {
        assert EarlyAck in MainBefore;
      }
    }
  }

  /** The delete comes before every admission check: a file that the checks
      refuse has already left the queue. */
  lemma MainAckBeforeAdmission(key: string, w: World)
    requires FailedAt(MainDownload(key, w).trace) in {Some(CheckSize), Some(CheckDisk), Some(CheckDuration)}
    ensures Acked(MainDownload(key, w))
  {
    MainFold(w);
    MainBeforeFold(w);
    assert EarlyAck in MainBefore;
  }

  /** Past the early delete, the job fails at the admission stage that
      `Admit` names, and only then does it stop there. */
  lemma MainAdmission(key: string, w: World)
    requires IsAudioFile(UnquotePlus(key)) && w.completes(MakeWorkDir) && w.completes(Download)
    requires Admit(w.size, w.free, w.probe) != Admitted
    ensures MainDownload(key, w).trace.raised
    ensures FailedAt(MainDownload(key, w).trace) == RefusedBy(Admit(w.size, w.free, w.probe))
  {
    MainFold(w);
    MainBeforeFold(w);
    FoldConcat(AdmissionStages, MainWork, w);
    AdmissionFold(w);
  }

  /** A job whose stages all complete was deleted after its download and
      raised nothing. */
  lemma MainCompletes(key: string, w: World)
    requires IsAudioFile(UnquotePlus(key)) && AllPass(MainStages, w)
    ensures Acked(MainDownload(key, w)) && !MainDownload(key, w).trace.raised
  {
    FoldRaisesIff(MainStages, w);
    assert MainStages[2] == EarlyAck;
  }

  /** `cleanup_job` runs on every path that entered the `try`, which is
      every path but the non-audio skip; the job raises exactly when some
      stage does. */
  lemma MainCleanup(key: string, w: World)
    ensures MainDownload(key, w).cleaned <==> IsAudioFile(UnquotePlus(key))
    ensures MainDownload(key, w).trace.raised <==>
      IsAudioFile(UnquotePlus(key)) && !AllPass(MainStages, w)
  {
    FoldRaisesIff(MainStages, w);
  }

  // ---------------------------------------------------- cloud.py, local.py

  const CloudWork: seq<Stage> := [MakeWorkDir, Transcribe, Transcode, WriteMaster, Upload, DeleteTemp]

  /** The stages of `process_audio` in `cloud.py`. */
  const CloudStages: seq<Stage> := [Download] + AdmissionStages + CloudWork

  /** The stages of `process_audio` in `local.py`: no admission checks. */
  const LocalStages: seq<Stage> := [Download, MakeWorkDir, Transcribe, Transcode, WriteMaster, Upload, DeleteTemp]

  /** What `process_audio` returned, the stages it ran and whether
      `cleanup_local` ran. */
  datatype Job = Job(result: bool, trace: Trace, cleaned: bool)

  /** `process_audio` of `cloud.py` and `local.py`: every exception is
      caught and turned into `False`, and the `finally` cleans up. */
  function Process(stages: seq<Stage>, w: World): (j: Job)
    ensures j.cleaned
    ensures j.result <==> AllPass(stages, w)
    ensures j.result ==> j.trace.attempted == stages
  {
    var t := Fold(stages, w);
    FoldRaisesIff(stages, w);
    Job(!t.raised, t, true)
  }

  /** `cloud.py` returns True only once the upload and the temp-bucket
      delete have both completed. */
  lemma CloudTrueAfterDelete(w: World)
    requires Process(CloudStages, w).result
    ensures w.completes(Upload) && w.completes(DeleteTemp)
    ensures Admit(w.size, w.free, w.probe) == Admitted
  {
    var s := CloudStages;
    assert s[8] == Upload && s[9] == DeleteTemp;
    assert s[1] == CheckSize && s[2] == CheckDisk && s[3] == CheckDuration;
    assert Passes(w, s[1]) && Passes(w, s[2]) && Passes(w, s[3]);
  }

  /** After a completed download, `cloud.py` fails at the admission stage
      `Admit` names. */
  lemma CloudAdmission(w: World)
    requires w.completes(Download)
    requires Admit(w.size, w.free, w.probe) != Admitted
    ensures !Process(CloudStages, w).result
    ensures FailedAt(Process(CloudStages, w).trace) == RefusedBy(Admit(w.size, w.free, w.probe))
  {
    var t := Fold(AdmissionStages, w);
    AdmissionFold(w);
    FoldConcat(AdmissionStages, CloudWork, w);
    FoldConcat([Download], AdmissionStages + CloudWork, w);
    assert CloudStages == [Download] + (AdmissionStages + CloudWork);
    assert [Download][1..] == [];
  }

  /** `local.py` runs no admission checks: size, space and duration never
      change its result. */
  lemma LocalIgnoresAdmission(w: World, size: nat, free: nat, probe: Option<real>)
    ensures Process(LocalStages, w) == Process(LocalStages, World(w.completes, size, free, probe))
  {
    var w2 := World(w.completes, size, free, probe);
    forall s | s in LocalStages
      ensures Passes(w, s) <==> Passes(w2, s)
    {
    }
    FoldDependsOnPasses(LocalStages, w, w2);
  }

  /** `local.py` returns True exactly when every stage completes. */
  lemma LocalTrueIff(w: World)
    ensures Process(LocalStages, w).result <==>
      w.completes(Download) && w.completes(MakeWorkDir) && w.completes(Transcribe)
      && w.completes(Transcode) && w.completes(WriteMaster) && w.completes(Upload)
      && w.completes(DeleteTemp)
  {
    var j := Process(LocalStages, w);
    assert j.result <==> AllPass(LocalStages, w);
    LocalAllPass(w);
  }

  lemma LocalAllPass(w: World)
    ensures AllPass(LocalStages, w) <==>
      w.completes(Download) && w.completes(MakeWorkDir) && w.completes(Transcribe)
      && w.completes(Transcode) && w.completes(WriteMaster) && w.completes(Upload)
      && w.completes(DeleteTemp)
  {
    var s := LocalStages;
    assert s[0] == Download && s[1] == MakeWorkDir && s[2] == Transcribe && s[3] == Transcode;
    assert s[4] == WriteMaster && s[5] == Upload && s[6] == DeleteTemp;
  }

  // -------------------------------------------------------------- run.py

  const RunStages: seq<Stage> :=
    [MakeWorkDir, Download, Transcribe, Transcode, WriteMaster, Upload, StatusUpdate, IndexUpsert, DeleteTemp]

  /** What `process_audio` of `run.py` returned, the stages it ran, whether
      it tried to mark the song failed, and whether the `finally` ran. */
  datatype RunJob = RunJob(result: bool, trace: Trace, markedFailed: bool, cleaned: bool)

  function RunProcess(key: string, w: World): (j: RunJob)
    ensures SongId(key).processingId == "" ==> !j.result && j.trace.attempted == [] && !j.cleaned
  {
    if SongId(key).processingId == "" || SongId(key).folder == "" then RunJob(false, Trace([], false), false, false)
    else
      var t := Fold(RunStages, w);
      RunJob(!t.raised, t, t.raised, true)
  }

  /** A failed database update or vector upsert never changes the result:
      two worlds that differ only there give the same job. */
  lemma RunAdvisoryIrrelevant(key: string, w1: World, w2: World)
    requires forall s :: !Advisory(s) ==> (w1.completes(s) <==> w2.completes(s))
    requires w1.size == w2.size && w1.free == w2.free && w1.probe == w2.probe
    ensures RunProcess(key, w1) == RunProcess(key, w2)
  {
    forall s | true
      ensures Passes(w1, s) <==> Passes(w2, s)
    {
    }
    FoldDependsOnPasses(RunStages, w1, w2);
  }

  /** A key with a usable id always reaches the `finally`, and returns True
      exactly when every stage that can raise completes; on failure it
      marks the song failed. */
  lemma RunCleanup(key: string, w: World)
    requires SongId(key).processingId != "" && SongId(key).folder != ""
    ensures RunProcess(key, w).cleaned
    ensures RunProcess(key, w).result <==>
      w.completes(MakeWorkDir) && w.completes(Download) && w.completes(Transcribe)
      && w.completes(Transcode) && w.completes(WriteMaster) && w.completes(Upload)
      && w.completes(DeleteTemp)
    ensures RunProcess(key, w).markedFailed <==> !RunProcess(key, w).result
  {
    FoldRaisesIff(RunStages, w);
    RunAllPass(w);
  }

  lemma AllPassConcat(a: seq<Stage>, b: seq<Stage>, w: World)
    ensures AllPass(a + b, w) <==> AllPass(a, w) && AllPass(b, w)
  {
    if AllPass(a, w) && AllPass(b, w) {
      forall i | 0 <= i < |a + b|
        ensures Passes(w, (a + b)[i])
      {
        if i >= |a| {
          assert (a + b)[i] == b[i - |a|];
        }
      }
    }
    if AllPass(a + b, w) {
      forall i | 0 <= i < |a|
        ensures Passes(w, a[i])
      {
        assert (a + b)[i] == a[i];
      }
      forall i | 0 <= i < |b|
        ensures Passes(w, b[i])
      {
        assert (a + b)[i + |a|] == b[i];
      }
    }
  }

  lemma RunAllPass(w: World)
    ensures AllPass(RunStages, w) <==>
      w.completes(MakeWorkDir) && w.completes(Download) && w.completes(Transcribe)
      && w.completes(Transcode) && w.completes(WriteMaster) && w.completes(Upload)
      && w.completes(DeleteTemp)
  {
    var a, b := [MakeWorkDir, Download, Transcribe, Transcode, WriteMaster], [Upload, StatusUpdate, IndexUpsert, DeleteTemp];
    assert RunStages == a + b;
    AllPassConcat(a, b, w);
    assert a[0] == MakeWorkDir && a[1] == Download && a[2] == Transcribe && a[3] == Transcode && a[4] == WriteMaster;
    assert b[0] == Upload && b[1] == StatusUpdate && b[2] == IndexUpsert && b[3] == DeleteTemp;
  }

  // ---------------------------------------------------------- process.py

  const WebhookBefore: seq<Stage> := [MakeWorkDir, Download]
  const WebhookWork: seq<Stage> := [Normalize, Transcribe, Transcode, WriteMaster, MoveOriginal, Upload]

  /** What `process_audio` of `process.py` did: whether it returned
      normally, the stages it ran and whether it removed its files. */
  datatype WebhookJob = WebhookJob(returned: bool, trace: Trace, cleaned: bool)

  /** There is no `try`: an exception leaves everything in place, and a
      non-audio file returns before the cleanup. */
  function WebhookProcess(key: string, w: World): (j: WebhookJob)
    ensures j.cleaned ==> j.returned
  {
    var before := Fold(WebhookBefore, w);
    if before.raised then WebhookJob(false, before, false)
    else if !IsAudioPath(UnquotePlus(key)) then WebhookJob(true, before, false)
    else
      var work := Fold(WebhookWork, w);
      WebhookJob(!work.raised, Trace(WebhookBefore + work.attempted, work.raised), !work.raised)
  }

  lemma WebhookBeforeFold(w: World)
    ensures Fold(WebhookBefore, w).raised <==> !(w.completes(MakeWorkDir) && w.completes(Download))
    ensures !Fold(WebhookBefore, w).raised ==> Fold(WebhookBefore, w).attempted == WebhookBefore
  {
    var s := WebhookBefore;
    assert s[1..] == [Download] && [Download][1..] == [];
  }

  /** The files are removed exactly when the file is audio and every stage
      completed; any exception, and the non-audio return, leaves them. */
  lemma WebhookCleanupOnlyOnSuccess(key: string, w: World)
    ensures WebhookProcess(key, w).cleaned <==>
      w.completes(MakeWorkDir) && w.completes(Download) && IsAudioPath(UnquotePlus(key))
      && w.completes(Normalize) && w.completes(Transcribe) && w.completes(Transcode)
      && w.completes(WriteMaster) && w.completes(MoveOriginal) && w.completes(Upload)
  {
    WebhookBeforeFold(w);
    if !Fold(WebhookBefore, w).raised && IsAudioPath(UnquotePlus(key)) {
      FoldRaisesIff(WebhookWork, w);
      WebhookWorkAllPass(w);
    }
  }

  lemma WebhookWorkAllPass(w: World)
    ensures AllPass(WebhookWork, w) <==>
      w.completes(Normalize) && w.completes(Transcribe) && w.completes(Transcode)
      && w.completes(WriteMaster) && w.completes(MoveOriginal) && w.completes(Upload)
  {
    var s := WebhookWork;
    assert s[0] == Normalize && s[1] == Transcribe && s[2] == Transcode;
    assert s[3] == WriteMaster && s[4] == MoveOriginal && s[5] == Upload;
  }

  /** The audio check runs only after the directories exist and the
      download is done: a non-audio file has gone through both and comes
      back without cleanup. */
  lemma WebhookCheckAfterDownload(key: string, w: World)
    requires w.completes(MakeWorkDir) && w.completes(Download)
    requires !IsAudioPath(UnquotePlus(key))
    ensures WebhookProcess(key, w) == WebhookJob(true, Trace(WebhookBefore, false), false)
  {
    WebhookBeforeFold(w);
  }
}
