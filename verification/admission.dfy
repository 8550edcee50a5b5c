/** The checks `main.py` and `cloud.py` make on a downloaded file before any
    transcoding: its size, the free disk space it needs, and its duration.
    The source computes megabytes as floating-point `bytes / (1024 * 1024)`;
    the model states the same thresholds over whole bytes and shows the two
    agree. */
module Admission {
  import opened Wrappers

  /** Bytes in one of the source's megabytes. */
  const MiB: nat := 1024 * 1024

  /** `MAX_FILE_SIZE_MB` (and the literal 500 of `cloud.py`). */
  const MaxFileMiB: nat := 500

  const MaxFileBytes: nat := MaxFileMiB * MiB

  /** `MAX_DURATION_SECONDS` (and the literal 3600 of `cloud.py`). */
  const MaxDurationSeconds: real := 3600.0

  /** Why a file was refused, or that it was not. */
  datatype Verdict = Admitted | TooLarge | LowDisk | TooLong

  /** `get_audio_duration`: the probed duration, or 0.0 when the probe
      failed. */
  function ProbedDuration(probe: Option<real>): real
  {
    probe.GetOr(0.0)
  }

  /** The three checks in their order, over the file's size and the free
      space in bytes and the probe's answer. */
  function Admit(size: nat, free: nat, probe: Option<real>): (v: Verdict)
    ensures v == TooLarge <==> size > MaxFileBytes
    ensures v == LowDisk <==> size <= MaxFileBytes && free < 2 * size
    ensures v == TooLong ==> probe.Some? && probe.value > MaxDurationSeconds
    ensures v == Admitted <==>
      size <= MaxFileBytes && free >= 2 * size && !(probe.Some? && probe.value > MaxDurationSeconds)
  {
    if size > MaxFileBytes then TooLarge
    else if free < 2 * size then LowDisk
    else
      var duration := ProbedDuration(probe);
      if duration > 0.0 && duration > MaxDurationSeconds then TooLong else Admitted
  }

  /** The checks as the source writes them, over megabytes and seconds as
      real numbers: `size_mb > 500`, `check_disk_space(size_mb)` and
      `duration > 0` then `duration > 3600`. */
  function AdmitInMiB(sizeMiB: real, freeMiB: real, duration: real): Verdict
  {
    if sizeMiB > MaxFileMiB as real then TooLarge
    else if freeMiB < sizeMiB * 2.0 then LowDisk
    else if duration > 0.0 && duration > MaxDurationSeconds then TooLong
    else Admitted
  }

  /** Dividing both sides by the same positive scale keeps the order. */
  lemma ScaleOrder(a: nat, b: nat, m: nat)
    requires m > 0
    ensures a < b <==> (a as real) / (m as real) < (b as real) / (m as real)
  {
    var ra, rb, rm := a as real, b as real, m as real;
    if a < b {
      assert ra / rm < rb / rm by {
        assert rb / rm - ra / rm == (rb - ra) / rm;
      }
    } else {
      assert ra / rm >= rb / rm by {
        assert ra / rm - rb / rm == (ra - rb) / rm;
      }
    }
  }

  /** The byte-count checks decide exactly as the megabyte checks of the
      source do. */
  lemma AdmitMatchesSource(size: nat, free: nat, probe: Option<real>)
    ensures Admit(size, free, probe)
         == AdmitInMiB(size as real / MiB as real, free as real / MiB as real, ProbedDuration(probe))
  {
    var m := MiB as real;
    var sizeMiB := size as real / m;
    var freeMiB := free as real / m;
    ScaleOrder(MaxFileBytes, size, MiB);
    assert MaxFileBytes as real / m == MaxFileMiB as real;
    ScaleOrder(free, 2 * size, MiB);
    assert (2 * size) as real / m == sizeMiB * 2.0;
  }

  /** A failed probe never makes a file too long. */
  lemma FailedProbeNeverTooLong(size: nat, free: nat)
    ensures Admit(size, free, None) != TooLong
  {
  }

  /** A non-positive probe result is ignored like a failed probe. */
  lemma NonPositiveDurationIgnored(size: nat, free: nat, d: real)
    requires d <= 0.0
    ensures Admit(size, free, Some(d)) == Admit(size, free, None)
  {
  }

  /** More free space never turns an admitted file away. */
  lemma MoreFreeSpaceStillAdmitted(size: nat, free: nat, more: nat, probe: Option<real>)
    requires free <= more
    requires Admit(size, free, probe) == Admitted
    ensures Admit(size, more, probe) == Admitted
  {
  }

  /** A smaller file with the same duration is admitted whenever a larger
      one is. */
  lemma SmallerFileStillAdmitted(size: nat, smaller: nat, free: nat, probe: Option<real>)
    requires smaller <= size
    requires Admit(size, free, probe) == Admitted
    ensures Admit(smaller, free, probe) == Admitted
  {
  }

  /** The size check comes first: an oversized file is reported as such even
      when the disk is full and the recording too long. */
  lemma SizeCheckedFirst(size: nat, free: nat, probe: Option<real>)
    requires size > MaxFileBytes
    ensures Admit(size, free, probe) == TooLarge
  {
  }

  /** Exactly 500 MiB is still allowed; one byte more is not. */
  lemma SizeBoundary()
    ensures Admit(524288000, 1048576000, None) == Admitted
    ensures Admit(524288001, 1048576002, None) == TooLarge
  {
  }
}
