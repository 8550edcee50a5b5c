/** The names a job is known by: the local download name, the work
    directory and the output prefix under which the stream is published.
    Every version derives them from the decoded object key; `main.py` goes
    through the slug, `run.py` through a processing id taken from the key,
    and `cloud.py` and `local.py` use the key's file name and stem as they
    are. Times are the whole seconds of `int(time.time())`, passed in. */
module Identity {
  import opened Text
  import opened Paths
  import opened Slug

  // ------------------------------------------------------------- main.py

  /** The slug of the key's stem, the part every `main.py` name starts from. */
  function SlugStem(key: string): string
  {
    Slugify(Stem(PathName(key)))
  }

  /** The fallback base name `audio_<t>`. */
  function Fallback(t: nat): (r: string)
    ensures IsSlug(r) && r != ""
  {
    var d := Decimal(t);
    var r := "audio_" + d;
    assert forall i :: 6 <= i < |r| ==> r[i] == d[i - 6];
    r
  }

  /** The local download name: the slugged stem followed by the original
      suffix, or `audio_<t><suffix>` when the slug is empty. */
  function DownloadName(key: string, t: nat): (r: string)
    ensures EndsWith(r, Suffix(PathName(key)))
    ensures SlugStem(key) != "" ==> r == SlugStem(key) + Suffix(PathName(key))
    ensures SlugStem(key) == "" ==> r == Fallback(t) + Suffix(PathName(key))
  {
    var suffix := Suffix(PathName(key));
    var safe := SlugStem(key) + suffix;
    if safe == "" || safe == suffix then Fallback(t) + suffix else safe
  }

  lemma SlugNoSlash(s: string)
    requires IsSlug(s)
    ensures NoSlash(s)
  {
    assert forall k :: 0 <= k < |s| ==> IsSlugChar(s[k]);
  }

  /** The download name is one path component: it stays inside the
      download directory whatever the key. */
  lemma DownloadNameIsOneComponent(key: string, t: nat)
    ensures NoSlash(DownloadName(key, t))
  {
    var suffix := Suffix(PathName(key));
    StemSuffixNoSlash(PathName(key));
    if SlugStem(key) == "" {
      SlugNoSlash(Fallback(t));
      NoSlashParts(Fallback(t), suffix);
    } else {
      SlugNoSlash(SlugStem(key));
      NoSlashParts(SlugStem(key), suffix);
    }
  }

  /** The job id `<slug>_<t>` naming the work directory. */
  function JobId(key: string, t: nat): (r: string)
    ensures StartsWith(r, SlugStem(key) + "_")
    ensures r[|SlugStem(key)| + 1..] == Decimal(t)
  {
    SlugStem(key) + "_" + Decimal(t)
  }

  /** Two jobs for the same key get the same id exactly when they start in
      the same second. */
  lemma JobIdOnePerSecond(key: string, t1: nat, t2: nat)
    ensures JobId(key, t1) == JobId(key, t2) <==> t1 == t2
  {
    if JobId(key, t1) == JobId(key, t2) {
      DecimalInjective(t1, t2);
    }
  }

  /** The output prefix `song_name`: the slugged stem, or `audio_<t>` when
      that is empty. It is never empty and always a slug, so it never holds
      a `/`. */
  function OutputPrefix(key: string, t: nat): (r: string)
    ensures r != "" && IsSlug(r)
    ensures SlugStem(key) != "" ==> r == SlugStem(key)
    ensures SlugStem(key) == "" ==> r == Fallback(t)
  {
    var song := SlugStem(key);
    if song == "" then Fallback(t) else song
  }

  /** The download name and the output prefix fall back together: both do
      exactly when the stem has no letter, digit, `_` or `-` in it. One `t`
      stands for both clock reads; `download_object` reads the clock
      separately for each name (main.py:378, 381, 424), so across a second
      boundary the two fallback names can differ in their number. */
  lemma FallbackTogether(key: string, t: nat)
    ensures var stem := Stem(PathName(key));
            (OutputPrefix(key, t) == Fallback(t)
              && DownloadName(key, t) == Fallback(t) + Suffix(PathName(key)))
            <== (forall i :: 0 <= i < |stem| ==> !Survives(stem[i]))
    ensures var stem := Stem(PathName(key));
            (OutputPrefix(key, t) == SlugStem(key)
              && DownloadName(key, t) == OutputPrefix(key, t) + Suffix(PathName(key)))
            <== (exists i :: 0 <= i < |stem| && Survives(stem[i]))
  {
    SlugifyEmpty(Stem(PathName(key)));
  }

  /** Outside the fallback the output prefix does not depend on the time. */
  lemma PrefixIgnoresTime(key: string, t1: nat, t2: nat)
    requires SlugStem(key) != ""
    ensures OutputPrefix(key, t1) == OutputPrefix(key, t2)
  {
  }

  // -------------------------------------------------------------- run.py

  /** The characters of `[a-f0-9\-]`. */
  predicate IsIdChar(c: char)
  {
    '0' <= c <= '9' || 'a' <= c <= 'f' || c == '-'
  }

  /** `re.search(r'^([a-f0-9\-]{36})', name)` succeeds. */
  predicate HasIdPrefix(name: string)
  {
    |name| >= 36 && forall i :: 0 <= i < 36 ==> IsIdChar(name[i])
  }

  /** The pair `(processing_id, folder_name)`. */
  datatype SongIdentity = SongIdentity(processingId: string, folder: string)

  /** The fallback name: the stem with spaces and underscores turned into
      dashes. */
  function CleanStem(name: string): (r: string)
    ensures |r| == |Stem(PathName(name))|
    ensures forall i :: 0 <= i < |r| ==> r[i] != ' ' && r[i] != '_'
  {
    ReplaceChar(ReplaceChar(Stem(PathName(name)), ' ', '-'), '_', '-')
  }

  /** `extract_song_id_from_key`. */
  function SongId(key: string): (r: SongIdentity)
    ensures r.processingId == r.folder
    ensures HasIdPrefix(Basename(key)) ==> r.folder == Basename(key)[..36]
    ensures !HasIdPrefix(Basename(key)) ==> r.folder == CleanStem(Basename(key))
  {
    var name := Basename(key);
    if HasIdPrefix(name) then SongIdentity(name[..36], name[..36])
    else
      var clean := CleanStem(name);
      SongIdentity(clean, clean)
  }

  lemma CleanStemNoSlash(name: string)
    requires NoSlash(name)
    ensures NoSlash(CleanStem(name))
  {
    PathNameOfPlainName(name);
    StemSuffixNoSlash(PathName(name));
    var stem := Stem(PathName(name));
    var r := CleanStem(name);
    forall k | 0 <= k < |r| ensures r[k] != '/' {
      assert r[k] == stem[k] || r[k] == '-';
    }
  }

  /** The folder never holds a `/`, so it is one path component. */
  lemma FolderIsOneComponent(key: string)
    ensures NoSlash(SongId(key).folder)
  {
    var name := Basename(key);
    if HasIdPrefix(name) {
      assert name == name[..36] + name[36..];
      NoSlashParts(name[..36], name[36..]);
    } else {
      CleanStemNoSlash(name);
    }
  }

  /** Only the last component of the key matters: two keys with the same
      file name get the same identity. */
  lemma SameNameSameIdentity(k1: string, k2: string)
    requires Basename(k1) == Basename(k2)
    ensures SongId(k1) == SongId(k2)
  {
  }

  /** Two file names agreeing on a 36-character id prefix get the same
      identity, whatever follows. */
  lemma SameIdSameIdentity(k1: string, k2: string)
    requires HasIdPrefix(Basename(k1)) && HasIdPrefix(Basename(k2))
    requires Basename(k1)[..36] == Basename(k2)[..36]
    ensures SongId(k1) == SongId(k2)
  {
  }

  /** `process_audio` refuses the key before any work exactly when its file
      name is empty or `.`. */
  lemma EmptyIdentity(key: string)
    ensures SongId(key).processingId == "" <==> Basename(key) == "" || Basename(key) == "."
  {
    var name := Basename(key);
    PathNameOfPlainName(name);
    if !HasIdPrefix(name) {
      assert |SongId(key).processingId| == |Stem(PathName(name))|;
    }
  }

  /** The work directory `<folder>_<t>`. */
  function WorkDirName(folder: string, t: nat): (r: string)
    ensures StartsWith(r, folder) && |r| > |folder| + 1 && r[|folder|] == '_'
  {
    folder + "_" + Decimal(t)
  }

  /** The work directory carries the time; the upload prefix is the bare
      folder, so re-processing a key publishes to the same place. */
  lemma WorkDirIsNotPrefix(key: string, t1: nat, t2: nat)
    ensures WorkDirName(SongId(key).folder, t1) != SongId(key).folder
    ensures t1 != t2 ==> WorkDirName(SongId(key).folder, t1) != WorkDirName(SongId(key).folder, t2)
  {
    var f := SongId(key).folder;
    if t1 != t2 && WorkDirName(f, t1) == WorkDirName(f, t2) {
      assert WorkDirName(f, t1)[|f| + 1..] == Decimal(t1);
      assert WorkDirName(f, t2)[|f| + 1..] == Decimal(t2);
      DecimalInjective(t1, t2);
    }
  }

  /** `get_base_url`: the CDN domain when one is configured, the bucket's
      regional endpoint otherwise. */
  function BaseUrl(cdnDomain: string, bucket: string, region: string, folder: string): (r: string)
    ensures StartsWith(r, "https://")
    ensures EndsWith(r, "/" + folder)
    ensures cdnDomain != "" ==> r == "https://" + cdnDomain + "/" + folder
    ensures cdnDomain == "" ==> r == "https://" + bucket + ".s3." + region + ".amazonaws.com/" + folder
  {
    var host := if cdnDomain != "" then cdnDomain else bucket + ".s3." + region + ".amazonaws.com";
    var r := "https://" + host + "/" + folder;
    assert r == "https://" + (host + "/" + folder);
    assert r[|r| - |folder| - 1..] == "/" + folder;
    assert cdnDomain == "" ==> r == "https://" + bucket + ".s3." + region + (".amazonaws.com/" + folder);
    r
  }

  /** The last component of the stream's base URL is the folder. */
  lemma BaseUrlNamesFolder(cdnDomain: string, bucket: string, region: string, key: string)
    ensures Basename(BaseUrl(cdnDomain, bucket, region, SongId(key).folder)) == SongId(key).folder
  {
    var f := SongId(key).folder;
    var u := BaseUrl(cdnDomain, bucket, region, f);
    FolderIsOneComponent(key);
    BasenameAfterSlash(u, f);
  }

  // -------------------------------------------------- cloud.py, local.py

  /** The job id `<t>_<file name>`. */
  function QueueJobId(key: string, t: nat): (r: string)
    ensures StartsWith(r, Decimal(t) + "_")
    ensures EndsWith(r, "_" + PathName(key))
  {
    AroundSeparator(Decimal(t), "_", PathName(key));
    Decimal(t) + "_" + PathName(key)
  }

  /** The upload prefix `Path(key).stem`: the file name without its suffix,
      used as it is. */
  function QueuePrefix(key: string): (r: string)
    ensures r + Suffix(PathName(key)) == PathName(key)
    ensures NoSlash(r)
  {
    var name := PathName(key);
    var r := Stem(name);
    assert forall k :: 0 <= k < |r| ==> r[k] == name[k];
    r
  }

  /** Two keys differing only in their extension publish to the same
      prefix, the stem, whether or not they sit under a directory. */
  lemma QueuePrefixIgnoresSuffix(dir: string, stem: string, e1: string, e2: string)
    requires NoSlash(stem) && stem != ""
    requires IsPlainExtension(e1) && IsPlainExtension(e2)
    ensures QueuePrefix(stem + e1) == QueuePrefix(stem + e2) == stem
    ensures QueuePrefix(dir + "/" + stem + e1) == QueuePrefix(dir + "/" + stem + e2) == stem
  {
    PlainExtension(stem, e1);
    PlainExtension(stem, e2);
    PlainExtensionUnder(dir, stem, e1);
    PlainExtensionUnder(dir, stem, e2);
  }

  /** A dot followed by at least one character that is neither a dot nor a
      slash. */
  predicate IsPlainExtension(e: string)
  {
    |e| >= 2 && e[0] == '.' && forall k :: 1 <= k < |e| ==> e[k] != '.' && e[k] != '/'
  }

  lemma PlainExtension(stem: string, e: string)
    requires NoSlash(stem) && stem != ""
    requires IsPlainExtension(e)
    ensures QueuePrefix(stem + e) == stem
  {
    var n := stem + e;
    assert NoSlash(n) && n != ".";
    PathNameOfPlainName(n);
    assert n[|stem|] == '.';
    assert forall k :: |stem| < k < |n| ==> n[k] == e[k - |stem|];
    assert LastIndexOf(n, '.') == |stem|;
    assert n[..|stem|] == stem;
  }

  lemma PlainExtensionUnder(dir: string, stem: string, e: string)
    requires NoSlash(stem) && stem != ""
    requires IsPlainExtension(e)
    ensures QueuePrefix(dir + "/" + stem + e) == stem
  {
    var n := stem + e;
    var k := dir + "/" + stem + e;
    NoSlashParts(stem, e);
    assert k == dir + ("/" + n);
    assert EndsWith(k, "/" + n);
    BasenameAfterSlash(k, n);
    assert PathName(k) == n;
    PlainExtension(stem, e);
    PathNameOfPlainName(n);
  }
}
