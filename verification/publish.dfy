/** The upload of a finished work directory: every file found by the walk
    becomes one object whose key is the prefix, a slash and the file's
    path relative to the directory, with a content type chosen by the
    version's rule. The walk is the sequence of files in the order
    `os.walk` gives them, each a directory relative to the work directory
    and a file name; `mimetypes.guess_type` is a parameter `guess` from a
    file name to a type. */
module Publish {
  import opened Wrappers
  import opened Text
  import opened Paths

  /** One `upload_file` call: the key and the `ContentType` it sets, if
      any. */
  datatype Upload = Upload(key: string, contentType: Option<string>)

  /** The upload rules of the versions: `upload_folder_to_s3` of `main.py`,
      `upload_to_s3` of `cloud.py` and `local.py`, `upload_to_s3` of
      `run.py`, `upload_folder` of `process.py`. */
  datatype Uploader = MainUploader | TypedUploader | RunUploader | WebhookUploader

  const PlaylistType := "application/vnd.apple.mpegurl"
  const SegmentType := "video/mp2t"
  const CaptionsType := "text/vtt"
  const OctetStream := "application/octet-stream"

  /** The file `upload_to_s3` of `run.py` leaves out: the downloaded
      original. */
  const OriginalAudio := "audio.mp3"

  /** The extension map the versions share. */
  function MappedType(ext: string): Option<string>
  {
    if ext == ".m3u8" then Some(PlaylistType)
    else if ext == ".ts" then Some(SegmentType)
    else if ext == ".vtt" then Some(CaptionsType)
    else None
  }

  /** A file the walk reports: its directory relative to the work
      directory ("" for the work directory itself) and its name. */
  datatype Walked = Walked(dir: string, name: string)

  /** `full_path.relative_to(local_dir).as_posix()`. */
  function Rel(f: Walked): string
  {
    if f.dir == "" then f.name else f.dir + "/" + f.name
  }

  /** `full_path.suffix.lower()`. */
  function Extension(f: Walked): string
  {
    Lower(Suffix(f.name))
  }

  /** The content type each version sets for a file. */
  function ContentType(u: Uploader, f: Walked, guess: string -> Option<string>): Option<string>
  {
    match u
    case MainUploader =>
      if MappedType(Extension(f)).Some? then MappedType(Extension(f)) else guess(f.name)
    case TypedUploader => MappedType(Extension(f))
    case RunUploader => MappedType(Extension(f))
    case WebhookUploader => Some(guess(f.name).GetOr(OctetStream))
  }

  predicate Skipped(u: Uploader, f: Walked)
  {
    u == RunUploader && f.name == OriginalAudio
  }

  /** `f"{prefix}/{rel_path.as_posix()}"`. */
  function Key(prefix: string, rel: string): (k: string)
    ensures |k| == |prefix| + 1 + |rel|
  {
    prefix + "/" + rel
  }

  /** The relative path back from a key under `prefix`. */
  function RelOf(prefix: string, key: string): string
  {
    if |key| > |prefix| then key[|prefix| + 1..] else ""
  }

  function UploadOf(u: Uploader, prefix: string, f: Walked, guess: string -> Option<string>): Upload
  {
    Upload(Key(prefix, Rel(f)), ContentType(u, f, guess))
  }

  /** What one walked file adds: nothing when it is skipped, else its
      upload. */
  function Step(u: Uploader, prefix: string, f: Walked, guess: string -> Option<string>): seq<Upload>
  {
    if Skipped(u, f) then [] else [UploadOf(u, prefix, f, guess)]
  }

  /** The uploads of the walk, in its order, without the skipped files. */
  function Uploads(u: Uploader, prefix: string, files: seq<Walked>, guess: string -> Option<string>): (r: seq<Upload>)
    ensures |r| <= |files|
    decreases |files|
  {
    if files == [] then [] else Step(u, prefix, files[0], guess) + Uploads(u, prefix, files[1..], guess)
  }

  // ----------------------------------------------------------------- keys

  /** The relative path is read back from its key. */
  lemma KeyRoundTrip(prefix: string, rel: string)
    ensures RelOf(prefix, Key(prefix, rel)) == rel
  {
    var k := Key(prefix, rel);
    assert k[|prefix| + 1..] == rel;
  }

  /** Different files get different keys. */
  lemma KeyInjective(prefix: string, a: string, b: string)
    ensures Key(prefix, a) == Key(prefix, b) <==> a == b
  {
    KeyRoundTrip(prefix, a);
    KeyRoundTrip(prefix, b);
  }

  /** Every key lies under the prefix as one more path component. */
  lemma KeyUnderPrefix(prefix: string, rel: string)
    ensures StartsWith(Key(prefix, rel), prefix + "/")
  {
  }

  // ------------------------------------------------------------ the walk

  lemma {:induction false} UploadsConcat(u: Uploader, prefix: string, a: seq<Walked>, b: seq<Walked>,
                                         guess: string -> Option<string>)
    ensures Uploads(u, prefix, a + b, guess) == Uploads(u, prefix, a, guess) + Uploads(u, prefix, b, guess)
    decreases |a|
  {
    if a == [] {
      assert a + b == b;
    } else {
      assert (a + b)[1..] == a[1..] + b;
      UploadsConcat(u, prefix, a[1..], b, guess);
    }
  }

  /** The walk with one more file. */
  lemma OneMore(u: Uploader, prefix: string, done: seq<Walked>, f: Walked, guess: string -> Option<string>)
    ensures Uploads(u, prefix, done + [f], guess) == Uploads(u, prefix, done, guess) + Step(u, prefix, f, guess)
  {
    UploadsConcat(u, prefix, done, [f], guess);
    assert [f][1..] == [];
    assert Uploads(u, prefix, [f], guess) == Step(u, prefix, f, guess) + [];
  }

  /** The uploads of one more file of the walk. */
  lemma PrefixStep(u: Uploader, prefix: string, files: seq<Walked>, i: nat, guess: string -> Option<string>)
    requires i < |files|
    ensures Uploads(u, prefix, files[..i + 1], guess) == Uploads(u, prefix, files[..i], guess) + Step(u, prefix, files[i], guess)
  {
    assert files[..i + 1] == files[..i] + [files[i]];
    OneMore(u, prefix, files[..i], files[i], guess);
  }

  /** Some upload has key `key`. */
  predicate HasKey(us: seq<Upload>, key: string)
  {
    exists k :: 0 <= k < |us| && us[k].key == key
  }

  lemma HasKeyCons(x: Upload, us: seq<Upload>, key: string)
    ensures HasKey([x] + us, key) <==> x.key == key || HasKey(us, key)
  {
    var xs := [x] + us;
    if HasKey(us, key) {
      var k :| 0 <= k < |us| && us[k].key == key;
      assert xs[k + 1] == us[k];
    }
    if HasKey(xs, key) {
      var k :| 0 <= k < |xs| && xs[k].key == key;
      if k > 0 {
        assert us[k - 1] == xs[k];
      }
    }
    if x.key == key {
      assert xs[0] == x;
    }
  }

  /** Some walked file with relative path `rel` that is not skipped. */
  predicate Published(u: Uploader, files: seq<Walked>, rel: string)
  {
    exists g :: g in files && Rel(g) == rel && !Skipped(u, g)
  }

  lemma PublishedCons(u: Uploader, files: seq<Walked>, rel: string)
    requires files != []
    ensures Published(u, files, rel)
        <==> (Rel(files[0]) == rel && !Skipped(u, files[0])) || Published(u, files[1..], rel)
  {
    if Published(u, files, rel) {
      var g :| g in files && Rel(g) == rel && !Skipped(u, g);
      if g != files[0] {
        assert g in files[1..];
      }
    }
    if Published(u, files[1..], rel) {
      var g :| g in files[1..] && Rel(g) == rel && !Skipped(u, g);
      assert g in files;
    }
  }

  /** An object is uploaded under `prefix/rel` exactly when the walk found
      a file at `rel` that is not skipped. */
  lemma {:induction false} UploadedIff(u: Uploader, prefix: string, files: seq<Walked>,
                                       guess: string -> Option<string>, rel: string)
    ensures HasKey(Uploads(u, prefix, files, guess), Key(prefix, rel)) <==> Published(u, files, rel)
    decreases |files|
  {
    if files != [] {
      var rest := Uploads(u, prefix, files[1..], guess);
      UploadedIff(u, prefix, files[1..], guess, rel);
      KeyInjective(prefix, Rel(files[0]), rel);
      PublishedCons(u, files, rel);
      if !Skipped(u, files[0]) {
        HasKeyCons(UploadOf(u, prefix, files[0], guess), rest, Key(prefix, rel));
      } else {
        assert Uploads(u, prefix, files, guess) == rest;
      }
    }
  }

  /** A walk whose first file is not skipped starts with that file's
      upload. */
  lemma UploadsCons(u: Uploader, prefix: string, files: seq<Walked>, guess: string -> Option<string>)
    requires files != [] && !Skipped(u, files[0])
    ensures Uploads(u, prefix, files, guess)
         == [UploadOf(u, prefix, files[0], guess)] + Uploads(u, prefix, files[1..], guess)
  {
  }

  /** Without skipped files there is one upload per file, in walk order. */
  lemma {:induction false} UploadsInOrder(u: Uploader, prefix: string, files: seq<Walked>,
                                          guess: string -> Option<string>)
    requires forall i :: 0 <= i < |files| ==> !Skipped(u, files[i])
    ensures |Uploads(u, prefix, files, guess)| == |files|
    ensures forall i :: 0 <= i < |files| ==>
      Uploads(u, prefix, files, guess)[i] == UploadOf(u, prefix, files[i], guess)
    decreases |files|
  {
    if files != [] {
      UploadsInOrder(u, prefix, files[1..], guess);
      UploadsCons(u, prefix, files, guess);
      ShiftedMap(g => UploadOf(u, prefix, g, guess), files, Uploads(u, prefix, files[1..], guess));
    }
  }

  /** Putting the image of the first element in front of the images of
      the others lines every image up with its element. */
  lemma ShiftedMap<A, B>(f: A -> B, xs: seq<A>, rest: seq<B>)
    requires xs != [] && |rest| == |xs| - 1
    requires forall i :: 0 <= i < |rest| ==> rest[i] == f(xs[1..][i])
    ensures forall i :: 0 <= i < |xs| ==> ([f(xs[0])] + rest)[i] == f(xs[i])
  {
    forall i | 0 < i < |xs|
      ensures ([f(xs[0])] + rest)[i] == f(xs[i])
    {
      assert ([f(xs[0])] + rest)[i] == rest[i - 1];
      assert xs[1..][i - 1] == xs[i];
    }
  }

  /** Only `run.py` skips anything, and only `audio.mp3`. */
  lemma OnlyRunSkips(u: Uploader, f: Walked)
    ensures Skipped(u, f) <==> u == RunUploader && f.name == OriginalAudio
  {
  }

  /** The upload loop of the versions, one file at a time. */
  method PublishFolder(u: Uploader, prefix: string, files: seq<Walked>, guess: string -> Option<string>)
    returns (uploads: seq<Upload>)
    ensures uploads == Uploads(u, prefix, files, guess)
  {
    uploads := [];
    var i := 0;
    while i < |files|
      invariant 0 <= i <= |files|
      invariant uploads == Uploads(u, prefix, files[..i], guess)
    {
      PrefixStep(u, prefix, files, i, guess);
      uploads := uploads + Step(u, prefix, files[i], guess);
      i := i + 1;
    }
    assert files[..i] == files;
  }

  // ------------------------------------------------------- content types

  /** The three extensions the map knows. */
  predicate IsMapped(ext: string)
  {
    ext == ".m3u8" || ext == ".ts" || ext == ".vtt"
  }

  lemma MappedTypeIff(ext: string)
    ensures MappedType(ext).Some? <==> IsMapped(ext)
  {
  }

  /** `cloud.py`, `local.py` and `run.py` set a type for playlists,
      segments and captions and for nothing else. */
  lemma TypedOnlyForHls(u: Uploader, f: Walked, guess: string -> Option<string>)
    requires u == TypedUploader || u == RunUploader
    ensures ContentType(u, f, guess).Some? <==> IsMapped(Extension(f))
  {
  }

  /** `main.py` uses the map first and the guess only for other files. */
  lemma MainMapFirst(f: Walked, guess: string -> Option<string>)
    ensures IsMapped(Extension(f)) ==> ContentType(MainUploader, f, guess) == MappedType(Extension(f))
    ensures !IsMapped(Extension(f)) ==> ContentType(MainUploader, f, guess) == guess(f.name)
  {
  }

  /** `process.py` always sets a type, the guess or the octet-stream
      fallback. */
  lemma WebhookAlwaysTyped(f: Walked, guess: string -> Option<string>)
    ensures ContentType(WebhookUploader, f, guess).Some?
    ensures guess(f.name).Some? ==> ContentType(WebhookUploader, f, guess) == guess(f.name)
    ensures guess(f.name).None? ==> ContentType(WebhookUploader, f, guess) == Some(OctetStream)
  {
  }

  /** Where `main.py` and the typed versions agree: on mapped extensions
      both set the map's type. */
  lemma MainAgreesWithTyped(f: Walked, guess: string -> Option<string>)
    requires IsMapped(Extension(f))
    ensures ContentType(MainUploader, f, guess) == ContentType(TypedUploader, f, guess)
  {
  }
}
