/** Which object keys count as audio. The queue workers test whether the
    lower-cased key ends with one of seven extensions; the webhook tests the
    lower-cased `pathlib` suffix of the downloaded file against five. */
module Audio {
  import opened Text
  import opened Paths

  /** `AUDIO_EXTENSIONS` / `AUDIO_EXTS` of the queue workers. */
  const StreamExtensions: seq<string> := [".mp3", ".wav", ".aac", ".m4a", ".flac", ".ogg", ".opus"]

  /** `AUDIO_EXT` of the webhook. */
  const WebhookExtensions: seq<string> := [".mp3", ".wav", ".aac", ".m4a", ".flac"]

  predicate EndsWithOneOf(s: string, exts: seq<string>)
  {
    exists i :: 0 <= i < |exts| && EndsWith(s, exts[i])
  }

  /** `is_audio_file` of the queue workers: some extension ends the
      lower-cased name. */
  predicate IsAudioFile(filename: string)
  {
    EndsWithOneOf(Lower(filename), StreamExtensions)
  }

  /** The `any(...)` loop over the extensions as the workers run it. */
  method CheckAudioFile(filename: string) returns (r: bool)
    ensures r <==> IsAudioFile(filename)
  {
    var lowered := Lower(filename);
    var i := 0;
    while i < |StreamExtensions|
      invariant 0 <= i <= |StreamExtensions|
      invariant forall j :: 0 <= j < i ==> !EndsWith(lowered, StreamExtensions[j])
    {
      if EndsWith(lowered, StreamExtensions[i]) {
        return true;
      }
      i := i + 1;
    }
    return false;
  }

  /** The allow-list written out. */
  lemma AudioFileExtensions(f: string)
    ensures IsAudioFile(f) <==>
      var l := Lower(f);
      EndsWith(l, ".mp3") || EndsWith(l, ".wav") || EndsWith(l, ".aac") || EndsWith(l, ".m4a")
      || EndsWith(l, ".flac") || EndsWith(l, ".ogg") || EndsWith(l, ".opus")
  {
    var l := Lower(f);
    var x := StreamExtensions;
    assert x[0] == ".mp3" && x[1] == ".wav" && x[2] == ".aac" && x[3] == ".m4a";
    assert x[4] == ".flac" && x[5] == ".ogg" && x[6] == ".opus";
    if IsAudioFile(f) {
      var i :| 0 <= i < |x| && EndsWith(l, x[i]);
      assert i in {0, 1, 2, 3, 4, 5, 6};
    }
  }

  lemma LowerUpper(s: string)
    ensures Lower(Upper(s)) == Lower(s)
  {
  }

  /** The test ignores ASCII case: an upper-cased name is accepted exactly
      when the name is. */
  lemma AudioFileIgnoresCase(f: string)
    ensures IsAudioFile(Upper(f)) <==> IsAudioFile(f)
  {
    LowerUpper(f);
  }

  /** `is_audio_file` of the webhook: the lower-cased suffix of the file's
      name is on the shorter list. */
  predicate IsAudioPath(p: string)
  {
    Lower(Suffix(PathName(p))) in WebhookExtensions
  }

  lemma LowerEndsWith(s: string, t: string)
    requires EndsWith(s, t)
    ensures EndsWith(Lower(s), Lower(t))
  {
    LowerSlice(s, |s| - |t|);
  }

  lemma WebhookListIsShorter(e: string)
    ensures e in WebhookExtensions ==> e in StreamExtensions
  {
    assert WebhookExtensions == StreamExtensions[..5];
  }

  lemma EndsWithListed(s: string, e: string)
    requires e in StreamExtensions && EndsWith(s, e)
    ensures EndsWithOneOf(s, StreamExtensions)
  {
    var i :| 0 <= i < |StreamExtensions| && StreamExtensions[i] == e;
  }

  lemma EndsWithTrans(s: string, t: string, u: string)
    requires EndsWith(s, t) && EndsWith(t, u)
    ensures EndsWith(s, u)
  {
    assert s[|s| - |u|..] == s[|s| - |t|..][|t| - |u|..];
  }

  /** For a key whose last component is a file name, whatever the webhook
      accepts the queue workers accept too. */
  lemma WebhookAcceptsLess(k: string)
    requires Basename(k) != "" && Basename(k) != "."
    ensures IsAudioPath(k) ==> IsAudioFile(k)
  {
    var f := Basename(k);
    assert PathName(k) == f;
    if IsAudioPath(k) {
      var e := Lower(Suffix(f));
      EndsWithTrans(k, f, Suffix(f));
      LowerEndsWith(k, Suffix(f));
      WebhookListIsShorter(e);
      EndsWithListed(Lower(k), e);
    }
  }

  lemma TrailingSlashName()
    ensures PathName("a.mp3/") == "a.mp3"
  {
    var k := "a.mp3/";
    var i := LastIndexOf(k, '/');
    assert k[5] == '/';
    assert i == 5;
    assert k[i + 1..] == "";
    assert k[..i] == "a.mp3";
    assert Basename("a.mp3") == "a.mp3" by {
      var j := LastIndexOf("a.mp3", '/');
      assert j == -1;
      assert "a.mp3"[j + 1..] == "a.mp3";
    }
  }

  lemma Mp3Suffix()
    ensures Suffix("a.mp3") == ".mp3"
  {
    var f := "a.mp3";
    var i := LastIndexOf(f, '.');
    assert f[1] == '.';
    assert f[2] != '.' && f[3] != '.' && f[4] != '.';
    assert i == 1;
    assert f[1..] == ".mp3";
  }

  /** No key ending in `/` passes the workers' test: every extension ends
      in a letter or digit. */
  lemma SlashEndNotAudio(k: string)
    requires k != [] && k[|k| - 1] == '/'
    ensures !IsAudioFile(k)
  {
    var l := Lower(k);
    assert l[|l| - 1] == '/';
    forall i | 0 <= i < |StreamExtensions| ensures !EndsWith(l, StreamExtensions[i]) {
      var e := StreamExtensions[i];
      assert e[|e| - 1] != '/';
    }
  }

  /** The exception: with a trailing `/` the webhook still sees the file
      name, while the workers see a key ending in `/`. */
  lemma TrailingSlashOnlyWebhook()
    ensures IsAudioPath("a.mp3/") && !IsAudioFile("a.mp3/")
  {
    TrailingSlashName();
    Mp3Suffix();
    assert Lower(".mp3") == ".mp3";
    assert WebhookExtensions[0] == ".mp3";
    SlashEndNotAudio("a.mp3/");
  }

  /** `.ogg` and `.opus` files pass the queue workers' test and fail the
      webhook's. */
  lemma OnlyOnQueueList()
    ensures StreamExtensions[5] !in WebhookExtensions
    ensures StreamExtensions[6] !in WebhookExtensions
  {
  }

  lemma OggAndOpusOnlyOnQueue(f: string)
    requires NoSlash(f) && f != "."
    requires Lower(Suffix(f)) == ".ogg" || Lower(Suffix(f)) == ".opus"
    ensures IsAudioFile(f) && !IsAudioPath(f)
  {
    var i := if Lower(Suffix(f)) == ".ogg" then 5 else 6;
    assert StreamExtensions[i] == Lower(Suffix(f));
    OnlyOnQueue(f, i);
  }

  lemma OnlyOnQueue(f: string, i: nat)
    requires NoSlash(f) && f != "."
    requires 5 <= i < |StreamExtensions| && Lower(Suffix(f)) == StreamExtensions[i]
    ensures IsAudioFile(f) && !IsAudioPath(f)
  {
    PathNameOfPlainName(f);
    assert PathName(f) == f;
    LowerEndsWith(f, Suffix(f));
    EndsWithListed(Lower(f), StreamExtensions[i]);
    OnlyOnQueueList();
  }

  /** Each listed extension is a dot followed by lower-case letters and
      digits. */
  predicate IsExtension(e: string)
  {
    |e| >= 2 && e[0] == '.' && forall k :: 1 <= k < |e| ==> IsAsciiLower(e[k]) || IsDigit(e[k])
  }

  lemma ListedExtensions()
    ensures forall i :: 0 <= i < |StreamExtensions| ==> IsExtension(StreamExtensions[i])
  {
  }

  /** An extension on its own has no suffix and is its own name. */
  lemma ExtensionAlone(e: string)
    requires IsExtension(e)
    ensures Suffix(PathName(e)) == "" && Lower(e) == e
  {
    ExtensionChars(e);
    var d := LastIndexOf(e, '.');
    assert d == 0;
    assert !HasSuffix(e);
    assert NoSlash(e);
    PathNameOfPlainName(e);
    LowerNoUpper(e);
  }

  /** The characters of an extension: a dot, then no dot, no slash and no
      capital. */
  lemma ExtensionChars(e: string)
    requires IsExtension(e)
    ensures e[0] == '.'
    ensures forall k :: 0 <= k < |e| ==> e[k] != '/' && !IsAsciiUpper(e[k])
    ensures forall k :: 1 <= k < |e| ==> e[k] != '.'
  {
  }

  /** An extension on its own ends with itself once lower-cased, and has
      an empty lower-cased suffix. */
  lemma ExtensionEndsItself(e: string)
    requires IsExtension(e)
    ensures EndsWith(Lower(e), e) && Lower(Suffix(PathName(e))) == ""
  {
    ExtensionAlone(e);
    assert Lower(e)[|Lower(e)| - |e|..] == e;
  }

  lemma NoEmptyExtension()
    ensures "" !in WebhookExtensions
  {
    assert forall k :: 0 <= k < |WebhookExtensions| ==> |WebhookExtensions[k]| > 0;
  }

  lemma ListedAt(s: string, i: nat)
    requires i < |StreamExtensions| && EndsWith(s, StreamExtensions[i])
    ensures EndsWithOneOf(s, StreamExtensions)
  {
  }

  /** A name that is only an extension, such as `.mp3`, has no `pathlib`
      suffix: the queue workers take it for audio, the webhook does not. */
  lemma BareExtension(i: nat)
    requires i < |StreamExtensions|
    ensures IsAudioFile(StreamExtensions[i]) && !IsAudioPath(StreamExtensions[i])
  {
    ListedExtensions();
    ExtensionEndsItself(StreamExtensions[i]);
    ListedAt(Lower(StreamExtensions[i]), i);
    NoEmptyExtension();
  }
}
