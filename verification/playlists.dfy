/** The playlists each version writes, as instances of the layouts of
    `Manifest`, and the files their references resolve to. */
module Playlists {
  import opened Wrappers
  import opened Text
  import opened Manifest

  // ------------------------------------------------------------- main.py

  /** `LANGUAGE_NAMES` of `main.py`. */
  const LanguageNames: map<string, string> := map[
    "en" := "English", "hi" := "Hindi", "es" := "Spanish", "fr" := "French",
    "de" := "German", "it" := "Italian", "pt" := "Portuguese", "ru" := "Russian",
    "ja" := "Japanese", "ko" := "Korean", "zh" := "Chinese", "ar" := "Arabic",
    "bn" := "Bengali", "ta" := "Tamil", "te" := "Telugu", "mr" := "Marathi"]

  /** The name of every media playlist below its bit-rate directory. */
  const PlaylistFile := "/playlist.m3u8"

  /** The directory of the caption files and the caption file's name. */
  const CaptionsDir := "captions"
  const CaptionsFile := "captions.vtt"

  /** The path a relative URI names, seen from directory `dir` (the empty
      string for the playlist's own directory). */
  function Resolve(dir: string, uri: string): string
  {
    if dir == "" then uri else dir + "/" + uri
  }

  /** A variant whose media playlist sits in directory `dir`. */
  function InDir(bandwidth: nat, dir: string): (v: Variant)
    ensures v.bandwidth == bandwidth && StartsWith(v.uri, dir) && EndsWith(v.uri, PlaylistFile)
  {
    var v := Variant(bandwidth, dir + PlaylistFile);
    assert v.uri[..|dir|] == dir;
    assert v.uri[|v.uri| - |PlaylistFile|..] == PlaylistFile;
    v
  }

  /** A directory name that keeps the variant's URI one non-tag line. */
  predicate ValidDir(dir: string)
  {
    '\n' !in dir && (dir == "" || dir[0] != '#')
  }

  lemma InDirValid(bandwidth: nat, dir: string)
    requires ValidDir(dir)
    ensures IsUriLine(InDir(bandwidth, dir).uri) && '\n' !in InDir(bandwidth, dir).uri
  {
    var u := InDir(bandwidth, dir).uri;
    assert u[0] == (if dir == "" then '/' else dir[0]);
    assert '\n' !in PlaylistFile;
  }

  /** The three variants `generate_audio_hls` writes, lowest bit rate
      first. */
  const MainVariants: seq<Variant> := [InDir(64000, "64k"), InDir(128000, "128k"), InDir(256000, "256k")]

  /** The subtitle rendition of `main.py`: named after the language, or
      after the upper-cased code when the code is not in the table. */
  function MainSubtitles(lang: string): (r: Subtitles)
    ensures r.language == lang && r.uri == CaptionsDir + PlaylistFile
    ensures lang in LanguageNames ==> r.name == LanguageNames[lang]
    ensures lang !in LanguageNames ==> r.name == Upper(lang)
  {
    Subtitles(if lang in LanguageNames then LanguageNames[lang] else Upper(lang), lang, CaptionsDir + PlaylistFile)
  }

  /** `write_master_m3u8` of `main.py`. */
  function MainMaster(lang: string): seq<string>
  {
    SubtitledMaster(MainSubtitles(lang), MainVariants)
  }

  /** Every bandwidth is below the next one. */
  predicate Ascending(es: seq<Entry>)
  {
    forall i, j :: 0 <= i < j < |es| ==> es[i].bandwidth < es[j].bandwidth
  }

  lemma MainVariantsValid()
    ensures ValidVariants(MainVariants)
  {
    InDirValid(64000, "64k");
    InDirValid(128000, "128k");
    InDirValid(256000, "256k");
  }

  /** What a reader reports for the three variants of `main.py`. */
  const MainEntries: seq<Entry> := [
    Entry(64000, true, "64k" + PlaylistFile),
    Entry(128000, true, "128k" + PlaylistFile),
    Entry(256000, true, "256k" + PlaylistFile)]

  lemma MainEntriesOf()
    ensures AsEntries(MainVariants, true) == MainEntries
  {
  }

  /** The variants of `main.py`, `cloud.py`, `run.py` and `process.py` are
      listed lowest bandwidth first. */
  lemma EntriesAscending()
    ensures Ascending(MainEntries) && Ascending(RunEntries) && Ascending(WebhookEntries)
  {
  }

  lemma LanguageNamesOneLine()
    ensures forall k :: k in LanguageNames ==> '\n' !in LanguageNames[k]
  {
  }

  lemma LanguageNamesUnquoted()
    ensures forall k :: k in LanguageNames ==> '"' !in LanguageNames[k]
  {
  }

  lemma MainSubtitlesQuotable(lang: string)
    requires '\n' !in lang && '"' !in lang
    ensures Quotable(MainSubtitles(lang))
  {
    MainSubtitlesValid(lang);
    LanguageNamesUnquoted();
    UpperNoQuote(lang);
  }

  /** A reader of the master of `main.py` finds one rendition: subtitles of
      group `subs`, named after the language, tagged with the code, default
      and autoselected, at `captions/playlist.m3u8`. */
  lemma MainRenditionRead(lang: string)
    requires '\n' !in lang && '"' !in lang
    ensures ReadRenditions(Render(MainMaster(lang)))
         == Some([Rendition("SUBTITLES", "subs", MainSubtitles(lang).name, Some(lang), true, true,
                            CaptionsDir + PlaylistFile)])
  {
    MainSubtitlesQuotable(lang);
    MainVariantsValid();
    SubtitledRenditionRoundTrip(MainSubtitles(lang), MainVariants);
  }

  lemma MainSubtitlesValid(lang: string)
    requires '\n' !in lang
    ensures ValidSubtitles(MainSubtitles(lang))
  {
    LanguageNamesOneLine();
    UpperOneLine(lang);
  }

  /** A reader of the master of `main.py` finds 64000, 128000 and 256000 in
      that order, each referring to the subtitle group, which is declared
      once. */
  lemma MainMasterRead(lang: string)
    requires '\n' !in lang
    ensures ReadMaster(Render(MainMaster(lang))) == Some(MainEntries)
  {
    MainSubtitlesValid(lang);
    MainVariantsValid();
    SubtitledMasterRoundTrip(MainSubtitles(lang), MainVariants);
    MainEntriesOf();
  }

  /** The master of `main.py` declares the subtitle group once. */
  lemma MainMasterGroup(lang: string)
    ensures SubtitleGroups(MainMaster(lang)) == 1
  {
    MainVariantsValid();
    SubtitledGroupCount(MainSubtitles(lang), MainVariants);
  }

  // ------------------------------------------------------------ cloud.py

  /** `create_master_playlist` of `cloud.py`, which always names English. */
  function CloudMaster(): seq<string>
  {
    SubtitledMaster(Subtitles("English", "en", CaptionsDir + PlaylistFile), MainVariants)
  }

  /** The fixed master of `cloud.py` is the master `main.py` writes for
      English. */
  lemma CloudIsMainInEnglish()
    ensures CloudMaster() == MainMaster("en")
  {
    assert "en" in LanguageNames && LanguageNames["en"] == "English";
  }

  // ------------------------------------------------------------ local.py

  /** `create_master_playlist` of `local.py`: one variant and a rendition
      pointing straight at the caption file. */
  function LocalMaster(lang: string): seq<string>
  {
    SubtitledMaster(Subtitles("Lyrics", lang, CaptionsFile), LocalVariants)
  }

  /** The one variant `transcode_to_hls` of `local.py` writes. */
  const LocalVariants: seq<Variant> := [Variant(320000, "playlist.m3u8")]

  lemma LocalVariantsValid()
    ensures ValidVariants(LocalVariants)
    ensures AsEntries(LocalVariants, true) == [Entry(320000, true, "playlist.m3u8")]
  {
    assert LocalVariants[0].uri[0] == 'p';
  }

  /** A reader of the master of `local.py` finds the single 320000 variant,
      referring to the subtitle group. */
  lemma LocalMasterRead(lang: string)
    requires '\n' !in lang
    ensures ReadMaster(Render(LocalMaster(lang))) == Some([Entry(320000, true, "playlist.m3u8")])
  {
    LocalVariantsValid();
    SubtitledMasterRoundTrip(Subtitles("Lyrics", lang, CaptionsFile), LocalVariants);
  }

  /** The master of `local.py` declares the subtitle group once, and a
      reader finds its rendition named `Lyrics`, tagged with the language,
      at `captions.vtt` beside the master. */
  lemma LocalMasterGroup(lang: string)
    ensures SubtitleGroups(LocalMaster(lang)) == 1
    ensures '\n' !in lang && '"' !in lang ==>
      ReadRenditions(Render(LocalMaster(lang)))
        == Some([Rendition("SUBTITLES", "subs", "Lyrics", Some(lang), true, true, CaptionsFile)])
  {
    LocalVariantsValid();
    SubtitledGroupCount(Subtitles("Lyrics", lang, CaptionsFile), LocalVariants);
    if '\n' !in lang && '"' !in lang {
      LocalRenditionRead(lang);
    }
  }

  lemma LocalRenditionRead(lang: string)
    requires '\n' !in lang && '"' !in lang
    ensures ReadRenditions(Render(LocalMaster(lang)))
         == Some([Rendition("SUBTITLES", "subs", "Lyrics", Some(lang), true, true, CaptionsFile)])
  {
    var sub := Subtitles("Lyrics", lang, CaptionsFile);
    assert Quotable(sub);
    LocalVariantsValid();
    SubtitledRenditionRoundTrip(sub, LocalVariants);
  }

  // -------------------------------------------------------------- run.py

  /** One entry of `QUALITY_PROFILES`. */
  datatype Profile = Profile(bitrate: string, bandwidth: nat)

  /** `QUALITY_PROFILES`. */
  const QualityProfiles: seq<Profile> := [Profile("32k", 32000), Profile("64k", 64000), Profile("128k", 128000)]

  /** The variant of a profile: its media playlist sits in the directory
      named after the bit rate. */
  function ProfileVariants(ps: seq<Profile>): (r: seq<Variant>)
    ensures |r| == |ps|
    ensures forall i :: 0 <= i < |ps| ==> r[i] == InDir(ps[i].bandwidth, ps[i].bitrate)
  {
    seq(|ps|, i requires 0 <= i < |ps| => InDir(ps[i].bandwidth, ps[i].bitrate))
  }

  /** `create_master_playlist` of `run.py`, over any profile list. */
  function RunMaster(ps: seq<Profile>): seq<string>
  {
    PlainMaster(ProfileVariants(ps))
  }

  lemma ProfileVariantsValid(ps: seq<Profile>)
    requires forall i :: 0 <= i < |ps| ==> ValidDir(ps[i].bitrate)
    ensures ValidVariants(ProfileVariants(ps))
  {
    var vs := ProfileVariants(ps);
    forall i | 0 <= i < |vs| ensures IsUriLine(vs[i].uri) && '\n' !in vs[i].uri {
      InDirValid(ps[i].bandwidth, ps[i].bitrate);
    }
  }

  /** A reader of the master of `run.py` finds exactly one variant per
      profile, in list order, none referring to subtitles; no subtitle
      group is declared; the text ends with a newline. */
  lemma RunMasterRead(ps: seq<Profile>)
    requires forall i :: 0 <= i < |ps| ==> ValidDir(ps[i].bitrate)
    ensures ReadMaster(Render(RunMaster(ps))) == Some(AsEntries(ProfileVariants(ps), false))
    ensures var es := ReadMaster(Render(RunMaster(ps)));
      es.Some? && |es.value| == |ps|
      && forall i :: 0 <= i < |ps| ==>
           es.value[i] == Entry(ps[i].bandwidth, false, ps[i].bitrate + PlaylistFile)
    ensures SubtitleGroups(RunMaster(ps)) == 0
    ensures EndsWith(Render(RunMaster(ps)), "\n")
  {
    var vs := ProfileVariants(ps);
    ProfileVariantsValid(ps);
    PlainMasterRoundTrip(vs);
    PlainGroupCount(vs);
    var front := Preamble + PlainVariantLines(vs);
    assert RunMaster(ps) == front + [""];
    JoinAppend(front, "", '\n');
  }

  /** For the profiles of `run.py`: 32000, 64000, 128000 in that order. */
  lemma RunProfilesRead()
    ensures ReadMaster(Render(RunMaster(QualityProfiles))) == Some(RunEntries)
  {
    var ps := QualityProfiles;
    ProfilesValid();
    RunMasterRead(ps);
    RunEntriesOf();
  }

  lemma ProfilesValid()
    ensures forall i :: 0 <= i < |QualityProfiles| ==> ValidDir(QualityProfiles[i].bitrate)
  {
    var ps := QualityProfiles;
    assert ValidDir(ps[0].bitrate) && ValidDir(ps[1].bitrate) && ValidDir(ps[2].bitrate);
    forall i | 0 <= i < |ps| ensures ValidDir(ps[i].bitrate) {
      assert i == 0 || i == 1 || i == 2;
    }
  }

  lemma RunEntriesOf()
    ensures AsEntries(ProfileVariants(QualityProfiles), false) == RunEntries
  {
    var vs := ProfileVariants(QualityProfiles);
    assert vs == [InDir(32000, "32k"), InDir(64000, "64k"), InDir(128000, "128k")];
  }

  /** What a reader reports for the profiles of `run.py`. */
  const RunEntries: seq<Entry> := [
    Entry(32000, false, "32k" + PlaylistFile),
    Entry(64000, false, "64k" + PlaylistFile),
    Entry(128000, false, "128k" + PlaylistFile)]

  // ---------------------------------------------------------- process.py

  /** The two variants `generate_hls` writes. */
  const WebhookVariants: seq<Variant> := [InDir(64000, "64k"), InDir(128000, "128k")]

  /** The subtitle rendition of `process.py` as written: its attributes
      are spread over three lines. */
  function SplitRendition(lang: string): seq<string>
  {
    [MediaStart + "NAME=\"" + Upper(lang) + "\",",
     DefaultsLine + lang + "\",",
     CaptionsUriLine]
  }

  const DefaultsLine := "DEFAULT=YES,AUTOSELECT=YES,LANGUAGE=\""
  const CaptionsUriLine := "URI=\"captions/captions.vtt\""

  lemma DefaultsOneLine()
    ensures '\n' !in DefaultsLine && DefaultsLine[0] == 'D'
  {
  }

  lemma CaptionsUriOneLine()
    ensures '\n' !in CaptionsUriLine
  {
  }

  /** `write_master_m3u8` of `process.py` as written. */
  function WebhookMasterAsWritten(lang: string): seq<string>
  {
    Preamble + SplitRendition(lang) + SpacedVariantLines(WebhookVariants) + [""]
  }

  /** The same master with the rendition on one line, as the other versions
      write it. */
  function WebhookMaster(lang: string): seq<string>
  {
    SubtitledMaster(Subtitles(Upper(lang), lang, Resolve(CaptionsDir, CaptionsFile)), WebhookVariants)
  }

  lemma WebhookVariantsValid()
    ensures ValidVariants(WebhookVariants)
  {
    InDirValid(64000, "64k");
    InDirValid(128000, "128k");
  }

  lemma UpperOneLine(s: string)
    requires '\n' !in s
    ensures '\n' !in Upper(s)
  {
    assert forall i :: 0 <= i < |Upper(s)| ==> Upper(s)[i] == UpperChar(s[i]);
  }

  lemma UpperNoQuote(s: string)
    requires '"' !in s
    ensures '"' !in Upper(s)
  {
    assert forall i :: 0 <= i < |Upper(s)| ==> Upper(s)[i] == UpperChar(s[i]);
  }

  /** A reader of the corrected master finds one rendition, named after the
      upper-cased code, at `captions/captions.vtt`. */
  lemma WebhookRenditionRead(lang: string)
    requires '\n' !in lang && '"' !in lang
    ensures ReadRenditions(Render(WebhookMaster(lang)))
         == Some([Rendition("SUBTITLES", "subs", Upper(lang), Some(lang), true, true,
                            Resolve(CaptionsDir, CaptionsFile))])
  {
    UpperOneLine(lang);
    UpperNoQuote(lang);
    WebhookVariantsValid();
    SubtitledRenditionRoundTrip(Subtitles(Upper(lang), lang, Resolve(CaptionsDir, CaptionsFile)), WebhookVariants);
  }

  /** What a reader reports for the two variants of `process.py`. */
  const WebhookEntries: seq<Entry> := [
    Entry(64000, true, "64k" + PlaylistFile),
    Entry(128000, true, "128k" + PlaylistFile)]

  /** A reader of the corrected master finds 64000 then 128000, each
      referring to the subtitle group. */
  lemma WebhookMasterRead(lang: string)
    requires '\n' !in lang
    ensures ReadMaster(Render(WebhookMaster(lang))) == Some(WebhookEntries)
  {
    UpperOneLine(lang);
    WebhookVariantsValid();
    SubtitledMasterRoundTrip(Subtitles(Upper(lang), lang, Resolve(CaptionsDir, CaptionsFile)), WebhookVariants);
    WebhookEntriesOf();
  }

  lemma WebhookEntriesOf()
    ensures AsEntries(WebhookVariants, true) == WebhookEntries
  {
  }

  /** The corrected master declares the subtitle group once. */
  lemma WebhookMasterGroup(lang: string)
    ensures SubtitleGroups(WebhookMaster(lang)) == 1
  {
    WebhookVariantsValid();
    SubtitledGroupCount(Subtitles(Upper(lang), lang, Resolve(CaptionsDir, CaptionsFile)), WebhookVariants);
  }

  lemma SplitRenditionOneLine(lang: string)
    requires '\n' !in lang
    ensures NoNewline(SplitRendition(lang))
  {
    var r := SplitRendition(lang);
    UpperOneLine(lang);
    MediaStartOneLine();
    DefaultsOneLine();
    CaptionsUriOneLine();
    assert '\n' !in "NAME=\"" && '\n' !in "\",";
    assert '\n' !in r[0] && '\n' !in r[1] && '\n' !in r[2];
  }

  /** The split rendition stops any reader: its second line is neither blank
      nor a tag, so it stands where only a variant URI may, with no
      `#EXT-X-STREAM-INF` before it. */
  lemma ReadSplitRendition(lang: string, rest: seq<string>)
    ensures ReadEntries(SplitRendition(lang) + rest, None) == None
  {
    var r := SplitRendition(lang);
    var media := r[0];
    var stray := r[1];
    assert r + rest == [media] + ([stray] + ([r[2]] + rest));
    assert media[..|MediaStart|] == MediaStart;
    assert media[0] == MediaStart[0] == '#' && media[7] == MediaStart[7] == 'M';
    EighthChar(media);
    ReadOtherTag(media, [stray] + ([r[2]] + rest), None);
    DefaultsOneLine();
    assert stray[0] == DefaultsLine[0];
    assert ([stray] + ([r[2]] + rest))[0] == stray;
  }

  /** The master as written cannot be read. */
  lemma WebhookMasterAsWrittenUnreadable(lang: string)
    requires '\n' !in lang
    ensures ReadMaster(Render(WebhookMasterAsWritten(lang))) == None
  {
    var spaced := SpacedVariantLines(WebhookVariants) + [""];
    var rest := SplitRendition(lang) + spaced;
    assert WebhookMasterAsWritten(lang) == Preamble + rest;
    SplitRenditionOneLine(lang);
    WebhookVariantsValid();
    SpacedNoNewline(WebhookVariants);
    NoNewlineConcat(SpacedVariantLines(WebhookVariants), [""]);
    NoNewlineConcat(SplitRendition(lang), spaced);
    ReadAfterPreamble(rest);
    ReadSplitRendition(lang, spaced);
  }

  // ------------------------------------------------- captions playlists

  /** The captions media playlist of `main.py` and `cloud.py`: one segment,
      the caption file, and no final newline. */
  function CaptionsPlaylist(segment: string): seq<string>
  {
    [Header, Version, "#EXT-X-TARGETDURATION:3600", "#EXT-X-MEDIA-SEQUENCE:0",
     "#EXT-X-PLAYLIST-TYPE:VOD", "#EXTINF:3600.0,", segment, "#EXT-X-ENDLIST"]
  }

  /** The URI lines of a media playlist: those neither blank nor tags. */
  function SegmentUris(lines: seq<string>): (r: seq<string>)
    ensures forall i :: 0 <= i < |r| ==> IsUriLine(r[i])
    decreases |lines|
  {
    if lines == [] then []
    else (if IsUriLine(lines[0]) then [lines[0]] else []) + SegmentUris(lines[1..])
  }

  lemma {:induction false} SegmentUrisOfTags(lines: seq<string>)
    requires forall i :: 0 <= i < |lines| ==> lines[i] != "" && lines[i][0] == '#'
    ensures SegmentUris(lines) == []
    decreases |lines|
  {
    if lines != [] {
      SegmentUrisOfTags(lines[1..]);
    }
  }

  /** The captions playlist has exactly one segment, the one it was given. */
  lemma CaptionsSegment(segment: string)
    requires IsUriLine(segment)
    ensures SegmentUris(CaptionsPlaylist(segment)) == [segment]
  {
    var p := CaptionsPlaylist(segment);
    var tags := p[..6];
    assert p == tags + [segment] + ["#EXT-X-ENDLIST"];
    SegmentUrisOfTags(tags);
    SegmentUrisOfTags(["#EXT-X-ENDLIST"]);
    SegmentUrisConcat(tags, [segment]);
    SegmentUrisConcat(tags + [segment], ["#EXT-X-ENDLIST"]);
    assert SegmentUris([segment]) == [segment] by { assert [segment][1..] == []; }
  }

  lemma {:induction false} SegmentUrisConcat(a: seq<string>, b: seq<string>)
    ensures SegmentUris(a + b) == SegmentUris(a) + SegmentUris(b)
    decreases |a|
  {
    if a == [] {
      assert a + b == b;
    } else {
      assert (a + b)[1..] == a[1..] + b;
      SegmentUrisConcat(a[1..], b);
    }
  }

  // --------------------------------------------------------------- layout

  /** Every reference a master makes, variant URIs and rendition URIs,
      names a file in `files`. */
  predicate MasterResolves(files: set<string>, es: seq<Entry>, rs: seq<Rendition>)
  {
    (forall i :: 0 <= i < |es| ==> es[i].uri in files)
    && (forall i :: 0 <= i < |rs| ==> rs[i].uri in files)
  }

  /** The master text can be read, variants and renditions, and every
      reference read from it names a file in `files`. */
  predicate ResolvesIn(files: set<string>, text: string)
  {
    var es := ReadMaster(text);
    var rs := ReadRenditions(text);
    es.Some? && rs.Some? && MasterResolves(files, es.value, rs.value)
  }

  lemma ResolvesOf(files: set<string>, text: string, es: seq<Entry>, rs: seq<Rendition>)
    requires ReadMaster(text) == Some(es) && ReadRenditions(text) == Some(rs)
    requires MasterResolves(files, es, rs)
    ensures ResolvesIn(files, text)
  {
  }

  const MasterFile := "master.m3u8"

  /** What `download_object` of `main.py` leaves in the song directory
      before upload, segments aside. */
  function MainFiles(safeName: string): set<string>
  {
    {"original/" + safeName, Resolve(CaptionsDir, CaptionsFile), CaptionsDir + PlaylistFile,
     "64k" + PlaylistFile, "128k" + PlaylistFile, "256k" + PlaylistFile, MasterFile}
  }

  /** Every reference of the master of `main.py` names a file it wrote, and
      so does the captions playlist's segment, seen from its directory. */
  lemma MainReferencesResolve(lang: string, safeName: string)
    requires '\n' !in lang && '"' !in lang
    ensures ResolvesIn(MainFiles(safeName), Render(MainMaster(lang)))
    ensures forall i :: 0 <= i < |SegmentUris(CaptionsPlaylist(CaptionsFile))| ==>
      Resolve(CaptionsDir, SegmentUris(CaptionsPlaylist(CaptionsFile))[i]) in MainFiles(safeName)
  {
    MainMasterRead(lang);
    MainRenditionRead(lang);
    CaptionsSegment(CaptionsFile);
  }

  /** What `process_audio` of `cloud.py` has in the work directory when
      `create_master_playlist` starts: the media playlists, with the caption
      file still at the top. The master itself is written after the move. */
  const CloudFilesBeforeMove: set<string> :=
    {CaptionsFile, CaptionsDir + PlaylistFile,
     "64k" + PlaylistFile, "128k" + PlaylistFile, "256k" + PlaylistFile}

  /** `shutil.move` of one file, when it exists. */
  function Move(files: set<string>, src: string, dst: string): (r: set<string>)
    ensures src in files ==> dst in r && (src != dst ==> src !in r)
    ensures src !in files ==> r == files
    ensures forall x :: x in files && x != src ==> x in r
  {
    if src in files then files - {src} + {dst} else files
  }

  /** The rewritten captions playlist of `cloud.py` names `captions.vtt`
      beside itself, which exists only because `create_master_playlist`
      moves the caption file into the captions directory: before the move
      that segment names no file. */
  lemma CloudMoveNeeded()
    ensures Resolve(CaptionsDir, CaptionsFile) !in CloudFilesBeforeMove
    ensures Resolve(CaptionsDir, CaptionsFile)
      in Move(CloudFilesBeforeMove, CaptionsFile, Resolve(CaptionsDir, CaptionsFile))
  {
    var target := Resolve(CaptionsDir, CaptionsFile);
    assert |target| == 21;
  }

  /** Every reference of the master of `cloud.py` names a file there once
      the caption file is moved. */
  lemma CloudReferencesResolve()
    ensures ResolvesIn(Move(CloudFilesBeforeMove, CaptionsFile, Resolve(CaptionsDir, CaptionsFile)),
                       Render(CloudMaster()))
  {
    var after := Move(CloudFilesBeforeMove, CaptionsFile, Resolve(CaptionsDir, CaptionsFile));
    CloudMasterRead();
    CloudRenditionRead();
    CloudPlaylistsStay();
    CloudFilesHold(after);
    ResolvesOf(after, Render(CloudMaster()), MainEntries, [CloudRendition]);
  }

  lemma CloudFilesHold(files: set<string>)
    requires CaptionsDir + PlaylistFile in files && "64k" + PlaylistFile in files
    requires "128k" + PlaylistFile in files && "256k" + PlaylistFile in files
    ensures MasterResolves(files, MainEntries, [CloudRendition])
  {
  }

  /** The rendition `cloud.py` writes. */
  const CloudRendition := Rendition("SUBTITLES", "subs", "English", Some("en"), true, true, CaptionsDir + PlaylistFile)

  /** A reader of the master of `cloud.py` finds the English rendition at
      `captions/playlist.m3u8`. */
  lemma CloudRenditionRead()
    ensures ReadRenditions(Render(CloudMaster())) == Some([CloudRendition])
  {
    CloudIsMainInEnglish();
    EnglishRendition("en");
  }

  lemma EnglishRendition(lang: string)
    requires lang == "en"
    ensures ReadRenditions(Render(MainMaster(lang))) == Some([CloudRendition])
  {
    assert lang in LanguageNames && LanguageNames[lang] == "English";
    assert '\n' !in lang && '"' !in lang;
    MainRenditionRead(lang);
  }

  /** A reader of the master of `cloud.py` finds the variants of `main.py`. */
  lemma CloudMasterRead()
    ensures ReadMaster(Render(CloudMaster())) == Some(MainEntries)
  {
    CloudIsMainInEnglish();
    MainMasterRead("en");
  }

  /** Moving the caption file leaves the playlists where they were. */
  lemma CloudPlaylistsStay()
    ensures var after := Move(CloudFilesBeforeMove, CaptionsFile, Resolve(CaptionsDir, CaptionsFile));
      CaptionsDir + PlaylistFile in after && "64k" + PlaylistFile in after
      && "128k" + PlaylistFile in after && "256k" + PlaylistFile in after
  {
    assert |CaptionsFile| == 12 && |PlaylistFile| == 14;
    assert |CaptionsDir + PlaylistFile| != 12 && |"64k" + PlaylistFile| != 12;
    assert |"128k" + PlaylistFile| != 12 && |"256k" + PlaylistFile| != 12;
  }

  /** What `process_audio` of `local.py` has in the work directory when it
      uploads. */
  const LocalFiles: set<string> := {CaptionsFile, "playlist.m3u8", MasterFile}

  lemma LocalReferencesResolve(lang: string)
    requires '\n' !in lang && '"' !in lang
    ensures ResolvesIn(LocalFiles, Render(LocalMaster(lang)))
  {
    LocalMasterRead(lang);
    LocalMasterGroup(lang);
  }

  /** The media playlists `transcode_to_hls` of `run.py` writes, one per
      profile. */
  function RunFiles(ps: seq<Profile>): set<string>
  {
    (set i | 0 <= i < |ps| :: ps[i].bitrate + PlaylistFile) + {MasterFile}
  }

  /** Every variant of the master of `run.py` names a media playlist it
      wrote, whatever the profiles. */
  lemma RunReferencesResolve(ps: seq<Profile>)
    requires forall i :: 0 <= i < |ps| ==> ValidDir(ps[i].bitrate)
    ensures ResolvesIn(RunFiles(ps), Render(RunMaster(ps)))
    ensures ReadRenditions(Render(RunMaster(ps))) == Some([])
  {
    RunMasterRead(ps);
    ProfileVariantsValid(ps);
    PlainRenditionsRead(ProfileVariants(ps));
  }

  /** What `process_audio` of `process.py` has under `hls/` when it
      uploads. */
  const WebhookFiles: set<string> :=
    {Resolve(CaptionsDir, CaptionsFile), "64k" + PlaylistFile, "128k" + PlaylistFile, MasterFile}

  /** Every reference of the corrected master names a file under `hls/`. */
  lemma WebhookReferencesResolve(lang: string)
    requires '\n' !in lang && '"' !in lang
    ensures ResolvesIn(WebhookFiles, Render(WebhookMaster(lang)))
  {
    WebhookMasterRead(lang);
    WebhookRenditionRead(lang);
    var r := Rendition("SUBTITLES", "subs", Upper(lang), Some(lang), true, true, Resolve(CaptionsDir, CaptionsFile));
    WebhookFilesHold(r);
    ResolvesOf(WebhookFiles, Render(WebhookMaster(lang)), WebhookEntries, [r]);
  }

  lemma WebhookFilesHold(r: Rendition)
    requires r.uri == Resolve(CaptionsDir, CaptionsFile)
    ensures MasterResolves(WebhookFiles, WebhookEntries, [r])
  {
  }
}
