/** The HLS master playlists the versions write (section 4.3.4 of RFC 8216),
    as lists of lines joined with newlines, and a reader for them: a master
    playlist opens with `#EXTM3U`, each `#EXT-X-STREAM-INF` tag is followed
    by the URI line of its variant stream, and a subtitle rendition is one
    `#EXT-X-MEDIA` tag. */
module Manifest {
  import opened Wrappers
  import opened Text
  import opened Attributes

  const Header := "#EXTM3U"
  const Version := "#EXT-X-VERSION:3"

  /** The tag name of section 4.3.4.2 of RFC 8216. */
  const StreamInfName := "#EXT-X-STREAM-INF:"

  /** Every version writes BANDWIDTH as the first attribute. */
  const StreamInfStart := StreamInfName + "BANDWIDTH="
  const Codecs := ",CODECS=\"mp4a.40.2\""
  const SubtitlesRef := ",SUBTITLES=\"subs\""

  /** The tag name of section 4.3.4.1 of RFC 8216. */
  const MediaTag := "#EXT-X-MEDIA:"

  const TypeAttr := Attr("TYPE", "SUBTITLES")
  const GroupAttr := Attr("GROUP-ID", Quote("subs"))

  /** The start of the subtitle rendition tag of section 4.3.4.1 of RFC 8216
      for group `subs`: `#EXT-X-MEDIA:TYPE=SUBTITLES,GROUP-ID="subs",`. */
  const MediaStart := MediaTag + AttrText(TypeAttr) + "," + AttrText(GroupAttr) + ","

  /** The opening lines every master shares: header, version, a blank
      line. */
  const Preamble: seq<string> := [Header, Version, ""]

  /** A variant stream: its peak bit rate and the URI of its media
      playlist. */
  datatype Variant = Variant(bandwidth: nat, uri: string)

  /** The subtitle rendition of group `subs`. */
  datatype Subtitles = Subtitles(name: string, language: string, uri: string)

  /** What a reader learns about one variant. */
  datatype Entry = Entry(bandwidth: nat, subtitles: bool, uri: string)

  /** What a reader learns about one rendition: its TYPE, GROUP-ID, NAME,
      LANGUAGE when present, whether DEFAULT and AUTOSELECT are YES, and its
      URI. */
  datatype Rendition = Rendition(kind: string, group: string, name: string, language: Option<string>,
                                 isDefault: bool, autoselect: bool, uri: string)

  /** The attributes the reader takes from an `#EXT-X-STREAM-INF` tag. */
  datatype StreamAttrs = StreamAttrs(bandwidth: nat, subtitles: bool)

  // -------------------------------------------------------------- writing

  function StreamInf(bandwidth: nat, subtitles: bool): string
  {
    StreamInfStart + Decimal(bandwidth) + Codecs + (if subtitles then SubtitlesRef else "")
  }

  /** The attributes of the rendition line, in the order written. */
  function MediaAttrs(s: Subtitles): seq<Attr>
  {
    [TypeAttr, GroupAttr, Attr("NAME", Quote(s.name)), Attr("LANGUAGE", Quote(s.language)),
     Attr("DEFAULT", "YES"), Attr("AUTOSELECT", "YES"), Attr("URI", Quote(s.uri))]
  }

  /** `#EXT-X-MEDIA:TYPE=SUBTITLES,GROUP-ID="subs",NAME="<name>",
      LANGUAGE="<language>",DEFAULT=YES,AUTOSELECT=YES,URI="<uri>"` on one
      line. */
  function MediaLine(s: Subtitles): string
  {
    MediaTag + RenderAttrs(MediaAttrs(s))
  }

  /** The two lines of one variant: its tag, then its URI. */
  function VariantLines(v: Variant, subtitles: bool): seq<string>
  {
    [StreamInf(v.bandwidth, subtitles), v.uri]
  }

  /** The variant lines of the subtitled masters: a blank line, the tag
      referring to group `subs`, the URI. */
  function SpacedVariantLines(vs: seq<Variant>): (r: seq<string>)
    ensures |r| == 3 * |vs|
    decreases |vs|
  {
    if vs == [] then []
    else [""] + VariantLines(vs[0], true) + SpacedVariantLines(vs[1..])
  }

  /** The layout of `main.py`, `cloud.py`, `local.py` and the corrected
      webhook: header, version, a blank line, the subtitle rendition, the
      variants, and a final newline. */
  function SubtitledMaster(sub: Subtitles, vs: seq<Variant>): seq<string>
  {
    Preamble + [MediaLine(sub)] + SpacedVariantLines(vs) + [""]
  }

  /** The variant lines of `run.py`: tag then URI, no blank lines, no
      subtitles. */
  function PlainVariantLines(vs: seq<Variant>): (r: seq<string>)
    ensures |r| == 2 * |vs|
    decreases |vs|
  {
    if vs == [] then []
    else VariantLines(vs[0], false) + PlainVariantLines(vs[1..])
  }

  /** `"\n".join(lines) + "\n"` of `run.py`. */
  function PlainMaster(vs: seq<Variant>): seq<string>
  {
    Preamble + PlainVariantLines(vs) + [""]
  }

  /** The file's text. */
  function Render(lines: seq<string>): string
  {
    Join(lines, '\n')
  }

  // -------------------------------------------------------------- reading

  /** The longest run of digits `s` starts with. */
  function TakeDigits(s: string): (r: string)
    ensures |r| <= |s| && r == s[..|r|] && AllDigits(r)
    decreases |s|
  {
    if s != [] && IsDigit(s[0]) then [s[0]] + TakeDigits(s[1..]) else []
  }

  /** The bandwidth and the subtitle reference of an `#EXT-X-STREAM-INF`
      line that starts with BANDWIDTH, or nothing when it does not. */
  function ParseStreamInf(l: string): Option<StreamAttrs>
  {
    if StartsWith(l, StreamInfStart) then
      var d := TakeDigits(l[|StreamInfStart|..]);
      if d == "" then None else Some(StreamAttrs(ParseDecimal(d), EndsWith(l, SubtitlesRef)))
    else None
  }

  predicate IsUriLine(l: string)
  {
    l != "" && l[0] != '#'
  }

  /** The variants of a master playlist's lines after the header: blank
      lines and other tags are skipped, each `#EXT-X-STREAM-INF` tag pairs
      with the next URI line. A URI line with no tag before it, a tag with
      no URI after it, or a tag the reader cannot parse make the playlist
      unreadable. */
  function ReadEntries(lines: seq<string>, pending: Option<StreamAttrs>): Option<seq<Entry>>
    decreases |lines|
  {
    if lines == [] then
      if pending.None? then Some([]) else None
    else
      var l := lines[0];
      if l == "" then ReadEntries(lines[1..], pending)
      else if l[0] == '#' then
        if StartsWith(l, StreamInfName) then
          if pending.Some? then None
          else
            match ParseStreamInf(l)
            case None => None
            case Some(a) => ReadEntries(lines[1..], Some(a))
        else ReadEntries(lines[1..], pending)
      else if pending.None? then None
      else
        match ReadEntries(lines[1..], None)
        case None => None
        case Some(es) => Some([Entry(pending.value.bandwidth, pending.value.subtitles, l)] + es)
  }

  /** Reads a master playlist's text. */
  function ReadMaster(text: string): Option<seq<Entry>>
  {
    var lines := Split(text, '\n');
    if lines[0] == Header then ReadEntries(lines[1..], None) else None
  }

  /** The number of subtitle renditions of group `subs` declared. */
  function SubtitleGroups(lines: seq<string>): nat
    decreases |lines|
  {
    if lines == [] then 0
    else (if StartsWith(lines[0], MediaStart) then 1 else 0) + SubtitleGroups(lines[1..])
  }

  /** Reads an `#EXT-X-MEDIA` tag. TYPE, GROUP-ID, NAME and URI must be
      present (section 4.3.4.1 of RFC 8216 requires URI for subtitles);
      attributes may come in any order. */
  function ReadRendition(l: string): (r: Option<Rendition>)
    requires StartsWith(l, MediaTag)
    ensures r.Some? ==> (ParseAttrs(l[|MediaTag|..]).Some?
                         && Lookup(ParseAttrs(l[|MediaTag|..]).value, "URI") == Some(Quote(r.value.uri)))
  {
    match ParseAttrs(l[|MediaTag|..])
    case None => None
    case Some(attrs) =>
      var kind := TokenValue(attrs, "TYPE");
      var group := QuotedValue(attrs, "GROUP-ID");
      var name := QuotedValue(attrs, "NAME");
      var uri := QuotedValue(attrs, "URI");
      if kind.None? || group.None? || name.None? || uri.None? then None
      else Some(Rendition(kind.value, group.value, name.value, QuotedValue(attrs, "LANGUAGE"),
                          TokenValue(attrs, "DEFAULT") == Some("YES"),
                          TokenValue(attrs, "AUTOSELECT") == Some("YES"), uri.value))
  }

  /** The renditions of a master playlist's lines, in order; one that
      cannot be read makes the playlist unreadable. */
  function Renditions(lines: seq<string>): Option<seq<Rendition>>
    decreases |lines|
  {
    if lines == [] then Some([])
    else if !StartsWith(lines[0], MediaTag) then Renditions(lines[1..])
    else
      match ReadRendition(lines[0])
      case None => None
      case Some(r) =>
        match Renditions(lines[1..])
        case None => None
        case Some(rs) => Some([r] + rs)
  }

  /** Reads the renditions of a master playlist's text. */
  function ReadRenditions(text: string): Option<seq<Rendition>>
  {
    var lines := Split(text, '\n');
    if lines[0] == Header then Renditions(lines[1..]) else None
  }

  // ---------------------------------------------------------- round trip
  // ------------------------------------------------- facts about the tags

  lemma {:induction false} TakeDigitsOf(d: string, rest: string)
    requires AllDigits(d)
    requires rest == [] || !IsDigit(rest[0])
    ensures TakeDigits(d + rest) == d
    decreases |d|
  {
    if d == [] {
      assert d + rest == rest;
    } else {
      assert (d + rest)[1..] == d[1..] + rest;
      TakeDigitsOf(d[1..], rest);
    }
  }

  /** A line whose eighth character is not `S` is not a stream tag, one
      whose eighth character is not `M` is not a subtitle rendition. */
  lemma EighthChar(l: string)
    ensures |l| > 7 && l[7] != 'S' ==> !StartsWith(l, StreamInfName)
    ensures |l| > 7 && l[7] != 'M' ==> !StartsWith(l, MediaStart) && !StartsWith(l, MediaTag)
    ensures StartsWith(l, StreamInfName) ==> !StartsWith(l, MediaStart) && !StartsWith(l, MediaTag)
    ensures (l == "" || l[0] != '#') ==> !StartsWith(l, MediaTag)
  {
    assert StreamInfName[7] == 'S' && MediaStart[7] == 'M' && MediaTag[7] == 'M' && MediaTag[0] == '#';
    if StartsWith(l, StreamInfName) {
      assert l[7] == l[..|StreamInfName|][7];
    }
    if StartsWith(l, MediaTag) {
      assert l[0] == l[..|MediaTag|][0];
      assert l[7] == l[..|MediaTag|][7];
    }
  }

  /** Blank lines, URI lines and stream tags are not renditions. */
  lemma NotMediaTag(l: string)
    requires l == "" || l[0] != '#' || StartsWith(l, StreamInfName)
    ensures !StartsWith(l, MediaTag)
  {
    EighthChar(l);
  }

  lemma DigitsHaveNoNewline(d: string)
    requires AllDigits(d)
    ensures '\n' !in d
  {
  }

  /** The shape of a stream tag: it starts with the tag name, is neither
      blank nor a subtitle rendition, and is one line. */
  lemma StreamInfShape(bandwidth: nat, subtitles: bool)
    ensures var l := StreamInf(bandwidth, subtitles);
      l != "" && l[0] == '#' && StartsWith(l, StreamInfName)
      && !StartsWith(l, MediaStart) && '\n' !in l
  {
    var d := Decimal(bandwidth);
    var rest := d + Codecs + (if subtitles then SubtitlesRef else "");
    assert StreamInf(bandwidth, subtitles) == StreamInfStart + rest;
    DigitsHaveNoNewline(d);
    assert '\n' !in Codecs && '\n' !in SubtitlesRef;
    assert '\n' !in rest;
    StreamStartShape(rest);
  }

  /** Any line that starts with `#EXT-X-STREAM-INF:BANDWIDTH=`. */
  lemma StreamStartShape(rest: string)
    requires '\n' !in rest
    ensures var l := StreamInfStart + rest;
      l != "" && l[0] == '#' && StartsWith(l, StreamInfName)
      && !StartsWith(l, MediaStart) && '\n' !in l
  {
    var l := StreamInfStart + rest;
    assert l[..|StreamInfName|] == StreamInfName;
    assert l[0] == '#';
    EighthChar(l);
    assert '\n' !in StreamInfStart;
  }

  /** The reader gives back the attributes the writer put in the tag. */
  lemma ParseStreamInfOf(bandwidth: nat, subtitles: bool)
    ensures ParseStreamInf(StreamInf(bandwidth, subtitles)) == Some(StreamAttrs(bandwidth, subtitles))
  {
    var d := Decimal(bandwidth);
    var tail := Codecs + (if subtitles then SubtitlesRef else "");
    assert StreamInf(bandwidth, subtitles) == StreamInfStart + (d + tail);
    assert tail[0] == ',';
    DecimalRoundTrip(bandwidth);
    ParseDigitsFirst(d, tail);
    SubtitlesRefAtEnd(StreamInfStart + d, subtitles);
    assert StreamInfStart + (d + tail) == StreamInfStart + d + Codecs + (if subtitles then SubtitlesRef else "");
  }

  /** The reader takes the digits right after `BANDWIDTH=`. */
  lemma ParseDigitsFirst(d: string, tail: string)
    requires AllDigits(d) && d != ""
    requires tail != [] && !IsDigit(tail[0])
    ensures ParseStreamInf(StreamInfStart + (d + tail))
         == Some(StreamAttrs(ParseDecimal(d), EndsWith(StreamInfStart + (d + tail), SubtitlesRef)))
  {
    var l := StreamInfStart + (d + tail);
    assert l[..|StreamInfStart|] == StreamInfStart;
    assert l[|StreamInfStart|..] == d + tail;
    TakeDigitsOf(d, tail);
  }

  /** The tag ends with the subtitle reference exactly when it was
      written with one. */
  lemma SubtitlesRefAtEnd(p: string, subtitles: bool)
    ensures EndsWith(p + Codecs + (if subtitles then SubtitlesRef else ""), SubtitlesRef) <==> subtitles
  {
    var l := p + Codecs + (if subtitles then SubtitlesRef else "");
    if subtitles {
      assert l[|l| - |SubtitlesRef|..] == SubtitlesRef;
    } else {
      assert l[|l| - |SubtitlesRef|] == Codecs[2] != SubtitlesRef[0];
    }
  }

  /** A subtitle rendition whose fields are single-line text. */
  predicate ValidSubtitles(s: Subtitles)
  {
    '\n' !in s.name && '\n' !in s.language && '\n' !in s.uri
  }

  /** The shape of the subtitle rendition line. */
  lemma MediaLineShape(s: Subtitles)
    ensures var l := MediaLine(s);
      l != "" && l[0] == '#' && !StartsWith(l, StreamInfName) && StartsWith(l, MediaStart)
  {
    var rest := RenderAttrs(MediaAttrs(s)[2..]);
    MediaLineStart(s);
    MediaStartShape(rest);
  }

  /** Any line that starts with the rendition tag. */
  lemma MediaStartShape(rest: string)
    ensures var l := MediaStart + rest;
      l != "" && l[0] == '#' && !StartsWith(l, StreamInfName) && StartsWith(l, MediaStart)
  {
    var l := MediaStart + rest;
    assert l[..|MediaStart|] == MediaStart;
    assert l[0] == MediaStart[0] == '#';
    assert l[7] == MediaStart[7] == 'M';
    EighthChar(l);
  }

  /** Single-line fields give a single-line rendition. */
  lemma MediaLineOneLine(s: Subtitles)
    requires ValidSubtitles(s)
    ensures '\n' !in MediaLine(s)
  {
    var a := MediaAttrs(s);
    MediaAttrsNamed(s);
    MediaNamesOneLine();
    QuoteOneLine(s.name);
    QuoteOneLine(s.language);
    QuoteOneLine(s.uri);
    QuoteOneLine("subs");
    assert '\n' !in a[0].value && '\n' !in a[4].value && '\n' !in a[5].value;
    assert forall i :: 0 <= i < |a| ==> '\n' !in a[i].name && '\n' !in a[i].value;
    RenderOneLine(a);
    assert '\n' !in MediaTag;
  }

  lemma QuoteOneLine(v: string)
    requires '\n' !in v
    ensures '\n' !in Quote(v)
  {
  }

  lemma MediaStartOneLine()
    ensures '\n' !in MediaStart
  {
  }

  lemma RenderCons(a: Attr, rest: seq<Attr>)
    requires rest != []
    ensures RenderAttrs([a] + rest) == AttrText(a) + "," + RenderAttrs(rest)
  {
    assert ([a] + rest)[1..] == rest;
  }

  /** The rendition line is `MediaStart` and the attributes after the
      group. */
  lemma MediaLineStart(s: Subtitles)
    ensures MediaLine(s) == MediaStart + RenderAttrs(MediaAttrs(s)[2..])
  {
    var a := MediaAttrs(s);
    RenderCons(a[0], a[1..]);
    RenderCons(a[1], a[2..]);
    assert a == [a[0]] + a[1..] && a[1..] == [a[1]] + a[2..];
  }

  // ------------------------------------------------------- reader steps

  /** `o` with `es` in front of what it holds. */
  function Prepend(es: seq<Entry>, o: Option<seq<Entry>>): (r: Option<seq<Entry>>)
    ensures r.Some? <==> o.Some?
    ensures r.Some? ==> |r.value| == |es| + |o.value| && r.value[..|es|] == es
  {
    match o
    case None => None
    case Some(rest) =>
      var r := es + rest;
      assert r[..|es|] == es;
      Some(r)
  }

  lemma PrependTwice(a: seq<Entry>, b: seq<Entry>, o: Option<seq<Entry>>)
    ensures Prepend(a, Prepend(b, o)) == Prepend(a + b, o)
  {
    if o.Some? {
      assert a + (b + o.value) == (a + b) + o.value;
    }
  }

  lemma ReadBlank(rest: seq<string>, p: Option<StreamAttrs>)
    ensures ReadEntries([""] + rest, p) == ReadEntries(rest, p)
  {
    assert ([""] + rest)[1..] == rest;
  }

  lemma ReadOtherTag(l: string, rest: seq<string>, p: Option<StreamAttrs>)
    requires l != "" && l[0] == '#' && !StartsWith(l, StreamInfName)
    ensures ReadEntries([l] + rest, p) == ReadEntries(rest, p)
  {
    assert ([l] + rest)[1..] == rest;
  }

  lemma ReadTag(bandwidth: nat, subtitles: bool, rest: seq<string>)
    ensures ReadEntries([StreamInf(bandwidth, subtitles)] + rest, None)
         == ReadEntries(rest, Some(StreamAttrs(bandwidth, subtitles)))
  {
    var l := StreamInf(bandwidth, subtitles);
    StreamInfShape(bandwidth, subtitles);
    ParseStreamInfOf(bandwidth, subtitles);
    assert ([l] + rest)[0] == l;
    assert ([l] + rest)[1..] == rest;
  }

  lemma ReadUri(u: string, rest: seq<string>, a: StreamAttrs)
    requires IsUriLine(u)
    ensures ReadEntries([u] + rest, Some(a))
         == Prepend([Entry(a.bandwidth, a.subtitles, u)], ReadEntries(rest, None))
  {
    assert ([u] + rest)[0] == u;
    assert ([u] + rest)[1..] == rest;
  }

  lemma ReadEnd()
    ensures ReadEntries([""], None) == Some([])
  {
    ReadBlank([], None);
    assert [""] + [] == [""];
  }

  // ---------------------------------------------------------- round trip

  /** A variant list a reader can take back: URIs are single non-tag
      lines. */
  predicate ValidVariants(vs: seq<Variant>)
  {
    forall i :: 0 <= i < |vs| ==> IsUriLine(vs[i].uri) && '\n' !in vs[i].uri
  }

  lemma ValidTail(vs: seq<Variant>)
    requires vs != [] && ValidVariants(vs)
    ensures ValidVariants(vs[1..])
  {
    assert forall i :: 0 <= i < |vs[1..]| ==> vs[1..][i] == vs[i + 1];
  }

  /** What the reader reports for the variants, in order. */
  function AsEntries(vs: seq<Variant>, subtitles: bool): (r: seq<Entry>)
    ensures |r| == |vs|
    ensures forall i :: 0 <= i < |vs| ==> r[i] == Entry(vs[i].bandwidth, subtitles, vs[i].uri)
  {
    seq(|vs|, i requires 0 <= i < |vs| => Entry(vs[i].bandwidth, subtitles, vs[i].uri))
  }

  lemma AsEntriesCons(vs: seq<Variant>, subtitles: bool)
    requires vs != []
    ensures AsEntries(vs, subtitles)
         == [Entry(vs[0].bandwidth, subtitles, vs[0].uri)] + AsEntries(vs[1..], subtitles)
  {
  }

  /** One variant's two lines read as its entry. */
  lemma ReadVariant(v: Variant, subtitles: bool, rest: seq<string>)
    requires IsUriLine(v.uri)
    ensures ReadEntries(VariantLines(v, subtitles) + rest, None)
         == Prepend([Entry(v.bandwidth, subtitles, v.uri)], ReadEntries(rest, None))
  {
    assert VariantLines(v, subtitles) + rest == [StreamInf(v.bandwidth, subtitles)] + ([v.uri] + rest);
    ReadTag(v.bandwidth, subtitles, [v.uri] + rest);
    ReadUri(v.uri, rest, StreamAttrs(v.bandwidth, subtitles));
  }

  lemma {:induction false} ReadSpaced(vs: seq<Variant>, tail: seq<string>)
    requires ValidVariants(vs)
    ensures ReadEntries(SpacedVariantLines(vs) + tail, None)
         == Prepend(AsEntries(vs, true), ReadEntries(tail, None))
    decreases |vs|
  {
    if vs == [] {
      assert SpacedVariantLines(vs) + tail == tail;
      assert AsEntries(vs, true) == [];
      PrependTwice([], [], ReadEntries(tail, None));
    } else {
      var v := vs[0];
      var rest := SpacedVariantLines(vs[1..]) + tail;
      assert SpacedVariantLines(vs) + tail == [""] + (VariantLines(v, true) + rest);
      ReadBlank(VariantLines(v, true) + rest, None);
      ReadVariant(v, true, rest);
      ValidTail(vs);
      ReadSpaced(vs[1..], tail);
      AsEntriesCons(vs, true);
      PrependTwice([Entry(v.bandwidth, true, v.uri)], AsEntries(vs[1..], true), ReadEntries(tail, None));
    }
  }

  lemma {:induction false} ReadPlain(vs: seq<Variant>, tail: seq<string>)
    requires ValidVariants(vs)
    ensures ReadEntries(PlainVariantLines(vs) + tail, None)
         == Prepend(AsEntries(vs, false), ReadEntries(tail, None))
    decreases |vs|
  {
    if vs == [] {
      assert PlainVariantLines(vs) + tail == tail;
      assert AsEntries(vs, false) == [];
      PrependTwice([], [], ReadEntries(tail, None));
    } else {
      var v := vs[0];
      var rest := PlainVariantLines(vs[1..]) + tail;
      assert PlainVariantLines(vs) + tail == VariantLines(v, false) + rest;
      ReadVariant(v, false, rest);
      ValidTail(vs);
      ReadPlain(vs[1..], tail);
      AsEntriesCons(vs, false);
      PrependTwice([Entry(v.bandwidth, false, v.uri)], AsEntries(vs[1..], false), ReadEntries(tail, None));
    }
  }

  predicate NoNewline(lines: seq<string>)
  {
    forall i :: 0 <= i < |lines| ==> '\n' !in lines[i]
  }

  lemma NoNewlineConcat(a: seq<string>, b: seq<string>)
    requires NoNewline(a) && NoNewline(b)
    ensures NoNewline(a + b)
  {
    assert forall i :: |a| <= i < |a + b| ==> (a + b)[i] == b[i - |a|];
  }

  lemma {:induction false} SpacedNoNewline(vs: seq<Variant>)
    requires ValidVariants(vs)
    ensures NoNewline(SpacedVariantLines(vs))
    decreases |vs|
  {
    if vs != [] {
      ValidTail(vs);
      SpacedNoNewline(vs[1..]);
      StreamInfShape(vs[0].bandwidth, true);
      NoNewlineConcat(["", StreamInf(vs[0].bandwidth, true), vs[0].uri], SpacedVariantLines(vs[1..]));
    }
  }

  lemma {:induction false} PlainNoNewline(vs: seq<Variant>)
    requires ValidVariants(vs)
    ensures NoNewline(PlainVariantLines(vs))
    decreases |vs|
  {
    if vs != [] {
      ValidTail(vs);
      PlainNoNewline(vs[1..]);
      StreamInfShape(vs[0].bandwidth, false);
      NoNewlineConcat([StreamInf(vs[0].bandwidth, false), vs[0].uri], PlainVariantLines(vs[1..]));
    }
  }

  /** Splitting the rendered text gives back the lines. */
  lemma RenderSplit(lines: seq<string>)
    requires |lines| > 0 && NoNewline(lines)
    ensures Split(Render(lines), '\n') == lines
  {
    SplitJoin(lines, '\n');
  }

  lemma VersionIsOtherTag()
    ensures Version != "" && Version[0] == '#' && !StartsWith(Version, StreamInfName)
  {
    assert Version[0] == '#' && Version[7] == 'V';
    EighthChar(Version);
  }

  lemma PreambleOneLine()
    ensures NoNewline(Preamble)
  {
    assert '\n' !in Header && '\n' !in Version;
  }

  /** The lines of a text that opens with the preamble. */
  lemma PreambleLines(rest: seq<string>)
    requires NoNewline(rest)
    ensures var lines := Split(Render(Preamble + rest), '\n');
      lines[0] == Header && lines[1..] == [Version] + ([""] + rest)
  {
    var lines := Preamble + rest;
    PreambleOneLine();
    NoNewlineConcat(Preamble, rest);
    RenderSplit(lines);
    assert lines[1..] == [Version] + ([""] + rest);
  }

  /** A master that opens with the preamble reads as the lines after it. */
  lemma ReadAfterPreamble(rest: seq<string>)
    requires NoNewline(rest)
    ensures ReadMaster(Render(Preamble + rest)) == ReadEntries(rest, None)
  {
    PreambleLines(rest);
    VersionIsOtherTag();
    ReadOtherTag(Version, [""] + rest, None);
    ReadBlank(rest, None);
  }

  /** Reading the text of a subtitled master gives back every variant, in
      order, each referring to the subtitle group. */
  lemma SubtitledMasterRoundTrip(sub: Subtitles, vs: seq<Variant>)
    requires ValidSubtitles(sub) && ValidVariants(vs)
    ensures ReadMaster(Render(SubtitledMaster(sub, vs))) == Some(AsEntries(vs, true))
  {
    var media := MediaLine(sub);
    var spaced := SpacedVariantLines(vs) + [""];
    assert SubtitledMaster(sub, vs) == Preamble + ([media] + spaced);
    MediaLineOneLine(sub);
    SpacedNoNewline(vs);
    NoNewlineConcat(SpacedVariantLines(vs), [""]);
    NoNewlineConcat([media], spaced);
    ReadAfterPreamble([media] + spaced);
    MediaLineShape(sub);
    ReadOtherTag(media, spaced, None);
    ReadSpaced(vs, [""]);
    ReadEnd();
    assert AsEntries(vs, true) + [] == AsEntries(vs, true);
  }

  /** Reading the text of a plain master gives back every variant, in
      order, none referring to subtitles. */
  lemma PlainMasterRoundTrip(vs: seq<Variant>)
    requires ValidVariants(vs)
    ensures ReadMaster(Render(PlainMaster(vs))) == Some(AsEntries(vs, false))
  {
    var plain := PlainVariantLines(vs) + [""];
    assert PlainMaster(vs) == Preamble + plain;
    PlainNoNewline(vs);
    NoNewlineConcat(PlainVariantLines(vs), [""]);
    ReadAfterPreamble(plain);
    ReadPlain(vs, [""]);
    ReadEnd();
    assert AsEntries(vs, false) + [] == AsEntries(vs, false);
  }

  // ----------------------------------------------------- subtitle groups

  lemma {:induction false} SubtitleGroupsConcat(a: seq<string>, b: seq<string>)
    ensures SubtitleGroups(a + b) == SubtitleGroups(a) + SubtitleGroups(b)
    decreases |a|
  {
    if a == [] {
      assert a + b == b;
    } else {
      assert (a + b)[1..] == a[1..] + b;
      SubtitleGroupsConcat(a[1..], b);
    }
  }

  lemma NoGroupLine(l: string)
    requires l == "" || l[0] != '#' || StartsWith(l, StreamInfName) || |l| < |MediaStart|
    ensures SubtitleGroups([l]) == 0
  {
    assert [l][1..] == [];
    EighthChar(l);
    if l != "" && l[0] != '#' && |MediaStart| <= |l| {
      assert l[0] == l[..|MediaStart|][0];
    }
  }

  /** The lines one variant contributes declare no group. */
  lemma VariantHasNoGroup(v: Variant, subtitles: bool)
    requires IsUriLine(v.uri)
    ensures SubtitleGroups(VariantLines(v, subtitles)) == 0
  {
    var inf := StreamInf(v.bandwidth, subtitles);
    StreamInfShape(v.bandwidth, subtitles);
    NoGroupLine(inf);
    NoGroupLine(v.uri);
    SubtitleGroupsConcat([inf], [v.uri]);
    assert [inf] + [v.uri] == [inf, v.uri];
  }

  lemma BlankHasNoGroup(lines: seq<string>)
    ensures SubtitleGroups([""] + lines) == SubtitleGroups(lines)
  {
    assert ([""] + lines)[1..] == lines;
  }

  lemma {:induction false} SpacedHasNoGroup(vs: seq<Variant>)
    requires ValidVariants(vs)
    ensures SubtitleGroups(SpacedVariantLines(vs)) == 0
    decreases |vs|
  {
    if vs != [] {
      var v := vs[0];
      var pair := VariantLines(v, true);
      var rest := SpacedVariantLines(vs[1..]);
      VariantHasNoGroup(v, true);
      ValidTail(vs);
      SpacedHasNoGroup(vs[1..]);
      BlankHasNoGroup(pair);
      SubtitleGroupsConcat([""] + pair, rest);
    }
  }

  lemma {:induction false} PlainHasNoGroup(vs: seq<Variant>)
    requires ValidVariants(vs)
    ensures SubtitleGroups(PlainVariantLines(vs)) == 0
    decreases |vs|
  {
    if vs != [] {
      var v := vs[0];
      var pair := VariantLines(v, false);
      VariantHasNoGroup(v, false);
      ValidTail(vs);
      PlainHasNoGroup(vs[1..]);
      assert PlainVariantLines(vs) == pair + PlainVariantLines(vs[1..]);
      SubtitleGroupsConcat(pair, PlainVariantLines(vs[1..]));
    }
  }

  /** The three opening lines declare no group. */
  lemma PreambleHasNoGroup()
    ensures SubtitleGroups(Preamble) == 0
  {
    NoGroupLine(Header);
    NoGroupLine(Version);
    NoGroupLine("");
    assert Preamble == [Header] + ([Version] + [""]);
    SubtitleGroupsConcat([Version], [""]);
    SubtitleGroupsConcat([Header], [Version] + [""]);
  }

  /** A subtitled master declares the group `subs` exactly once. */
  lemma SubtitledGroupCount(sub: Subtitles, vs: seq<Variant>)
    requires ValidVariants(vs)
    ensures SubtitleGroups(SubtitledMaster(sub, vs)) == 1
  {
    var media := MediaLine(sub);
    var pre := Preamble;
    MediaLineShape(sub);
    assert SubtitleGroups([media]) == 1 by { assert [media][1..] == []; }
    PreambleHasNoGroup();
    SubtitleGroupsConcat(pre, [media]);
    SpacedHasNoGroup(vs);
    SubtitleGroupsConcat(pre + [media], SpacedVariantLines(vs));
    NoGroupLine("");
    SubtitleGroupsConcat(pre + [media] + SpacedVariantLines(vs), [""]);
    assert SubtitledMaster(sub, vs) == pre + [media] + SpacedVariantLines(vs) + [""];
  }

  /** A plain master declares no subtitle group. */
  lemma PlainGroupCount(vs: seq<Variant>)
    requires ValidVariants(vs)
    ensures SubtitleGroups(PlainMaster(vs)) == 0
  {
    PreambleHasNoGroup();
    PlainHasNoGroup(vs);
    SubtitleGroupsConcat(Preamble, PlainVariantLines(vs));
    NoGroupLine("");
    SubtitleGroupsConcat(Preamble + PlainVariantLines(vs), [""]);
  }

  // ---------------------------------------------------------- renditions

  /** Rendition fields that fit in a quoted string on one line. */
  predicate Quotable(s: Subtitles)
  {
    ValidSubtitles(s) && '"' !in s.name && '"' !in s.language && '"' !in s.uri
  }

  /** What a reader reports for a rendition written by `MediaLine`. */
  function AsRendition(s: Subtitles): Rendition
  {
    Rendition("SUBTITLES", "subs", s.name, Some(s.language), true, true, s.uri)
  }

  lemma MediaAttrsWellFormed(s: Subtitles)
    requires Quotable(s)
    ensures forall i :: 0 <= i < |MediaAttrs(s)| ==> WellFormed(MediaAttrs(s)[i])
  {
    var a := MediaAttrs(s);
    FixedAttrsWellFormed();
    QuotedAttr("NAME", s.name);
    QuotedAttr("LANGUAGE", s.language);
    QuotedAttr("URI", s.uri);
    assert a[2] == Attr("NAME", Quote(s.name)) && a[3] == Attr("LANGUAGE", Quote(s.language));
    assert a[6] == Attr("URI", Quote(s.uri));
  }

  lemma QuotedAttr(name: string, v: string)
    requires name != "" && '=' !in name && '"' !in v
    ensures WellFormed(Attr(name, Quote(v)))
  {
    QuotedOf(v);
  }

  /** The attributes that do not depend on the rendition's fields. */
  lemma FixedAttrsWellFormed()
    ensures WellFormed(TypeAttr) && WellFormed(GroupAttr)
    ensures WellFormed(Attr("DEFAULT", "YES")) && WellFormed(Attr("AUTOSELECT", "YES"))
    ensures '=' !in "NAME" && '=' !in "LANGUAGE" && '=' !in "URI"
  {
    QuotedAttr("GROUP-ID", "subs");
    assert IsToken(TypeAttr.value) && IsToken("YES");
  }

  /** Each attribute the reader looks for is found with the value
      written. */
  lemma MediaLookups(s: Subtitles)
    requires Quotable(s)
    ensures var a := MediaAttrs(s);
      TokenValue(a, "TYPE") == Some("SUBTITLES") && QuotedValue(a, "GROUP-ID") == Some("subs")
      && QuotedValue(a, "NAME") == Some(s.name) && QuotedValue(a, "LANGUAGE") == Some(s.language)
      && TokenValue(a, "DEFAULT") == Some("YES") && TokenValue(a, "AUTOSELECT") == Some("YES")
      && QuotedValue(a, "URI") == Some(s.uri)
  {
    var a := MediaAttrs(s);
    MediaAttrsNamed(s);
    TokenAt(a, 0, "SUBTITLES");
    QuotedAt(a, 1, "subs");
    QuotedAt(a, 2, s.name);
    QuotedAt(a, 3, s.language);
    TokenAt(a, 4, "YES");
    TokenAt(a, 5, "YES");
    QuotedAt(a, 6, s.uri);
  }

  /** The attribute names a rendition line carries, in order. */
  function MediaNames(): seq<string>
  {
    ["TYPE", "GROUP-ID", "NAME", "LANGUAGE", "DEFAULT", "AUTOSELECT", "URI"]
  }

  /** No two of the names are the same. */
  lemma MediaNamesDistinct()
    ensures |MediaNames()| == 7
    ensures forall i, j :: 0 <= j < i < 7 ==> MediaNames()[j] != MediaNames()[i]
  {
    var n := MediaNames();
    assert forall i :: 0 <= i < 7 ==> n[i] != "" && n[i][0] in "TGNLDAU";
    assert n[0][0] == 'T' && n[1][0] == 'G' && n[2][0] == 'N' && n[3][0] == 'L';
    assert n[4][0] == 'D' && n[5][0] == 'A' && n[6][0] == 'U';
  }

  lemma MediaNamesOneLine()
    ensures forall i :: 0 <= i < |MediaNames()| ==> '\n' !in MediaNames()[i]
  {
  }

  lemma MediaAttrsNamed(s: Subtitles)
    ensures NamedAsMedia(MediaAttrs(s))
  {
  }

  /** An attribute list whose names are those of a rendition line. */
  predicate NamedAsMedia(a: seq<Attr>)
  {
    |a| == 7 && forall i :: 0 <= i < 7 ==> a[i].name == MediaNames()[i]
  }

  lemma QuotedAt(a: seq<Attr>, i: nat, v: string)
    requires NamedAsMedia(a) && i < 7 && a[i].value == Quote(v) && '"' !in v
    ensures QuotedValue(a, MediaNames()[i]) == Some(v)
  {
    MediaNamesDistinct();
    LookupAt(a, i, MediaNames()[i]);
    QuotedOf(v);
  }

  lemma TokenAt(a: seq<Attr>, i: nat, v: string)
    requires NamedAsMedia(a) && i < 7 && a[i].value == v && IsToken(v)
    ensures TokenValue(a, MediaNames()[i]) == Some(v)
  {
    MediaNamesDistinct();
    LookupAt(a, i, MediaNames()[i]);
  }

  /** The reader takes back the rendition the writer put in the line. */
  lemma ReadMediaLine(s: Subtitles)
    requires Quotable(s)
    ensures StartsWith(MediaLine(s), MediaTag)
    ensures ReadRendition(MediaLine(s)) == Some(AsRendition(s))
  {
    var l := MediaLine(s);
    assert l[..|MediaTag|] == MediaTag;
    assert l[|MediaTag|..] == RenderAttrs(MediaAttrs(s));
    MediaAttrsWellFormed(s);
    ParseRender(MediaAttrs(s));
    MediaLookups(s);
  }

  /** No line of `lines` is a rendition. */
  predicate NoRendition(lines: seq<string>)
  {
    forall i :: 0 <= i < |lines| ==> !StartsWith(lines[i], MediaTag)
  }

  lemma {:induction false} SkipNoRendition(lines: seq<string>, rest: seq<string>)
    requires NoRendition(lines)
    ensures Renditions(lines + rest) == Renditions(rest)
    decreases |lines|
  {
    if lines == [] {
      assert lines + rest == rest;
    } else {
      assert (lines + rest)[0] == lines[0];
      assert (lines + rest)[1..] == lines[1..] + rest;
      SkipNoRendition(lines[1..], rest);
    }
  }

  lemma NoRenditionConcat(a: seq<string>, b: seq<string>)
    requires NoRendition(a) && NoRendition(b)
    ensures NoRendition(a + b)
  {
    assert forall i :: |a| <= i < |a + b| ==> (a + b)[i] == b[i - |a|];
  }

  lemma VariantNoRendition(v: Variant, subtitles: bool)
    requires IsUriLine(v.uri)
    ensures NoRendition(VariantLines(v, subtitles))
  {
    StreamInfShape(v.bandwidth, subtitles);
    NotMediaTag(StreamInf(v.bandwidth, subtitles));
    NotMediaTag(v.uri);
  }

  lemma {:induction false} SpacedNoRendition(vs: seq<Variant>)
    requires ValidVariants(vs)
    ensures NoRendition(SpacedVariantLines(vs))
    decreases |vs|
  {
    if vs != [] {
      ValidTail(vs);
      SpacedNoRendition(vs[1..]);
      VariantNoRendition(vs[0], true);
      NotMediaTag("");
      NoRenditionConcat([""], VariantLines(vs[0], true));
      NoRenditionConcat([""] + VariantLines(vs[0], true), SpacedVariantLines(vs[1..]));
    }
  }

  lemma {:induction false} PlainNoRendition(vs: seq<Variant>)
    requires ValidVariants(vs)
    ensures NoRendition(PlainVariantLines(vs))
    decreases |vs|
  {
    if vs != [] {
      ValidTail(vs);
      PlainNoRendition(vs[1..]);
      VariantNoRendition(vs[0], false);
      NoRenditionConcat(VariantLines(vs[0], false), PlainVariantLines(vs[1..]));
    }
  }

  lemma PreambleTailNoRendition()
    ensures NoRendition([Version, ""])
  {
    assert Version[..|MediaTag|][7] != MediaTag[7];
    NotMediaTag("");
  }

  /** A master that opens with the preamble has the renditions of the lines
      after it. */
  lemma RenditionsAfterPreamble(rest: seq<string>)
    requires NoNewline(rest)
    ensures ReadRenditions(Render(Preamble + rest)) == Renditions(rest)
  {
    PreambleLines(rest);
    assert [Version] + ([""] + rest) == [Version, ""] + rest;
    PreambleTailNoRendition();
    SkipNoRendition([Version, ""], rest);
  }

  /** Reading the text of a subtitled master gives back its one rendition:
      type, group, name, language, the two flags and the URI written. */
  lemma SubtitledRenditionRoundTrip(sub: Subtitles, vs: seq<Variant>)
    requires Quotable(sub) && ValidVariants(vs)
    ensures ReadRenditions(Render(SubtitledMaster(sub, vs))) == Some([AsRendition(sub)])
  {
    var media := MediaLine(sub);
    var spaced := SpacedVariantLines(vs) + [""];
    assert SubtitledMaster(sub, vs) == Preamble + ([media] + spaced);
    MediaLineOneLine(sub);
    SpacedNoNewline(vs);
    NoNewlineConcat(SpacedVariantLines(vs), [""]);
    NoNewlineConcat([media], spaced);
    RenditionsAfterPreamble([media] + spaced);
    SubtitledRenditionLines(sub, vs);
  }

  /** The lines after the preamble hold the one rendition. */
  lemma SubtitledRenditionLines(sub: Subtitles, vs: seq<Variant>)
    requires Quotable(sub) && ValidVariants(vs)
    ensures Renditions([MediaLine(sub)] + (SpacedVariantLines(vs) + [""])) == Some([AsRendition(sub)])
  {
    ReadMediaLine(sub);
    SpacedNoRendition(vs);
    NotMediaTag("");
    NoRenditionConcat(SpacedVariantLines(vs), [""]);
    OneRendition(MediaLine(sub), SpacedVariantLines(vs) + [""]);
  }

  /** A readable rendition followed by lines that are not renditions. */
  lemma OneRendition(m: string, rest: seq<string>)
    requires StartsWith(m, MediaTag) && ReadRendition(m).Some?
    requires NoRendition(rest)
    ensures Renditions([m] + rest) == Some([ReadRendition(m).value])
  {
    var r := ReadRendition(m).value;
    assert ([m] + rest)[0] == m && ([m] + rest)[1..] == rest;
    SkipNoRendition(rest, []);
    assert rest + [] == rest;
    assert Renditions(rest) == Some([]);
    assert [r] + [] == [r];
  }

  /** A plain master has no rendition. */
  lemma PlainRenditionsRead(vs: seq<Variant>)
    requires ValidVariants(vs)
    ensures ReadRenditions(Render(PlainMaster(vs))) == Some([])
  {
    var plain := PlainVariantLines(vs) + [""];
    assert PlainMaster(vs) == Preamble + plain;
    PlainNoNewline(vs);
    NoNewlineConcat(PlainVariantLines(vs), [""]);
    RenditionsAfterPreamble(plain);
    PlainNoRendition(vs);
    NotMediaTag("");
    NoRenditionConcat(PlainVariantLines(vs), [""]);
    SkipNoRendition(plain, []);
    assert plain + [] == plain;
  }
}
