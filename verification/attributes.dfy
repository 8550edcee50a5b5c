/** Attribute lists of HLS tags (section 4.2 of RFC 8216): comma-separated
    `NAME=value` pairs, where a value is either a quoted string, which holds
    no `"` and no line break, or an unquoted token, which holds no comma and
    does not open with `"`. */
module Attributes {
  import opened Wrappers
  import opened Text

  /** One attribute, its value as written (quotes included). */
  datatype Attr = Attr(name: string, value: string)

  function Quote(s: string): string
  {
    "\"" + s + "\""
  }

  predicate IsQuoted(v: string)
  {
    |v| >= 2 && v[0] == '"' && v[|v| - 1] == '"' && '"' !in v[1..|v| - 1]
  }

  /** An unquoted value: a non-empty token without commas or a leading
      quote. */
  predicate IsToken(v: string)
  {
    v != "" && v[0] != '"' && ',' !in v
  }

  /** An attribute a reader can take back: a name without `=` and a value of
      one of the two kinds. */
  predicate WellFormed(a: Attr)
  {
    a.name != "" && '=' !in a.name && (IsQuoted(a.value) || IsToken(a.value))
  }

  // -------------------------------------------------------------- writing

  function AttrText(a: Attr): string
  {
    a.name + "=" + a.value
  }

  /** The attributes joined by commas. */
  function RenderAttrs(attrs: seq<Attr>): string
    decreases |attrs|
  {
    if |attrs| == 0 then ""
    else if |attrs| == 1 then AttrText(attrs[0])
    else AttrText(attrs[0]) + "," + RenderAttrs(attrs[1..])
  }

  // -------------------------------------------------------------- reading

  /** The value at the start of `s` and what follows it: a quoted string up
      to its closing quote, or a token up to the next comma. */
  function ReadValue(s: string): (r: Option<(string, string)>)
    ensures r.Some? ==> r.value.0 != "" && r.value.0 + r.value.1 == s
  {
    if s != "" && s[0] == '"' then
      var j := IndexOf(s[1..], '"');
      if j == |s| - 1 then None
      else
        assert s[..j + 2] + s[j + 2..] == s;
        Some((s[..j + 2], s[j + 2..]))
    else
      var j := IndexOf(s, ',');
      if j == 0 then None
      else
        assert s[..j] + s[j..] == s;
        Some((s[..j], s[j..]))
  }

  /** Reads an attribute list: a name up to `=`, a value, then either the
      end or a comma and more attributes. Anything else is unreadable. */
  function ParseAttrs(s: string): Option<seq<Attr>>
    decreases |s|
  {
    var i := IndexOf(s, '=');
    if i == 0 || i == |s| then None
    else
      match ReadValue(s[i + 1..])
      case None => None
      case Some(p) =>
        var after := p.1;
        if after == "" then Some([Attr(s[..i], p.0)])
        else if after[0] != ',' then None
        else
          match ParseAttrs(after[1..])
          case None => None
          case Some(rest) => Some([Attr(s[..i], p.0)] + rest)
  }

  /** The value of the first attribute called `name`, as written. */
  function Lookup(attrs: seq<Attr>, name: string): (r: Option<string>)
    ensures r.Some? ==> exists i :: 0 <= i < |attrs| && attrs[i] == Attr(name, r.value)
    ensures r.None? ==> forall i :: 0 <= i < |attrs| ==> attrs[i].name != name
    decreases |attrs|
  {
    if attrs == [] then None
    else if attrs[0].name == name then Some(attrs[0].value)
    else
      var r := Lookup(attrs[1..], name);
      assert r.Some? ==> exists i :: 0 <= i < |attrs| && attrs[i] == Attr(name, r.value) by {
        if r.Some? {
          var i :| 0 <= i < |attrs[1..]| && attrs[1..][i] == Attr(name, r.value);
          assert attrs[i + 1] == Attr(name, r.value);
        }
      }
      r
  }

  /** The text of a quoted-string attribute, without its quotes. */
  function QuotedValue(attrs: seq<Attr>, name: string): (r: Option<string>)
    ensures r.Some? ==> Lookup(attrs, name) == Some(Quote(r.value))
  {
    match Lookup(attrs, name)
    case Some(v) =>
      if IsQuoted(v) then
        assert v == Quote(v[1..|v| - 1]);
        Some(v[1..|v| - 1])
      else None
    case None => None
  }

  /** The value of an enumerated-string attribute. */
  function TokenValue(attrs: seq<Attr>, name: string): (r: Option<string>)
    ensures r.Some? ==> Lookup(attrs, name) == r && IsToken(r.value)
  {
    match Lookup(attrs, name)
    case Some(v) => if IsToken(v) then Some(v) else None
    case None => None
  }

  /** The lookup finds the attribute at `i` when no earlier one has its
      name. */
  lemma {:induction false} LookupAt(attrs: seq<Attr>, i: nat, name: string)
    requires i < |attrs| && attrs[i].name == name
    requires forall j :: 0 <= j < i ==> attrs[j].name != name
    ensures Lookup(attrs, name) == Some(attrs[i].value)
    decreases i
  {
    if i > 0 {
      LookupAt(attrs[1..], i - 1, name);
    }
  }

  // ---------------------------------------------------------- round trip

  lemma QuotedOf(s: string)
    requires '"' !in s
    ensures IsQuoted(Quote(s)) && Quote(s)[1..|Quote(s)| - 1] == s
  {
    var q := Quote(s);
    assert q[1..|q| - 1] == s;
  }

  /** A value followed by the end or by a comma reads as itself. */
  lemma ReadValueOf(v: string, tail: string)
    requires IsQuoted(v) || IsToken(v)
    requires tail == "" || tail[0] == ','
    ensures ReadValue(v + tail) == Some((v, tail))
  {
    var s := v + tail;
    if IsQuoted(v) {
      var body := v[1..|v| - 1];
      assert s[1..] == body + ['"'] + tail;
      IndexOfPrefix(body, '"', tail);
      assert s[..|v|] == v;
      assert s[|v|..] == tail;
    } else if tail == "" {
      assert s == v;
      assert IndexOf(s, ',') == |s|;
      assert s[..|s|] == s;
    } else {
      assert s == v + [','] + tail[1..];
      IndexOfPrefix(v, ',', tail[1..]);
      assert s[..|v|] == v;
      assert s[|v|..] == tail;
    }
  }

  /** One attribute followed by the end or by a comma and more text. */
  lemma ParseStep(a: Attr, tail: string)
    requires WellFormed(a)
    requires tail == "" || tail[0] == ','
    ensures ParseAttrs(AttrText(a) + tail)
         == if tail == "" then Some([a])
            else match ParseAttrs(tail[1..])
              case None => None
              case Some(rest) => Some([a] + rest)
  {
    var s := AttrText(a) + tail;
    assert s == a.name + ['='] + (a.value + tail);
    IndexOfPrefix(a.name, '=', a.value + tail);
    assert s[..|a.name|] == a.name;
    assert s[|a.name| + 1..] == a.value + tail;
    ReadValueOf(a.value, tail);
  }

  /** Reading what was written gives back the attributes, in order. */
  lemma {:induction false} ParseRender(attrs: seq<Attr>)
    requires attrs != []
    requires forall i :: 0 <= i < |attrs| ==> WellFormed(attrs[i])
    ensures ParseAttrs(RenderAttrs(attrs)) == Some(attrs)
    decreases |attrs|
  {
    if |attrs| == 1 {
      ParseLast(attrs[0]);
      assert attrs == [attrs[0]];
    } else {
      ParseRender(attrs[1..]);
      ParseFirst(attrs[0], attrs[1..]);
      assert attrs == [attrs[0]] + attrs[1..];
    }
  }

  lemma ParseLast(a: Attr)
    requires WellFormed(a)
    ensures ParseAttrs(RenderAttrs([a])) == Some([a])
  {
    ParseStep(a, "");
    assert AttrText(a) + "" == AttrText(a);
  }

  /** An attribute in front of a list that reads back. */
  lemma ParseFirst(a: Attr, rest: seq<Attr>)
    requires WellFormed(a) && rest != []
    requires ParseAttrs(RenderAttrs(rest)) == Some(rest)
    ensures ParseAttrs(RenderAttrs([a] + rest)) == Some([a] + rest)
  {
    var tail := "," + RenderAttrs(rest);
    assert ([a] + rest)[0] == a && ([a] + rest)[1..] == rest;
    assert RenderAttrs([a] + rest) == AttrText(a) + tail;
    ParseStep(a, tail);
    assert tail[1..] == RenderAttrs(rest);
  }

  /** A rendered list is one line when its parts are. */
  lemma {:induction false} RenderOneLine(attrs: seq<Attr>)
    requires forall i :: 0 <= i < |attrs| ==> '\n' !in attrs[i].name && '\n' !in attrs[i].value
    ensures '\n' !in RenderAttrs(attrs)
    decreases |attrs|
  {
    if |attrs| > 1 {
      RenderOneLine(attrs[1..]);
    }
  }
}
