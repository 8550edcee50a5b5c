/** The file-name slug of `main.py`: non-ASCII characters are dropped, then
    everything that is neither a word character, whitespace nor `-`; the rest
    is stripped and lower-cased, and every run of `-` and whitespace becomes
    one `-`. */
module Slug {
  import opened Text

  /** Python's `\w` once only ASCII is left. */
  predicate IsWordChar(c: char)
  {
    IsAsciiUpper(c) || IsAsciiLower(c) || IsDigit(c) || c == '_'
  }

  /** What the second filter keeps: `\w`, `\s` and `-`. */
  predicate IsKept(c: char)
  {
    IsWordChar(c) || IsSpace(c) || c == '-'
  }

  /** What the last step collapses: `[-\s]`. */
  predicate IsSep(c: char)
  {
    c == '-' || IsSpace(c)
  }

  /** The characters a slug is made of. */
  predicate IsSlugChar(c: char)
  {
    IsAsciiLower(c) || IsDigit(c) || c == '_' || c == '-'
  }

  predicate NoDoubleDash(s: string)
  {
    forall i :: 0 <= i < |s| - 1 ==> !(s[i] == '-' && s[i + 1] == '-')
  }

  /** The shape of every slug: lower-case letters, digits, `_` and `-`, with
      no two dashes in a row. */
  predicate IsSlug(s: string)
  {
    (forall i :: 0 <= i < |s| ==> IsSlugChar(s[i])) && NoDoubleDash(s)
  }

  /** The characters that outlive the filters and the strip. */
  predicate Survives(c: char)
  {
    IsWordChar(c) || c == '-'
  }

  /** The rest of `s` after its leading separators. */
  function DropSeps(s: string): (r: string)
    ensures |r| <= |s| && r == s[|s| - |r|..]
    ensures r == [] || !IsSep(r[0])
    decreases |s|
  {
    if s != [] && IsSep(s[0]) then DropSeps(s[1..]) else s
  }

  /** `re.sub(r'[-\s]+', '-', s)`. */
  function Collapse(s: string): (r: string)
    ensures |r| <= |s|
    ensures s == [] <==> r == []
    ensures s != [] ==> r[0] == (if IsSep(s[0]) then '-' else s[0])
    decreases |s|
  {
    if s == [] then []
    else if IsSep(s[0]) then "-" + Collapse(DropSeps(s[1..]))
    else [s[0]] + Collapse(s[1..])
  }

  lemma InSuffix(s: string, k: nat, x: char)
    requires k <= |s| && x in s[k..]
    ensures x in s
  {
    var j :| 0 <= j < |s[k..]| && s[k..][j] == x;
    assert s[k + j] == x;
  }

  /** What collapsing leaves: dashes, and characters of the input that are
      not separators; never two dashes in a row. */
  lemma {:induction false} CollapseShape(s: string)
    ensures forall i :: 0 <= i < |Collapse(s)| ==>
      Collapse(s)[i] == '-' || (Collapse(s)[i] in s && !IsSep(Collapse(s)[i]))
    ensures NoDoubleDash(Collapse(s))
    decreases |s|
  {
    if s != [] {
      var r := Collapse(s);
      var k := if IsSep(s[0]) then |s| - |DropSeps(s[1..])| else 1;
      var t := s[k..];
      assert IsSep(s[0]) ==> t == DropSeps(s[1..]);
      var c := Collapse(t);
      CollapseShape(t);
      assert r == [r[0]] + c;
      forall i | 0 <= i < |r| ensures r[i] == '-' || (r[i] in s && !IsSep(r[i])) {
        if i > 0 && r[i] != '-' {
          assert r[i] == c[i - 1];
          InSuffix(s, k, r[i]);
        }
      }
      assert |c| > 0 && r[0] == '-' ==> c[0] != '-';
    }
  }

  /** Text with no whitespace and no double dash is left as it is. */
  lemma {:induction false} CollapseIdentity(s: string)
    requires forall i :: 0 <= i < |s| ==> !IsSpace(s[i])
    requires NoDoubleDash(s)
    ensures Collapse(s) == s
    decreases |s|
  {
    if s != [] {
      var t := s[1..];
      assert forall i :: 0 <= i < |t| ==> t[i] == s[i + 1];
      if IsSep(s[0]) {
        assert t != [] ==> !IsSep(t[0]);
        assert DropSeps(t) == t;
      }
      CollapseIdentity(t);
    }
  }

  /** The result of the two character filters. */
  function Filtered(v: string): (r: string)
    ensures forall c :: c in r <==> c in v && IsAscii(c) && IsKept(c)
  {
    Keep(Keep(v, IsAscii), IsKept)
  }

  /** `slugify`. */
  function Slugify(v: string): (r: string)
    ensures IsSlug(r)
  {
    if v == "" then ""
    else
      var f := Filtered(v);
      var s := Strip(f);
      var l := Lower(s);
      StripContents(f);
      forall i | 0 <= i < |l| ensures IsSlugChar(l[i]) || IsSpace(l[i]) {
        assert s[i] in f;
      }
      CollapseShape(l);
      Collapse(l)
  }

  lemma FilteredAllSpace(v: string)
    ensures AllSpace(Filtered(v)) <==> forall i :: 0 <= i < |v| ==> !Survives(v[i])
  {
    var f := Filtered(v);
    if forall i :: 0 <= i < |v| ==> !Survives(v[i]) {
      forall k | 0 <= k < |f| ensures IsSpace(f[k]) {
        assert f[k] in v;
      }
    } else {
      var i :| 0 <= i < |v| && Survives(v[i]);
      assert v[i] in f;
      var k :| 0 <= k < |f| && f[k] == v[i];
      assert !IsSpace(f[k]);
    }
  }

  /** The slug is empty exactly when nothing in the value outlives the
      filters: no ASCII letter, digit, `_` or `-`. */
  lemma SlugifyEmpty(v: string)
    ensures Slugify(v) == "" <==> forall i :: 0 <= i < |v| ==> !Survives(v[i])
  {
    if v != "" {
      var f := Filtered(v);
      assert Slugify(v) == Collapse(Lower(Strip(f)));
      StripContents(f);
      FilteredAllSpace(v);
    }
  }

  /** A non-ASCII character is dropped, not transliterated: removing it
      beforehand changes nothing. */
  lemma SlugifyDropsNonAscii(a: string, c: char, b: string)
    requires !IsAscii(c)
    ensures Slugify(a + [c] + b) == Slugify(a + b)
  {
    KeepConcat(a + [c], b, IsAscii);
    KeepConcat(a, [c], IsAscii);
    KeepConcat(a, b, IsAscii);
    assert Keep([c], IsAscii) == [];
    assert Keep(a + [c], IsAscii) == Keep(a, IsAscii);
    assert Filtered(a + [c] + b) == Filtered(a + b);
    if a + b == "" {
      assert Filtered([c]) == [];
      assert a + [c] + b == [c];
    }
  }

  /** A slug is its own slug. */
  lemma SlugifyOfSlug(v: string)
    requires IsSlug(v)
    ensures Slugify(v) == v
  {
    if v != "" {
      forall i | 0 <= i < |v|
        ensures IsAscii(v[i]) && IsKept(v[i]) && !IsSpace(v[i]) && !IsAsciiUpper(v[i])
      {
        assert IsSlugChar(v[i]);
      }
      assert Keep(v, IsAscii) == v;
      assert Filtered(v) == v;
      StripNoSpace(v);
      LowerNoUpper(v);
      CollapseIdentity(v);
      assert Slugify(v) == Collapse(Lower(Strip(Filtered(v))));
    }
  }

  /** The values `Slugify` leaves unchanged are exactly the slugs. */
  lemma SlugifyFixpoint(v: string)
    ensures Slugify(v) == v <==> IsSlug(v)
  {
    if IsSlug(v) {
      SlugifyOfSlug(v);
    }
  }

  /** Slugifying twice gives what slugifying once gave. */
  lemma SlugifyIdempotent(v: string)
    ensures Slugify(Slugify(v)) == Slugify(v)
  {
    SlugifyOfSlug(Slugify(v));
  }
}
