/**
 * The part of URL handling that `compile_flow` relies on: parsing an
 * absolute URL of the form `scheme ":" ["//" authority] path ["?" query]
 * ["#" fragment]` into its components, writing it back out, and resolving a
 * single relative path segment against it (the target takes the base's
 * scheme and authority; its path is the base path up to and including its
 * last "/", followed by the segment; the base's query and fragment are
 * dropped).  The `url` crate implements the WHATWG URL Standard, which
 * accepts and normalises far more texts than `Parse` reads.  The resolution
 * here is the path merge of section 5.2.3 of RFC 3986 for one segment; the
 * removal of dot segments that section 5.2.2 then applies (and the crate
 * performs) is not modelled.
 */
module Urls {
  import opened Wrappers

  /** An absolute URL, split into the components of section 3 of RFC 3986. */
  datatype Url = Url(scheme: string, authority: Option<string>, path: string,
                     query: Option<string>, fragment: Option<string>)

  /** The index of the first `c` in `s`, or `|s|` when there is none. */
  function IndexOf(s: string, c: char): (i: nat)
    ensures i <= |s|
    ensures i < |s| ==> s[i] == c
    ensures c !in s[..i]
  {
    if s == [] then 0
    else if s[0] == c then 0
    else
      var j := IndexOf(s[1..], c);
      assert s[..1 + j] == [s[0]] + s[1..][..j];
      1 + j
  }

  lemma {:induction false} IndexOfAppend(a: string, b: string, c: char)
    requires c !in a
    ensures IndexOf(a + b, c) == |a| + IndexOf(b, c)
  {
    if a != [] {
      assert (a + b)[1..] == a[1..] + b;
      IndexOfAppend(a[1..], b, c);
    } else {
      assert a + b == b;
    }
  }

  predicate IsAlpha(c: char)
  {
    'a' <= c <= 'z' || 'A' <= c <= 'Z'
  }

  predicate IsSchemeChar(c: char)
  {
    IsAlpha(c) || '0' <= c <= '9' || c == '+' || c == '-' || c == '.'
  }

  /** `scheme = ALPHA *( ALPHA / DIGIT / "+" / "-" / "." )`. */
  predicate IsScheme(s: string)
  {
    |s| > 0 && IsAlpha(s[0]) && forall i :: 0 <= i < |s| ==> IsSchemeChar(s[i])
  }

  lemma SchemeHasNoDelimiter(s: string)
    requires IsScheme(s)
    ensures ':' !in s && '/' !in s && '?' !in s && '#' !in s
  {
    forall i | 0 <= i < |s| ensures s[i] != ':' && s[i] != '/' && s[i] != '?' && s[i] != '#' {
      assert IsSchemeChar(s[i]);
    }
  }

  /** The components a parse can produce, and so the ones that write out unambiguously. */
  predicate WellFormed(u: Url)
  {
    IsScheme(u.scheme) &&
    '?' !in u.path && '#' !in u.path &&
    (u.authority.Some? ==>
      '/' !in u.authority.value && '?' !in u.authority.value && '#' !in u.authority.value &&
      (u.path == [] || u.path[0] == '/')) &&
    (u.authority.None? ==> !(|u.path| >= 2 && u.path[0] == '/' && u.path[1] == '/')) &&
    (u.query.Some? ==> '#' !in u.query.value)
  }

  /** What follows a delimiter `c` when a component is present: `c` and the component. */
  function Tail(c: char, o: Option<string>): string
  {
    if o.Some? then [c] + o.value else ""
  }

  /** The text before the first `c`, and the component after it, if any. */
  function CutAt(s: string, c: char): (r: (string, Option<string>))
  {
    var i := IndexOf(s, c);
    (s[..i], if i < |s| then Some(s[i + 1..]) else None)
  }

  lemma CutAtTail(x: string, c: char, o: Option<string>)
    requires c !in x
    ensures CutAt(x + Tail(c, o), c) == (x, o)
  {
    var s := x + Tail(c, o);
    IndexOfAppend(x, Tail(c, o), c);
    assert s[..|x|] == x;
    if o.Some? {
      assert s[|x| + 1..] == o.value;
    }
  }

  lemma TailCutAt(s: string, c: char)
    ensures c !in CutAt(s, c).0 && s == CutAt(s, c).0 + Tail(c, CutAt(s, c).1)
  {
    var i := IndexOf(s, c);
    if i < |s| {
      assert s == s[..i] + [c] + s[i + 1..];
    }
  }

  /** The scheme, authority and path of the text before any query or fragment. */
  function ParseHier(h: string): (r: Option<Url>)
  {
    var c := IndexOf(h, ':');
    if c == |h| || !IsScheme(h[..c]) then None
    else
      var rest := h[c + 1..];
      if |rest| >= 2 && rest[0] == '/' && rest[1] == '/' then
        var hp := rest[2..];
        var a := IndexOf(hp, '/');
        Some(Url(h[..c], Some(hp[..a]), hp[a..], None, None))
      else
        Some(Url(h[..c], None, rest, None, None))
  }

  /**
   * `Url::parse`: the fragment follows the first "#", the query the first
   * "?" before it, the scheme ends at the first ":", and a "//" after it
   * starts an authority that runs to the next "/".  No scheme: no URL.
   */
  function Parse(s: string): (r: Option<Url>)
    // a text with no ":" has no scheme and is no URL
    ensures ':' !in s ==> r.None?
    // a URL has a valid scheme, and a fragment exactly when the text holds a "#"
    ensures r.Some? ==> IsScheme(r.value.scheme)
    ensures r.Some? ==> (r.value.fragment.Some? <==> '#' in s)
  {
    var (t, fragment) := CutAt(s, '#');
    var (h, query) := CutAt(t, '?');
    match ParseHier(h)
    case None => None
    case Some(u) => Some(u.(query := query, fragment := fragment))
  }

  function AuthorityText(a: Option<string>): string
  {
    if a.Some? then "//" + a.value else ""
  }

  function HierText(u: Url): string
  {
    u.scheme + (":" + (AuthorityText(u.authority) + u.path))
  }

  /** `Url::to_string`. */
  function Serialize(u: Url): (r: string)
    // the text begins with the scheme and a ":"
    ensures |r| > |u.scheme| && r[..|u.scheme|] == u.scheme && r[|u.scheme|] == ':'
    // and it ends with "#" and the fragment, when there is one
    ensures u.fragment.Some? ==> |r| > |u.fragment.value| && r[|r| - |u.fragment.value| - 1..] == "#" + u.fragment.value
  {
    HierText(u) + Tail('?', u.query) + Tail('#', u.fragment)
  }

  /** The scheme is what comes before the first ":" of a hierarchical part. */
  lemma SchemePrefix(scheme: string, rest: string)
    requires IsScheme(scheme)
    ensures var h := scheme + (":" + rest);
      IndexOf(h, ':') == |scheme| && h[..|scheme|] == scheme && h[|scheme| + 1..] == rest
  {
    SchemeHasNoDelimiter(scheme);
    IndexOfAppend(scheme, ":" + rest, ':');
  }

  /** The authority is what runs from "//" to the next "/". */
  lemma AuthorityPrefix(a: string, path: string)
    requires '/' !in a && (path == [] || path[0] == '/')
    ensures var hp := ("//" + a + path)[2..];
      hp[..IndexOf(hp, '/')] == a && hp[IndexOf(hp, '/')..] == path
  {
    var hp := ("//" + a + path)[2..];
    assert hp == a + path;
    IndexOfAppend(a, path, '/');
  }

  lemma ParseHierText(u: Url)
    requires WellFormed(u)
    ensures ParseHier(HierText(u)) == Some(u.(query := None, fragment := None))
  {
    var rest := AuthorityText(u.authority) + u.path;
    assert HierText(u) == u.scheme + (":" + rest);
    SchemePrefix(u.scheme, rest);
    if u.authority.Some? {
      assert rest == "//" + u.authority.value + u.path;
      assert rest[0] == '/' && rest[1] == '/';
      AuthorityPrefix(u.authority.value, u.path);
    } else {
      assert rest == u.path;
    }
  }

  /** Writing a well-formed URL out and parsing it again gives it back. */
  lemma ParseSerialize(u: Url)
    requires WellFormed(u)
    ensures Parse(Serialize(u)) == Some(u)
  {
    var h := HierText(u);
    var x := h + Tail('?', u.query);
    HierTextDelimiters(u);
    assert '#' !in Tail('?', u.query);
    assert '#' !in x;
    CutAtTail(x, '#', u.fragment);
    CutAtTail(h, '?', u.query);
    ParseHierText(u);
  }

  /** The hierarchical part of a well-formed URL has neither a "?" nor a "#". */
  lemma HierTextDelimiters(u: Url)
    requires WellFormed(u)
    ensures '?' !in HierText(u) && '#' !in HierText(u)
  {
    SchemeHasNoDelimiter(u.scheme);
    var a := AuthorityText(u.authority);
    assert '?' !in a && '#' !in a;
    assert HierText(u) == u.scheme + (":" + (a + u.path));
  }

  /** A text is what comes before a delimiter, the delimiter, and what follows it. */
  lemma AroundDelimiter(s: string, i: nat)
    requires i < |s|
    ensures s == s[..i] + ([s[i]] + s[i + 1..])
  {
    assert s[..i] + ([s[i]] + s[i + 1..]) == s[..i] + [s[i]] + s[i + 1..];
  }

  /** A hierarchical part with an authority is "//", the authority and the path. */
  lemma AroundAuthority(rest: string)
    requires |rest| >= 2 && rest[0] == '/' && rest[1] == '/'
    ensures var hp := rest[2..]; var a := IndexOf(hp, '/');
      rest == ("//" + hp[..a]) + hp[a..]
  {
    var hp := rest[2..];
    var a := IndexOf(hp, '/');
    assert rest[..2] == "//";
    assert rest == "//" + hp;
    assert hp == hp[..a] + hp[a..];
    assert "//" + (hp[..a] + hp[a..]) == ("//" + hp[..a]) + hp[a..];
  }

  lemma HierTextParseHier(h: string)
    requires ParseHier(h).Some?
    ensures var u := ParseHier(h).value;
      HierText(u) == h && u.query == None && u.fragment == None
  {
    var c := IndexOf(h, ':');
    var u := ParseHier(h).value;
    var rest := h[c + 1..];
    assert u.scheme == h[..c];
    if |rest| >= 2 && rest[0] == '/' && rest[1] == '/' {
      AroundAuthority(rest);
      assert AuthorityText(u.authority) + u.path == rest;
    } else {
      assert AuthorityText(u.authority) + u.path == rest;
    }
    AroundDelimiter(h, c);
    assert [h[c]] == ":";
  }

  /** Every successful parse is of a well-formed URL that writes out as the text parsed. */
  lemma SerializeParse(s: string)
    requires Parse(s).Some?
    ensures WellFormed(Parse(s).value) && Serialize(Parse(s).value) == s
  {
    var (t, fragment) := CutAt(s, '#');
    var (h, query) := CutAt(t, '?');
    TailCutAt(s, '#');
    TailCutAt(t, '?');
    HierTextParseHier(h);
    var u := ParseHier(h).value;
    assert '#' !in h && '?' !in h;
    assert h == u.scheme + (":" + (AuthorityText(u.authority) + u.path));
    if u.authority.Some? {
      assert '/' !in u.authority.value;
    }
  }

  /** The base path up to and including its last "/" (empty when it has none). */
  function DirectoryOf(path: string): (r: string)
    ensures |r| <= |path| && r == path[..|r|]
    ensures r == [] || r[|r| - 1] == '/'
    ensures '/' !in path[|r|..]
  {
    if path == [] then []
    else if path[|path| - 1] == '/' then path
    else
      var r := DirectoryOf(path[..|path| - 1]);
      assert path[|r|..] == path[..|path| - 1][|r|..] + [path[|path| - 1]];
      r
  }

  lemma {:induction false} DirectoryOfAppend(d: string, seg: string)
    requires d == [] || d[|d| - 1] == '/'
    requires '/' !in seg
    ensures DirectoryOf(d + seg) == d
    decreases |seg|
  {
    if seg == [] {
      assert d + seg == d;
    } else {
      var shorter := seg[..|seg| - 1];
      assert (d + seg)[..|d + seg| - 1] == d + shorter;
      DirectoryOfAppend(d, shorter);
    }
  }

  /** A single path segment: no delimiters, not a dot segment. */
  predicate IsSegment(seg: string)
  {
    seg != [] && seg != "." && seg != ".." &&
    '/' !in seg && '?' !in seg && '#' !in seg && ':' !in seg
  }

  /** "Merge Paths", section 5.2.3 of RFC 3986. */
  function Merge(base: Url, seg: string): (r: string)
    // the segment goes last
    ensures |r| >= |seg| && r[|r| - |seg|..] == seg
    // after "/" when the base has an authority and an empty path, else after the base path's directory
    ensures base.authority.Some? && base.path == [] ==> r[..|r| - |seg|] == "/"
    ensures !(base.authority.Some? && base.path == []) ==> r[..|r| - |seg|] == DirectoryOf(base.path)
    // and when the segment holds no "/", that is also the merged path's directory
    ensures '/' !in seg ==> DirectoryOf(r) == r[..|r| - |seg|]
  {
    var d := if base.authority.Some? && base.path == [] then "/" else DirectoryOf(base.path);
    assert (d + seg)[..|d|] == d;
    if '/' in seg then d + seg
    else
      DirectoryOfAppend(d, seg);
      d + seg
  }

  /**
   * A base that has no authority and whose path does not begin with "/"
   * (a `mailto:` or `data:` URL) cannot have a relative reference resolved
   * against it.
   */
  predicate CanBeBase(u: Url)
  {
    u.authority.Some? || (u.path != [] && u.path[0] == '/')
  }

  /** The URL a single-segment reference resolves to against `b`. */
  function Resolved(b: Url, seg: string): Url
  {
    Url(b.scheme, b.authority, Merge(b, seg), None, None)
  }

  /** `base.join(seg)` for a reference that is a single path segment. */
  function JoinSegment(base: string, seg: string): (r: Option<string>)
    requires IsSegment(seg)
    // it fails exactly when the base does not parse or cannot be a base
    ensures r.Some? <==> Parse(base).Some? && CanBeBase(Parse(base).value)
    // the target keeps the scheme and authority, merges the path and has no query or fragment
    ensures r.Some? ==> Parse(r.value) == Some(Resolved(Parse(base).value, seg))
  {
    match Parse(base)
    case None => None
    case Some(b) =>
      if !CanBeBase(b) then None
      else
        SerializeParse(base);
        MergeWellFormed(b, seg);
        ParseSerialize(Resolved(b, seg));
        Some(Serialize(Resolved(b, seg)))
  }

  /** Joining against a URL written out from its components merges its path. */
  lemma JoinSerialized(u: Url, seg: string)
    requires WellFormed(u) && CanBeBase(u) && IsSegment(seg)
    ensures JoinSegment(Serialize(u), seg) == Some(Serialize(Resolved(u, seg)))
  {
    ParseSerialize(u);
  }

  lemma MergeWellFormed(b: Url, seg: string)
    requires WellFormed(b) && CanBeBase(b) && IsSegment(seg)
    ensures WellFormed(Resolved(b, seg))
  {
    var d := DirectoryOf(b.path);
    if !(b.authority.Some? && b.path == []) {
      assert d != [] && d[0] == '/';
      assert (d + seg)[0] == '/';
      if |d| == 1 {
        assert (d + seg)[1] == seg[0];
        assert seg[0] in seg;
      } else {
        assert (d + seg)[1] == b.path[1];
      }
    }
  }

  /** The path that a join leaves ends with the segment, after a "/". */
  lemma JoinEndsWithSegment(base: string, seg: string)
    requires IsSegment(seg) && JoinSegment(base, seg).Some?
    ensures var p := Parse(JoinSegment(base, seg).value).value.path;
      |p| > |seg| && p[|p| - |seg| - 1] == '/' && p[|p| - |seg|..] == seg
  {
    var b := Parse(base).value;
    assert Parse(JoinSegment(base, seg).value).value.path == Merge(b, seg);
    SerializeParse(base);
    MergeEndsWithSegment(b, seg);
  }

  lemma MergeEndsWithSegment(b: Url, seg: string)
    requires WellFormed(b) && CanBeBase(b)
    ensures var p := Merge(b, seg);
      |p| > |seg| && p[|p| - |seg| - 1] == '/' && p[|p| - |seg|..] == seg
  {
    var d := if b.authority.Some? && b.path == [] then "/" else DirectoryOf(b.path);
    assert Merge(b, seg) == d + seg;
    if !(b.authority.Some? && b.path == []) {
      assert d != [];
    }
    assert (d + seg)[|d| - 1] == '/';
    assert (d + seg)[|d|..] == seg;
  }

  /** A resolved URL can be a base again, and resolving the segment against it merges to the same path. */
  lemma ResolvedTwice(b: Url, seg: string)
    requires WellFormed(b) && CanBeBase(b) && IsSegment(seg)
    ensures CanBeBase(Resolved(b, seg)) && Merge(Resolved(b, seg), seg) == Merge(b, seg)
  {
    var d := if b.authority.Some? && b.path == [] then "/" else DirectoryOf(b.path);
    assert Merge(b, seg) == d + seg;
    if !(b.authority.Some? && b.path == []) {
      assert d != [];
    }
    DirectoryOfAppend(d, seg);
  }

  /** Joining the same segment a second time changes nothing. */
  lemma JoinSegmentIdempotent(base: string, seg: string)
    requires IsSegment(seg) && JoinSegment(base, seg).Some?
    ensures JoinSegment(JoinSegment(base, seg).value, seg) == JoinSegment(base, seg)
  {
    var b := Parse(base).value;
    var t := Resolved(b, seg);
    assert JoinSegment(base, seg) == Some(Serialize(t));
    SerializeParse(base);
    MergeWellFormed(b, seg);
    ResolvedTwice(b, seg);
    assert Resolved(t, seg) == t;
    JoinSerialized(t, seg);
  }
}
