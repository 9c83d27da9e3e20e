/** The text of `pathlib` paths, as the agent builds them: `str(Path(s))`
    and `str(Path(a, b))`. A PosixPath splits at `/`, a WindowsPath at `/`
    and `\`; both drop empty and `.` components, so a trailing separator
    disappears, and write the components back with their own separator. */
module Paths {

  /** The separator `str()` writes: a backslash for a WindowsPath, a slash
      for a PosixPath. */
  function Sep(windows: bool): char {
    if windows then '\\' else '/'
  }

  /** The characters a path's text is split at. */
  predicate IsSep(windows: bool, c: char) {
    c == '/' || (windows && c == '\\')
  }

  predicate NoSep(windows: bool, s: string) {
    forall k :: 0 <= k < |s| ==> !IsSep(windows, s[k])
  }

  /** The index of the first separator in `s`, or `|s|` when there is none. */
  function FirstSep(windows: bool, s: string): (i: nat)
    ensures i <= |s| && NoSep(windows, s[..i])
    ensures i < |s| ==> IsSep(windows, s[i])
  {
    if s == [] || IsSep(windows, s[0]) then 0
    else
      var i := 1 + FirstSep(windows, s[1..]);
      assert s[..i] == [s[0]] + s[1..][..i - 1];
      i
  }

  /** The text between separators, empty pieces included. */
  function Segments(windows: bool, s: string): seq<string>
    decreases |s|
  {
    var i := FirstSep(windows, s);
    if i == |s| then [s] else [s[..i]] + Segments(windows, s[i + 1..])
  }

  /** A component `str()` keeps: non-empty, not `.`, without separators. */
  predicate Component(windows: bool, c: string) {
    c != "" && c != "." && NoSep(windows, c)
  }

  predicate Components(windows: bool, parts: seq<string>) {
    forall k :: 0 <= k < |parts| ==> Component(windows, parts[k])
  }

  /** The pieces that are components. */
  function Clean(pieces: seq<string>): seq<string> {
    if pieces == [] then []
    else if pieces[0] == "" || pieces[0] == "." then Clean(pieces[1..])
    else [pieces[0]] + Clean(pieces[1..])
  }

  /** The components of `s`, in order. */
  function Parts(windows: bool, s: string): seq<string> {
    Clean(Segments(windows, s))
  }

  /** The root `s` starts with: none for a relative path; on POSIX exactly
      two leading slashes are kept and more become one. */
  function Anchor(windows: bool, s: string): string {
    if s == [] || !IsSep(windows, s[0]) then ""
    else if windows then "\\"
    else if |s| >= 2 && s[1] == '/' && (|s| == 2 || s[2] != '/') then "//"
    else "/"
  }

  function Join(parts: seq<string>, sep: char): string {
    if parts == [] then ""
    else if |parts| == 1 then parts[0]
    else parts[0] + [sep] + Join(parts[1..], sep)
  }

  /** The text of a path with this root and these components; a path with
      neither is `.`. */
  function Render(windows: bool, anchor: string, parts: seq<string>): string {
    if anchor == "" && parts == [] then "." else anchor + Join(parts, Sep(windows))
  }

  /** `str(Path(s))` */
  function PathOf(windows: bool, s: string): string {
    Render(windows, Anchor(windows, s), Parts(windows, s))
  }

  /** `str(Path(a, b))`: a rooted `b` replaces `a`, otherwise the components
      of `b` follow those of `a`. */
  function JoinPath(windows: bool, a: string, b: string): string {
    if Anchor(windows, b) != "" then PathOf(windows, b)
    else Render(windows, Anchor(windows, a), Parts(windows, a) + Parts(windows, b))
  }

  // ---------------------------------------------------------------------
  // Lemmas

  lemma {:induction false} CleanKeepsComponents(windows: bool, pieces: seq<string>)
    requires forall k :: 0 <= k < |pieces| ==> NoSep(windows, pieces[k])
    ensures Components(windows, Clean(pieces))
  {
    if pieces != [] {
      CleanKeepsComponents(windows, pieces[1..]);
    }
  }

  /** No piece holds a separator. */
  lemma {:induction false} SegmentsHaveNoSep(windows: bool, s: string)
    ensures forall k :: 0 <= k < |Segments(windows, s)| ==> NoSep(windows, Segments(windows, s)[k])
    decreases |s|
  {
    var i := FirstSep(windows, s);
    if i < |s| {
      var r, rest := Segments(windows, s), Segments(windows, s[i + 1..]);
      SegmentsHaveNoSep(windows, s[i + 1..]);
      assert r == [s[..i]] + rest;
      forall k | 0 <= k < |r| ensures NoSep(windows, r[k]) {
        if k > 0 {
          assert r[k] == rest[k - 1];
        } else {
          assert r[k] == s[..i];
        }
      }
    } else {
      assert s[..i] == s;
      assert Segments(windows, s) == [s];
    }
  }

  /** Every part is a component. */
  lemma PartsAreComponents(windows: bool, s: string)
    ensures Components(windows, Parts(windows, s))
  {
    SegmentsHaveNoSep(windows, s);
    CleanKeepsComponents(windows, Segments(windows, s));
  }

  lemma {:induction false} CleanOfComponents(windows: bool, parts: seq<string>)
    requires Components(windows, parts)
    ensures Clean(parts) == parts
  {
    if parts != [] {
      CleanOfComponents(windows, parts[1..]);
    }
  }

  lemma {:induction false} FirstSepAfter(windows: bool, c: string, t: string)
    requires NoSep(windows, c)
    ensures FirstSep(windows, c + [Sep(windows)] + t) == |c|
  {
    var s := c + [Sep(windows)] + t;
    if c != [] {
      assert s[0] == c[0] && s[1..] == c[1..] + [Sep(windows)] + t;
      FirstSepAfter(windows, c[1..], t);
    }
  }

  lemma FirstSepNone(windows: bool, c: string)
    requires NoSep(windows, c)
    ensures FirstSep(windows, c) == |c|
  {
  }

  /** Splitting joined components gives them back. */
  lemma {:induction false} SegmentsOfJoin(windows: bool, parts: seq<string>)
    requires parts != [] && Components(windows, parts)
    ensures Segments(windows, Join(parts, Sep(windows))) == parts
  {
    if |parts| == 1 {
      FirstSepNone(windows, parts[0]);
    } else {
      var rest := Join(parts[1..], Sep(windows));
      var s := parts[0] + [Sep(windows)] + rest;
      FirstSepAfter(windows, parts[0], rest);
      assert s[..|parts[0]|] == parts[0];
      assert s[|parts[0]| + 1..] == rest;
      SegmentsOfJoin(windows, parts[1..]);
    }
  }

  /** A leading separator splits off an empty piece. */
  lemma SegmentsAfterSep(windows: bool, t: string)
    ensures Segments(windows, [Sep(windows)] + t) == [""] + Segments(windows, t)
  {
    var s := [Sep(windows)] + t;
    assert FirstSep(windows, s) == 0;
    assert s[1..] == t;
  }

  lemma PartsOfJoin(windows: bool, parts: seq<string>)
    requires Components(windows, parts)
    ensures Parts(windows, Join(parts, Sep(windows))) == parts
  {
    if parts == [] {
      assert Segments(windows, "") == [""];
      assert [""][1..] == [];
    } else {
      SegmentsOfJoin(windows, parts);
      CleanOfComponents(windows, parts);
    }
  }

  lemma JoinStarts(parts: seq<string>, sep: char)
    requires parts != [] && parts[0] != ""
    ensures var j := Join(parts, sep); |j| > 0 && j[0] == parts[0][0]
  {
  }

  /** Clean drops the empty pieces a root splits off. */
  lemma CleanAfterEmpty(pieces: seq<string>)
    ensures Clean([""] + pieces) == Clean(pieces)
  {
    assert ([""] + pieces)[1..] == pieces;
  }

  lemma RootedReadsBack(windows: bool, parts: seq<string>)
    requires Components(windows, parts)
    ensures var text := [Sep(windows)] + Join(parts, Sep(windows));
      Parts(windows, text) == parts
      && (parts != [] ==> text[1] == parts[0][0])
  {
    var body := Join(parts, Sep(windows));
    PartsOfJoin(windows, parts);
    SegmentsAfterSep(windows, body);
    CleanAfterEmpty(Segments(windows, body));
    if parts != [] {
      JoinStarts(parts, Sep(windows));
    }
  }

  lemma DoubleRootedReadsBack(parts: seq<string>)
    requires Components(false, parts)
    ensures var text := "//" + Join(parts, '/');
      Parts(false, text) == parts
      && (parts != [] ==> text[2] == parts[0][0])
  {
    var body := Join(parts, '/');
    RootedReadsBack(false, parts);
    assert "//" + body == ['/'] + (['/'] + body);
    SegmentsAfterSep(false, ['/'] + body);
    CleanAfterEmpty(Segments(false, ['/'] + body));
    if parts != [] {
      JoinStarts(parts, '/');
    }
  }

  /** A rendered path splits back into its root and its components. */
  lemma RenderReadsBack(windows: bool, anchor: string, parts: seq<string>)
    requires anchor == Anchor(windows, anchor) && Components(windows, parts)
    ensures Anchor(windows, Render(windows, anchor, parts)) == anchor
    ensures Parts(windows, Render(windows, anchor, parts)) == parts
  {
    var text := Render(windows, anchor, parts);
    if anchor == "" && parts == [] {
      assert Segments(windows, ".") == ["."];
      assert ["."][1..] == [];
    } else if anchor == "" {
      PartsOfJoin(windows, parts);
      JoinStarts(parts, Sep(windows));
      assert text == Join(parts, Sep(windows));
    } else if anchor == "//" {
      DoubleRootedReadsBack(parts);
    } else {
      assert anchor == [Sep(windows)];
      RootedReadsBack(windows, parts);
    }
  }

  lemma AnchorIsAnchor(windows: bool, s: string)
    ensures Anchor(windows, Anchor(windows, s)) == Anchor(windows, s)
  {
  }

  /** `Path(str(p))` is `p`: the text of a path is already normal. */
  lemma PathOfIdempotent(windows: bool, s: string)
    ensures PathOf(windows, PathOf(windows, s)) == PathOf(windows, s)
  {
    AnchorIsAnchor(windows, s);
    PartsAreComponents(windows, s);
    RenderReadsBack(windows, Anchor(windows, s), Parts(windows, s));
  }

  /** The components of a join: those of `a`, then those of a relative `b`. */
  lemma JoinParts(windows: bool, a: string, b: string)
    requires Anchor(windows, b) == ""
    ensures Anchor(windows, JoinPath(windows, a, b)) == Anchor(windows, a)
    ensures Parts(windows, JoinPath(windows, a, b)) == Parts(windows, a) + Parts(windows, b)
  {
    AnchorIsAnchor(windows, a);
    PartsAreComponents(windows, a);
    PartsAreComponents(windows, b);
    RenderReadsBack(windows, Anchor(windows, a), Parts(windows, a) + Parts(windows, b));
  }

  lemma {:induction false} JoinSnoc(parts: seq<string>, c: string, sep: char)
    requires parts != []
    ensures Join(parts + [c], sep) == Join(parts, sep) + [sep] + c
  {
    if |parts| == 1 {
      assert (parts + [c])[1..] == [c];
    } else {
      assert (parts + [c])[1..] == parts[1..] + [c];
      JoinSnoc(parts[1..], c, sep);
    }
  }

  /** Joining one component adds the separator only where the text of `a`
      does not already end in its root: `Path('/usr/share/', 'x')` is
      `/usr/share/x`, `Path('/', 'x')` is `/x` and `Path('', 'x')` is `x`. */
  lemma JoinComponent(windows: bool, a: string, c: string)
    requires Component(windows, c)
    ensures JoinPath(windows, a, c) ==
      if Parts(windows, a) == [] then Anchor(windows, a) + c
      else PathOf(windows, a) + [Sep(windows)] + c
  {
    FirstSepNone(windows, c);
    assert Segments(windows, c) == [c];
    assert [c][1..] == [];
    assert Clean([c]) == [c] + Clean([]);
    assert Parts(windows, c) == [c];
    assert Anchor(windows, c) == "";
    if Parts(windows, a) != [] {
      JoinSnoc(Parts(windows, a), c, Sep(windows));
    }
  }

  /** The text of a path ends in a separator only when it is a bare root. */
  lemma NoTrailingSeparator(windows: bool, s: string)
    requires Parts(windows, s) != []
    ensures var p := PathOf(windows, s); |p| > 0 && !IsSep(windows, p[|p| - 1])
  {
    var parts := Parts(windows, s);
    PartsAreComponents(windows, s);
    JoinEnds(parts, Sep(windows));
    var last := parts[|parts| - 1];
    assert Component(windows, last);
  }

  lemma {:induction false} FirstSepPrefix(windows: bool, t: string, u: string)
    requires FirstSep(windows, t) < |t|
    ensures FirstSep(windows, t + u) == FirstSep(windows, t)
  {
    if !IsSep(windows, t[0]) {
      assert (t + u)[1..] == t[1..] + u;
      FirstSepPrefix(windows, t[1..], u);
    }
  }

  lemma {:induction false} FirstSepAt(windows: bool, t: string, c: char)
    requires NoSep(windows, t) && IsSep(windows, c)
    ensures FirstSep(windows, t + [c]) == |t|
  {
    if t != [] {
      assert (t + [c])[1..] == t[1..] + [c];
      FirstSepAt(windows, t[1..], c);
    }
  }

  /** Splitting at the first separator. */
  lemma SegmentsAtFirstSep(windows: bool, s: string, j: nat)
    requires j == FirstSep(windows, s) && j < |s|
    ensures Segments(windows, s) == [s[..j]] + Segments(windows, s[j + 1..])
  {
  }

  /** A trailing separator splits off one more, empty, piece. */
  lemma {:induction false} SegmentsOfTrailingSep(windows: bool, t: string, c: char)
    requires IsSep(windows, c)
    ensures Segments(windows, t + [c]) == Segments(windows, t) + [""]
    decreases |t|
  {
    var s := t + [c];
    var j := FirstSep(windows, t);
    if j < |t| {
      calc {
        Segments(windows, s);
      == { FirstSepPrefix(windows, t, [c]); SegmentsAtFirstSep(windows, s, j); }
        [s[..j]] + Segments(windows, s[j + 1..]);
      == { assert s[..j] == t[..j]; assert s[j + 1..] == t[j + 1..] + [c]; }
        [t[..j]] + Segments(windows, t[j + 1..] + [c]);
      == { SegmentsOfTrailingSep(windows, t[j + 1..], c); }
        [t[..j]] + (Segments(windows, t[j + 1..]) + [""]);
      == { SegmentsAtFirstSep(windows, t, j); }
        Segments(windows, t) + [""];
      }
    } else {
      calc {
        Segments(windows, s);
      == { FirstSepAt(windows, t, c); SegmentsAtFirstSep(windows, s, |t|); }
        [s[..|t|]] + Segments(windows, s[|t| + 1..]);
      == { assert s[..|t|] == t; assert s[|t| + 1..] == []; }
        [t] + Segments(windows, []);
      == { assert Segments(windows, []) == [""]; assert t[..j] == t; }
        Segments(windows, t) + [""];
      }
    }
  }

  lemma {:induction false} CleanDropsTrailingEmpty(pieces: seq<string>)
    ensures Clean(pieces + [""]) == Clean(pieces)
  {
    if pieces == [] {
      assert [""][1..] == [];
    } else {
      assert (pieces + [""])[1..] == pieces[1..] + [""];
      CleanDropsTrailingEmpty(pieces[1..]);
    }
  }

  /** `Path('a/')` is `Path('a')`: a separator after the last component
      changes neither the root nor the components, so neither the text nor
      any join. */
  lemma TrailingSeparatorDropped(windows: bool, t: string, c: char)
    requires IsSep(windows, c) && |t| > 0 && !IsSep(windows, t[|t| - 1])
    ensures Anchor(windows, t + [c]) == Anchor(windows, t)
    ensures Parts(windows, t + [c]) == Parts(windows, t)
    ensures PathOf(windows, t + [c]) == PathOf(windows, t)
    ensures forall b :: JoinPath(windows, t + [c], b) == JoinPath(windows, t, b)
  {
    SegmentsOfTrailingSep(windows, t, c);
    CleanDropsTrailingEmpty(Segments(windows, t));
  }

  lemma {:induction false} JoinEnds(parts: seq<string>, sep: char)
    requires parts != [] && parts[|parts| - 1] != ""
    ensures var j := Join(parts, sep); |j| > 0 && j[|j| - 1] == parts[|parts| - 1][|parts[|parts| - 1]| - 1]
  {
    if |parts| > 1 {
      JoinEnds(parts[1..], sep);
    }
  }
}
