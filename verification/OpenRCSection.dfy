/**
 Managed sections of /etc/conf.d/tailscale (cmd/vastora/tailscale_openrc.go:18-50).

 `Render` slices strings exactly as the source does. `Locate` finds the parts of a
 file that holds one section, and the theorems follow: rendering again changes
 nothing, bytes outside the section stay, removal undoes insertion on exactly the
 newline-terminated files, and sections of different names do not disturb each other.
 */
module OpenRCSection {
  import opened Prelude

  // ---------------------------------------------------------------- strings

  predicate At(s: string, p: string, i: int) {
    0 <= i && i + |p| <= |s| && s[i..i + |p|] == p
  }

  lemma AtRest(s: string, p: string, k: int, j: int)
    requires 0 <= k <= |s|
    ensures At(s[k..], p, j) <==> j >= 0 && At(s, p, k + j)
  {
  }

  lemma AtFront(s: string, p: string)
    ensures At(s, p, 0) <==> |p| <= |s| && s[..|p|] == p
  {
  }

  /** strings.Index */
  function Index(s: string, p: string): (r: int)
    ensures r >= -1 && (r >= 0 ==> At(s, p, r))
    ensures forall j :: 0 <= j && (r < 0 || j < r) ==> !At(s, p, j)
  {
    AtFront(s, p);
    if |s| < |p| then -1
    else if s[..|p|] == p then 0
    else
      assert s != [];
      var r := Index(s[1..], p);
      assert forall j :: 1 <= j ==> (At(s, p, j) <==> At(s[1..], p, j - 1)) by {
        forall j | 1 <= j ensures At(s, p, j) <==> At(s[1..], p, j - 1) {
          AtRest(s, p, 1, j - 1);
        }
      }
      if r < 0 then -1 else r + 1
  }

  /** strings.Count for a non-empty pattern: occurrences that do not overlap. */
  function Count(s: string, p: string): nat
    requires p != []
    decreases |s|
  {
    var i := Index(s, p);
    if i < 0 then 0 else 1 + Count(s[i + |p|..], p)
  }

  predicate EndsLine(s: string) {
    s == [] || s[|s| - 1] == '\n'
  }

  ghost predicate Free(s: string, p: string) {
    forall i :: !At(s, p, i)
  }

  // ---------------------------------------------------------------- the editor

  function BeginMarker(name: string): string { "# BEGIN VASTORA " + name }

  function EndMarker(name: string): string { "# END VASTORA " + name }

  function Managed(name: string, body: string): string {
    BeginMarker(name) + ['\n'] + body + ['\n'] + EndMarker(name) + ['\n']
  }

  function Render(raw: string, name: string, body: string): Option<string> {
    var begin, end := BeginMarker(name), EndMarker(name);
    if Count(raw, begin) > 1 || Count(raw, end) > 1 then None
    else
      var first, last := Index(raw, begin), Index(raw, end);
      if first >= 0 || last >= 0 then
        if first < 0 || last < first || (first > 0 && raw[first - 1] != '\n') then None
        else
          var tail := last + |end|;
          if tail < |raw| && raw[tail] != '\n' then None
          else
            var rest := if tail < |raw| then raw[tail + 1..] else raw[tail..];
            Some(raw[..first] + (if body == "" then "" else Managed(name, body)) + rest)
      else if body == "" then Some(raw)
      else
        var text := if raw != "" && raw[|raw| - 1] != '\n' then raw + "\n" else raw;
        Some(text + Managed(name, body))
  }

  /** Names the executor uses: one line, no comment sign. */
  predicate Plain(name: string) {
    '\n' !in name && '#' !in name
  }

  /** The body does not itself contain the section's markers. */
  ghost predicate CleanBody(name: string, body: string) {
    Free(body, BeginMarker(name)) && Free(body, EndMarker(name))
  }

  // ---------------------------------------------------------------- occurrences

  /** A pattern that starts with the only '#' it contains and stays on one line. */
  predicate Marker(p: string) {
    p != [] && p[0] == '#' && '\n' !in p && forall k :: 1 <= k < |p| ==> p[k] != '#'
  }

  lemma MarkersAre(name: string)
    requires Plain(name)
    ensures Marker(BeginMarker(name)) && Marker(EndMarker(name))
    ensures |BeginMarker(name)| == 16 + |name| && |EndMarker(name)| == 14 + |name|
    ensures BeginMarker(name)[2] == 'B' && EndMarker(name)[2] == 'E'
  {
  }

  lemma AtChar(s: string, p: string, i: int, k: int)
    requires At(s, p, i) && 0 <= k < |p|
    ensures s[i + k] == p[k]
  {
  }

  lemma SliceOfJoin(a: string, b: string, i: int, j: int)
    requires |a| <= i <= j <= |a| + |b|
    ensures (a + b)[i..j] == b[i - |a|..j - |a|]
  {
  }

  /** One-line patterns do not straddle a line boundary. */
  lemma AtBoundary(a: string, b: string, p: string, i: int)
    requires '\n' !in p && p != [] && EndsLine(a)
    ensures At(a + b, p, i) <==> At(a, p, i) || (i >= |a| && At(b, p, i - |a|))
  {
    var s := a + b;
    if At(s, p, i) && i < |a| && i + |p| > |a| {
      var k := |a| - 1 - i;
      AtChar(s, p, i, k);
      assert false;
    }
    if 0 <= i && i + |p| <= |a| {
      assert s[i..i + |p|] == a[i..i + |p|];
    }
    if i >= |a| && i + |p| <= |s| {
      SliceOfJoin(a, b, i, i + |p|);
    }
  }

  lemma FreeJoin(a: string, b: string, p: string)
    requires '\n' !in p && p != [] && EndsLine(a)
    ensures Free(a + b, p) <==> Free(a, p) && Free(b, p)
  {
    forall i ensures At(a + b, p, i) <==> At(a, p, i) || (i >= |a| && At(b, p, i - |a|)) {
      AtBoundary(a, b, p, i);
    }
    if Free(a + b, p) {
      forall i | At(b, p, i) ensures At(a + b, p, i + |a|) {
        AtBoundary(a, b, p, i + |a|);
      }
    }
  }

  lemma FreeLine(a: string, p: string)
    requires '\n' !in p && p != []
    ensures Free(a + ['\n'], p) <==> Free(a, p)
  {
    var s := a + ['\n'];
    forall i ensures At(s, p, i) <==> At(a, p, i) {
      if At(s, p, i) && i + |p| == |s| {
        AtChar(s, p, i, |p| - 1);
        assert false;
      }
      if 0 <= i && i + |p| <= |a| {
        assert s[i..i + |p|] == a[i..i + |p|];
      }
    }
  }

  /** Two markers that both occur are apart. */
  lemma MarkersApart(s: string, p: string, q: string, i: int, j: int)
    requires Marker(p) && Marker(q) && At(s, p, i) && At(s, q, j) && i < j
    ensures i + |p| <= j
  {
    if j < i + |p| {
      AtChar(s, p, i, j - i);
      AtChar(s, q, j, 0);
      assert false;
    }
  }

  lemma CountOnce(s: string, p: string, i: int)
    requires Marker(p) && At(s, p, i) && forall j :: At(s, p, j) ==> j == i
    ensures Index(s, p) == i && Count(s, p) == 1
  {
    var rest := s[i + |p|..];
    forall j ensures !At(rest, p, j) {
      AtRest(s, p, i + |p|, j);
    }
    CountNone(rest, p);
  }

  lemma CountNone(s: string, p: string)
    requires p != [] && Free(s, p)
    ensures Index(s, p) < 0 && Count(s, p) == 0
  {
  }

  lemma CountTail(s: string, p: string)
    requires p != [] && Count(s, p) <= 1 && Index(s, p) >= 0
    ensures Free(s[Index(s, p) + |p|..], p)
  {
  }

  lemma NotLater(s: string, p: string, i: int, j: int)
    requires Marker(p) && At(s, p, i) && Free(s[i + |p|..], p) && i < j
    ensures !At(s, p, j)
  {
    if At(s, p, j) {
      MarkersApart(s, p, p, i, j);
      AtRest(s, p, i + |p|, j - i - |p|);
      assert false;
    }
  }

  /** At most one occurrence counted means nothing after the first. */
  lemma CountRest(s: string, p: string)
    requires Marker(p) && Count(s, p) <= 1 && Index(s, p) >= 0
    ensures forall j :: At(s, p, j) ==> j == Index(s, p)
  {
    CountTail(s, p);
    hide Count, Marker, Free, At;
    var i := Index(s, p);
    forall j | At(s, p, j) ensures j == i {
      if j > i {
        NotLater(s, p, i, j);
        assert false;
      }
      OnlyAtNaturals(s, p, j);
    }
  }

  lemma OnlyAtNaturals(s: string, p: string, j: int)
    requires At(s, p, j)
    ensures 0 <= j
  {
  }

  // ---------------------------------------------------------------- files with one section

  /** A file around one complete section of this name. */
  ghost predicate Around(name: string, pre: string, post: string) {
    && EndsLine(pre)
    && Free(pre, BeginMarker(name)) && Free(pre, EndMarker(name))
    && Free(post, BeginMarker(name)) && Free(post, EndMarker(name))
  }

  /** Both markers of the section are found, once, exactly where they were written. */
  lemma OnlyAt(pre: string, head: string, p: string, rest: string)
    requires Marker(p) && EndsLine(pre) && EndsLine(head)
    requires Free(pre, p) && Free(head, p) && Free(rest, p)
    ensures var s := pre + (head + (p + ['\n'] + rest));
            Index(s, p) == |pre| + |head| && Count(s, p) == 1
  {
    var line := p + ['\n'];
    var tail := line + rest;
    var s := pre + (head + tail);
    var at := |pre| + |head|;
    hide Index, Count;
    assert s[at..at + |p|] == p;
    forall i | At(s, p, i) ensures i == at {
      AtBoundary(pre, head + tail, p, i);
      AtBoundary(head, tail, p, i - |pre|);
      AtBoundary(line, rest, p, i - at);
    }
    assert tail == p + ['\n'] + rest;
    CountOnce(s, p, at);
  }

  lemma MarkersDiffer(name: string)
    requires Plain(name)
    ensures Free(BeginMarker(name) + ['\n'], EndMarker(name)) && Free(EndMarker(name) + ['\n'], BeginMarker(name))
  {
    var b, e := BeginMarker(name), EndMarker(name);
    MarkersAre(name);
    FreeLine(b, e);
    FreeLine(e, b);
    forall i ensures !At(b, e, i) {
      if At(b, e, i) {
        AtChar(b, e, i, 0);
        AtChar(b, e, i, 2);
        assert false;
      }
    }
    forall i ensures !At(e, b, i) {
      if At(e, b, i) {
        assert false;
      }
    }
  }

  lemma ManagedParts(name: string, pre: string, body: string, post: string)
    ensures var b, e := BeginMarker(name) + ['\n'], EndMarker(name) + ['\n'];
            var s := pre + Managed(name, body) + post;
            && s == pre + ("" + (BeginMarker(name) + ['\n'] + (body + ['\n'] + e + post)))
            && s == pre + ((b + (body + ['\n'])) + (EndMarker(name) + ['\n'] + post))
  {
  }

  lemma Locate(name: string, pre: string, body: string, post: string)
    requires Plain(name) && CleanBody(name, body) && Around(name, pre, post)
    ensures var s := pre + Managed(name, body) + post;
            && Index(s, BeginMarker(name)) == |pre|
            && Index(s, EndMarker(name)) == |pre| + |BeginMarker(name)| + |body| + 2
            && Count(s, BeginMarker(name)) == 1 && Count(s, EndMarker(name)) == 1
  {
    var b, e := BeginMarker(name), EndMarker(name);
    MarkersAre(name);
    MarkersDiffer(name);
    ManagedParts(name, pre, body, post);
    FreeLine(body, b);
    FreeLine(body, e);
    FreeJoin(e + ['\n'], post, b);
    FreeJoin(body + ['\n'], e + ['\n'] + post, b);
    assert body + ['\n'] + (e + ['\n'] + post) == body + ['\n'] + (e + ['\n']) + post;
    OnlyAt(pre, "", b, body + ['\n'] + (e + ['\n']) + post);
    FreeJoin(b + ['\n'], body + ['\n'], e);
    OnlyAt(pre, (b + ['\n']) + (body + ['\n']), e, post);
  }

  /** Rendering a file that holds the section replaces the section and nothing else. */
  lemma RenderReplaces(name: string, pre: string, body: string, post: string, next: string)
    requires Plain(name) && CleanBody(name, body) && Around(name, pre, post)
    ensures Render(pre + Managed(name, body) + post, name, next)
            == Some(pre + (if next == "" then "" else Managed(name, next)) + post)
  {
    var s := pre + Managed(name, body) + post;
    var b, e := BeginMarker(name), EndMarker(name);
    Locate(name, pre, body, post);
    var tail := |pre| + |b| + |body| + 2 + |e|;
    assert |Managed(name, body)| == |b| + |body| + |e| + 3;
    assert s[..|pre|] == pre;
    assert Managed(name, body)[|b| + |body| + 2 + |e|] == '\n';
    assert s[tail] == '\n';
    assert s[tail + 1..] == post;
  }

  /** In an accepted file the two markers occur once each, apart and in order. */
  lemma MarkersInOrder(raw: string, name: string, body: string)
    requires Plain(name) && Render(raw, name, body).Some?
    requires Index(raw, BeginMarker(name)) >= 0 || Index(raw, EndMarker(name)) >= 0
    ensures var first, last := Index(raw, BeginMarker(name)), Index(raw, EndMarker(name));
            && 0 <= first && first + |BeginMarker(name)| <= last
            && At(raw, BeginMarker(name), first) && (forall j :: At(raw, BeginMarker(name), j) ==> j == first)
            && At(raw, EndMarker(name), last) && (forall j :: At(raw, EndMarker(name), j) ==> j == last)
  {
    var b, e := BeginMarker(name), EndMarker(name);
    MarkersAre(name);
    var first, last := Index(raw, b), Index(raw, e);
    if first == last {
      AtChar(raw, b, first, 2);
      AtChar(raw, e, last, 2);
      assert false;
    }
    MarkersApart(raw, b, e, first, last);
    CountRest(raw, b);
    CountRest(raw, e);
  }

  /** Where an accepted file with a section is cut. */
  function Cut(raw: string, name: string): int {
    var last := Index(raw, EndMarker(name));
    if last + |EndMarker(name)| < |raw| then last + |EndMarker(name)| + 1 else last + |EndMarker(name)|
  }

  lemma CutAt(raw: string, name: string, body: string)
    requires Plain(name) && Render(raw, name, body).Some?
    requires Index(raw, BeginMarker(name)) >= 0 || Index(raw, EndMarker(name)) >= 0
    ensures 0 <= Index(raw, BeginMarker(name)) <= Index(raw, EndMarker(name))
    ensures Index(raw, EndMarker(name)) + |EndMarker(name)| <= Cut(raw, name) <= |raw|
    ensures var tail := Index(raw, EndMarker(name)) + |EndMarker(name)|;
            (Cut(raw, name) == |raw| == tail) || (tail < |raw| && Cut(raw, name) == tail + 1 && raw[tail] == '\n')
  {
    hide Managed, BeginMarker, EndMarker;
  }

  lemma Spliced(raw: string, name: string, body: string)
    requires Plain(name) && Render(raw, name, body).Some?
    requires 0 <= Index(raw, BeginMarker(name)) <= Cut(raw, name) <= |raw|
    ensures EndsLine(raw[..Index(raw, BeginMarker(name))])
    ensures Render(raw, name, body) ==
            Some(raw[..Index(raw, BeginMarker(name))] + (if body == "" then "" else Managed(name, body))
                + raw[Cut(raw, name)..])
  {
    hide Managed, BeginMarker, EndMarker;
  }

  /**
   The text is one whole section: it starts with the begin marker, holds each marker once,
   and stops after the end marker at `end` and the newline behind it, which only the end of the file can lack.
   */
  ghost predicate Section(name: string, text: string, end: int, post: string) {
    var b, e := BeginMarker(name), EndMarker(name);
    && At(text, b, 0) && (forall j :: At(text, b, j) ==> j == 0)
    && At(text, e, end) && (forall j :: At(text, e, j) ==> j == end)
    && |b| <= end
    && ((|text| == end + |e| && post == "") || (|text| == end + |e| + 1 && text[end + |e|] == '\n'))
  }

  /** A marker that occurs once in the file occurs once in the part that holds it. */
  lemma PartHolds(raw: string, p: string, lo: int, hi: int, at: int)
    requires p != [] && 0 <= lo <= at && at + |p| <= hi <= |raw|
    requires At(raw, p, at) && forall j :: At(raw, p, j) ==> j == at
    ensures At(raw[lo..hi], p, at - lo)
    ensures forall j :: At(raw[lo..hi], p, j) ==> j == at - lo
  {
    SliceOfSlice(raw, lo, hi, at - lo, at - lo + |p|);
    forall j | At(raw[lo..hi], p, j) ensures j == at - lo {
      SliceOfSlice(raw, lo, hi, j, j + |p|);
      assert At(raw, p, lo + j);
    }
  }

  lemma SectionBetween(raw: string, name: string, first: int, last: int, cut: int)
    requires 0 <= first && first + |BeginMarker(name)| <= last && last + |EndMarker(name)| <= cut <= |raw|
    requires At(raw, BeginMarker(name), first) && forall j :: At(raw, BeginMarker(name), j) ==> j == first
    requires At(raw, EndMarker(name), last) && forall j :: At(raw, EndMarker(name), j) ==> j == last
    requires var tail := last + |EndMarker(name)|; cut == |raw| == tail || (cut == tail + 1 && raw[tail] == '\n')
    ensures Section(name, raw[first..cut], last - first, raw[cut..])
  {
    var b, e := BeginMarker(name), EndMarker(name);
    assert b[0] == e[0] == '#';
    hide BeginMarker, EndMarker, At;
    PartHolds(raw, b, first, cut, first);
    PartHolds(raw, e, first, cut, last);
  }

  lemma FormerSection(raw: string, name: string, body: string)
    requires Plain(name) && Render(raw, name, body).Some?
    requires Index(raw, BeginMarker(name)) >= 0 || Index(raw, EndMarker(name)) >= 0
    ensures var first, last, cut := Index(raw, BeginMarker(name)), Index(raw, EndMarker(name)), Cut(raw, name);
            0 <= first <= last <= cut <= |raw| && Section(name, raw[first..cut], last - first, raw[cut..])
  {
    hide Render, BeginMarker, EndMarker, Index, Cut, Section, At;
    MarkersInOrder(raw, name, body);
    CutAt(raw, name, body);
    SectionBetween(raw, name, Index(raw, BeginMarker(name)), Index(raw, EndMarker(name)), Cut(raw, name));
  }

  lemma FormerAround(raw: string, name: string, body: string)
    requires Plain(name) && Render(raw, name, body).Some?
    requires Index(raw, BeginMarker(name)) >= 0 || Index(raw, EndMarker(name)) >= 0
    ensures var first, cut := Index(raw, BeginMarker(name)), Cut(raw, name);
            0 <= first <= cut <= |raw| && Around(name, raw[..first], raw[cut..])
  {
    hide Render, Managed, BeginMarker, EndMarker, Index, Cut, At, EndsLine, Free;
    var b, e := BeginMarker(name), EndMarker(name);
    MarkersAre(name);
    MarkersInOrder(raw, name, body);
    CutAt(raw, name, body);
    Spliced(raw, name, body);
    OutsideFree(raw, b, Index(raw, b), Index(raw, b), Cut(raw, name));
    OutsideFree(raw, e, Index(raw, e), Index(raw, b), Cut(raw, name));
  }

  /** What an accepted file with a section consists of. */
  lemma Decompose(raw: string, name: string, body: string) returns (pre: string, former: string, end: int, post: string)
    requires Plain(name) && Render(raw, name, body).Some?
    requires Index(raw, BeginMarker(name)) >= 0 || Index(raw, EndMarker(name)) >= 0
    ensures raw == pre + former + post && Around(name, pre, post)
    ensures Section(name, former, end, post)
    ensures Render(raw, name, body) == Some(pre + (if body == "" then "" else Managed(name, body)) + post)
  {
    hide Render, Managed, BeginMarker, EndMarker, Index, Cut, Section, Around, EndsLine;
    FormerSection(raw, name, body);
    FormerAround(raw, name, body);
    Spliced(raw, name, body);
    var first, last, cut := Index(raw, BeginMarker(name)), Index(raw, EndMarker(name)), Cut(raw, name);
    pre, former, end, post := raw[..first], raw[first..cut], last - first, raw[cut..];
    ThreeParts(raw, first, cut);
  }

  lemma ThreeParts(raw: string, i: int, j: int)
    requires 0 <= i <= j <= |raw|
    ensures raw == raw[..i] + raw[i..j] + raw[j..]
    ensures raw[0..i] == raw[..i] && raw[j..|raw|] == raw[j..]
  {
  }

  lemma SliceOfSlice(raw: string, lo: int, hi: int, i: int, j: int)
    requires 0 <= lo <= hi <= |raw| && 0 <= i <= j <= hi - lo
    ensures raw[lo..hi][i..j] == raw[lo + i..lo + j]
  {
    forall k | 0 <= k < j - i ensures raw[lo..hi][i..j][k] == raw[lo + i..lo + j][k] {
      assert raw[lo..hi][i + k] == raw[lo + (i + k)];
    }
  }

  lemma PartFree(raw: string, p: string, lo: int, hi: int, at: int)
    requires p != [] && 0 <= lo <= hi <= |raw|
    requires forall j :: At(raw, p, j) ==> j == at
    requires at < lo || at >= hi
    ensures Free(raw[lo..hi], p)
  {
    forall i ensures !At(raw[lo..hi], p, i) {
      if At(raw[lo..hi], p, i) {
        SliceOfSlice(raw, lo, hi, i, i + |p|);
        assert At(raw, p, lo + i);
        assert false;
      }
    }
  }

  lemma OutsideFree(raw: string, p: string, at: int, first: int, cut: int)
    requires p != [] && 0 <= first <= at < cut <= |raw| && forall j :: At(raw, p, j) ==> j == at
    ensures Free(raw[..first], p) && Free(raw[cut..], p)
  {
    ThreeParts(raw, first, cut);
    hide At, Free;
    PartFree(raw, p, 0, first, at);
    PartFree(raw, p, cut, |raw|, at);
  }

  // ---------------------------------------------------------------- theorems

  lemma DropEmpty(a: string, b: string, c: string)
    ensures a + "" + b + c == a + b + c && (b == c == "" ==> a + b + c == a)
  {
  }

  /** A file without markers only gains text at its end. */
  lemma Appended(raw: string, name: string, body: string)
    requires Render(raw, name, body).Some?
    requires Index(raw, BeginMarker(name)) < 0 && Index(raw, EndMarker(name)) < 0
    ensures Render(raw, name, body).value ==
            raw + (if body != "" && !EndsLine(raw) then "\n" else "")
                + (if body == "" then "" else Managed(name, body)) + ""
  {
  }

  /** Bytes outside the section stay; inside there is exactly the new section (or nothing). */
  lemma OutsideUntouched(raw: string, name: string, body: string)
    returns (pre: string, former: string, end: int, post: string)
    requires Plain(name) && Render(raw, name, body).Some?
    ensures raw == pre + former + post
    ensures Render(raw, name, body).value ==
            pre + (if former == "" && body != "" && !EndsLine(raw) then "\n" else "")
                + (if body == "" then "" else Managed(name, body)) + post
    ensures former == "" || Section(name, former, end, post)
  {
    MarkersAre(name);
    if Index(raw, BeginMarker(name)) >= 0 || Index(raw, EndMarker(name)) >= 0 {
      hide Render, Managed, BeginMarker, EndMarker;
      pre, former, end, post := Decompose(raw, name, body);
      DropEmpty(pre, if body == "" then "" else Managed(name, body), post);
      assert former != "";
    } else {
      Appended(raw, name, body);
      hide Render, Managed, BeginMarker, EndMarker;
      pre, former, end, post := raw, "", 0, "";
      DropEmpty(raw, "", "");
    }
  }

  lemma ReplacedOnce(raw: string, name: string, body: string)
    requires Plain(name) && CleanBody(name, body) && Render(raw, name, body).Some?
    requires Index(raw, BeginMarker(name)) >= 0 || Index(raw, EndMarker(name)) >= 0
    ensures Render(Render(raw, name, body).value, name, body) == Render(raw, name, body)
  {
    var pre, _, _, post := Decompose(raw, name, body);
    RenderedAgain(name, pre, body, post);
  }

  lemma RenderedAgain(name: string, pre: string, body: string, post: string)
    requires Plain(name) && CleanBody(name, body) && Around(name, pre, post)
    ensures var s := pre + (if body == "" then "" else Managed(name, body)) + post;
            Render(s, name, body) == Some(s)
  {
    if body == "" {
      NothingToRemove(name, pre, post);
      assert pre + "" + post == pre + post;
    } else {
      RenderReplaces(name, pre, body, post, body);
    }
  }

  lemma AppendedOnce(raw: string, name: string, body: string)
    requires Plain(name) && CleanBody(name, body) && body != ""
    requires Index(raw, BeginMarker(name)) < 0 && Index(raw, EndMarker(name)) < 0
    ensures Render(raw, name, body) == Some(WithNewline(raw) + Managed(name, body))
    ensures Render(Render(raw, name, body).value, name, body) == Render(raw, name, body)
  {
    MarkersAre(name);
    var text := WithNewline(raw);
    FreeNewline(raw, name);
    assert text + Managed(name, body) == text + Managed(name, body) + "";
    RenderReplaces(name, text, body, "", body);
  }

  /** Rendering the same section twice is rendering it once. */
  lemma RenderIdempotent(raw: string, name: string, body: string)
    requires Plain(name) && CleanBody(name, body) && Render(raw, name, body).Some?
    ensures Render(Render(raw, name, body).value, name, body) == Render(raw, name, body)
  {
    if Index(raw, BeginMarker(name)) >= 0 || Index(raw, EndMarker(name)) >= 0 {
      ReplacedOnce(raw, name, body);
    } else if body != "" {
      AppendedOnce(raw, name, body);
    }
  }

  function WithNewline(raw: string): string {
    if raw != "" && raw[|raw| - 1] != '\n' then raw + "\n" else raw
  }

  lemma FreeNewline(raw: string, name: string)
    requires Plain(name) && Index(raw, BeginMarker(name)) < 0 && Index(raw, EndMarker(name)) < 0
    ensures Around(name, WithNewline(raw), "")
  {
    MarkersAre(name);
    forall p | p == BeginMarker(name) || p == EndMarker(name) ensures Free(WithNewline(raw), p) && Free("", p) {
      forall i ensures !At(raw, p, i) {
      }
      FreeLine(raw, p);
      assert raw + "\n" == raw + ['\n'];
    }
  }

  lemma NothingToRemove(name: string, pre: string, post: string)
    requires Plain(name) && Around(name, pre, post)
    ensures Render(pre + post, name, "") == Some(pre + post)
  {
    MarkersAre(name);
    FreeJoin(pre, post, BeginMarker(name));
    FreeJoin(pre, post, EndMarker(name));
    CountNone(pre + post, BeginMarker(name));
    CountNone(pre + post, EndMarker(name));
  }

  /** Removing what was inserted gives the file back, with the final newline it may have lacked. */
  lemma RemoveAfterInsert(raw: string, name: string, body: string)
    requires Plain(name) && CleanBody(name, body) && body != ""
    requires Index(raw, BeginMarker(name)) < 0 && Index(raw, EndMarker(name)) < 0
    ensures Render(raw, name, body).Some?
    ensures Render(Render(raw, name, body).value, name, "") == Some(WithNewline(raw))
    ensures Render(Render(raw, name, body).value, name, "") == Some(raw) <==> EndsLine(raw)
  {
    MarkersAre(name);
    var text := WithNewline(raw);
    CountNone(raw, BeginMarker(name));
    CountNone(raw, EndMarker(name));
    FreeNewline(raw, name);
    assert text + Managed(name, body) == text + Managed(name, body) + "";
    RenderReplaces(name, text, body, "", "");
    assert text + "" + "" == text;
  }

  // ---------------------------------------------------------------- several sections

  /** Text of a section in which no marker of `name` can be found. */
  ghost predicate Foreign(name: string, text: string) {
    EndsLine(text) && Free(text, BeginMarker(name)) && Free(text, EndMarker(name))
  }

  lemma MarkersOfOthers(a: string, b: string, k: nat)
    requires Plain(a) && Plain(b) && k < |a| && k < |b| && a[k] != b[k]
    ensures Free(BeginMarker(b), BeginMarker(a)) && Free(BeginMarker(b), EndMarker(a))
    ensures Free(EndMarker(b), BeginMarker(a)) && Free(EndMarker(b), EndMarker(a))
  {
    MarkersAre(a);
    MarkersAre(b);
    forall i ensures !At(BeginMarker(b), BeginMarker(a), i) && !At(BeginMarker(b), EndMarker(a), i) {
      if At(BeginMarker(b), BeginMarker(a), i) {
        AtChar(BeginMarker(b), BeginMarker(a), i, 0);
        AtChar(BeginMarker(b), BeginMarker(a), i, 16 + k);
        assert false;
      }
      if At(BeginMarker(b), EndMarker(a), i) {
        AtChar(BeginMarker(b), EndMarker(a), i, 0);
        AtChar(BeginMarker(b), EndMarker(a), i, 2);
        assert false;
      }
    }
    forall i ensures !At(EndMarker(b), BeginMarker(a), i) && !At(EndMarker(b), EndMarker(a), i) {
      if At(EndMarker(b), BeginMarker(a), i) {
        AtChar(EndMarker(b), BeginMarker(a), i, 0);
        AtChar(EndMarker(b), BeginMarker(a), i, 2);
        assert false;
      }
      if At(EndMarker(b), EndMarker(a), i) {
        AtChar(EndMarker(b), EndMarker(a), i, 0);
        AtChar(EndMarker(b), EndMarker(a), i, 14 + k);
        assert false;
      }
    }
  }

  lemma NoCommentSign(body: string, p: string)
    requires Marker(p) && '#' !in body
    ensures Free(body, p)
  {
  }

  /** Names that differ at some position and bodies without comments never collide. */
  lemma SectionsAreForeign(a: string, b: string, k: nat, body: string)
    requires Plain(a) && Plain(b) && k < |a| && k < |b| && a[k] != b[k] && '#' !in body
    ensures Foreign(a, Managed(b, body)) && CleanBody(a, body)
  {
    MarkersAre(a);
    MarkersOfOthers(a, b, k);
    FreeManaged(b, body, BeginMarker(a));
    FreeManaged(b, body, EndMarker(a));
  }

  lemma FreeManaged(b: string, body: string, p: string)
    requires Marker(p) && '#' !in body && Plain(b) && Free(BeginMarker(b), p) && Free(EndMarker(b), p)
    ensures Free(Managed(b, body), p) && Free(body, p)
  {
    NoCommentSign(body, p);
    FreeLine(BeginMarker(b), p);
    FreeLine(body, p);
    FreeLine(EndMarker(b), p);
    var head, middle, end := BeginMarker(b) + ['\n'], body + ['\n'], EndMarker(b) + ['\n'];
    FreeJoin(middle, end, p);
    FreeJoin(head, middle + end, p);
    assert Managed(b, body) == head + (middle + end);
  }

  lemma AppendSection(raw: string, name: string, body: string)
    requires Plain(name) && CleanBody(name, body) && body != "" && Foreign(name, raw)
    ensures Render(raw, name, body) == Some(raw + Managed(name, body))
    ensures Render(raw + Managed(name, body), name, "") == Some(raw)
  {
    AppendedOnce(raw, name, body);
    FreeEmpty(name);
    RenderReplaces(name, raw, body, "", "");
    assert raw + Managed(name, body) + "" == raw + Managed(name, body);
    assert raw + "" + "" == raw;
  }

  lemma SectionBefore(raw: string, name: string, body: string, other: string, next: string)
    requires Plain(name) && CleanBody(name, body) && body != "" && Foreign(name, raw) && Foreign(name, other)
    requires next == body || next == ""
    ensures Render(raw + Managed(name, body) + other, name, next) ==
            Some(if next == "" then raw + other else raw + Managed(name, body) + other)
  {
    hide Render;
    RenderReplaces(name, raw, body, other, next);
    assert raw + "" + other == raw + other;
  }

  lemma ForeignJoin(name: string, x: string, y: string)
    requires Plain(name) && Foreign(name, x) && Foreign(name, y)
    ensures Foreign(name, x + y)
  {
    MarkersAre(name);
    FreeJoin(x, y, BeginMarker(name));
    FreeJoin(x, y, EndMarker(name));
  }

  /** Two sections in one file: each can be rendered again or removed as if the other were ordinary text. */
  lemma SectionsIndependent(raw: string, a: string, bodyA: string, b: string, bodyB: string)
    requires Plain(a) && Plain(b) && bodyA != "" && bodyB != ""
    requires CleanBody(a, bodyA) && CleanBody(b, bodyB)
    requires Foreign(a, raw) && Foreign(b, raw) && Foreign(a, Managed(b, bodyB)) && Foreign(b, Managed(a, bodyA))
    ensures Render(raw, a, bodyA) == Some(raw + Managed(a, bodyA))
    ensures Render(raw + Managed(a, bodyA), b, bodyB) == Some(raw + Managed(a, bodyA) + Managed(b, bodyB))
    ensures Render(raw + Managed(a, bodyA) + Managed(b, bodyB), a, bodyA) ==
              Some(raw + Managed(a, bodyA) + Managed(b, bodyB))
    ensures Render(raw + Managed(a, bodyA) + Managed(b, bodyB), b, "") == Some(raw + Managed(a, bodyA))
    ensures Render(raw + Managed(a, bodyA) + Managed(b, bodyB), a, "") == Some(raw + Managed(b, bodyB))
  {
    AppendSection(raw, a, bodyA);
    ForeignJoin(b, raw, Managed(a, bodyA));
    AppendSection(raw + Managed(a, bodyA), b, bodyB);
    SectionBefore(raw, a, bodyA, Managed(b, bodyB), bodyA);
    SectionBefore(raw, a, bodyA, Managed(b, bodyB), "");
  }

  lemma FreeEmpty(name: string)
    requires Plain(name)
    ensures Free("", BeginMarker(name)) && Free("", EndMarker(name))
  {
  }
}
