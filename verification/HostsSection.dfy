/**
 The managed section of /etc/hosts (cmd/vastora/tailscale_privacy.go:398-434).

 The reconcilers compare the rewritten text with the file and act on a difference,
 so a rewrite that is not a fixpoint of itself means reconfiguring for ever.
 `SecondRewrite` computes exactly what a further rewrite does, `Idempotent` says for
 which files the first rewrite is already final, and `RewriteShrinks` that the
 others still settle.
 */
module HostsSection {
  import opened Prelude

  // ---------------------------------------------------------------- text

  /** strings.ReplaceAll(text, "\r\n", "\n") */
  function Normalize(text: string): string {
    if |text| < 2 then text
    else if text[0] == '\r' && text[1] == '\n' then ['\n'] + Normalize(text[2..])
    else [text[0]] + Normalize(text[1..])
  }

  predicate OneLine(line: string) {
    '\n' !in line
  }

  predicate Lines(lines: seq<string>) {
    forall i :: 0 <= i < |lines| ==> OneLine(lines[i])
  }

  /** strings.Split(text, "\n") */
  function Split(text: string): (lines: seq<string>)
    ensures lines != [] && Lines(lines)
  {
    if text == [] then [""]
    else if text[0] == '\n' then [""] + Split(text[1..])
    else
      var rest := Split(text[1..]);
      [[text[0]] + rest[0]] + rest[1..]
  }

  /** Every line followed by a newline: strings.Join(lines, "\n") + "\n" when there are lines. */
  function Unlines(lines: seq<string>): string {
    if lines == [] then [] else lines[0] + ['\n'] + Unlines(lines[1..])
  }

  /** unicode.IsSpace */
  predicate IsSpace(c: char) {
    || '\t' <= c <= '\r' || c == ' ' || c == '\U{85}' || c == '\U{A0}' || c == '\U{1680}'
    || '\U{2000}' <= c <= '\U{200A}' || c == '\U{2028}' || c == '\U{2029}' || c == '\U{202F}' || c == '\U{205F}'
    || c == '\U{3000}'
  }

  function TrimLeft(line: string): string {
    if line != [] && IsSpace(line[0]) then TrimLeft(line[1..]) else line
  }

  function TrimRight(line: string): string {
    if line != [] && IsSpace(line[|line| - 1]) then TrimRight(line[..|line| - 1]) else line
  }

  /** strings.TrimSpace */
  function Trim(line: string): string {
    TrimLeft(TrimRight(line))
  }

  const BEGIN_MARKER := "# BEGIN VASTORA TAILSCALE CONTROL"
  const END_MARKER := "# END VASTORA TAILSCALE CONTROL"

  datatype Kind = Begin | End | Plain

  function KindOf(line: string): Kind {
    if Trim(line) == BEGIN_MARKER then Begin else if Trim(line) == END_MARKER then End else Plain
  }

  predicate Blank(line: string) {
    Trim(line) == []
  }

  // ---------------------------------------------------------------- the rewrite

  /** The lines outside complete sections, or nothing when the markers do not pair up. */
  function Scan(lines: seq<string>, inside: bool): Option<seq<string>> {
    if lines == [] then (if inside then None else Some([]))
    else
      match KindOf(lines[0])
      case Begin => if inside then None else Scan(lines[1..], true)
      case End => if inside then Scan(lines[1..], false) else None
      case Plain =>
        var rest := Scan(lines[1..], inside);
        if rest.None? || inside then rest else Some([lines[0]] + rest.value)
  }

  function StripBlank(lines: seq<string>): seq<string> {
    if lines != [] && Blank(lines[|lines| - 1]) then StripBlank(lines[..|lines| - 1]) else lines
  }

  function Spaced(words: seq<string>): string {
    if words == [] then [] else if |words| == 1 then words[0] else words[0] + [' '] + Spaced(words[1..])
  }

  function Entries(hostnames: seq<string>, addresses: seq<string>): seq<string> {
    seq(|addresses|, i requires 0 <= i < |addresses| => addresses[i] + [' '] + Spaced(hostnames))
  }

  function Section(hostnames: seq<string>, addresses: seq<string>): seq<string> {
    if addresses == [] then [] else [BEGIN_MARKER] + Entries(hostnames, addresses) + [END_MARKER]
  }

  /** What survives of the administrator's file. */
  function Kept(text: string): Option<seq<string>> {
    var scanned := Scan(Split(Normalize(text)), false);
    if scanned.None? then None else Some(StripBlank(scanned.value))
  }

  function Render(lines: seq<string>): string {
    if lines == [] then "\n" else Unlines(lines)
  }

  function Rewrite(text: string, hostnames: seq<string>, addresses: seq<string>): Option<string> {
    var kept := Kept(text);
    if kept.None? then None else Some(Render(kept.value + Section(hostnames, addresses)))
  }

  /** Addresses and hostnames that cannot be mistaken for text structure. */
  ghost predicate Clean(hostnames: seq<string>, addresses: seq<string>) {
    forall i :: 0 <= i < |addresses| ==>
        OneLine(Entries(hostnames, addresses)[i]) && KindOf(Entries(hostnames, addresses)[i]) == Plain
  }

  // ---------------------------------------------------------------- carriage returns

  predicate EndsWithCR(line: string) {
    line != [] && line[|line| - 1] == '\r'
  }

  function Chop(line: string): string {
    if EndsWithCR(line) then line[..|line| - 1] else line
  }

  function ChopAll(lines: seq<string>): seq<string> {
    seq(|lines|, i requires 0 <= i < |lines| => Chop(lines[i]))
  }

  lemma ChopKeepsTrim(line: string)
    ensures Trim(Chop(line)) == Trim(line)
  {
  }

  lemma NormalizeKeeps(c: char, text: string)
    requires c != '\r' || text == [] || text[0] != '\n'
    ensures Normalize([c] + text) == [c] + Normalize(text)
  {
  }

  lemma NormalizeDrops(text: string)
    ensures Normalize(['\r', '\n'] + text) == ['\n'] + Normalize(text)
  {
  }

  lemma ChopStep(line: string)
    requires |line| > 1 || (|line| == 1 && line[0] != '\r')
    ensures Chop(line) == [line[0]] + Chop(line[1..])
    ensures Chop(line)[1..] == Chop(line[1..])
  {
  }

  lemma ConsLine(line: string, c: char, shorter: string, rest: string)
    requires line != [] && c == line[0] && shorter == line[1..]
    ensures line == [c] + shorter && line + ['\n'] + rest == [c] + (shorter + ['\n'] + rest)
  {
  }

  /** Only a carriage return right at the end of the line can meet a newline. */
  lemma InnerChar(line: string, rest: string)
    requires OneLine(line) && line != [] && line != ['\r']
    ensures line[0] != '\r' || (line[1..] + ['\n'] + rest)[0] != '\n'
  {
  }

  lemma OneLineTail(line: string)
    requires OneLine(line) && line != []
    ensures OneLine(line[1..])
  {
  }

  lemma {:induction false} NormalizeLine(line: string, rest: string)
    requires OneLine(line)
    ensures Normalize(line + ['\n'] + rest) == Chop(line) + ['\n'] + Normalize(rest)
  {
    hide Normalize;
    if line == [] {
      NormalizeKeeps('\n', rest);
      assert line + ['\n'] + rest == ['\n'] + rest;
    } else if line == ['\r'] {
      NormalizeDrops(rest);
      assert line + ['\n'] + rest == ['\r', '\n'] + rest;
      assert Chop(line) == [];
    } else {
      hide Chop, OneLine;
      var shorter := line[1..];
      OneLineTail(line);
      NormalizeLine(shorter, rest);
      ConsLine(line, line[0], shorter, rest);
      InnerChar(line, rest);
      NormalizeKeeps(line[0], shorter + ['\n'] + rest);
      ChopStep(line);
      ConsLine(Chop(line), line[0], Chop(shorter), Normalize(rest));
    }
  }

  lemma {:induction false} NormalizeUnlines(lines: seq<string>)
    requires Lines(lines)
    ensures Normalize(Unlines(lines)) == Unlines(ChopAll(lines))
  {
    if lines != [] {
      NormalizeLine(lines[0], Unlines(lines[1..]));
      NormalizeUnlines(lines[1..]);
      assert ChopAll(lines)[1..] == ChopAll(lines[1..]);
    }
  }

  lemma {:induction false} SplitLine(line: string, rest: string)
    requires OneLine(line)
    ensures Split(line + ['\n'] + rest) == [line] + Split(rest)
  {
    var text := line + ['\n'] + rest;
    if line == [] {
      assert text[1..] == rest;
    } else {
      assert text[1..] == line[1..] + ['\n'] + rest;
      SplitLine(line[1..], rest);
      assert [line[0]] + line[1..] == line;
      assert ([line[1..]] + Split(rest))[1..] == Split(rest);
    }
  }

  lemma {:induction false} SplitUnlines(lines: seq<string>)
    requires Lines(lines)
    ensures Split(Unlines(lines)) == lines + [""]
  {
    if lines != [] {
      SplitLine(lines[0], Unlines(lines[1..]));
      SplitUnlines(lines[1..]);
      assert [lines[0]] + (lines[1..] + [""]) == lines + [""];
    }
  }

  // ---------------------------------------------------------------- scanning

  lemma ScanOne(line: string, rest: seq<string>, inside: bool)
    requires KindOf(line) == Plain
    ensures Scan([line] + rest, inside) ==
            var tail := Scan(rest, inside);
            if tail.None? || inside then tail else Some([line] + tail.value)
  {
  }

  lemma {:induction false} ScanPlain(lines: seq<string>, rest: seq<string>, inside: bool)
    requires forall i :: 0 <= i < |lines| ==> KindOf(lines[i]) == Plain
    ensures Scan(lines + rest, inside) ==
            var tail := Scan(rest, inside);
            if tail.None? || inside then tail else Some(lines + tail.value)
  {
    hide KindOf, Scan;
    var tail := Scan(rest, inside);
    if lines == [] {
      assert lines + rest == rest;
      assert tail.Some? ==> [] + tail.value == tail.value;
    } else {
      assert [lines[0]] + (lines[1..] + rest) == lines + rest;
      ScanPlain(lines[1..], rest, inside);
      ScanOne(lines[0], lines[1..] + rest, inside);
      if tail.Some? {
        assert [lines[0]] + (lines[1..] + tail.value) == lines + tail.value;
      }
    }
  }

  lemma {:induction false} ScanKeepsPlain(lines: seq<string>, inside: bool)
    requires Lines(lines) && Scan(lines, inside).Some?
    ensures var kept := Scan(lines, inside).value;
            Lines(kept) && forall i :: 0 <= i < |kept| ==> KindOf(kept[i]) == Plain
  {
    if lines != [] {
      match KindOf(lines[0])
      case Begin => ScanKeepsPlain(lines[1..], true);
      case End => ScanKeepsPlain(lines[1..], false);
      case Plain => ScanKeepsPlain(lines[1..], inside);
    }
  }

  lemma {:induction false} StripBlankPrefix(lines: seq<string>)
    ensures StripBlank(lines) <= lines
    ensures StripBlank(lines) == [] || !Blank(StripBlank(lines)[|StripBlank(lines)| - 1])
    ensures forall i :: |StripBlank(lines)| <= i < |lines| ==> Blank(lines[i])
  {
    if lines != [] && Blank(lines[|lines| - 1]) {
      StripBlankPrefix(lines[..|lines| - 1]);
    }
  }

  /** What is kept are unmarked lines of the normalised file, up to its last line with any text. */
  lemma KeptLines(text: string)
    requires Kept(text).Some?
    ensures var kept := Kept(text).value;
            && Lines(kept)
            && (forall i :: 0 <= i < |kept| ==> KindOf(kept[i]) == Plain)
            && (kept == [] || !Blank(kept[|kept| - 1]))
  {
    var lines := Split(Normalize(text));
    ScanKeepsPlain(lines, false);
    StripBlankPrefix(Scan(lines, false).value);
  }

  // ---------------------------------------------------------------- rewriting again

  lemma TrimFixed(line: string)
    requires line != [] && !IsSpace(line[0]) && !IsSpace(line[|line| - 1])
    ensures Trim(line) == line
  {
  }

  lemma MarkersOneLine()
    ensures OneLine(BEGIN_MARKER) && OneLine(END_MARKER)
  {
  }

  lemma MarkerKinds()
    ensures KindOf(BEGIN_MARKER) == Begin && KindOf(END_MARKER) == End
    ensures Chop(BEGIN_MARKER) == BEGIN_MARKER && Chop(END_MARKER) == END_MARKER
  {
    assert BEGIN_MARKER[2] == 'B' && END_MARKER[2] == 'E';
    TrimFixed(BEGIN_MARKER);
    TrimFixed(END_MARKER);
  }

  lemma ChoppedEntries(hostnames: seq<string>, addresses: seq<string>)
    requires Clean(hostnames, addresses)
    ensures var chopped := ChopAll(Entries(hostnames, addresses));
            forall i :: 0 <= i < |chopped| ==> KindOf(chopped[i]) == Plain
  {
    hide Trim, Chop;
    var entries := Entries(hostnames, addresses);
    forall i | 0 <= i < |entries| ensures KindOf(ChopAll(entries)[i]) == Plain {
      ChopKeepsTrim(entries[i]);
    }
  }

  lemma ScanMarked(lines: seq<string>, rest: seq<string>)
    requires forall i :: 0 <= i < |lines| ==> KindOf(lines[i]) == Plain
    ensures Scan([BEGIN_MARKER] + lines + [END_MARKER] + rest, false) == Scan(rest, false)
  {
    hide KindOf;
    MarkerKinds();
    var after := [END_MARKER] + rest;
    assert ([BEGIN_MARKER] + lines + [END_MARKER] + rest)[1..] == lines + after;
    ScanPlain(lines, after, true);
    assert after[1..] == rest;
  }

  /** Scanning drops the section that the previous rewrite wrote. */
  lemma ScanOwnSection(hostnames: seq<string>, addresses: seq<string>, rest: seq<string>)
    requires Clean(hostnames, addresses)
    ensures Scan(ChopAll(Section(hostnames, addresses)) + rest, false) == Scan(rest, false)
  {
    hide KindOf, Clean, Entries, Scan;
    var section := Section(hostnames, addresses);
    if addresses == [] {
      assert ChopAll(section) + rest == rest;
    } else {
      MarkerKinds();
      var chopped := ChopAll(Entries(hostnames, addresses));
      assert ChopAll(section) == [BEGIN_MARKER] + chopped + [END_MARKER];
      ChoppedEntries(hostnames, addresses);
      ScanMarked(chopped, rest);
    }
  }

  lemma BlankLine()
    ensures Blank([]) && KindOf([]) == Plain
  {
  }

  lemma StripAfter(lines: seq<string>, blanks: nat)
    requires lines == [] || !Blank(lines[|lines| - 1])
    ensures StripBlank(lines + seq(blanks, _ => "")) == lines
    decreases blanks
  {
    BlankLine();
    var all := lines + seq(blanks, _ => "");
    if blanks == 0 {
      assert all == lines;
    } else {
      assert all[..|all| - 1] == lines + seq(blanks - 1, _ => "");
      StripAfter(lines, blanks - 1);
    }
  }

  lemma SectionLines(hostnames: seq<string>, addresses: seq<string>)
    requires Clean(hostnames, addresses)
    ensures Lines(Section(hostnames, addresses))
  {
    MarkersOneLine();
  }

  lemma ChopAllAppend(a: seq<string>, b: seq<string>)
    ensures ChopAll(a + b) == ChopAll(a) + ChopAll(b)
  {
  }

  lemma KeptOfNewline()
    ensures Kept("\n") == Some([])
  {
  }

  lemma ScannedAgain(kept: seq<string>, section: seq<string>)
    requires Lines(kept + section)
    requires forall i :: 0 <= i < |kept| ==> KindOf(kept[i]) == Plain
    requires Scan(ChopAll(section) + [""], false) == Some([""])
    ensures Scan(Split(Normalize(Unlines(kept + section))), false) == Some(ChopAll(kept) + [""])
  {
    var chopped := ChopAll(kept);
    forall i | 0 <= i < |kept| ensures KindOf(chopped[i]) == Plain {
      ChopKeepsTrim(kept[i]);
    }
    NormalizeUnlines(kept + section);
    ChopAllAppend(kept, section);
    SplitUnlines(chopped + ChopAll(section));
    assert chopped + ChopAll(section) + [""] == chopped + (ChopAll(section) + [""]);
    ScanPlain(chopped, ChopAll(section) + [""], false);
  }

  lemma StrippedAgain(kept: seq<string>)
    requires kept == [] || !Blank(kept[|kept| - 1])
    ensures StripBlank(ChopAll(kept) + [""]) == ChopAll(kept)
  {
  }

  lemma ScanBlank()
    ensures Scan([""], false) == Some([""])
  {
    BlankLine();
    var blank: seq<string> := [""];
    assert blank[1..] == [] && blank[0] == "";
    assert Scan(blank[1..], false) == Some([]);
    assert [blank[0]] + [] == blank;
  }

  /** The second rewrite sees the kept lines again, each without its trailing carriage return. */
  lemma KeptAgain(text: string, hostnames: seq<string>, addresses: seq<string>)
    requires Clean(hostnames, addresses) && Kept(text).Some?
    ensures Kept(Rewrite(text, hostnames, addresses).value) == Some(ChopAll(Kept(text).value))
  {
    hide Normalize, Split, Unlines, Trim, Clean, StripBlank;
    var kept, section := Kept(text).value, Section(hostnames, addresses);
    KeptLines(text);
    SectionLines(hostnames, addresses);
    if kept + section == [] {
      KeptOfNewline();
      assert kept == [] && ChopAll(kept) == [];
    } else {
      ScanOwnSection(hostnames, addresses, [""]);
      ScanBlank();
      ScannedAgain(kept, section);
      StrippedAgain(kept);
    }
  }

  /** Exactly what rewriting a rewritten file does, whatever section the second rewrite is given. */
  lemma SecondRewrite(text: string, hostnames: seq<string>, addresses: seq<string>, newHostnames: seq<string>,
      newAddresses: seq<string>)
    requires Clean(hostnames, addresses) && Kept(text).Some?
    ensures Rewrite(Rewrite(text, hostnames, addresses).value, newHostnames, newAddresses)
            == Some(Render(ChopAll(Kept(text).value) + Section(newHostnames, newAddresses)))
  {
    KeptAgain(text, hostnames, addresses);
  }

  lemma NotJustNewline(lines: seq<string>)
    requires Lines(lines) && lines != [""] && lines != []
    ensures Unlines(lines) != "\n"
  {
  }

  lemma RenderInjective(a: seq<string>, b: seq<string>)
    requires Lines(a) && Lines(b) && Render(a) == Render(b)
    requires a != [""] && b != [""]
    ensures a == b
  {
    if a != [] {
      NotJustNewline(a);
    }
    if b != [] {
      NotJustNewline(b);
    }
    if a != [] && b != [] {
      SplitUnlines(a);
      SplitUnlines(b);
      assert a == (a + [""])[..|a|] && b == (b + [""])[..|b|];
    }
  }

  /** A file whose own text does not end in a blank line is never the single empty line. */
  lemma NotOneEmptyLine(kept: seq<string>, section: seq<string>)
    requires Lines(kept) && Lines(section)
    requires kept != [] ==> !Blank(kept[|kept| - 1])
    requires section != [] ==> |section| >= 2
    ensures Lines(kept + section) && kept + section != [""]
  {
    BlankLine();
    hide Trim;
    if kept != [] {
      assert (kept + section)[0] == kept[0];
    }
  }

  lemma ChopKeepsLines(kept: seq<string>)
    requires Lines(kept) && (kept == [] || !Blank(kept[|kept| - 1]))
    ensures Lines(ChopAll(kept))
    ensures kept != [] ==> !Blank(ChopAll(kept)[|kept| - 1])
  {
    hide Trim;
    if kept != [] {
      ChopKeepsTrim(kept[|kept| - 1]);
    }
  }

  lemma SectionSize(hostnames: seq<string>, addresses: seq<string>)
    ensures var section := Section(hostnames, addresses);
            section != [] ==> |section| >= 2
  {
    hide Entries;
  }

  lemma RenderedLines(text: string, hostnames: seq<string>, addresses: seq<string>)
    requires Clean(hostnames, addresses) && Kept(text).Some?
    ensures var kept, section := Kept(text).value, Section(hostnames, addresses);
            && Lines(kept + section) && Lines(ChopAll(kept) + section)
            && kept + section != [""] && ChopAll(kept) + section != [""]
  {
    hide Kept, Section, Lines, Trim, Clean, KindOf, Blank;
    var kept, section := Kept(text).value, Section(hostnames, addresses);
    KeptLines(text);
    SectionLines(hostnames, addresses);
    SectionSize(hostnames, addresses);
    ChopKeepsLines(kept);
    NotOneEmptyLine(kept, section);
    NotOneEmptyLine(ChopAll(kept), section);
  }

  ghost predicate NoCR(lines: seq<string>) {
    forall i :: 0 <= i < |lines| ==> !EndsWithCR(lines[i])
  }

  lemma ChopIdentity(lines: seq<string>)
    ensures ChopAll(lines) == lines <==> NoCR(lines)
  {
  }

  /** The rewrite is final after one application exactly when no kept line ends in a stray carriage return. */
  lemma Idempotent(text: string, hostnames: seq<string>, addresses: seq<string>)
    requires Clean(hostnames, addresses) && Kept(text).Some?
    ensures var once := Rewrite(text, hostnames, addresses);
            Rewrite(once.value, hostnames, addresses) == once <==> NoCR(Kept(text).value)
  {
    var kept, section := Kept(text).value, Section(hostnames, addresses);
    SecondRewrite(text, hostnames, addresses, hostnames, addresses);
    ChopIdentity(kept);
    if Render(ChopAll(kept) + section) == Render(kept + section) {
      RenderedLines(text, hostnames, addresses);
      RenderInjective(ChopAll(kept) + section, kept + section);
      assert ChopAll(kept) == (ChopAll(kept) + section)[..|kept|];
      assert kept == (kept + section)[..|kept|];
    }
  }

  /** Removing a freshly inserted section equals plain removal, on exactly the same files. */
  lemma RemoveAfterInsert(text: string, hostnames: seq<string>, addresses: seq<string>)
    requires Clean(hostnames, addresses) && Kept(text).Some?
    ensures Rewrite(Rewrite(text, hostnames, addresses).value, [], []) == Rewrite(text, [], []) <==>
              NoCR(Kept(text).value)
  {
    var kept := Kept(text).value;
    SecondRewrite(text, hostnames, addresses, [], []);
    ChopIdentity(kept);
    assert kept + Section([], []) == kept && ChopAll(kept) + Section([], []) == ChopAll(kept);
    if Render(ChopAll(kept)) == Render(kept) {
      RenderedLines(text, [], []);
      RenderInjective(ChopAll(kept), kept);
    }
  }

  /** A file without carriage returns after CRLF normalisation is such a file. */
  lemma NormalizedFilesSettle(text: string, hostnames: seq<string>, addresses: seq<string>)
    requires Clean(hostnames, addresses) && Kept(text).Some?
    requires '\r' !in Normalize(text)
    ensures Rewrite(Rewrite(text, hostnames, addresses).value, hostnames, addresses) ==
              Rewrite(text, hostnames, addresses)
    ensures Rewrite(Rewrite(text, hostnames, addresses).value, [], []) == Rewrite(text, [], [])
  {
    hide Rewrite, Split, Normalize, Scan, StripBlank, Clean, Chop, KindOf, Blank;
    SplitKeepsChars(Normalize(text));
    ScanSelects(Split(Normalize(text)), false);
    StripBlankPrefix(Scan(Split(Normalize(text)), false).value);
    Idempotent(text, hostnames, addresses);
    RemoveAfterInsert(text, hostnames, addresses);
  }

  lemma {:induction false} SplitKeepsChars(text: string)
    ensures forall i, k :: 0 <= i < |Split(text)| && 0 <= k < |Split(text)[i]| ==> Split(text)[i][k] in text
  {
    if text != [] {
      SplitKeepsChars(text[1..]);
    }
  }

  lemma {:induction false} ScanSelects(lines: seq<string>, inside: bool)
    requires Scan(lines, inside).Some?
    ensures forall i :: 0 <= i < |Scan(lines, inside).value| ==> Scan(lines, inside).value[i] in lines
  {
    if lines != [] {
      match KindOf(lines[0])
      case Begin => ScanSelects(lines[1..], true);
      case End => ScanSelects(lines[1..], false);
      case Plain => ScanSelects(lines[1..], inside);
    }
  }

  lemma {:induction false} UnlinesLength(lines: seq<string>)
    ensures |Unlines(ChopAll(lines))| <= |Unlines(lines)|
    ensures |Unlines(ChopAll(lines))| == |Unlines(lines)| ==> NoCR(lines)
  {
    if lines != [] {
      UnlinesLength(lines[1..]);
      assert ChopAll(lines)[1..] == ChopAll(lines[1..]);
    }
  }

  lemma {:induction false} UnlinesAppend(a: seq<string>, b: seq<string>)
    ensures Unlines(a + b) == Unlines(a) + Unlines(b)
  {
    if a == [] {
      assert a + b == b;
    } else {
      assert (a + b)[1..] == a[1..] + b;
      UnlinesAppend(a[1..], b);
    }
  }

  /** Where the first rewrite is not final, every further one shortens the file, so reconfiguration ends. */
  lemma RewriteShrinks(text: string, hostnames: seq<string>, addresses: seq<string>)
    requires Clean(hostnames, addresses) && Kept(text).Some?
    ensures var once := Rewrite(text, hostnames, addresses);
            var twice := Rewrite(once.value, hostnames, addresses);
            twice.Some? && (twice != once ==> |twice.value| < |once.value|)
  {
    var kept, section := Kept(text).value, Section(hostnames, addresses);
    SecondRewrite(text, hostnames, addresses, hostnames, addresses);
    UnlinesAppend(kept, section);
    UnlinesAppend(ChopAll(kept), section);
    UnlinesLength(kept);
    ChopIdentity(kept);
  }

  /** A file for which the first rewrite is not final. */
  lemma StrayCarriageReturn()
    ensures Rewrite("a\r", [], []) == Some("a\r\n") && Rewrite("a\r\n", [], []) == Some("a\n")
  {
    var line := "a\r";
    OnlyLine(line);
    var lines := [line];
    assert lines + Section([], []) == lines;
    assert lines[1..] == [];
    assert Unlines(lines) == "a\r\n";
    SecondRewrite(line, [], [], [], []);
    var chopped := ["a"];
    assert ChopAll(lines) == chopped;
    assert chopped + Section([], []) == chopped;
    assert chopped[1..] == [];
    assert Unlines(chopped) == "a\n";
  }

  lemma {:induction false} LastLine(line: string)
    requires OneLine(line)
    ensures Split(line) == [line]
  {
    if line != [] {
      LastLine(line[1..]);
      assert [line[0]] + line[1..] == line;
      assert [line[1..]][1..] == [];
    }
  }

  lemma OnlyLine(line: string)
    requires line == "a\r"
    ensures Kept(line) == Some([line])
  {
    assert line[1..] == "\r" && line[..1] == "a" && "\r"[1..] == "";
    assert Normalize("\r") == "\r";
    assert Normalize(line) == line;
    LastLine("\r");
    LastLine(line);
    TrimFixed("a");
    assert Trim(line) == "a";
    assert "a"[0] == 'a';
    assert KindOf(line) == Plain && !Blank(line);
    assert [line][1..] == [];
    assert Scan([line], false) == Some([line]);
  }

  // ---------------------------------------------------------------- which files are refused

  function Delta(line: string): int {
    match KindOf(line)
    case Begin => 1
    case End => -1
    case Plain => 0
  }

  /** How many sections are open after the first `i` lines. */
  ghost function Level(lines: seq<string>, start: int, i: nat): int
    requires i <= |lines|
  {
    if i == 0 then start else Level(lines, start, i - 1) + Delta(lines[i - 1])
  }

  ghost predicate Paired(lines: seq<string>, start: int) {
    (forall i :: 0 <= i <= |lines| ==> 0 <= Level(lines, start, i) <= 1) && Level(lines, start, |lines|) == 0
  }

  lemma {:induction false} LevelShift(lines: seq<string>, start: int, i: nat)
    requires lines != [] && i < |lines|
    ensures Level(lines, start, i + 1) == Level(lines[1..], start + Delta(lines[0]), i)
  {
    if i == 0 {
      assert Level(lines, start, 0) == start;
    } else {
      LevelShift(lines, start, i - 1);
    }
  }

  lemma PairedShift(lines: seq<string>, start: int)
    requires lines != [] && 0 <= start <= 1
    ensures Paired(lines, start) <==> Paired(lines[1..], start + Delta(lines[0]))
  {
    var rest, next := lines[1..], start + Delta(lines[0]);
    forall i | 0 <= i <= |rest| ensures Level(lines, start, i + 1) == Level(rest, next, i) {
      LevelShift(lines, start, i);
    }
    if Paired(rest, next) {
      forall i | 0 <= i <= |lines| ensures 0 <= Level(lines, start, i) <= 1 {
        if i > 0 {
          assert Level(lines, start, i - 1 + 1) == Level(rest, next, i - 1);
        }
      }
      assert Level(lines, start, |rest| + 1) == Level(rest, next, |rest|);
    }
    if Paired(lines, start) {
      forall i | 0 <= i <= |rest| ensures 0 <= Level(rest, next, i) <= 1 {
        assert 0 <= Level(lines, start, i + 1) <= 1;
      }
      assert Level(lines, start, |rest| + 1) == Level(rest, next, |rest|);
    }
  }

  /** A file is refused for nested, unmatched or unfinished sections, and for nothing else. */
  lemma {:induction false} AcceptedExactlyWhenPaired(lines: seq<string>, inside: bool)
    ensures Scan(lines, inside).Some? <==> Paired(lines, if inside then 1 else 0)
  {
    var start := if inside then 1 else 0;
    if lines == [] {
      assert Level(lines, start, 0) == start;
    } else {
      PairedShift(lines, start);
      match KindOf(lines[0])
      case Begin =>
        if inside {
          assert Level(lines[1..], 2, 0) == 2;
        } else {
          AcceptedExactlyWhenPaired(lines[1..], true);
        }
      case End =>
        if inside {
          AcceptedExactlyWhenPaired(lines[1..], false);
        } else {
          assert Level(lines[1..], -1, 0) == -1;
        }
      case Plain =>
        AcceptedExactlyWhenPaired(lines[1..], inside);
    }
  }

  /** A line that is no marker and outside every section. */
  ghost function Free(line: string, level: int): seq<string> {
    if Delta(line) == 0 && level == 0 then [line] else []
  }

  /** The free lines among the first `n`, in their order. */
  ghost function Outside(lines: seq<string>, start: int, n: nat): seq<string>
    requires n <= |lines|
  {
    if n == 0 then [] else Outside(lines, start, n - 1) + Free(lines[n - 1], Level(lines, start, n - 1))
  }

  lemma OutsideNone(lines: seq<string>, start: int)
    ensures Outside(lines, start, 0) == [] && Level(lines, start, 0) == start
  {
  }

  lemma OutsideStep(lines: seq<string>, start: int, n: nat)
    requires n < |lines|
    ensures Outside(lines, start, n + 1) == Outside(lines, start, n) + Free(lines[n], Level(lines, start, n))
  {
    hide Free, Level;
  }

  lemma {:induction false} OutsideShift(lines: seq<string>, start: int, n: nat)
    requires n < |lines|
    ensures Outside(lines, start, n + 1) ==
            Free(lines[0], start) + Outside(lines[1..], start + Delta(lines[0]), n)
  {
    hide Delta, Free, Level, Outside;
    var rest, next := lines[1..], start + Delta(lines[0]);
    OutsideStep(lines, start, n);
    if n == 0 {
      OutsideNone(lines, start);
      OutsideNone(rest, next);
    } else {
      OutsideShift(lines, start, n - 1);
      LevelShift(lines, start, n - 1);
      OutsideStep(rest, next, n - 1);
      assert rest[n - 1] == lines[n];
    }
  }

  /** Scanning keeps every line outside the sections, and only those. */
  lemma {:induction false} ScanKeepsOutside(lines: seq<string>, inside: bool)
    requires Scan(lines, inside).Some?
    ensures Scan(lines, inside).value == Outside(lines, if inside then 1 else 0, |lines|)
  {
    if lines != [] {
      var start := if inside then 1 else 0;
      OutsideShift(lines, start, |lines| - 1);
      match KindOf(lines[0])
      case Begin => ScanKeepsOutside(lines[1..], true);
      case End => ScanKeepsOutside(lines[1..], false);
      case Plain => ScanKeepsOutside(lines[1..], inside);
    }
  }

  // ---------------------------------------------------------------- the written file

  /** The words of a line, as a resolver reads it. */
  function Words(line: string): (words: seq<string>)
    ensures words != []
  {
    if line == [] then [""]
    else if line[0] == ' ' then [""] + Words(line[1..])
    else
      var rest := Words(line[1..]);
      [[line[0]] + rest[0]] + rest[1..]
  }

  predicate Solid(words: seq<string>) {
    forall i :: 0 <= i < |words| ==> ' ' !in words[i]
  }

  lemma {:induction false} WordsOfOne(word: string, rest: string)
    requires ' ' !in word
    ensures Words(word) == [word] && Words(word + [' '] + rest) == [word] + Words(rest)
  {
    if word == [] {
      assert word + [' '] + rest == [' '] + rest && ([' '] + rest)[1..] == rest;
    } else {
      WordsOfOne(word[1..], rest);
      assert (word + [' '] + rest)[1..] == word[1..] + [' '] + rest;
      assert [word[0]] + word[1..] == word;
    }
  }

  lemma {:induction false} WordsOfSpaced(words: seq<string>)
    requires Solid(words)
    ensures Words(Spaced(words)) == if words == [] then [""] else words
  {
    if words == [] {
      assert Spaced(words) == [];
    } else if |words| == 1 {
      WordsOfOne(words[0], []);
    } else {
      WordsOfSpaced(words[1..]);
      WordsOfOne(words[0], Spaced(words[1..]));
    }
  }

  /** An address followed by every hostname, or by nothing. */
  ghost function Names(address: string, hostnames: seq<string>): seq<string> {
    [address] + if hostnames == [] then [""] else hostnames
  }

  lemma EntryWords(hostnames: seq<string>, addresses: seq<string>, i: nat)
    requires i < |addresses| && Solid(hostnames) && Solid(addresses)
    ensures Words(Entries(hostnames, addresses)[i]) == Names(addresses[i], hostnames)
  {
    WordsOfSpaced(hostnames);
    WordsOfOne(addresses[i], Spaced(hostnames));
  }

  lemma LinesOfRender(lines: seq<string>)
    requires Lines(lines) && lines != []
    ensures Split(Render(lines)) == lines + [""]
  {
    SplitUnlines(lines);
  }

  lemma WrittenLines(text: string, hostnames: seq<string>, addresses: seq<string>)
    requires Clean(hostnames, addresses)
    requires Rewrite(text, hostnames, addresses).Some? && Kept(text).value + addresses != []
    ensures Split(Rewrite(text, hostnames, addresses).value) ==
            Kept(text).value + Section(hostnames, addresses) + [""]
  {
    hide Split, Normalize, Scan, StripBlank, Clean, Render, Entries, KindOf;
    KeptLines(text);
    SectionLines(hostnames, addresses);
    LinesOfRender(Kept(text).value + Section(hostnames, addresses));
  }

  /** The lines of a file with these ones before the section for these names. */
  ghost predicate Lists(lines: seq<string>, kept: seq<string>, hostnames: seq<string>, addresses: seq<string>) {
    if addresses == [] then lines == kept + [""]
    else
      && |lines| == |kept| + |addresses| + 3 && lines[..|kept|] == kept
      && lines[|kept|] == BEGIN_MARKER
      && (forall i :: 0 <= i < |addresses| ==> Words(lines[|kept| + 1 + i]) == Names(addresses[i], hostnames))
      && lines[|kept| + 1 + |addresses|] == END_MARKER && lines[|kept| + 2 + |addresses|] == ""
  }

  lemma SectionLists(kept: seq<string>, hostnames: seq<string>, addresses: seq<string>)
    requires Solid(hostnames) && Solid(addresses)
    ensures Lists(kept + Section(hostnames, addresses) + [""], kept, hostnames, addresses)
  {
    hide Words, Names, Spaced, Solid;
    var entries := Entries(hostnames, addresses);
    forall i | 0 <= i < |addresses| ensures Words(entries[i]) == Names(addresses[i], hostnames) {
      EntryWords(hostnames, addresses, i);
    }
    hide Entries;
    if addresses == [] {
      assert kept + Section(hostnames, addresses) == kept;
    }
  }

  /**
   The file that is written: first the lines of the old one outside every section, without the blank ones at its
   end; then, if there are addresses, the begin marker, one line per address that reads as this address and all
   hostnames, and the end marker.
   */
  lemma WrittenFile(text: string, hostnames: seq<string>, addresses: seq<string>)
    requires Clean(hostnames, addresses) && Solid(hostnames) && Solid(addresses)
    requires Rewrite(text, hostnames, addresses).Some?
    ensures var before := Split(Normalize(text));
            var kept := StripBlank(Outside(before, 0, |before|));
            var after := Rewrite(text, hostnames, addresses).value;
            if kept == [] && addresses == [] then after == "\n"
            else Lists(Split(after), kept, hostnames, addresses)
  {
    hide Split, Normalize, Scan, StripBlank, Outside, Clean, Entries, Lists, Solid;
    ScanKeepsOutside(Split(Normalize(text)), false);
    if Kept(text).value + addresses != [] {
      WrittenLines(text, hostnames, addresses);
      SectionLists(Kept(text).value, hostnames, addresses);
    }
  }

  // ---------------------------------------------------------------- the loop

  /** strings.Join(lines, "\n") */
  function Joined(lines: seq<string>): string {
    if lines == [] then [] else if |lines| == 1 then lines[0] else lines[0] + ['\n'] + Joined(lines[1..])
  }

  lemma {:induction false} JoinedIsRendered(lines: seq<string>)
    ensures Joined(lines) + "\n" == Render(lines)
  {
    if |lines| == 1 {
      assert lines[1..] == [];
      assert Unlines(lines) == lines[0] + ['\n'] + Unlines(lines[1..]);
      assert lines[0] + ['\n'] + [] == lines[0] + "\n";
    } else if |lines| > 1 {
      JoinedIsRendered(lines[1..]);
      assert lines[0] + ['\n'] + Joined(lines[1..]) + "\n" == lines[0] + ['\n'] + (Joined(lines[1..]) + "\n");
    } else {
      assert [] + "\n" == "\n";
    }
  }

  /** The lines outside managed sections. */
  method KeepLines(lines: seq<string>) returns (kept: Option<seq<string>>)
    ensures kept == Scan(lines, false)
  {
    var collected: seq<string>, inside := [], false;
    assert lines[0..] == lines;
    assert Scan(lines, false).Some? ==> collected + Scan(lines, false).value == Scan(lines, false).value;
    for i := 0 to |lines|
      invariant var rest := Scan(lines[i..], inside);
                Scan(lines, false) == if rest.None? then None else Some(collected + rest.value)
    {
      assert lines[i..][1..] == lines[i + 1..];
      match KindOf(lines[i])
      case Begin =>
        if inside {
          return None;
        }
        inside := true;
      case End =>
        if !inside {
          return None;
        }
        inside := false;
      case Plain =>
        if !inside {
          ghost var rest := Scan(lines[i + 1..], inside);
          assert rest.Some? ==> collected + ([lines[i]] + rest.value) == (collected + [lines[i]]) + rest.value;
          collected := collected + [lines[i]];
        }
    }
    if inside {
      return None;
    }
    assert collected + [] == collected;
    return Some(collected);
  }

  method DropBlankLines(lines: seq<string>) returns (kept: seq<string>)
    ensures kept == StripBlank(lines)
  {
    kept := lines;
    while |kept| > 0 && Trim(kept[|kept| - 1]) == []
      invariant StripBlank(kept) == StripBlank(lines)
    {
      kept := kept[..|kept| - 1];
    }
  }

  method ListEntries(hostnames: seq<string>, addresses: seq<string>) returns (entries: seq<string>)
    ensures entries == Entries(hostnames, addresses)
  {
    entries := [];
    for i := 0 to |addresses|
      invariant |entries| == i && forall k :: 0 <= k < i ==> entries[k] == addresses[k] + [' '] + Spaced(hostnames)
    {
      entries := entries + [addresses[i] + [' '] + Spaced(hostnames)];
    }
  }

  method AppendSection(lines: seq<string>, hostnames: seq<string>, addresses: seq<string>) returns (all: seq<string>)
    ensures all == lines + Section(hostnames, addresses)
  {
    all := lines;
    if |addresses| > 0 {
      var entries := ListEntries(hostnames, addresses);
      hide Entries;
      all := all + [BEGIN_MARKER] + entries + [END_MARKER];
    }
  }

  method ReplaceHostsSection(current: string, hostnames: seq<string>, addresses: seq<string>)
      returns (r: Option<string>)
    ensures r == Rewrite(current, hostnames, addresses)
  {
    hide Normalize, Split, Scan, StripBlank, Section, Joined, Unlines;
    var scanned := KeepLines(Split(Normalize(current)));
    if scanned.None? {
      return None;
    }
    var kept := DropBlankLines(scanned.value);
    var lines := AppendSection(kept, hostnames, addresses);
    JoinedIsRendered(lines);
    return Some(Joined(lines) + "\n");
  }
}
