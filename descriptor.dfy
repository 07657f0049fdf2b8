/**
 * The module descriptor: the `# Marker: value` comment lines a module file carries,
 * and the `ModuleManager.parse_*` functions that read them.  A module file is read as
 * a sequence of lines, exactly as Python's text-mode iteration splits it.
 */
module Descriptor {
  import opened Wrappers
  import opened PyStrings

  const DependenciesMarker := "# Dependencies:"
  const InputsMarker := "# Inputs:"
  const HelpMarker := "# Help:"
  const SilentMarker := "# Silent:"
  const FollowLogMarker := "# Follow_log:"
  const LogfileMarker := "# Logfile:"

  /** The description a `# Help:` line without a hyphen gets. */
  const NoDescription := "No description available"

  /** The six metadata fields, one marker prefix each. */
  datatype Field = Dependencies | Inputs | Help | Silent | FollowLog | Logfile

  function Marker(f: Field): string {
    match f
    case Dependencies => DependenciesMarker
    case Inputs => InputsMarker
    case Help => HelpMarker
    case Silent => SilentMarker
    case FollowLog => FollowLogMarker
    case Logfile => LogfileMarker
  }

  /** The shape every marker has: `#`, a name without colons, one closing colon. */
  predicate MarkerLike(m: string) {
    |m| >= 3 && m[0] == '#' && m[|m| - 1] == ':' && ':' !in m[..|m| - 1]
  }

  lemma MarkerShape(f: Field)
    ensures MarkerLike(Marker(f))
  {
  }

  /** A line starts with at most one marker: the markers differ at their third character. */
  lemma MarkersExclusive(line: string, f: Field, g: Field)
    requires StartsWith(line, Marker(f)) && StartsWith(line, Marker(g))
    ensures f == g
  {
    assert line[2] == line[..|Marker(f)|][2] == Marker(f)[2];
    assert line[2] == line[..|Marker(g)|][2] == Marker(g)[2];
  }

  // ----- Splitting a module file into lines -----

  /** Position of the first line terminator (`\r` or `\n`), or the length when there is none. */
  function LineBreak(text: string): (i: nat)
    ensures i <= |text|
    ensures i < |text| ==> text[i] == '\r' || text[i] == '\n'
    ensures forall k :: 0 <= k < i ==> text[k] != '\r' && text[k] != '\n'
  {
    if text == [] || text[0] == '\r' || text[0] == '\n' then 0 else 1 + LineBreak(text[1..])
  }

  /** Python's text-mode line iteration (universal newlines: `\r\n`, `\r` and `\n` each end
      a line), with the terminators dropped; a final line without terminator still counts. */
  function Lines(text: string): (lines: seq<string>)
    ensures forall k :: 0 <= k < |lines| ==> '\r' !in lines[k] && '\n' !in lines[k]
    decreases |text|
  {
    if text == [] then []
    else
      var i := LineBreak(text);
      if i == |text| then [text]
      else
        var next := if text[i] == '\r' && i + 1 < |text| && text[i + 1] == '\n' then i + 2 else i + 1;
        [text[..i]] + Lines(text[next..])
  }

  /** A file written line by line, each line ended by a line feed. */
  function Unlines(lines: seq<string>): string {
    if lines == [] then "" else lines[0] + "\n" + Unlines(lines[1..])
  }

  /** A first line ended by a line feed is read as one line, then the rest is read. */
  lemma LinesFirst(l: string, rest: string)
    requires '\r' !in l && '\n' !in l
    ensures Lines(l + "\n" + rest) == [l] + Lines(rest)
  {
    var text := l + "\n" + rest;
    var i := LineBreak(text);
    assert text[|l|] == '\n';
    assert forall k :: 0 <= k < |l| ==> text[k] == l[k];
    assert i == |l|;
    assert text[..i] == l && text[i + 1..] == rest;
  }

  /** A first line ended by a carriage return and line feed is read as one line: the
      pair is one terminator. */
  lemma LinesFirstCrlf(l: string, rest: string)
    requires '\r' !in l && '\n' !in l
    ensures Lines(l + "\r\n" + rest) == [l] + Lines(rest)
  {
    var text := l + "\r\n" + rest;
    var i := LineBreak(text);
    assert text[|l|] == '\r' && text[|l| + 1] == '\n';
    assert forall k :: 0 <= k < |l| ==> text[k] == l[k];
    assert i == |l|;
    assert text[..i] == l && text[i + 2..] == rest;
  }

  /** A lone carriage return also ends a line, when no line feed follows it. */
  lemma LinesFirstCr(l: string, rest: string)
    requires '\r' !in l && '\n' !in l
    requires rest == [] || rest[0] != '\n'
    ensures Lines(l + "\r" + rest) == [l] + Lines(rest)
  {
    var text := l + "\r" + rest;
    var i := LineBreak(text);
    assert text[|l|] == '\r';
    assert forall k :: 0 <= k < |l| ==> text[k] == l[k];
    assert i == |l|;
    assert rest != [] ==> text[i + 1] == rest[0];
    assert text[..i] == l && text[i + 1..] == rest;
  }

  /** Reading back a file written line by line gives the same lines. */
  lemma {:induction false} LinesUnlines(lines: seq<string>)
    requires forall k :: 0 <= k < |lines| ==> '\r' !in lines[k] && '\n' !in lines[k]
    ensures Lines(Unlines(lines)) == lines
  {
    if lines != [] {
      LinesUnlines(lines[1..]);
      LinesFirst(lines[0], Unlines(lines[1..]));
    }
  }

  // ----- First-match lookup -----

  predicate NoMarkerLine(lines: seq<string>, m: string) {
    forall j :: 0 <= j < |lines| ==> !StartsWith(lines[j], m)
  }

  /** Line `i` is the first line that starts with marker `m`. */
  predicate FirstMarkerLineAt(lines: seq<string>, m: string, i: int) {
    && 0 <= i < |lines|
    && StartsWith(lines[i], m)
    && forall j :: 0 <= j < i ==> !StartsWith(lines[j], m)
  }

  /** The `for line in file: if line.startswith(marker): ...` search with early exit. */
  function FirstMarkerLine(lines: seq<string>, m: string): (r: Option<nat>)
    ensures r.None? <==> NoMarkerLine(lines, m)
    ensures r.Some? ==> FirstMarkerLineAt(lines, m, r.value)
  {
    if lines == [] then None
    else if StartsWith(lines[0], m) then Some(0)
    else
      match FirstMarkerLine(lines[1..], m)
      case None => None
      case Some(i) => Some(i + 1)
  }

  /** There is at most one first marker line, and the search finds it. */
  lemma FirstMarkerLineIs(lines: seq<string>, m: string)
    ensures forall i :: FirstMarkerLineAt(lines, m, i) ==> FirstMarkerLine(lines, m) == Some(i)
  {
    forall i | FirstMarkerLineAt(lines, m, i) ensures FirstMarkerLine(lines, m) == Some(i) {
      var k := FirstMarkerLine(lines, m).value;
      assert !(k < i) && !(i < k);
    }
  }

  // ----- The value after a marker -----

  /** Stripping a marker line only trims its end. */
  lemma StripMarkerLine(line: string, m: string)
    requires MarkerLike(m) && StartsWith(line, m)
    ensures Strip(line) == m + RStrip(line[|m|..])
  {
    assert line[0] == m[0];
    assert LStrip(line) == line;
    assert line == m + line[|m|..];
    RStripKeepsPrefix(m, line[|m|..]);
  }

  /** `line.strip().split(':')[1]`: the text between the first and the second colon
      of the stripped line. */
  function MarkerValue(line: string, m: string): string
    requires MarkerLike(m) && StartsWith(line, m)
  {
    StripMarkerLine(line, m);
    assert Strip(line)[|m| - 1] == ':';
    SplitMany(Strip(line), ':');
    Split(Strip(line), ':')[1]
  }

  /** Without a second colon the value is the rest of the line, trailing blanks cut. */
  lemma MarkerSplit(m: string)
    requires MarkerLike(m)
    ensures m == m[..|m| - 1] + [':']
  {
  }

  /** The value of a marker line is the first piece of the rest of the stripped line. */
  lemma MarkerValueIs(line: string, m: string)
    requires MarkerLike(m) && StartsWith(line, m)
    ensures MarkerValue(line, m) == Split(RStrip(line[|m|..]), ':')[0]
  {
    var name := m[..|m| - 1];
    MarkerSplit(m);
    StripMarkerLine(line, m);
    var rest := RStrip(line[|m|..]);
    assert Strip(line) == name + [':'] + rest;
    SplitAfterPrefix(name, rest, ':');
  }

  /** Without a second colon the value is the rest of the line, trailing blanks cut. */
  lemma MarkerValueWhole(m: string, v: string)
    requires MarkerLike(m) && ':' !in v
    ensures StartsWith(m + v, m)
    ensures MarkerValue(m + v, m) == RStrip(v)
  {
    var line := m + v;
    assert line[..|m|] == m;
    assert line[|m|..] == v;
    MarkerValueIs(line, m);
    assert ':' !in RStrip(v) by {
      assert RStrip(v) == v[..|RStrip(v)|];
    }
  }

  /** A second colon ends the value: whatever follows it is dropped. */
  lemma MarkerValueStopsAtColon(m: string, v: string, w: string)
    requires MarkerLike(m) && ':' !in v
    ensures StartsWith(m + v + ":" + w, m)
    ensures MarkerValue(m + v + ":" + w, m) == v
  {
    var rest := v + ":" + w;
    var line := m + rest;
    assert line == m + v + ":" + w;
    assert line[..|m|] == m;
    assert line[|m|..] == rest;
    MarkerValueIs(line, m);
    RStripKeepsPrefix(v + ":", w);
    assert RStrip(rest) == v + [':'] + RStrip(w);
    SplitAfterPrefix(v, RStrip(w), ':');
  }

  // ----- The parsers -----

  /** `[t.strip() for t in ts]`. */
  function StripEach(ts: seq<string>): (r: seq<string>)
    ensures |r| == |ts|
  {
    seq(|ts|, i requires 0 <= i < |ts| => Strip(ts[i]))
  }

  /** A comma list after a marker, each token stripped, order kept. */
  function ListValue(line: string, m: string): (r: seq<string>)
    requires MarkerLike(m) && StartsWith(line, m)
    ensures |r| >= 1
  {
    StripEach(Split(MarkerValue(line, m), ','))
  }

  /** Shared shape of `parse_dependencies` and `parse_inputs`: the first marker line's
      comma list, or the empty list when no line carries the marker.  A marker line
      always yields at least one token (an empty value yields `[""]`). */
  function ParseList(lines: seq<string>, m: string): (r: seq<string>)
    requires MarkerLike(m)
    ensures r == [] <==> NoMarkerLine(lines, m)
    ensures forall i :: FirstMarkerLineAt(lines, m, i) ==> r == ListValue(lines[i], m)
  {
    match FirstMarkerLine(lines, m)
    case None => []
    case Some(i) => ListValue(lines[i], m)
  }

  function ParseDependencies(lines: seq<string>): (deps: seq<string>)
    ensures deps == [] <==> NoMarkerLine(lines, DependenciesMarker)
    ensures forall i :: FirstMarkerLineAt(lines, DependenciesMarker, i) ==>
      deps == ListValue(lines[i], DependenciesMarker)
  {
    MarkerShape(Dependencies);
    ParseList(lines, DependenciesMarker)
  }

  function ParseInputs(lines: seq<string>): (inputs: seq<string>)
    ensures inputs == [] <==> NoMarkerLine(lines, InputsMarker)
    ensures forall i :: FirstMarkerLineAt(lines, InputsMarker, i) ==>
      inputs == ListValue(lines[i], InputsMarker)
  {
    MarkerShape(Inputs);
    ParseList(lines, InputsMarker)
  }

  /** A flag is set when its stripped value reads "true" in any letter case. */
  predicate FlagValue(line: string, m: string)
    requires MarkerLike(m) && StartsWith(line, m)
  {
    Lower(Strip(MarkerValue(line, m))) == "true"
  }

  /** Shared shape of `parse_silent_flag` and `parse_follow_log_flag`: decided by the
      first marker line alone; false without one. */
  function ParseFlag(lines: seq<string>, m: string): (r: bool)
    requires MarkerLike(m)
    ensures NoMarkerLine(lines, m) ==> !r
    ensures forall i :: FirstMarkerLineAt(lines, m, i) ==> (r <==> FlagValue(lines[i], m))
  {
    FirstMarkerLineIs(lines, m);
    match FirstMarkerLine(lines, m)
    case None => false
    case Some(i) => FlagValue(lines[i], m)
  }

  function ParseSilentFlag(lines: seq<string>): (silent: bool)
    ensures NoMarkerLine(lines, SilentMarker) ==> !silent
    ensures forall i :: FirstMarkerLineAt(lines, SilentMarker, i) ==>
      (silent <==> FlagValue(lines[i], SilentMarker))
  {
    MarkerShape(Silent);
    ParseFlag(lines, SilentMarker)
  }

  function ParseFollowLogFlag(lines: seq<string>): (follow: bool)
    ensures NoMarkerLine(lines, FollowLogMarker) ==> !follow
    ensures forall i :: FirstMarkerLineAt(lines, FollowLogMarker, i) ==>
      (follow <==> FlagValue(lines[i], FollowLogMarker))
  {
    MarkerShape(FollowLog);
    ParseFlag(lines, FollowLogMarker)
  }

  /** `parse_logfile_path`: the first `# Logfile:` line's stripped value, or `None`. */
  function ParseLogfilePath(lines: seq<string>): (path: Option<string>)
    ensures path.None? <==> NoMarkerLine(lines, LogfileMarker)
    ensures forall i :: FirstMarkerLineAt(lines, LogfileMarker, i) ==>
      path == Some(Strip(MarkerValue(lines[i], LogfileMarker)))
  {
    MarkerShape(Logfile);
    match FirstMarkerLine(lines, LogfileMarker)
    case None => None
    case Some(i) => Some(Strip(MarkerValue(lines[i], LogfileMarker)))
  }

  // ----- Help lines -----

  predicate IsHelpLine(line: string) {
    StartsWith(line, HelpMarker)
  }

  /** One `# Help:` line as a (key, description) pair: the text after the first colon is
      cut at its first hyphen; without a hyphen the description is the fixed sentence. */
  function HelpEntry(line: string): (string, string)
    requires IsHelpLine(line)
  {
    assert line[..7][6] == ':';
    var info := SplitOnce(line, ':')[1];
    var parts := SplitOnce(info, '-');
    if |parts| == 2 then (Strip(parts[0]), Strip(parts[1]))
    else (Strip(parts[0]), NoDescription)
  }

  /** What a help line maps to, in terms of the text around its first hyphen. */
  lemma HelpEntryOf(a: string, b: string)
    requires '-' !in a
    ensures IsHelpLine(HelpMarker + a) && IsHelpLine(HelpMarker + a + "-" + b)
    ensures HelpEntry(HelpMarker + a) == (Strip(a), NoDescription)
    ensures HelpEntry(HelpMarker + a + "-" + b) == (Strip(a), Strip(b))
  {
    var name := "# Help";
    assert HelpMarker == name + [':'];
    var l1 := HelpMarker + a;
    var l2 := HelpMarker + a + "-" + b;
    assert l1[..7] == HelpMarker;
    assert l2[..7] == HelpMarker;
    SplitOnceAt(name, a, ':');
    assert l1 == name + [':'] + a;
    SplitOnceAt(name, a + "-" + b, ':');
    assert l2 == name + [':'] + (a + "-" + b);
    SplitOnceAt(a, b, '-');
    assert a + "-" + b == a + ['-'] + b;
  }

  /** The (key, description) pairs of the help lines, in file order. */
  function HelpEntries(lines: seq<string>): (es: seq<(string, string)>)
    ensures |es| <= |lines|
    decreases |lines|
  {
    if lines == [] then []
    else
      var last := lines[|lines| - 1];
      HelpEntries(lines[..|lines| - 1]) + (if IsHelpLine(last) then [HelpEntry(last)] else [])
  }

  /** The dictionary that `d[key] = desc`, applied to each pair in order, builds. */
  function EntryMap(es: seq<(string, string)>): map<string, string>
    decreases |es|
  {
    if es == [] then map[]
    else
      var e := es[|es| - 1];
      EntryMap(es[..|es| - 1])[e.0 := e.1]
  }

  /** `parse_help_info`: every help line, in file order, stored under its key. */
  function ParseHelpInfo(lines: seq<string>): map<string, string> {
    EntryMap(HelpEntries(lines))
  }

  /** One more line read: a help line overwrites its key, any other line changes nothing. */
  lemma ParseHelpInfoStep(lines: seq<string>, line: string)
    ensures ParseHelpInfo(lines + [line]) ==
      if IsHelpLine(line) then ParseHelpInfo(lines)[HelpEntry(line).0 := HelpEntry(line).1]
      else ParseHelpInfo(lines)
  {
    var all := lines + [line];
    assert all[..|lines|] == lines && all[|lines|] == line;
    var es := HelpEntries(lines);
    if IsHelpLine(line) {
      var e := HelpEntry(line);
      assert HelpEntries(all) == es + [e];
      assert (es + [e])[..|es|] == es;
    } else {
      assert HelpEntries(all) == es + [];
      assert es + [] == es;
    }
  }

  /** The keys of the dictionary are exactly the keys of the pairs fed to it. */
  lemma {:induction false} EntryMapKeys(es: seq<(string, string)>, k: string)
    ensures k in EntryMap(es) <==> exists j :: 0 <= j < |es| && es[j].0 == k
    decreases |es|
  {
    if es != [] {
      var n := |es| - 1;
      var init := es[..n];
      EntryMapKeys(init, k);
      if k in EntryMap(init) {
        var j :| 0 <= j < |init| && init[j].0 == k;
        assert es[j].0 == k;
      }
      if exists j :: 0 <= j < |es| && es[j].0 == k {
        var j :| 0 <= j < |es| && es[j].0 == k;
        if j < n {
          assert init[j].0 == k;
        }
      }
    }
  }

  /** A key's value is the one of the last pair with that key. */
  lemma {:induction false} EntryMapLast(es: seq<(string, string)>, j: int)
    requires 0 <= j < |es|
    requires forall l :: j < l < |es| ==> es[l].0 != es[j].0
    ensures es[j].0 in EntryMap(es) && EntryMap(es)[es[j].0] == es[j].1
    decreases |es|
  {
    var n := |es| - 1;
    var init := es[..n];
    if j < n {
      assert init[j] == es[j];
      forall l | j < l < |init| ensures init[l].0 != init[j].0 {
        assert init[l] == es[l];
      }
      EntryMapLast(init, j);
    }
  }

  /** The help pairs of two blocks of lines, one after the other. */
  lemma {:induction false} HelpEntriesAppend(a: seq<string>, b: seq<string>)
    ensures HelpEntries(a + b) == HelpEntries(a) + HelpEntries(b)
    decreases |b|
  {
    if b != [] {
      var n := |b| - 1;
      var init, last := b[..n], b[n];
      assert b == init + [last];
      assert a + b == (a + init) + [last];
      HelpEntriesAppend(a, init);
      HelpEntriesSnoc(a + init, last);
      HelpEntriesSnoc(init, last);
      var x := if IsHelpLine(last) then [HelpEntry(last)] else [];
      assert (HelpEntries(a) + HelpEntries(init)) + x == HelpEntries(a) + (HelpEntries(init) + x);
    } else {
      assert a + b == a;
    }
  }

  /** One more line at the end adds its pair when it is a help line. */
  lemma HelpEntriesSnoc(lines: seq<string>, line: string)
    ensures HelpEntries(lines + [line]) ==
      HelpEntries(lines) + (if IsHelpLine(line) then [HelpEntry(line)] else [])
  {
    var all := lines + [line];
    assert all[..|lines|] == lines && all[|lines|] == line;
  }

  /** Lines without a help marker contribute no pairs. */
  lemma {:induction false} NoHelpEntries(lines: seq<string>)
    requires forall j :: 0 <= j < |lines| ==> !IsHelpLine(lines[j])
    ensures HelpEntries(lines) == []
    decreases |lines|
  {
    if lines != [] {
      NoHelpEntries(lines[..|lines| - 1]);
    }
  }

  // ----- The whole descriptor, and writing one back out -----

  /** The metadata of one module file. */
  datatype Descriptor = Descriptor(
    dependencies: seq<string>,
    inputs: seq<string>,
    help: map<string, string>,
    silent: bool,
    followLog: bool,
    logfile: Option<string>)

  function ParseDescriptor(lines: seq<string>): Descriptor {
    Descriptor(
      ParseDependencies(lines),
      ParseInputs(lines),
      ParseHelpInfo(lines),
      ParseSilentFlag(lines),
      ParseFollowLogFlag(lines),
      ParseLogfilePath(lines))
  }

  /** A list item that survives the round trip: non-empty, stripped, no colon, no comma. */
  predicate ListToken(t: string) {
    t != "" && Stripped(t) && ':' !in t && ',' !in t
  }

  /** A log path that survives the round trip: non-empty, stripped, no colon. */
  predicate PathToken(t: string) {
    t != "" && Stripped(t) && ':' !in t
  }

  /** A help key that survives the round trip: non-empty, stripped, no hyphen. */
  predicate KeyToken(t: string) {
    t != "" && Stripped(t) && '-' !in t
  }

  /** A descriptor that the canonical layout can express, with `order` listing every help
      key (a key listed twice is written twice and read back once). */
  predicate Renderable(d: Descriptor, order: seq<string>) {
    && (forall k :: 0 <= k < |d.dependencies| ==> ListToken(d.dependencies[k]))
    && (forall k :: 0 <= k < |d.inputs| ==> ListToken(d.inputs[k]))
    && (d.logfile.Some? ==> PathToken(d.logfile.value))
    && (forall k :: k in d.help ==> KeyToken(k) && d.help[k] != "" && Stripped(d.help[k]))
    && (forall k :: k in d.help ==> k in order)
    && (forall k :: k in order ==> k in d.help)
  }

  function RenderList(f: Field, xs: seq<string>): seq<string> {
    if xs == [] then [] else [Marker(f) + (" " + Join(xs, ','))]
  }

  function FlagWord(b: bool): string {
    if b then "true" else "false"
  }

  function RenderFlag(f: Field, b: bool): seq<string> {
    [Marker(f) + (" " + FlagWord(b))]
  }

  function RenderLogfile(p: Option<string>): seq<string> {
    match p
    case None => []
    case Some(x) => [LogfileMarker + (" " + x)]
  }

  /** `# Help: <key> - <description>`. */
  function HelpLine(k: string, v: string): string {
    HelpMarker + (" " + k + " ") + "-" + (" " + v)
  }

  /** One help line per key of `order`, in that order. */
  function RenderHelp(help: map<string, string>, order: seq<string>): (lines: seq<string>)
    requires forall k :: k in order ==> k in help
    ensures |lines| == |order|
    decreases |order|
  {
    if order == [] then []
    else
      var k := order[|order| - 1];
      RenderHelp(help, order[..|order| - 1]) + [HelpLine(k, help[k])]
  }

  /** The canonical module header for a descriptor: one marker line per field, help last. */
  function Render(d: Descriptor, order: seq<string>): seq<string>
    requires forall k :: k in order ==> k in d.help
  {
    RenderFields(d) + RenderHelp(d.help, order)
  }

  /** The header lines before the help lines. */
  function RenderFields(d: Descriptor): seq<string> {
    RenderList(Dependencies, d.dependencies) + RenderList(Inputs, d.inputs)
    + RenderFlag(Silent, d.silent) + RenderFlag(FollowLog, d.followLog)
    + RenderLogfile(d.logfile)
  }

  /** Each line starts with the marker of its tag. */
  predicate Tagged(lines: seq<string>, tags: seq<Field>) {
    |lines| == |tags| && forall j :: 0 <= j < |lines| ==> StartsWith(lines[j], Marker(tags[j]))
  }

  lemma TaggedAppend(l1: seq<string>, t1: seq<Field>, l2: seq<string>, t2: seq<Field>)
    requires Tagged(l1, t1) && Tagged(l2, t2)
    ensures Tagged(l1 + l2, t1 + t2)
  {
    forall j | 0 <= j < |l1 + l2| ensures StartsWith((l1 + l2)[j], Marker((t1 + t2)[j])) {
      if j >= |l1| {
        assert (l1 + l2)[j] == l2[j - |l1|];
      }
    }
  }

  lemma StartsWithMarker(f: Field, rest: string)
    ensures StartsWith(Marker(f) + rest, Marker(f))
  {
    assert (Marker(f) + rest)[..|Marker(f)|] == Marker(f);
  }

  /** Which field each line of `RenderFields` belongs to. */
  function FieldTags(d: Descriptor): seq<Field> {
    ListTags(Dependencies, d.dependencies) + ListTags(Inputs, d.inputs)
    + [Silent, FollowLog] + LogfileTags(d.logfile)
  }

  /** A list field has a line only when the list is not empty. */
  function ListTags(f: Field, xs: seq<string>): seq<Field> {
    if xs == [] then [] else [f]
  }

  function LogfileTags(p: Option<string>): seq<Field> {
    if p.None? then [] else [Logfile]
  }

  lemma ListTagged(f: Field, xs: seq<string>)
    ensures Tagged(RenderList(f, xs), ListTags(f, xs))
  {
    if xs != [] {
      StartsWithMarker(f, " " + Join(xs, ','));
    }
  }

  lemma FlagsTagged(silent: bool, followLog: bool)
    ensures Tagged(RenderFlag(Silent, silent) + RenderFlag(FollowLog, followLog), [Silent, FollowLog])
  {
    StartsWithMarker(Silent, " " + FlagWord(silent));
    StartsWithMarker(FollowLog, " " + FlagWord(followLog));
  }

  lemma LogfileTagged(p: Option<string>)
    ensures Tagged(RenderLogfile(p), LogfileTags(p))
  {
    if p.Some? {
      StartsWithMarker(Logfile, " " + p.value);
    }
  }

  lemma FieldsTagged(d: Descriptor)
    ensures Tagged(RenderFields(d), FieldTags(d))
  {
    var l1, t1 := RenderList(Dependencies, d.dependencies), ListTags(Dependencies, d.dependencies);
    var l2, t2 := RenderList(Inputs, d.inputs), ListTags(Inputs, d.inputs);
    var l3, t3 := RenderFlag(Silent, d.silent) + RenderFlag(FollowLog, d.followLog), [Silent, FollowLog];
    var l4, t4 := RenderLogfile(d.logfile), LogfileTags(d.logfile);
    ListTagged(Dependencies, d.dependencies);
    ListTagged(Inputs, d.inputs);
    FlagsTagged(d.silent, d.followLog);
    LogfileTagged(d.logfile);
    TaggedAppendFour(l1, t1, l2, t2, l3, t3, l4, t4);
  }

  lemma TaggedAppendFour(l1: seq<string>, t1: seq<Field>, l2: seq<string>, t2: seq<Field>,
                         l3: seq<string>, t3: seq<Field>, l4: seq<string>, t4: seq<Field>)
    requires Tagged(l1, t1) && Tagged(l2, t2) && Tagged(l3, t3) && Tagged(l4, t4)
    ensures Tagged(l1 + l2 + l3 + l4, t1 + t2 + t3 + t4)
  {
    TaggedAppend(l1, t1, l2, t2);
    TaggedAppend(l1 + l2, t1 + t2, l3, t3);
    TaggedAppend(l1 + l2 + l3, t1 + t2 + t3, l4, t4);
  }

  /** Line `i` of a tagged block is the first line with the marker of `f` as soon as
      it is the first line tagged `f`. */
  lemma FirstTagged(lines: seq<string>, tags: seq<Field>, f: Field, i: int)
    requires Tagged(lines, tags)
    requires 0 <= i < |tags| && tags[i] == f && forall j :: 0 <= j < i ==> tags[j] != f
    ensures FirstMarkerLineAt(lines, Marker(f), i)
  {
    forall j | 0 <= j < i ensures !StartsWith(lines[j], Marker(f)) {
      if StartsWith(lines[j], Marker(f)) {
        MarkersExclusive(lines[j], f, tags[j]);
      }
    }
  }

  lemma Untagged(lines: seq<string>, tags: seq<Field>, f: Field)
    requires Tagged(lines, tags)
    requires forall j :: 0 <= j < |tags| ==> tags[j] != f
    ensures NoMarkerLine(lines, Marker(f))
  {
    forall j | 0 <= j < |lines| ensures !StartsWith(lines[j], Marker(f)) {
      if StartsWith(lines[j], Marker(f)) {
        MarkersExclusive(lines[j], f, tags[j]);
      }
    }
  }

  /** Text that ends in a non-blank is its own `rstrip`. */
  lemma RStripNoTrailing(v: string)
    requires v != [] && !IsSpace(v[|v| - 1])
    ensures RStrip(v) == v
  {
  }

  /** A comma list of list tokens ends with a character that is not a blank. */
  lemma JoinLastNotSpace(xs: seq<string>)
    requires xs != [] && forall k :: 0 <= k < |xs| ==> ListToken(xs[k])
    ensures Join(xs, ',') != [] && !IsSpace(Join(xs, ',')[|Join(xs, ',')| - 1])
  {
    JoinEndsWithLast(xs, ',');
    var j := Join(xs, ',');
    var last := xs[|xs| - 1];
    assert ListToken(last);
    assert j[|j| - |last|..] == last;
    assert j[|j| - 1] == last[|last| - 1];
  }

  /** The text after the marker of a list line: no colon, no trailing blank. */
  lemma ListText(xs: seq<string>)
    requires xs != [] && forall k :: 0 <= k < |xs| ==> ListToken(xs[k])
    ensures ':' !in " " + Join(xs, ',')
    ensures RStrip(" " + Join(xs, ',')) == " " + Join(xs, ',')
  {
    var j := Join(xs, ',');
    var v := " " + j;
    JoinExcludes(xs, ',', ':');
    assert ':' !in v by {
      assert forall c :: c in v ==> c == ' ' || c in j;
    }
    JoinLastNotSpace(xs);
    assert v[|v| - 1] == j[|j| - 1];
    RStripNoTrailing(v);
  }

  /** A value without colons or trailing blanks reads back whole. */
  lemma MarkerValueExact(m: string, v: string)
    requires MarkerLike(m) && ':' !in v && RStrip(v) == v
    ensures StartsWith(m + v, m)
    ensures MarkerValue(m + v, m) == v
  {
    MarkerValueWhole(m, v);
  }

  /** The value of a line `<marker> <x0>,<x1>,...` is the text after the marker. */
  lemma ListLineText(m: string, xs: seq<string>)
    requires MarkerLike(m)
    requires xs != [] && forall k :: 0 <= k < |xs| ==> ListToken(xs[k])
    ensures StartsWith(m + (" " + Join(xs, ',')), m)
    ensures MarkerValue(m + (" " + Join(xs, ',')), m) == " " + Join(xs, ',')
  {
    ListText(xs);
    MarkerValueExact(m, " " + Join(xs, ','));
  }

  /** A list line reads back as the items it was written from. */
  lemma ListLineValue(m: string, xs: seq<string>)
    requires MarkerLike(m)
    requires xs != [] && forall k :: 0 <= k < |xs| ==> ListToken(xs[k])
    ensures StartsWith(m + (" " + Join(xs, ',')), m)
    ensures ListValue(m + (" " + Join(xs, ',')), m) == xs
  {
    ListLineText(m, xs);
    ListPartsStrip(xs);
  }

  /** Splitting ` <x0>,<x1>,...` at its commas gives the items, the first one padded. */
  lemma SplitPaddedList(xs: seq<string>)
    requires xs != [] && forall k :: 0 <= k < |xs| ==> ListToken(xs[k])
    ensures Split(" " + Join(xs, ','), ',') == [" " + xs[0]] + xs[1..]
  {
    SplitJoin(xs, ',');
    SplitAddPrefix(" ", Join(xs, ','), ',');
  }

  /** Stripping each piece removes the padding again. */
  lemma StripEachPadded(xs: seq<string>)
    requires xs != [] && forall k :: 0 <= k < |xs| ==> ListToken(xs[k])
    ensures StripEach([" " + xs[0]] + xs[1..]) == xs
  {
    var parts := [" " + xs[0]] + xs[1..];
    var r := StripEach(parts);
    forall k | 0 <= k < |xs| ensures r[k] == xs[k] {
      StripPadded(xs[k]);
      if k > 0 {
        assert parts[k] == xs[k];
      }
    }
  }

  /** Splitting ` <x0>,<x1>,...` at its commas and stripping each piece gives the items. */
  lemma ListPartsStrip(xs: seq<string>)
    requires xs != [] && forall k :: 0 <= k < |xs| ==> ListToken(xs[k])
    ensures StripEach(Split(" " + Join(xs, ','), ',')) == xs
  {
    SplitPaddedList(xs);
    StripEachPadded(xs);
  }

  /** The stripped value of a line `<marker> <word>` is the word. */
  lemma WordLineValue(m: string, word: string)
    requires MarkerLike(m) && word != [] && Stripped(word) && ':' !in word
    ensures StartsWith(m + (" " + word), m)
    ensures Strip(MarkerValue(m + (" " + word), m)) == word
  {
    var v := " " + word;
    assert ':' !in v;
    RStripNoTrailing(v);
    MarkerValueExact(m, v);
    StripPadded(word);
  }

  /** A flag line `<marker> <word>` is set exactly when the word lower-cases to "true". */
  lemma FlagLineValue(m: string, word: string)
    requires MarkerLike(m) && word != [] && Stripped(word) && ':' !in word
    ensures StartsWith(m + (" " + word), m)
    ensures FlagValue(m + (" " + word), m) <==> Lower(word) == "true"
  {
    WordLineValue(m, word);
  }

  lemma PathLineValue(p: string)
    requires PathToken(p)
    ensures StartsWith(LogfileMarker + (" " + p), LogfileMarker)
    ensures Strip(MarkerValue(LogfileMarker + (" " + p), LogfileMarker)) == p
  {
    MarkerShape(Logfile);
    WordLineValue(LogfileMarker, p);
  }

  lemma FlagWordValue(b: bool)
    ensures FlagWord(b) != [] && Stripped(FlagWord(b)) && ':' !in FlagWord(b)
    ensures Lower(FlagWord(b)) == "true" <==> b
  {
    LowerIsTrue(FlagWord(b));
  }

  lemma HelpLineValue(k: string, v: string)
    requires KeyToken(k) && v != "" && Stripped(v)
    ensures IsHelpLine(HelpLine(k, v)) && HelpEntry(HelpLine(k, v)) == (k, v)
  {
    var a := " " + k + " ";
    assert '-' !in a;
    HelpEntryOf(a, " " + v);
    StripPadded(k);
    StripPadded(v);
  }

  /** The pairs `(k, help[k])` for the keys of `order`, in that order. */
  function HelpPairs(help: map<string, string>, order: seq<string>): (es: seq<(string, string)>)
    requires forall k :: k in order ==> k in help
    ensures |es| == |order|
    decreases |order|
  {
    if order == [] then []
    else
      var k := order[|order| - 1];
      HelpPairs(help, order[..|order| - 1]) + [(k, help[k])]
  }

  /** A single help line read on its own gives its own pair. */
  lemma OneHelpLine(k: string, v: string)
    requires KeyToken(k) && v != "" && Stripped(v)
    ensures HelpEntries([HelpLine(k, v)]) == [(k, v)]
  {
    HelpLineValue(k, v);
    var one := [HelpLine(k, v)];
    assert one[..0] == [];
  }

  /** Rendered help lines read back as the rendered pairs. */
  lemma {:induction false} RenderHelpEntries(help: map<string, string>, order: seq<string>)
    requires forall k :: k in order ==> k in help
    requires forall k :: k in help ==> KeyToken(k) && help[k] != "" && Stripped(help[k])
    ensures HelpEntries(RenderHelp(help, order)) == HelpPairs(help, order)
    decreases |order|
  {
    if order != [] {
      var n := |order| - 1;
      var k := order[n];
      RenderHelpEntries(help, order[..n]);
      OneHelpLine(k, help[k]);
      HelpEntriesAppend(RenderHelp(help, order[..n]), [HelpLine(k, help[k])]);
    }
  }

  /** Every rendered help line carries the help marker. */
  lemma {:induction false} RenderHelpMarked(help: map<string, string>, order: seq<string>)
    requires forall k :: k in order ==> k in help
    ensures forall j :: 0 <= j < |order| ==> IsHelpLine(RenderHelp(help, order)[j])
    decreases |order|
  {
    if order != [] {
      var n := |order| - 1;
      var k := order[n];
      var init := RenderHelp(help, order[..n]);
      RenderHelpMarked(help, order[..n]);
      assert IsHelpLine(HelpLine(k, help[k])) by {
        assert HelpLine(k, help[k]) == HelpMarker + ((" " + k + " ") + "-" + (" " + help[k]));
        StartsWithMarker(Help, (" " + k + " ") + "-" + (" " + help[k]));
      }
      forall j | 0 <= j < |order| ensures IsHelpLine(RenderHelp(help, order)[j]) {
        if j < n {
          assert RenderHelp(help, order)[j] == init[j];
        }
      }
    }
  }

  /** Feeding the pairs of `order` builds `help` restricted to the keys of `order`. */
  lemma {:induction false} EntryMapPairs(help: map<string, string>, order: seq<string>)
    requires forall k :: k in order ==> k in help
    ensures EntryMap(HelpPairs(help, order)) == map k | k in order :: help[k]
    decreases |order|
  {
    if order != [] {
      var n := |order| - 1;
      var k := order[n];
      var es := HelpPairs(help, order[..n]);
      EntryMapPairs(help, order[..n]);
      EntryMapAppend(es, (k, help[k]));
      RestrictStep(help, order);
    }
  }

  lemma EntryMapAppend(es: seq<(string, string)>, e: (string, string))
    ensures EntryMap(es + [e]) == EntryMap(es)[e.0 := e.1]
  {
    assert (es + [e])[..|es|] == es;
  }

  /** Restricting to one more key adds that key's entry. */
  lemma RestrictStep(help: map<string, string>, order: seq<string>)
    requires order != [] && forall k :: k in order ==> k in help
    ensures var n := |order| - 1;
      (map x | x in order :: help[x]) == (map x | x in order[..n] :: help[x])[order[n] := help[order[n]]]
  {
    var n := |order| - 1;
    assert forall x :: x in order <==> x in order[..n] || x == order[n];
  }

  /** Help lines carry the help marker only, so they never shadow another field. */
  lemma HelpTagged(help: map<string, string>, order: seq<string>)
    requires forall k :: k in order ==> k in help
    requires forall k :: k in help ==> KeyToken(k) && help[k] != "" && Stripped(help[k])
    ensures Tagged(RenderHelp(help, order), seq(|order|, _ => Help))
  {
    RenderHelpMarked(help, order);
  }

  /** No field line is a help line. */
  lemma FieldsNotHelp(d: Descriptor)
    ensures forall j :: 0 <= j < |RenderFields(d)| ==> !IsHelpLine(RenderFields(d)[j])
  {
    var fields := RenderFields(d);
    var tags := FieldTags(d);
    FieldsTagged(d);
    FieldTagsAt(d);
    forall j | 0 <= j < |fields| ensures !IsHelpLine(fields[j]) {
      if IsHelpLine(fields[j]) {
        MarkersExclusive(fields[j], Help, tags[j]);
      }
    }
  }

  /** Restricting a map to a list of all its keys gives the map back. */
  lemma RestrictToAllKeys(help: map<string, string>, order: seq<string>)
    requires forall k :: k in help <==> k in order
    ensures (map k | k in order :: help[k]) == help
  {
  }

  /** Lines without help markers in front of a block leave the block's pairs alone. */
  lemma HelpAfterOthers(others: seq<string>, block: seq<string>)
    requires forall j :: 0 <= j < |others| ==> !IsHelpLine(others[j])
    ensures HelpEntries(others + block) == HelpEntries(block)
  {
    NoHelpEntries(others);
    HelpEntriesAppend(others, block);
    assert [] + HelpEntries(block) == HelpEntries(block);
  }

  /** The rendered help lines read back as the rendered pairs, whatever precedes them. */
  lemma RenderedHelpEntries(d: Descriptor, order: seq<string>)
    requires Renderable(d, order)
    ensures HelpEntries(Render(d, order)) == HelpPairs(d.help, order)
  {
    FieldsNotHelp(d);
    HelpAfterOthers(RenderFields(d), RenderHelp(d.help, order));
    RenderHelpEntries(d.help, order);
  }

  lemma ParseRenderHelp(d: Descriptor, order: seq<string>)
    requires Renderable(d, order)
    ensures ParseHelpInfo(Render(d, order)) == d.help
  {
    RenderedHelpEntries(d, order);
    EntryMapPairs(d.help, order);
    RestrictToAllKeys(d.help, order);
  }

  /** All rendered lines, tagged: the fields' tags, then one `Help` per help line. */
  function AllTags(d: Descriptor, order: seq<string>): seq<Field> {
    FieldTags(d) + seq(|order|, _ => Help)
  }

  lemma RenderAllTagged(d: Descriptor, order: seq<string>)
    requires Renderable(d, order)
    ensures Tagged(Render(d, order), AllTags(d, order))
  {
    FieldsTagged(d);
    HelpTagged(d.help, order);
    TaggedAppend(RenderFields(d), FieldTags(d), RenderHelp(d.help, order), seq(|order|, _ => Help));
  }

  /** Where each field's line sits among the rendered lines. */
  function InputsAt(d: Descriptor): nat {
    if d.dependencies == [] then 0 else 1
  }

  function SilentAt(d: Descriptor): nat {
    InputsAt(d) + (if d.inputs == [] then 0 else 1)
  }

  lemma FieldLines(d: Descriptor)
    ensures |RenderFields(d)| == SilentAt(d) + 2 + (if d.logfile.None? then 0 else 1)
    ensures d.dependencies != [] ==>
      RenderFields(d)[0] == DependenciesMarker + (" " + Join(d.dependencies, ','))
    ensures d.inputs != [] ==>
      RenderFields(d)[InputsAt(d)] == InputsMarker + (" " + Join(d.inputs, ','))
    ensures RenderFields(d)[SilentAt(d)] == SilentMarker + (" " + FlagWord(d.silent))
    ensures RenderFields(d)[SilentAt(d) + 1] == FollowLogMarker + (" " + FlagWord(d.followLog))
    ensures d.logfile.Some? ==>
      RenderFields(d)[SilentAt(d) + 2] == LogfileMarker + (" " + d.logfile.value)
  {
  }

  lemma FieldTagsAt(d: Descriptor)
    ensures |FieldTags(d)| == SilentAt(d) + 2 + (if d.logfile.None? then 0 else 1)
    ensures forall j :: 0 <= j < |FieldTags(d)| ==> FieldTags(d)[j] != Help
    ensures d.dependencies != [] ==> FieldTags(d)[0] == Dependencies
    ensures forall j :: 0 <= j < |FieldTags(d)| && FieldTags(d)[j] == Dependencies ==> j == 0
    ensures d.inputs != [] ==> FieldTags(d)[InputsAt(d)] == Inputs
    ensures forall j :: 0 <= j < |FieldTags(d)| && FieldTags(d)[j] == Inputs ==> j == InputsAt(d)
    ensures FieldTags(d)[SilentAt(d)] == Silent
    ensures forall j :: 0 <= j < |FieldTags(d)| && FieldTags(d)[j] == Silent ==> j == SilentAt(d)
    ensures FieldTags(d)[SilentAt(d) + 1] == FollowLog
    ensures forall j :: 0 <= j < |FieldTags(d)| && FieldTags(d)[j] == FollowLog ==> j == SilentAt(d) + 1
    ensures d.logfile.Some? ==> FieldTags(d)[SilentAt(d) + 2] == Logfile
    ensures forall j :: 0 <= j < |FieldTags(d)| && FieldTags(d)[j] == Logfile ==> j == SilentAt(d) + 2
  {
  }

  /** The rendered lines begin with the field lines. */
  lemma RenderPrefix(d: Descriptor, order: seq<string>, j: int)
    requires forall k :: k in order ==> k in d.help
    requires 0 <= j < |RenderFields(d)|
    ensures Render(d, order)[j] == RenderFields(d)[j]
  {
  }

  /** The first line with marker `f` among the rendered lines, read from the tags. */
  lemma RenderFirst(d: Descriptor, order: seq<string>, f: Field, i: int)
    requires Renderable(d, order)
    requires f != Help && 0 <= i < |FieldTags(d)| && FieldTags(d)[i] == f
    requires forall j :: 0 <= j < |FieldTags(d)| && FieldTags(d)[j] == f ==> j == i
    ensures FirstMarkerLineAt(Render(d, order), Marker(f), i)
  {
    var tags := AllTags(d, order);
    RenderAllTagged(d, order);
    forall j | 0 <= j < i ensures tags[j] != f {
      assert tags[j] == FieldTags(d)[j];
    }
    FirstTagged(Render(d, order), tags, f, i);
  }

  /** A field that is not rendered has no line at all. */
  lemma RenderAbsent(d: Descriptor, order: seq<string>, f: Field)
    requires Renderable(d, order)
    requires f != Help && forall j :: 0 <= j < |FieldTags(d)| ==> FieldTags(d)[j] != f
    ensures NoMarkerLine(Render(d, order), Marker(f))
  {
    var tags := AllTags(d, order);
    RenderAllTagged(d, order);
    Untagged(Render(d, order), tags, f);
  }

  /** A first list line written from `xs` is read back as `xs`. */
  lemma ParseListAt(lines: seq<string>, m: string, i: int, xs: seq<string>)
    requires MarkerLike(m) && FirstMarkerLineAt(lines, m, i)
    requires xs != [] && forall k :: 0 <= k < |xs| ==> ListToken(xs[k])
    requires lines[i] == m + (" " + Join(xs, ','))
    ensures ParseList(lines, m) == xs
  {
    ListLineValue(m, xs);
  }

  /** A first flag line written from `b` is read back as `b`. */
  lemma ParseFlagAt(lines: seq<string>, m: string, i: int, b: bool)
    requires MarkerLike(m) && FirstMarkerLineAt(lines, m, i)
    requires lines[i] == m + (" " + FlagWord(b))
    ensures ParseFlag(lines, m) == b
  {
    FlagWordValue(b);
    FlagLineValue(m, FlagWord(b));
  }

  lemma ParseRenderDependencies(d: Descriptor, order: seq<string>)
    requires Renderable(d, order)
    ensures ParseDependencies(Render(d, order)) == d.dependencies
  {
    MarkerShape(Dependencies);
    FieldTagsAt(d);
    if d.dependencies == [] {
      RenderAbsent(d, order, Dependencies);
    } else {
      RenderFirst(d, order, Dependencies, 0);
      FieldLines(d);
      RenderPrefix(d, order, 0);
      ParseListAt(Render(d, order), DependenciesMarker, 0, d.dependencies);
    }
  }

  lemma ParseRenderInputs(d: Descriptor, order: seq<string>)
    requires Renderable(d, order)
    ensures ParseInputs(Render(d, order)) == d.inputs
  {
    MarkerShape(Inputs);
    FieldTagsAt(d);
    if d.inputs == [] {
      RenderAbsent(d, order, Inputs);
    } else {
      var i := InputsAt(d);
      RenderFirst(d, order, Inputs, i);
      FieldLines(d);
      RenderPrefix(d, order, i);
      ParseListAt(Render(d, order), InputsMarker, i, d.inputs);
    }
  }

  lemma ParseRenderSilent(d: Descriptor, order: seq<string>)
    requires Renderable(d, order)
    ensures ParseSilentFlag(Render(d, order)) == d.silent
  {
    MarkerShape(Silent);
    FieldTagsAt(d);
    var i := SilentAt(d);
    RenderFirst(d, order, Silent, i);
    FieldLines(d);
    RenderPrefix(d, order, i);
    ParseFlagAt(Render(d, order), SilentMarker, i, d.silent);
  }

  lemma ParseRenderFollowLog(d: Descriptor, order: seq<string>)
    requires Renderable(d, order)
    ensures ParseFollowLogFlag(Render(d, order)) == d.followLog
  {
    MarkerShape(FollowLog);
    FieldTagsAt(d);
    var i := SilentAt(d) + 1;
    RenderFirst(d, order, FollowLog, i);
    FieldLines(d);
    RenderPrefix(d, order, i);
    ParseFlagAt(Render(d, order), FollowLogMarker, i, d.followLog);
  }

  lemma ParseRenderLogfile(d: Descriptor, order: seq<string>)
    requires Renderable(d, order)
    ensures ParseLogfilePath(Render(d, order)) == d.logfile
  {
    MarkerShape(Logfile);
    FieldTagsAt(d);
    if d.logfile.None? {
      RenderAbsent(d, order, Logfile);
    } else {
      var i := SilentAt(d) + 2;
      RenderFirst(d, order, Logfile, i);
      FieldLines(d);
      RenderPrefix(d, order, i);
      PathLineValue(d.logfile.value);
    }
  }

  /** Every field of a renderable descriptor reads back as written: list items trimmed,
      flags and the log path after their markers, and each help key to its description. */
  lemma ParseRender(d: Descriptor, order: seq<string>)
    requires Renderable(d, order)
    ensures ParseDescriptor(Render(d, order)) == d
  {
    ParseRenderDependencies(d, order);
    ParseRenderInputs(d, order);
    ParseRenderSilent(d, order);
    ParseRenderFollowLog(d, order);
    ParseRenderLogfile(d, order);
    ParseRenderHelp(d, order);
  }

  // ----- The parsers as the source runs them: one pass over the file's lines -----

  /** `for line in file: if line.startswith(marker): ...`, stopping at the first hit. */
  method ScanForMarker(lines: seq<string>, m: string) returns (r: Option<nat>)
    ensures r == FirstMarkerLine(lines, m)
  {
    var i := 0;
    while i < |lines|
      invariant 0 <= i <= |lines|
      invariant forall j :: 0 <= j < i ==> !StartsWith(lines[j], m)
    {
      if StartsWith(lines[i], m) {
        return Some(i);
      }
      i := i + 1;
    }
    return None;
  }

  /** `parse_dependencies` / `parse_inputs`: the first marker line's comma list. */
  method ReadList(lines: seq<string>, m: string) returns (items: seq<string>)
    requires MarkerLike(m)
    ensures items == ParseList(lines, m)
  {
    var at := ScanForMarker(lines, m);
    match at
    case None =>
      items := [];
    case Some(i) =>
      items := StripAll(Split(MarkerValue(lines[i], m), ','));
  }

  /** `parse_dependencies`. */
  method ReadDependencies(lines: seq<string>) returns (deps: seq<string>)
    ensures deps == ParseDependencies(lines)
  {
    MarkerShape(Dependencies);
    deps := ReadList(lines, DependenciesMarker);
  }

  /** `parse_inputs`. */
  method ReadInputs(lines: seq<string>) returns (inputs: seq<string>)
    ensures inputs == ParseInputs(lines)
  {
    MarkerShape(Inputs);
    inputs := ReadList(lines, InputsMarker);
  }

  /** `[t.strip() for t in tokens]`. */
  method StripAll(tokens: seq<string>) returns (items: seq<string>)
    ensures items == StripEach(tokens)
  {
    items := [];
    var k := 0;
    while k < |tokens|
      invariant 0 <= k <= |tokens|
      invariant |items| == k
      invariant forall j :: 0 <= j < k ==> items[j] == Strip(tokens[j])
    {
      items := items + [Strip(tokens[k])];
      k := k + 1;
    }
  }

  /** `parse_silent_flag` / `parse_follow_log_flag`: the first marker line decides. */
  method ReadFlag(lines: seq<string>, m: string) returns (b: bool)
    requires MarkerLike(m)
    ensures b == ParseFlag(lines, m)
  {
    var at := ScanForMarker(lines, m);
    match at
    case None =>
      b := false;
    case Some(i) =>
      b := Lower(Strip(MarkerValue(lines[i], m))) == "true";
  }

  /** `parse_silent_flag`. */
  method ReadSilentFlag(lines: seq<string>) returns (silent: bool)
    ensures silent == ParseSilentFlag(lines)
  {
    MarkerShape(Silent);
    silent := ReadFlag(lines, SilentMarker);
  }

  /** `parse_follow_log_flag`. */
  method ReadFollowLogFlag(lines: seq<string>) returns (follow: bool)
    ensures follow == ParseFollowLogFlag(lines)
  {
    MarkerShape(FollowLog);
    follow := ReadFlag(lines, FollowLogMarker);
  }

  /** `parse_logfile_path`: the first `# Logfile:` line's stripped value, if any. */
  method ReadLogfilePath(lines: seq<string>) returns (path: Option<string>)
    ensures path == ParseLogfilePath(lines)
  {
    MarkerShape(Logfile);
    var at := ScanForMarker(lines, LogfileMarker);
    match at
    case None =>
      path := None;
    case Some(i) =>
      path := Some(Strip(MarkerValue(lines[i], LogfileMarker)));
  }

  /** `parse_help_info`: every help line, in file order, stored under its key. */
  method ReadHelpInfo(lines: seq<string>) returns (help: map<string, string>)
    ensures help == ParseHelpInfo(lines)
  {
    help := map[];
    var i := 0;
    while i < |lines|
      invariant 0 <= i <= |lines|
      invariant help == ParseHelpInfo(lines[..i])
    {
      var line := lines[i];
      ParseHelpInfoStep(lines[..i], line);
      assert lines[..i + 1] == lines[..i] + [line];
      if IsHelpLine(line) {
        var e := HelpEntry(line);
        help := help[e.0 := e.1];
      }
      i := i + 1;
    }
    assert lines[..i] == lines;
  }
}
