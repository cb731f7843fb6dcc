/** The agent-file converter: two front-matter printers, the body extractor that has to
    undo them, and the write and drift-check passes over a file store. */
module AgentFiles {
  import opened Wrappers
  import opened Text
  import Sorting
  import opened LineWrap

  // ----- Configuration -----------------------------------------------------------------

  /** A value inside a nested dictionary: an empty dictionary, or anything else as printed. */
  datatype Nested = EmptyDict | Rendered(text: string)

  /** A front-matter value, by the Python type that the printers dispatch on. */
  datatype Value =
    | Bool(flag: bool)
    | Int(number: int)
    | Str(text: string)
    | List(items: seq<string>)
    | Dict(entries: seq<(string, Nested)>)
    | Unsupported

  type Frontmatter = seq<(string, Value)>

  datatype ToolConfig = ToolConfig(output: string, frontmatter: Frontmatter, body: Option<string>)

  datatype Persona = Persona(canonical: string, claude: ToolConfig, cursor: ToolConfig)

  datatype Tool = Claude | Cursor

  datatype Job = Job(canonical: string, tool: Tool, config: ToolConfig)

  const DASHES := "---"

  // ----- Front-matter printers ---------------------------------------------------------

  function Digit(d: nat): char
    requires d < 10
  {
    "0123456789"[d]
  }

  function Decimal(n: int): string
    decreases n < 0, if n < 0 then -n else n
  {
    if n < 0 then "-" + Decimal(-n)
    else if n < 10 then [Digit(n)]
    else Decimal(n / 10) + [Digit(n % 10)]
  }

  function Prefixed(prefix: string, lines: seq<string>): seq<string> {
    if lines == [] then []
    else Prefixed(prefix, lines[..|lines| - 1]) + [prefix + lines[|lines| - 1]]
  }

  /** `str.split("\n")`. */
  function SplitLines(s: string): (lines: seq<string>)
    ensures lines != []
  {
    if s == "" then [""]
    else
      var before, c := SplitLines(s[..|s| - 1]), s[|s| - 1];
      var last := |before| - 1;
      if c == '\n' then before + [""] else before[..last] + [before[last] + [c]]
  }

  /** Splitting at line breaks loses nothing and leaves none. */
  lemma {:induction false} SplitLinesJoins(s: string)
    ensures Join("\n", SplitLines(s)) == s
    ensures forall l :: l in SplitLines(s) ==> '\n' !in l
  {
    if s != "" {
      var init, c := s[..|s| - 1], s[|s| - 1];
      SplitLinesJoins(init);
      var before := SplitLines(init);
      assert s == init + [c];
      if c == '\n' {
        JoinNewLine(before);
      } else {
        var front, last := before[..|before| - 1], before[|before| - 1];
        assert before == front + [last] && last in before;
        JoinLonger(front, last, c);
      }
    }
  }

  lemma JoinSnoc(sep: string, init: seq<string>, last: string)
    ensures Join(sep, init + [last]) == if init == [] then last else Join(sep, init) + sep + last
  {
    assert (init + [last])[..|init|] == init;
  }

  lemma JoinNewLine(lines: seq<string>)
    requires lines != []
    ensures Join("\n", lines + [""]) == Join("\n", lines) + ['\n']
  {
    JoinSnoc("\n", lines, "");
  }

  lemma JoinLonger(init: seq<string>, last: string, c: char)
    ensures Join("\n", init + [last + [c]]) == Join("\n", init + [last]) + [c]
  {
    JoinSnoc("\n", init, last);
    JoinSnoc("\n", init, last + [c]);
    Regroup(Join("\n", init) + "\n", last, [c]);
  }

  function NestedLines(entries: seq<(string, Nested)>): seq<string> {
    if entries == [] then []
    else
      var (k, v) := entries[|entries| - 1];
      NestedLines(entries[..|entries| - 1])
      + ["  " + k + ": " + (if v.EmptyDict? then "{}" else v.text)]
  }

  function KeyLine(key: string): string {
    key + ":"
  }

  function FoldedLine(key: string): string {
    key + ": >-"
  }

  function PlainLine(key: string, s: string): string {
    key + ": " + s
  }

  function QuotedLine(key: string, s: string): string {
    key + ": \"" + s + "\""
  }

  function BoolLine(key: string, b: bool): string {
    key + ": " + (if b then "true" else "false")
  }

  function ClaudeEntry(key: string, value: Value): seq<string> {
    match value
    case Bool(b) => [BoolLine(key, b)]
    case Int(n) => [PlainLine(key, Decimal(n))]
    case Str(s) =>
      if '\n' in s then [FoldedLine(key)] + Prefixed("  ", SplitLines(s))
      else if |s| > 80 then [FoldedLine(key)] + Prefixed("  ", Wrapped(s, 76))
      else [PlainLine(key, s)]
    case List(items) => [KeyLine(key)] + Prefixed("  - ", items)
    case Dict(entries) => [KeyLine(key)] + NestedLines(entries)
    case Unsupported => []
  }

  function Quoted(items: seq<string>): seq<string> {
    if items == [] then []
    else Quoted(items[..|items| - 1]) + ["\"" + items[|items| - 1] + "\""]
  }

  function CursorEntry(key: string, value: Value): seq<string> {
    match value
    case Bool(b) => [BoolLine(key, b)]
    case Str(s) => [QuotedLine(key, s)]
    case List(items) => [KeyLine(key)] + Prefixed("  - ", Quoted(items))
    case _ => []
  }

  function Entry(tool: Tool, key: string, value: Value): seq<string> {
    if tool == Claude then ClaudeEntry(key, value) else CursorEntry(key, value)
  }

  function Entries(tool: Tool, config: Frontmatter): seq<string> {
    if config == [] then []
    else
      var (key, value) := config[|config| - 1];
      Entries(tool, config[..|config| - 1]) + Entry(tool, key, value)
  }

  /** The printed front matter of a tool. */
  function FrontmatterText(tool: Tool, config: Frontmatter): string {
    Join("\n", FrontmatterLines(tool, config) + [DASHES])
  }

  function FrontmatterLines(tool: Tool, config: Frontmatter): seq<string> {
    [DASHES] + Entries(tool, config)
  }

  method AppendPrefixed(lines: seq<string>, prefix: string, items: seq<string>) returns (r: seq<string>)
    ensures r == lines + Prefixed(prefix, items)
  {
    r := lines;
    for i := 0 to |items|
      invariant r == lines + Prefixed(prefix, items[..i])
    {
      assert items[..i + 1][..i] == items[..i];
      r := r + [prefix + items[i]];
    }
    assert items[..|items|] == items;
  }

  method AppendNested(lines: seq<string>, entries: seq<(string, Nested)>) returns (r: seq<string>)
    ensures r == lines + NestedLines(entries)
  {
    r := lines;
    for j := 0 to |entries|
      invariant r == lines + NestedLines(entries[..j])
    {
      var (k, v) := entries[j];
      assert entries[..j + 1][..j] == entries[..j];
      r := r + ["  " + k + ": " + (if v.EmptyDict? then "{}" else v.text)];
    }
    assert entries[..|entries|] == entries;
  }

  method AppendBlock(lines: seq<string>, key: string, body: seq<string>) returns (r: seq<string>)
    ensures r == lines + ([FoldedLine(key)] + Prefixed("  ", body))
  {
    var head := [FoldedLine(key)];
    r := AppendPrefixed(lines + head, "  ", body);
  }

  method AppendClaudeString(lines: seq<string>, key: string, s: string) returns (r: seq<string>)
    ensures r == lines + ClaudeEntry(key, Str(s))
  {
    if '\n' in s {
      r := AppendBlock(lines, key, SplitLines(s));
    } else if |s| > 80 {
      var wrapped := WrapToLines(s, 76);
      r := AppendBlock(lines, key, wrapped);
    } else {
      r := lines + [PlainLine(key, s)];
    }
  }

  method AppendClaudeEntry(lines: seq<string>, key: string, value: Value) returns (r: seq<string>)
    ensures r == lines + ClaudeEntry(key, value)
  {
    match value {
      case Bool(b) => r := lines + [BoolLine(key, b)];
      case Int(n) => r := lines + [PlainLine(key, Decimal(n))];
      case Str(s) => r := AppendClaudeString(lines, key, s);
      case List(items) => r := AppendPrefixed(lines + [KeyLine(key)], "  - ", items);
      case Dict(entries) => r := AppendNested(lines + [KeyLine(key)], entries);
      case Unsupported => r := lines;
    }
  }

  method AppendCursorEntry(lines: seq<string>, key: string, value: Value) returns (r: seq<string>)
    ensures r == lines + CursorEntry(key, value)
  {
    match value {
      case Bool(b) => r := lines + [BoolLine(key, b)];
      case Str(s) => r := lines + [QuotedLine(key, s)];
      case List(items) => r := AppendPrefixed(lines + [KeyLine(key)], "  - ", Quoted(items));
      case _ => r := lines;
    }
  }

  method FormatFrontmatterClaude(config: Frontmatter) returns (text: string)
    ensures text == FrontmatterText(Claude, config)
  {
    var lines := [DASHES];
    for i := 0 to |config|
      invariant lines == FrontmatterLines(Claude, config[..i])
    {
      EntriesSnoc(Claude, config, i);
      lines := AppendClaudeEntry(lines, config[i].0, config[i].1);
    }
    assert config[..|config|] == config;
    lines := lines + [DASHES];
    text := Join("\n", lines);
  }

  method FormatFrontmatterCursor(config: Frontmatter) returns (text: string)
    ensures text == FrontmatterText(Cursor, config)
  {
    var lines := [DASHES];
    for i := 0 to |config|
      invariant lines == FrontmatterLines(Cursor, config[..i])
    {
      EntriesSnoc(Cursor, config, i);
      assert Entry(Cursor, config[i].0, config[i].1) == CursorEntry(config[i].0, config[i].1);
      lines := AppendCursorEntry(lines, config[i].0, config[i].1);
    }
    assert config[..|config|] == config;
    lines := lines + [DASHES];
    text := Join("\n", lines);
  }

  lemma EntriesAppend(tool: Tool, init: Frontmatter, last: (string, Value))
    ensures Entries(tool, init + [last]) == Entries(tool, init) + Entry(tool, last.0, last.1)
  {
    assert (init + [last])[..|init|] == init;
  }

  lemma AppendLast(a: seq<string>, b: seq<string>, c: seq<string>)
    ensures a + b + c == a + (b + c)
  {}

  lemma EntriesSnoc(tool: Tool, config: Frontmatter, i: nat)
    requires i < |config|
    ensures FrontmatterLines(tool, config[..i + 1])
         == FrontmatterLines(tool, config[..i]) + Entry(tool, config[i].0, config[i].1)
  {
    Sorting.TakeSnoc(config, i);
    EntriesAppend(tool, config[..i], config[i]);
    AppendLast([DASHES], Entries(tool, config[..i]), Entry(tool, config[i].0, config[i].1));
  }

  // ----- Extracting the body -----------------------------------------------------------

  const GAP := "\n\n"

  /** Whether `---` occurs in `s` at index `i`. */
  predicate DashesAt(s: string, i: nat) {
    i + 3 <= |s| && s[i] == '-' && s[i + 1] == '-' && s[i + 2] == '-'
  }

  predicate HasDashes(s: string) {
    exists i: nat :: i <= |s| && DashesAt(s, i)
  }

  /** The first index at or after `from` where `---` occurs, or -1. */
  function FindDashes(s: string, from: nat): (r: int)
    requires from <= |s|
    ensures r == -1 || (from <= r && DashesAt(s, r))
    ensures forall k :: from <= k < (if r == -1 then |s| else r) ==> !DashesAt(s, k)
    decreases |s| - from
  {
    if DashesAt(s, from) then from
    else if from == |s| then -1
    else FindDashes(s, from + 1)
  }

  /** Everything after the second `---`; the whole text when there are fewer. */
  function AfterFrontmatter(content: string): string {
    var i := FindDashes(content, 0);
    if i == -1 then content
    else
      var j := FindDashes(content, i + 3);
      if j == -1 then content else content[j + 3..]
  }

  function ExtractBody(content: string): string {
    Strip(AfterFrontmatter(content))
  }

  /** What `read_text` returns for stored text: universal newline translation. */
  function UniversalNewlines(s: string): (r: string)
    ensures '\r' !in r
    decreases |s|
  {
    if s == "" then ""
    else if s[0] == '\r' then
      "\n" + UniversalNewlines(if |s| > 1 && s[1] == '\n' then s[2..] else s[1..])
    else [s[0]] + UniversalNewlines(s[1..])
  }

  // ----- Generating, writing and checking ----------------------------------------------

  type Files = map<string, string>

  function BodyOf(files: Files, job: Job): string {
    match job.config.body
    case Some(b) => b
    case None =>
      if job.config.output in files then ExtractBody(UniversalNewlines(files[job.config.output]))
      else "# TODO: Add body content from " + job.canonical
  }

  function Fm(job: Job): string {
    FrontmatterText(job.tool, job.config.frontmatter)
  }

  function Assembled(frontmatter: string, body: string): string {
    frontmatter + GAP + (RStrip(body) + "\n")
  }

  /** The content the converter generates for a job, given the files on disk. */
  function Generated(files: Files, job: Job): string {
    Assembled(Fm(job), BodyOf(files, job))
  }

  function ToolJobs(p: Persona): seq<Job> {
    [Job(p.canonical, Claude, p.claude), Job(p.canonical, Cursor, p.cursor)]
  }

  function Jobs(personas: seq<Persona>): seq<Job> {
    if personas == [] then []
    else Jobs(personas[..|personas| - 1]) + ToolJobs(personas[|personas| - 1])
  }

  /** The store after the jobs have been written in order. */
  function Written(files: Files, jobs: seq<Job>): Files {
    if jobs == [] then files
    else
      var before := Written(files, jobs[..|jobs| - 1]);
      var job := jobs[|jobs| - 1];
      before[job.config.output := Generated(before, job)]
  }

  /** Whether the check reports a job: its file is missing or differs from what would be
      generated now, trailing whitespace aside. */
  predicate Drifts(files: Files, job: Job) {
    job.config.output !in files
    || RStrip(UniversalNewlines(files[job.config.output])) != RStrip(Generated(files, job))
  }

  function Drifted(files: Files, jobs: seq<Job>): seq<string> {
    if jobs == [] then []
    else
      var job := jobs[|jobs| - 1];
      Drifted(files, jobs[..|jobs| - 1]) + (if Drifts(files, job) then [job.config.output] else [])
  }

  /** The files on disk, by path relative to the repository root. */
  class FileStore {
    var files: Files

    constructor (files: Files)
      ensures this.files == files
    {
      this.files := files;
    }

    method GenerateFile(job: Job) returns (path: string, content: string)
      ensures path == job.config.output && content == Generated(files, job)
      ensures content == FrontmatterText(job.tool, job.config.frontmatter) + "\n\n" + RStrip(
                match job.config.body
                case Some(body) => body
                case None =>
                  if job.config.output in files then ExtractBody(UniversalNewlines(files[job.config.output]))
                  else "# TODO: Add body content from " + job.canonical
              ) + "\n"
    {
      path := job.config.output;
      var frontmatter;
      if job.tool == Claude {
        frontmatter := FormatFrontmatterClaude(job.config.frontmatter);
      } else {
        frontmatter := FormatFrontmatterCursor(job.config.frontmatter);
      }
      var body;
      if job.config.body.Some? {
        body := job.config.body.value;
      } else if path in files {
        body := ExtractBody(UniversalNewlines(files[path]));
      } else {
        body := "# TODO: Add body content from " + job.canonical;
      }
      content := frontmatter + "\n\n" + (RStrip(body) + "\n");
    }

    method WriteFiles(personas: seq<Persona>)
      modifies this
      ensures files == Written(old(files), Jobs(personas))
      ensures DistinctFiles(personas) ==>
                forall p :: p in personas ==> BothWritten(old(files), files, p)
      ensures forall path :: (forall p :: p in personas ==> p.claude.output != path && p.cursor.output != path) ==>
                (path in files <==> path in old(files)) && (path in files ==> files[path] == old(files)[path])
    {
      for i := 0 to |personas|
        invariant files == Written(old(files), Jobs(personas[..i]))
      {
        var tools := ToolJobs(personas[i]);
        ghost var done := Jobs(personas[..i]);
        JobsSnoc(personas, i);
        assert done + tools[..0] == done;
        for t := 0 to |tools|
          invariant files == Written(old(files), done + tools[..t])
        {
          WrittenSnoc(old(files), done, tools, t);
          var path, content := GenerateFile(tools[t]);
          files := files[path := content];
        }
        assert tools[..|tools|] == tools;
      }
      assert personas[..|personas|] == personas;
      PersonasWritten(old(files), personas);
      OthersUntouched(old(files), personas);
    }

    method CheckDrift(personas: seq<Persona>) returns (drifted: seq<string>)
      ensures drifted == Drifted(files, Jobs(personas))
      ensures forall path :: path in drifted <==> exists p :: p in personas && Stale(files, p, path)
      ensures exists at :: InPersonaOrder(files, personas, at, drifted)
    {
      drifted := [];
      for i := 0 to |personas|
        invariant drifted == Drifted(files, Jobs(personas[..i]))
      {
        var tools := ToolJobs(personas[i]);
        ghost var done := Jobs(personas[..i]);
        JobsSnoc(personas, i);
        assert done + tools[..0] == done;
        for t := 0 to |tools|
          invariant drifted == Drifted(files, done + tools[..t])
        {
          DriftedSnoc(files, done, tools, t);
          var path, expected := GenerateFile(tools[t]);
          if path in files {
            var actual := UniversalNewlines(files[path]);
            if RStrip(actual) != RStrip(expected) {
              drifted := drifted + [path];
            }
          } else {
            drifted := drifted + [path];
          }
        }
        assert tools[..|tools|] == tools;
      }
      assert personas[..|personas|] == personas;
      ReportIsStale(files, personas);
      var at := ReportInOrder(files, personas);
    }
  }

  lemma JobsSnoc(personas: seq<Persona>, i: nat)
    requires i < |personas|
    ensures Jobs(personas[..i + 1]) == Jobs(personas[..i]) + ToolJobs(personas[i])
  {
    assert personas[..i + 1][..i] == personas[..i];
  }

  lemma WrittenSnoc(files: Files, done: seq<Job>, more: seq<Job>, t: nat)
    requires t < |more|
    ensures var before := Written(files, done + more[..t]);
      Written(files, done + more[..t + 1]) == before[more[t].config.output := Generated(before, more[t])]
  {
    Sorting.AppendTake(done, more, t);
  }

  lemma DriftedSnoc(files: Files, done: seq<Job>, more: seq<Job>, t: nat)
    requires t < |more|
    ensures Drifted(files, done + more[..t + 1])
         == Drifted(files, done + more[..t]) + (if Drifts(files, more[t]) then [more[t].config.output] else [])
  {
    Sorting.AppendTake(done, more, t);
  }

  // ----- Write, then check -------------------------------------------------------------

  /** The text between the first and the last `---` of a front matter. */
  function Middle(lines: seq<string>): (m: string)
    ensures m != "" && m[0] == '\n' && m[|m| - 1] == '\n'
  {
    if lines == [] then "\n" else "\n" + Join("\n", lines) + "\n"
  }

  function MiddleOf(job: Job): string {
    Middle(Entries(job.tool, job.config.frontmatter))
  }

  /** When a job survives a write and a check: its front matter has no carriage return,
      and either its body is fixed and has none before its trailing whitespace, or its
      body is re-read and no `---` occurs between the front-matter delimiters. */
  predicate Clean(job: Job) {
    && '\r' !in Fm(job)
    && match job.config.body
       case Some(b) => '\r' !in RStrip(b)
       case None => !HasDashes(MiddleOf(job))
  }

  predicate DistinctOutputs(jobs: seq<Job>) {
    forall i, j :: 0 <= i < j < |jobs| ==> jobs[i].config.output != jobs[j].config.output
  }

  function DirtyOutputs(jobs: seq<Job>): seq<string> {
    if jobs == [] then []
    else DirtyOutputs(jobs[..|jobs| - 1])
         + (if Clean(jobs[|jobs| - 1]) then [] else [jobs[|jobs| - 1].config.output])
  }

  lemma JoinDelimited(lines: seq<string>)
    ensures Join("\n", [DASHES] + lines + [DASHES]) == DASHES + Middle(lines) + DASHES
  {
    JoinConcat("\n", [DASHES] + lines, [DASHES]);
    if lines != [] {
      JoinConcat("\n", [DASHES], lines);
    } else {
      assert [DASHES] + lines == [DASHES];
    }
  }

  lemma FmShape(job: Job)
    ensures Fm(job) == DASHES + MiddleOf(job) + DASHES
  {
    JoinDelimited(Entries(job.tool, job.config.frontmatter));
  }

  /** Front matter ends with a dash, so stripping a file on the right stops there at the latest. */
  predicate IsFrontmatter(fm: string) {
    |fm| >= 3 && fm[..3] == DASHES && fm[|fm| - 3..] == DASHES
  }

  lemma RStripFile(fm: string, u: string)
    requires IsFrontmatter(fm)
    ensures RStrip(fm + GAP + u) == if RStrip(u) == "" then fm else fm + GAP + RStrip(u)
  {
    assert fm[|fm| - 1] == fm[|fm| - 3..][2] == '-';
    assert RStrip(GAP) == "" by { SpaceStripsAway(GAP); }
    assert RStrip(fm + GAP) == fm by { RStripConcat(fm, GAP); }
    RStripConcat(fm + GAP, u);
  }

  lemma {:induction false} UniversalConcat(a: string, b: string)
    requires '\r' !in a
    ensures UniversalNewlines(a + b) == a + UniversalNewlines(b)
    decreases |a|
  {
    if a == "" {
      assert a + b == b;
    } else {
      assert a[0] in a && (a + b)[1..] == a[1..] + b;
      UniversalConcat(a[1..], b);
    }
  }

  lemma UniversalIdentity(a: string)
    requires '\r' !in a
    ensures UniversalNewlines(a) == a
  {
    UniversalConcat(a, "");
    assert a + "" == a;
  }

  lemma UniversalFile(fm: string, tail: string)
    requires '\r' !in fm
    ensures UniversalNewlines(fm + GAP + tail) == fm + GAP + UniversalNewlines(tail)
  {
    UniversalConcat(fm + GAP, tail);
  }

  lemma LineBreakStrips(core: string)
    ensures RStrip(RStrip(core) + "\n") == RStrip(core)
  {
    var c := RStrip(core);
    RStripConcat(c, "\n");
    SpaceStripsAway("\n");
    if c != "" {
      assert RStrip(c) == c;
    }
  }

  /** What a check compares: the file as read back, against the expected content. */
  predicate SameWhenRead(stored: string, expected: string) {
    RStrip(UniversalNewlines(stored)) == RStrip(expected)
  }

  lemma CarriageReturnDiffers(stored: string, expected: string, i: nat)
    requires i < |RStrip(expected)| && RStrip(expected)[i] == '\r'
    ensures !SameWhenRead(stored, expected)
  {
    var read := UniversalNewlines(stored);
    assert RStrip(read) <= read;
    assert i < |read| ==> read[i] in read;
  }

  lemma CarriageReturnInFrontmatter(fm: string, stored: string, body: string)
    requires IsFrontmatter(fm) && '\r' in fm
    ensures !SameWhenRead(stored, Assembled(fm, body))
  {
    RStripFile(fm, RStrip(body) + "\n");
    var i :| 0 <= i < |fm| && fm[i] == '\r';
    assert RStrip(Assembled(fm, body))[i] == fm[i];
    CarriageReturnDiffers(stored, Assembled(fm, body), i);
  }

  /** A fixed body is read back as it was written unless it holds a carriage return. */
  lemma FixedBodyStable(fm: string, body: string)
    requires IsFrontmatter(fm) && '\r' !in fm
    ensures SameWhenRead(Assembled(fm, body), Assembled(fm, body)) <==> '\r' !in RStrip(body)
  {
    if '\r' in RStrip(body) {
      CarriageReturnInBody(fm, body);
    } else {
      UniversalFile(fm, RStrip(body) + "\n");
      UniversalIdentity(RStrip(body) + "\n");
    }
  }

  lemma CarriageReturnInBody(fm: string, body: string)
    requires IsFrontmatter(fm) && '\r' in RStrip(body)
    ensures !SameWhenRead(Assembled(fm, body), Assembled(fm, body))
  {
    var core := RStrip(body);
    var read := fm + GAP + core;
    assert RStrip(Assembled(fm, body)) == read by {
      LineBreakStrips(body);
      RStripFile(fm, core + "\n");
    }
    var i :| 0 <= i < |core| && core[i] == '\r';
    assert read[|fm + GAP| + i] == core[i];
    CarriageReturnDiffers(Assembled(fm, body), Assembled(fm, body), |fm + GAP| + i);
  }

  /** With a middle free of `---`, the extractor returns exactly what follows the front matter. */
  lemma ExtractAfterCleanMiddle(mid: string, rest: string)
    requires mid != "" && mid[0] == '\n' && mid[|mid| - 1] == '\n'
    requires !HasDashes(mid)
    ensures ExtractBody(DASHES + mid + DASHES + rest) == Strip(rest)
  {
    var s := DASHES + mid + DASHES + rest;
    DashesAround(mid, rest);
    var end := 3 + |mid|;
    forall k | 3 <= k < end
      ensures !DashesAt(s, k)
    {
      DashesInside(mid, rest, k);
    }
    ExtractAt(s, end);
    assert s[end + 3..] == rest;
  }

  lemma DashesAround(mid: string, rest: string)
    ensures var s := DASHES + mid + DASHES + rest;
      DashesAt(s, 0) && DashesAt(s, 3 + |mid|)
  {
    var s := DASHES + mid + DASHES + rest;
  }

  /** Between the delimiters, dashes occur in the printed file exactly where the middle has them. */
  lemma DashesInside(mid: string, rest: string, k: nat)
    requires mid != "" && mid[|mid| - 1] == '\n'
    requires 3 <= k < 3 + |mid|
    ensures DashesAt(DASHES + mid + DASHES + rest, k) <==> DashesAt(mid, k - 3)
  {
    var s := DASHES + mid + DASHES + rest;
    assert s[2 + |mid|] == '\n';
    assert forall i :: 3 <= i < 3 + |mid| ==> s[i] == mid[i - 3];
  }

  /** With a `---` inside the middle, the extractor cuts there: what it returns still holds
      the closing delimiter and everything after it. */
  lemma ExtractAfterDirtyMiddle(mid: string, rest: string)
    requires mid != "" && mid[|mid| - 1] == '\n'
    requires HasDashes(mid)
    ensures |ExtractBody(DASHES + mid + DASHES + rest)| >= 3 + |RStrip(rest)|
  {
    var s := DASHES + mid + DASHES + rest;
    DashesAround(mid, rest);
    SecondDashes(mid, rest);
    var j := FindDashes(s, 3);
    CutPoint(mid, rest, j);
    KeepsDashes(mid[j..], rest);
    ExtractAt(s, j);
  }

  lemma ExtractAt(s: string, j: nat)
    requires DashesAt(s, 0) && FindDashes(s, 3) == j
    ensures AfterFrontmatter(s) == s[j + 3..]
  {}

  lemma CutPoint(mid: string, rest: string, j: nat)
    requires 3 <= j <= |mid|
    ensures (DASHES + mid + DASHES + rest)[j + 3..] == mid[j..] + DASHES + rest
  {}

  lemma SecondDashes(mid: string, rest: string)
    requires mid != "" && mid[|mid| - 1] == '\n'
    requires HasDashes(mid)
    ensures 3 <= FindDashes(DASHES + mid + DASHES + rest, 3) <= |mid|
  {
    var s := DASHES + mid + DASHES + rest;
    var m: nat :| m <= |mid| && DashesAt(mid, m);
    DashesInside(mid, rest, 3 + m);
  }

  lemma KeepsDashes(x: string, rest: string)
    ensures |Strip(x + DASHES + rest)| >= 3 + |RStrip(rest)|
  {
    var kept := DASHES + RStrip(rest);
    StripAroundSolid(x, DASHES, rest);
    LStripConcat(x, kept);
  }

  lemma StripAroundSolid(x: string, solid: string, rest: string)
    requires solid != "" && IsStripped(solid)
    ensures RStrip(x + solid + rest) == x + (solid + RStrip(rest))
    ensures LStrip(solid + RStrip(rest)) == solid + RStrip(rest)
  {
    assert RStrip(x + solid) == x + solid by {
      SolidStays(x + solid);
    }
    RStripConcat(x + solid, rest);
    assert x + solid + RStrip(rest) == x + (solid + RStrip(rest));
    assert RStrip(rest) == "" ==> x + solid == x + (solid + RStrip(rest));
  }

  lemma SolidStays(s: string)
    requires s != "" && !IsSpace(s[|s| - 1])
    ensures RStrip(s) == s
  {}

  /** A body that is read back: it is found again exactly when no `---` hides in the middle. */
  lemma ReadBodyStable(mid: string, body: string)
    requires mid != "" && mid[0] == '\n' && mid[|mid| - 1] == '\n' && '\r' !in mid
    requires RStrip(body) == "" || !IsSpace(RStrip(body)[0])
    ensures var fm := DASHES + mid + DASHES; var stored := Assembled(fm, body);
      SameWhenRead(stored, Assembled(fm, ExtractBody(UniversalNewlines(stored)))) <==> !HasDashes(mid)
  {
    var core := RStrip(body);
    ReadTailStaysSolid(core);
    FrontmatterFacts(mid);
    ReadBack(DASHES + mid + DASHES, mid, core + "\n");
  }

  lemma ReadBack(fm: string, mid: string, tail: string)
    requires fm == DASHES + mid + DASHES && IsFrontmatter(fm) && '\r' !in fm
    requires mid != "" && mid[0] == '\n' && mid[|mid| - 1] == '\n'
    requires var u := UniversalNewlines(tail); RStrip(u) == "" || !IsSpace(u[0])
    ensures SameWhenRead(fm + GAP + tail, Assembled(fm, ExtractBody(UniversalNewlines(fm + GAP + tail))))
       <==> !HasDashes(mid)
  {
    var u := UniversalNewlines(tail);
    UniversalFile(fm, tail);
    Regroup(fm, GAP, u);
    CompareBodies(fm, u, ExtractBody(fm + GAP + u));
    ExtractedBody(mid, u);
  }

  lemma FrontmatterFacts(mid: string)
    requires '\r' !in mid
    ensures IsFrontmatter(DASHES + mid + DASHES)
    ensures '\r' !in DASHES + mid + DASHES
  {}

  /** The body read back is the one written, or longer when the middle holds `---`. */
  lemma ExtractedBody(mid: string, u: string)
    requires mid != "" && mid[0] == '\n' && mid[|mid| - 1] == '\n'
    requires RStrip(u) == "" || !IsSpace(u[0])
    ensures ExtractBody(DASHES + mid + DASHES + (GAP + u)) == RStrip(u) <==> !HasDashes(mid)
  {
    if HasDashes(mid) {
      ExtractAfterDirtyMiddle(mid, GAP + u);
      RStripConcat(GAP, u);
    } else {
      ExtractAfterCleanMiddle(mid, GAP + u);
      StripAfterGap(u);
    }
  }

  /** Two files with the same front matter agree up to trailing whitespace if their bodies do. */
  lemma CompareBodies(fm: string, u: string, again: string)
    requires IsFrontmatter(fm) && IsStripped(again)
    ensures RStrip(fm + GAP + u) == RStrip(Assembled(fm, again)) <==> RStrip(u) == again
  {
    RStripFile(fm, u);
    RStripFile(fm, RStrip(again) + "\n");
    LineBreakStrips(again);
    StrippedStays(again);
    assert (fm + GAP + RStrip(u))[|fm + GAP|..] == RStrip(u);
    assert (fm + GAP + again)[|fm + GAP|..] == again;
  }

  lemma StripAfterGap(u: string)
    requires RStrip(u) == "" || !IsSpace(u[0])
    ensures Strip(GAP + u) == RStrip(u)
  {
    var core := RStrip(u);
    var tail := CoreAndTail(u, core);
    AllSpaceGap();
    StripPadded(GAP, core, tail);
    SplitTail(GAP, core, tail);
  }

  lemma AllSpaceGap()
    ensures AllSpace(GAP)
  {}

  lemma SplitTail(a: string, b: string, c: string)
    ensures a + (b + c) == a + b + c
  {}

  lemma CoreAndTail(u: string, core: string) returns (tail: string)
    requires core == RStrip(u) && (core == "" || !IsSpace(u[0]))
    ensures u == core + tail && IsStripped(core) && AllSpace(tail)
  {
    tail := u[|core|..];
    assert IsStripped(core);
    assert AllSpace(tail) by {
      assert forall i :: 0 <= i < |tail| ==> tail[i] == u[|core| + i];
    }
  }

  lemma ReadTailStaysSolid(core: string)
    requires core == "" || !IsSpace(core[0])
    ensures var u := UniversalNewlines(core + "\n"); RStrip(u) == "" || !IsSpace(u[0])
  {
    if core == "" {
      assert core + "\n" == "\n";
      UniversalIdentity("\n");
      SpaceStripsAway("\n");
    }
  }

  /** A body that was read back or made up starts with a character that is not whitespace. */
  lemma BodyStartsSolid(files: Files, job: Job)
    requires job.config.body == None
    ensures var b := RStrip(BodyOf(files, job)); b == "" || !IsSpace(b[0])
  {
    var b := BodyOf(files, job);
    if job.config.output !in files {
      assert b[0] == '#';
    } else {
      StrippedStays(b);
    }
  }

  /** A job on a store that holds what was generated for it from `before`: drift is
      reported exactly when the job is not clean. */
  lemma DriftOfWritten(before: Files, files: Files, job: Job)
    requires job.config.output in files
    requires files[job.config.output] == Generated(before, job)
    ensures Drifts(files, job) <==> !Clean(job)
  {
    var fm, stored := Fm(job), files[job.config.output];
    FmShape(job);
    assert IsFrontmatter(fm);
    if '\r' in fm {
      CarriageReturnInFrontmatter(fm, stored, BodyOf(files, job));
    } else {
      match job.config.body {
        case Some(b) => FixedBodyStable(fm, b);
        case None =>
          assert '\r' !in MiddleOf(job) by {
            assert fm[3..3 + |MiddleOf(job)|] == MiddleOf(job);
          }
          BodyStartsSolid(before, job);
          ReadBodyStable(MiddleOf(job), BodyOf(before, job));
      }
    }
  }

  /** The generated content depends on no file but the job's own. */
  lemma GeneratedFrame(a: Files, b: Files, job: Job)
    requires job.config.output in a <==> job.config.output in b
    requires job.config.output in a ==> a[job.config.output] == b[job.config.output]
    ensures Generated(a, job) == Generated(b, job)
  {}

  predicate Touches(jobs: seq<Job>, path: string) {
    exists j :: 0 <= j < |jobs| && jobs[j].config.output == path
  }

  lemma {:induction false} WrittenFrame(files: Files, jobs: seq<Job>, path: string)
    requires !Touches(jobs, path)
    ensures path in Written(files, jobs) <==> path in files
    ensures path in files ==> Written(files, jobs)[path] == files[path]
  {
    if jobs != [] {
      var n := |jobs| - 1;
      assert jobs[n].config.output != path;
      assert forall j :: 0 <= j < n ==> jobs[..n][j] == jobs[j];
      WrittenFrame(files, jobs[..n], path);
    }
  }

  /** Every job's file ends up with what the job generates from that file's old content. */
  lemma {:induction false} WrittenPointwise(files: Files, jobs: seq<Job>, k: nat)
    requires DistinctOutputs(jobs) && k < |jobs|
    ensures jobs[k].config.output in Written(files, jobs)
    ensures Written(files, jobs)[jobs[k].config.output] == Generated(files, jobs[k])
    decreases |jobs|
  {
    var n := |jobs| - 1;
    assert DistinctOutputs(jobs[..n]);
    if k == n {
      assert !Touches(jobs[..n], jobs[n].config.output);
      WrittenFrame(files, jobs[..n], jobs[n].config.output);
      GeneratedFrame(Written(files, jobs[..n]), files, jobs[n]);
    } else {
      assert jobs[..n][k] == jobs[k];
      WrittenPointwise(files, jobs[..n], k);
      WrittenKeeps(files, jobs, jobs[k].config.output);
    }
  }

  lemma WrittenKeeps(files: Files, jobs: seq<Job>, path: string)
    requires jobs != [] && jobs[|jobs| - 1].config.output != path
    requires path in Written(files, jobs[..|jobs| - 1])
    ensures path in Written(files, jobs)
    ensures Written(files, jobs)[path] == Written(files, jobs[..|jobs| - 1])[path]
  {}

  /** The drift law: from any prior file contents, a write followed by a check reports
      exactly the jobs that are not clean, in order; so nothing at all if and only if
      every job is clean. */
  lemma WriteThenCheck(files: Files, jobs: seq<Job>)
    requires DistinctOutputs(jobs)
    ensures Drifted(Written(files, jobs), jobs) == DirtyOutputs(jobs)
    ensures Drifted(Written(files, jobs), jobs) == [] <==> forall job :: job in jobs ==> Clean(job)
  {
    CheckPrefix(files, jobs, |jobs|);
    assert jobs[..|jobs|] == jobs;
    DirtyIsEmpty(jobs);
  }

  lemma {:induction false} CheckPrefix(files: Files, jobs: seq<Job>, k: nat)
    requires k <= |jobs| && DistinctOutputs(jobs)
    ensures Drifted(Written(files, jobs), jobs[..k]) == DirtyOutputs(jobs[..k])
  {
    if k > 0 {
      assert jobs[..k][..k - 1] == jobs[..k - 1];
      CheckPrefix(files, jobs, k - 1);
      WrittenPointwise(files, jobs, k - 1);
      DriftOfWritten(files, Written(files, jobs), jobs[k - 1]);
    }
  }

  lemma {:induction false} DirtyIsEmpty(jobs: seq<Job>)
    ensures DirtyOutputs(jobs) == [] <==> forall job :: job in jobs ==> Clean(job)
  {
    if jobs != [] {
      var init, last := jobs[..|jobs| - 1], jobs[|jobs| - 1];
      DirtyIsEmpty(init);
      assert forall job :: job in jobs <==> job in init || job == last;
    }
  }

  /** When a job's output is settled after one write: its body is fixed, or it can be found
      again and no carriage return comes in with a made-up body. */
  predicate Settles(files: Files, job: Job) {
    job.config.body == None ==>
      && !HasDashes(MiddleOf(job))
      && (job.config.output in files || '\r' !in RStrip(job.canonical))
  }

  /** Regeneration is idempotent exactly when every job settles: then, and only then, writing
      everything a second time changes no file. */
  lemma WriteTwice(files: Files, jobs: seq<Job>)
    requires DistinctOutputs(jobs)
    ensures Written(Written(files, jobs), jobs) == Written(files, jobs)
            <==> forall job :: job in jobs ==> Settles(files, job)
  {
    var once := Written(files, jobs);
    var twice := Written(once, jobs);
    forall j: nat | j < |jobs|
      ensures jobs[j].config.output in once && jobs[j].config.output in twice
      ensures twice[jobs[j].config.output] == once[jobs[j].config.output] <==> Settles(files, jobs[j])
    {
      WrittenPointwise(files, jobs, j);
      WrittenPointwise(once, jobs, j);
      RegeneratedSame(files, once, jobs[j]);
    }
    if forall job :: job in jobs ==> Settles(files, job) {
      forall p | p in once || p in twice
        ensures p in once && p in twice && once[p] == twice[p]
      {
        if Touches(jobs, p) {
          var j :| 0 <= j < |jobs| && jobs[j].config.output == p;
          assert jobs[j] in jobs;
        } else {
          WrittenFrame(once, jobs, p);
        }
      }
    }
  }

  lemma RegeneratedSame(before: Files, files: Files, job: Job)
    requires job.config.output in files && files[job.config.output] == Generated(before, job)
    ensures Generated(files, job) == Generated(before, job) <==> Settles(before, job)
  {
    if job.config.body == None {
      FmShape(job);
      BodyStartsSolid(before, job);
      RereadBody(MiddleOf(job), BodyOf(before, job));
      MadeUpBody(before, job);
    }
  }

  /** A body that is read back from the file that it was printed into comes out the same if and
      only if no `---` hides in the middle and it has no carriage return. */
  lemma RereadBody(mid: string, body: string)
    requires mid != "" && mid[0] == '\n' && mid[|mid| - 1] == '\n'
    requires RStrip(body) == "" || !IsSpace(RStrip(body)[0])
    ensures var fm := DASHES + mid + DASHES;
      Assembled(fm, ExtractBody(UniversalNewlines(Assembled(fm, body)))) == Assembled(fm, body)
      <==> !HasDashes(mid) && '\r' !in RStrip(body)
  {
    var fm, core := DASHES + mid + DASHES, RStrip(body);
    var m, u := UniversalNewlines(mid), UniversalNewlines(core + "\n");
    var stored := Assembled(fm, body);
    var again := ExtractBody(UniversalNewlines(stored));
    assert UniversalNewlines(stored) == DASHES + m + DASHES + (GAP + u) by {
      UniversalAssembled(mid, core + "\n");
    }
    UniversalEnds(mid);
    UniversalDashes(mid);
    ReadTailStaysSolid(core);
    ExtractedBody(m, u);
    SameAssembled(fm, again, body);
    StrippedStays(again);
    if '\r' in core {
      SubstringsOfExtract(UniversalNewlines(stored));
    } else {
      UniversalIdentity(core + "\n");
      LineBreakStrips(body);
    }
  }

  lemma SameAssembled(fm: string, a: string, b: string)
    ensures Assembled(fm, a) == Assembled(fm, b) <==> RStrip(a) == RStrip(b)
  {
    assert Assembled(fm, a)[|fm + GAP|..] == RStrip(a) + "\n";
    assert Assembled(fm, b)[|fm + GAP|..] == RStrip(b) + "\n";
    assert (RStrip(a) + "\n")[..|RStrip(a)|] == RStrip(a) && (RStrip(b) + "\n")[..|RStrip(b)|] == RStrip(b);
  }

  /** Only a made-up body can hold a carriage return, and it has it from the canonical path. */
  lemma MadeUpBody(files: Files, job: Job)
    requires job.config.body == None
    ensures '\r' in RStrip(BodyOf(files, job)) <==> job.config.output !in files && '\r' in RStrip(job.canonical)
  {
    if job.config.output in files {
      SubstringsOfExtract(UniversalNewlines(files[job.config.output]));
      SubstringsOfRStrip(BodyOf(files, job));
    } else {
      CarriageReturnBehind("# TODO: Add body content from ", job.canonical);
    }
  }

  lemma CarriageReturnBehind(lead: string, s: string)
    requires '\r' !in lead
    ensures '\r' in RStrip(lead + s) <==> '\r' in RStrip(s)
  {
    RStripConcat(lead, s);
    SubstringsOfRStrip(lead);
  }

  // ----- Newline translation of a printed file -----------------------------------------

  /** How many characters the translation of a text takes in first. */
  function LeadLength(s: string): (n: nat)
    requires s != ""
    ensures n <= |s|
  {
    if s[0] == '\r' && |s| > 1 && s[1] == '\n' then 2 else 1
  }

  lemma UniversalUnfold(s: string)
    requires s != ""
    ensures UniversalNewlines(s) == [if s[0] == '\r' then '\n' else s[0]] + UniversalNewlines(s[LeadLength(s)..])
  {}

  lemma {:induction false} UniversalApart(a: string, b: string)
    requires b == "" || b[0] != '\n'
    ensures UniversalNewlines(a + b) == UniversalNewlines(a) + UniversalNewlines(b)
    decreases |a|
  {
    if a == "" {
      assert a + b == b;
    } else {
      var n := LeadLength(a);
      LeadOfConcat(a, b);
      UniversalApart(a[n..], b);
      var head := [if a[0] == '\r' then '\n' else a[0]];
      assert UniversalNewlines(a) == head + UniversalNewlines(a[n..]) by {
        UniversalUnfold(a);
      }
      assert UniversalNewlines(a + b) == head + UniversalNewlines(a[n..] + b) by {
        UniversalUnfold(a + b);
      }
      Regroup(head, UniversalNewlines(a[n..]), UniversalNewlines(b));
    }
  }

  lemma LeadOfConcat(a: string, b: string)
    requires a != "" && (b == "" || b[0] != '\n')
    ensures LeadLength(a + b) == LeadLength(a) && (a + b)[LeadLength(a)..] == a[LeadLength(a)..] + b
  {}

  lemma UniversalAssembled(mid: string, tail: string)
    ensures UniversalNewlines(DASHES + mid + DASHES + GAP + tail)
         == DASHES + UniversalNewlines(mid) + DASHES + (GAP + UniversalNewlines(tail))
  {
    var rest := DASHES + GAP + tail;
    assert DASHES + mid + DASHES + GAP + tail == DASHES + (mid + rest);
    UniversalConcat(DASHES, mid + rest);
    UniversalApart(mid, rest);
    UniversalConcat(DASHES + GAP, tail);
  }

  lemma {:induction false} UniversalEnds(s: string)
    requires s != "" && s[|s| - 1] == '\n'
    ensures var u := UniversalNewlines(s); u != "" && u[|u| - 1] == '\n' && (s[0] == '\n' ==> u[0] == '\n')
    decreases |s|
  {
    if s[0] == '\r' && |s| > 1 && s[1] == '\n' {
      if |s| > 2 {
        UniversalEnds(s[2..]);
      }
    } else if |s| > 1 {
      UniversalEnds(s[1..]);
    }
  }

  lemma UniversalHead(s: string)
    ensures UniversalNewlines(s) == "" <==> s == ""
    ensures s != "" ==> (UniversalNewlines(s)[0] == '-' <==> s[0] == '-')
    ensures s != "" && s[0] == '-' ==> UniversalNewlines(s)[1..] == UniversalNewlines(s[1..])
  {}

  lemma UniversalDashesFirst(s: string)
    ensures DashesAt(UniversalNewlines(s), 0) <==> DashesAt(s, 0)
  {
    UniversalHead(s);
    if s != "" && s[0] == '-' {
      UniversalHead(s[1..]);
      if |s| > 1 && s[1] == '-' {
        UniversalHead(s[2..]);
      }
    }
  }

  lemma HasDashesCons(c: char, s: string)
    ensures HasDashes([c] + s) <==> DashesAt([c] + s, 0) || HasDashes(s)
  {
    var t := [c] + s;
    assert forall i: nat :: i <= |s| ==> (DashesAt(s, i) <==> DashesAt(t, i + 1));
    if HasDashes(t) && !DashesAt(t, 0) {
      var i: nat :| i <= |t| && DashesAt(t, i);
      assert DashesAt(s, i - 1);
    }
  }

  /** Newline translation neither makes nor removes a `---`. */
  lemma {:induction false} UniversalDashes(s: string)
    ensures HasDashes(UniversalNewlines(s)) <==> HasDashes(s)
    decreases |s|
  {
    if s != "" {
      assert s == [s[0]] + s[1..];
      HasDashesCons(s[0], s[1..]);
      if s[0] == '\r' {
        var t := if |s| > 1 && s[1] == '\n' then s[2..] else s[1..];
        UniversalDashes(t);
        HasDashesCons('\n', UniversalNewlines(t));
        if |s| > 1 && s[1] == '\n' {
          assert s[1..] == ['\n'] + s[2..];
          HasDashesCons('\n', s[2..]);
        }
      } else {
        UniversalDashes(s[1..]);
        HasDashesCons(s[0], UniversalNewlines(s[1..]));
        UniversalDashesFirst(s);
      }
    }
  }

  lemma Regroup(a: string, b: string, c: string)
    ensures a + b + c == a + (b + c)
  {}

  lemma SubstringsOfExtract(content: string)
    ensures forall c :: c in ExtractBody(content) ==> c in content
  {
    var rest := AfterFrontmatter(content);
    assert forall c :: c in rest ==> c in content;
    SubstringsOfStrip(rest);
  }

  lemma SubstringsOfRStrip(s: string)
    ensures forall c :: c in RStrip(s) ==> c in s
  {}

  lemma SubstringsOfStrip(s: string)
    ensures forall c :: c in Strip(s) ==> c in s
  {
    var r := RStrip(s);
    SubstringsOfRStrip(s);
    assert forall c :: c in LStrip(r) ==> c in r;
  }

  /** Distinct outputs are needed: of two clean jobs that share a path but print different
      bodies, the one written first is reported. */
  lemma SharedOutputDrifts(files: Files, first: Job, second: Job)
    requires first.config.output == second.config.output && Fm(first) == Fm(second)
    requires first.config.body.Some? && second.config.body.Some?
    requires Clean(first) && Clean(second)
    requires RStrip(first.config.body.value) != RStrip(second.config.body.value)
    ensures first.config.output in Drifted(Written(files, [first, second]), [first, second])
  {
    var jobs := [first, second];
    var after := Written(files, jobs);
    FmShape(first);
    assert jobs[..1] == [first] && jobs[1] == second;
    assert after[first.config.output] == Assembled(Fm(first), second.config.body.value);
    DifferentBodies(Fm(first), first.config.body.value, second.config.body.value);
    assert Drifts(after, first);
    assert first.config.output in Drifted(after, [first]);
  }

  lemma DifferentBodies(fm: string, a: string, b: string)
    requires IsFrontmatter(fm) && '\r' !in fm && '\r' !in RStrip(b) && RStrip(a) != RStrip(b)
    ensures !SameWhenRead(Assembled(fm, b), Assembled(fm, a))
  {
    UniversalFile(fm, RStrip(b) + "\n");
    UniversalIdentity(RStrip(b) + "\n");
    RStripFile(fm, RStrip(b) + "\n");
    RStripFile(fm, RStrip(a) + "\n");
    LineBreakStrips(a);
    LineBreakStrips(b);
    assert (fm + GAP + RStrip(a))[|fm + GAP|..] == RStrip(a);
    assert (fm + GAP + RStrip(b))[|fm + GAP|..] == RStrip(b);
  }

  // ----- Shared outputs ----------------------------------------------------------------

  /** What a job with a fixed body prints, whatever is on disk. */
  function Printed(job: Job): string
    requires job.config.body.Some?
  {
    Assembled(Fm(job), job.config.body.value)
  }

  /** The two jobs print the same text, trailing whitespace aside. */
  predicate SameText(a: Job, b: Job)
    requires a.config.body.Some? && b.config.body.Some?
  {
    RStrip(Printed(a)) == RStrip(Printed(b))
  }

  predicate IsLastWriter(jobs: seq<Job>, k: nat, path: string) {
    && k < |jobs| && jobs[k].config.output == path
    && forall l :: k < l < |jobs| ==> jobs[l].config.output != path
  }

  predicate AllFixed(jobs: seq<Job>) {
    forall k :: 0 <= k < |jobs| ==> jobs[k].config.body.Some?
  }

  lemma {:induction false} LastWriterExists(jobs: seq<Job>, path: string) returns (k: nat)
    requires Touches(jobs, path)
    ensures IsLastWriter(jobs, k, path)
  {
    var n := |jobs| - 1;
    if jobs[n].config.output == path {
      k := n;
    } else {
      var j :| 0 <= j < |jobs| && jobs[j].config.output == path;
      assert jobs[..n][j] == jobs[j];
      k := LastWriterExists(jobs[..n], path);
    }
  }

  /** The last writer of a path decides what is there. */
  lemma {:induction false} WrittenByLast(files: Files, jobs: seq<Job>, k: nat, path: string)
    requires AllFixed(jobs) && IsLastWriter(jobs, k, path)
    ensures path in Written(files, jobs) && Written(files, jobs)[path] == Printed(jobs[k])
    decreases |jobs|
  {
    var n := |jobs| - 1;
    if k < n {
      LastWriterBefore(jobs, k, path);
      WrittenByLast(files, jobs[..n], k, path);
      WrittenKeeps(files, jobs, path);
    } else {
      WrittenEnd(files, jobs);
      GeneratedFixed(Written(files, jobs[..n]), jobs[n]);
    }
  }

  lemma WrittenEnd(files: Files, jobs: seq<Job>)
    requires jobs != []
    ensures var n := |jobs| - 1;
            var path := jobs[n].config.output;
            path in Written(files, jobs) && Written(files, jobs)[path] == Generated(Written(files, jobs[..n]), jobs[n])
  {}

  lemma GeneratedFixed(files: Files, job: Job)
    requires job.config.body.Some?
    ensures Generated(files, job) == Printed(job)
  {}

  lemma LastWriterBefore(jobs: seq<Job>, k: nat, path: string)
    requires AllFixed(jobs) && IsLastWriter(jobs, k, path) && k < |jobs| - 1
    ensures var init := jobs[..|jobs| - 1];
            && AllFixed(init) && IsLastWriter(init, k, path) && init[k] == jobs[k]
            && jobs[|jobs| - 1].config.output != path
  {}

  lemma DriftedEnd(files: Files, jobs: seq<Job>)
    requires jobs != []
    ensures Drifted(files, jobs[..|jobs| - 1]) != [] || Drifts(files, jobs[|jobs| - 1]) ==> Drifted(files, jobs) != []
  {}

  lemma {:induction false} DriftReported(files: Files, jobs: seq<Job>, i: nat)
    requires i < |jobs| && Drifts(files, jobs[i])
    ensures Drifted(files, jobs) != []
    decreases |jobs|
  {
    DriftedEnd(files, jobs);
    if i < |jobs| - 1 {
      assert jobs[..|jobs| - 1][i] == jobs[i];
      DriftReported(files, jobs[..|jobs| - 1], i);
    }
  }

  lemma {:induction false} DriftFound(files: Files, jobs: seq<Job>) returns (i: nat)
    requires Drifted(files, jobs) != []
    ensures i < |jobs| && Drifts(files, jobs[i])
  {
    var n := |jobs| - 1;
    if Drifts(files, jobs[n]) {
      i := n;
    } else {
      i := DriftFound(files, jobs[..n]);
      assert jobs[..n][i] == jobs[i];
    }
  }

  lemma RStripPrinted(job: Job)
    requires job.config.body.Some?
    ensures var core := RStrip(job.config.body.value);
            RStrip(Printed(job)) == if core == "" then Fm(job) else Fm(job) + GAP + core
  {
    FmShape(job);
    LineBreakStrips(job.config.body.value);
    RStripFile(Fm(job), RStrip(job.config.body.value) + "\n");
  }

  /** A job with a fixed body is clean iff what it prints has no carriage return to lose. */
  lemma CleanPrints(job: Job)
    requires job.config.body.Some?
    ensures Clean(job) <==> '\r' !in RStrip(Printed(job))
    ensures Clean(job) ==> UniversalNewlines(Printed(job)) == Printed(job)
  {
    RStripPrinted(job);
    if Clean(job) {
      UniversalIdentity(Printed(job));
    }
  }

  /** What a check says about a job when the last writer of its path is clean. */
  lemma DriftUnderLast(job: Job, last: Job)
    requires job.config.body.Some? && last.config.body.Some?
    ensures SameWhenRead(Printed(last), Printed(job)) ==> Clean(job)
    ensures Clean(last) ==> (SameWhenRead(Printed(last), Printed(job)) <==> SameText(job, last))
    ensures Clean(job) && SameText(job, last) ==> SameWhenRead(Printed(last), Printed(job))
  {
    CleanPrints(job);
    CleanPrints(last);
    var read := UniversalNewlines(Printed(last));
    SubstringsOfRStrip(read);
  }

  /** Job `i` is clean and prints the same text as job `k`. */
  predicate AgreesWith(jobs: seq<Job>, i: nat, k: nat)
    requires AllFixed(jobs) && i < |jobs| && k < |jobs|
  {
    Clean(jobs[i]) && SameText(jobs[i], jobs[k])
  }

  /** Every job is clean and prints the same text as the last writer of its path. */
  ghost predicate AllAgree(jobs: seq<Job>)
    requires AllFixed(jobs)
  {
    forall i: nat, k: nat :: i < |jobs| && IsLastWriter(jobs, k, jobs[i].config.output) ==> AgreesWith(jobs, i, k)
  }

  lemma DriftUnderShared(files: Files, jobs: seq<Job>, i: nat, k: nat)
    requires AllFixed(jobs) && i < |jobs| && IsLastWriter(jobs, k, jobs[i].config.output)
    ensures Drifts(Written(files, jobs), jobs[i]) <==> !SameWhenRead(Printed(jobs[k]), Printed(jobs[i]))
  {
    WrittenByLast(files, jobs, k, jobs[i].config.output);
    GeneratedFixed(Written(files, jobs), jobs[i]);
  }

  lemma SilentMeansAgreed(files: Files, jobs: seq<Job>, i: nat, k: nat)
    requires AllFixed(jobs) && i < |jobs| && IsLastWriter(jobs, k, jobs[i].config.output)
    requires Drifted(Written(files, jobs), jobs) == []
    ensures AgreesWith(jobs, i, k)
  {
    DriftUnderShared(files, jobs, i, k);
    DriftUnderShared(files, jobs, k, k);
    DriftUnderLast(jobs[k], jobs[k]);
    DriftUnderLast(jobs[i], jobs[k]);
    if Drifts(Written(files, jobs), jobs[i]) {
      DriftReported(Written(files, jobs), jobs, i);
    }
    if Drifts(Written(files, jobs), jobs[k]) {
      DriftReported(Written(files, jobs), jobs, k);
    }
  }

  lemma AgreedMeansNoDrift(files: Files, jobs: seq<Job>, i: nat)
    requires AllFixed(jobs) && AllAgree(jobs) && i < |jobs|
    ensures !Drifts(Written(files, jobs), jobs[i])
  {
    var k := LastWriterExists(jobs, jobs[i].config.output);
    assert AgreesWith(jobs, i, k);
    DriftUnderShared(files, jobs, i, k);
    DriftUnderLast(jobs[i], jobs[k]);
  }

  /** When outputs may be shared and all bodies are fixed: a write followed by a check reports
      nothing if and only if every job is clean and prints the same text, trailing whitespace
      aside, as the last writer of its path. */
  lemma SharedOutputs(files: Files, jobs: seq<Job>)
    requires AllFixed(jobs)
    ensures Drifted(Written(files, jobs), jobs) == [] <==> AllAgree(jobs)
  {
    if Drifted(Written(files, jobs), jobs) == [] {
      forall i: nat, k: nat | i < |jobs| && IsLastWriter(jobs, k, jobs[i].config.output)
        ensures AgreesWith(jobs, i, k)
      {
        SilentMeansAgreed(files, jobs, i, k);
      }
    } else {
      var i := DriftFound(Written(files, jobs), jobs);
      if AllAgree(jobs) {
        AgreedMeansNoDrift(files, jobs, i);
      }
    }
  }

  // ----- Every persona and both tools --------------------------------------------------

  /** No two of the outputs, over all personas and both tools, are the same path. */
  predicate DistinctFiles(personas: seq<Persona>) {
    && (forall i :: 0 <= i < |personas| ==> personas[i].claude.output != personas[i].cursor.output)
    && (forall i, j :: 0 <= i < j < |personas| ==>
          && personas[i].claude.output != personas[j].claude.output
          && personas[i].claude.output != personas[j].cursor.output
          && personas[i].cursor.output != personas[j].claude.output
          && personas[i].cursor.output != personas[j].cursor.output)
  }

  /** One of the persona's two outputs is `path`, and the file is missing or is not what that tool
      prints now, trailing whitespace aside. */
  predicate Stale(files: Files, p: Persona, path: string) {
    || (path == p.claude.output
        && (path in files ==> RStrip(UniversalNewlines(files[path]))
                              != RStrip(Generated(files, Job(p.canonical, Claude, p.claude)))))
    || (path == p.cursor.output
        && (path in files ==> RStrip(UniversalNewlines(files[path]))
                              != RStrip(Generated(files, Job(p.canonical, Cursor, p.cursor)))))
  }

  /** The persona's output at an even place is Claude's, at an odd place Cursor's; two places each. */
  predicate StaleAt(files: Files, personas: seq<Persona>, n: nat)
    requires n < 2 * |personas|
  {
    var p := personas[n / 2];
    if n % 2 == 0 then Drifts(files, Job(p.canonical, Claude, p.claude))
    else Drifts(files, Job(p.canonical, Cursor, p.cursor))
  }

  /** The report lists the outputs at exactly the stale places, in persona order, Claude's first. */
  ghost predicate InPersonaOrder(files: Files, personas: seq<Persona>, at: seq<nat>, report: seq<string>) {
    && |report| == |at|
    && (forall i, j :: 0 <= i < j < |at| ==> at[i] < at[j])
    && (forall i :: 0 <= i < |at| ==>
          && at[i] < 2 * |personas| && StaleAt(files, personas, at[i])
          && report[i] == if at[i] % 2 == 0 then personas[at[i] / 2].claude.output
                          else personas[at[i] / 2].cursor.output)
    && (forall n: nat :: n < 2 * |personas| && StaleAt(files, personas, n) ==> n in at)
  }

  lemma {:induction false} JobsAt(personas: seq<Persona>)
    ensures |Jobs(personas)| == 2 * |personas|
    ensures forall k :: 0 <= k < |personas| ==>
      && Jobs(personas)[2 * k] == Job(personas[k].canonical, Claude, personas[k].claude)
      && Jobs(personas)[2 * k + 1] == Job(personas[k].canonical, Cursor, personas[k].cursor)
  {
    if personas != [] {
      JobsAt(personas[..|personas| - 1]);
    }
  }

  /** Every place in the list of jobs is a persona's Claude file or a persona's Cursor file. */
  lemma JobOfPlace(personas: seq<Persona>, n: nat)
    requires n < |Jobs(personas)|
    ensures n / 2 < |personas|
    ensures var p := personas[n / 2];
      Jobs(personas)[n] == if n % 2 == 0 then Job(p.canonical, Claude, p.claude) else Job(p.canonical, Cursor, p.cursor)
  {
    JobsAt(personas);
    assert n == 2 * (n / 2) + n % 2;
  }

  lemma DistinctJobs(personas: seq<Persona>)
    requires DistinctFiles(personas)
    ensures DistinctOutputs(Jobs(personas))
  {
    var jobs := Jobs(personas);
    forall i: nat, j: nat | i < j < |jobs|
      ensures jobs[i].config.output != jobs[j].config.output
    {
      JobOfPlace(personas, i);
      JobOfPlace(personas, j);
      assert i / 2 == j / 2 ==> i % 2 == 0 && j % 2 == 1;
    }
  }

  lemma BothAreWritten(files: Files, personas: seq<Persona>, k: nat)
    requires DistinctFiles(personas) && k < |personas|
    ensures BothWritten(files, Written(files, Jobs(personas)), personas[k])
  {
    DistinctJobs(personas);
    JobsAt(personas);
    WrittenPointwise(files, Jobs(personas), 2 * k);
    WrittenPointwise(files, Jobs(personas), 2 * k + 1);
  }

  predicate BothWritten(before: Files, after: Files, p: Persona) {
    && p.claude.output in after && p.cursor.output in after
    && after[p.claude.output] == Generated(before, Job(p.canonical, Claude, p.claude))
    && after[p.cursor.output] == Generated(before, Job(p.canonical, Cursor, p.cursor))
  }

  /** After a write to distinct outputs, both files of every persona are there, each with what its
      tool prints from the persona's canonical path and that tool's configuration. */
  lemma PersonasWritten(files: Files, personas: seq<Persona>)
    ensures var after := Written(files, Jobs(personas));
      DistinctFiles(personas) ==> forall p :: p in personas ==> BothWritten(files, after, p)
  {
    if DistinctFiles(personas) {
      forall p | p in personas
        ensures BothWritten(files, Written(files, Jobs(personas)), p)
      {
        var k :| 0 <= k < |personas| && personas[k] == p;
        BothAreWritten(files, personas, k);
      }
    }
  }

  /** A write changes no file but the personas' own two each. */
  lemma OthersUntouched(files: Files, personas: seq<Persona>)
    ensures var after := Written(files, Jobs(personas));
      forall path :: (forall p :: p in personas ==> p.claude.output != path && p.cursor.output != path) ==>
        (path in after <==> path in files) && (path in after ==> after[path] == files[path])
  {
    forall path | forall p :: p in personas ==> p.claude.output != path && p.cursor.output != path
      ensures (path in Written(files, Jobs(personas)) <==> path in files)
      ensures path in files ==> Written(files, Jobs(personas))[path] == files[path]
    {
      UntouchedByAll(personas, path);
      WrittenFrame(files, Jobs(personas), path);
    }
  }

  lemma UntouchedByAll(personas: seq<Persona>, path: string)
    requires forall p :: p in personas ==> p.claude.output != path && p.cursor.output != path
    ensures !Touches(Jobs(personas), path)
  {
    var jobs := Jobs(personas);
    forall j: nat | j < |jobs|
      ensures jobs[j].config.output != path
    {
      JobOfPlace(personas, j);
      assert personas[j / 2] in personas;
    }
  }

  lemma StaleIsDrift(files: Files, personas: seq<Persona>, n: nat)
    requires n < |Jobs(personas)|
    ensures |Jobs(personas)| == 2 * |personas|
    ensures StaleAt(files, personas, n) <==> Drifts(files, Jobs(personas)[n])
  {
    JobsAt(personas);
    JobOfPlace(personas, n);
  }

  /** The places `at` are those of the drifting jobs, in order, and the report lists their outputs. */
  ghost predicate ArePlaces(files: Files, jobs: seq<Job>, at: seq<nat>, report: seq<string>) {
    && |at| == |report|
    && (forall i, j :: 0 <= i < j < |at| ==> at[i] < at[j])
    && (forall i :: 0 <= i < |at| ==> at[i] < |jobs| && Drifts(files, jobs[at[i]]))
    && (forall i :: 0 <= i < |at| ==> report[i] == jobs[at[i]].config.output)
    && (forall n: nat :: n < |jobs| && Drifts(files, jobs[n]) ==> n in at)
  }

  lemma SamePlaces(files: Files, init: seq<Job>, last: Job, at: seq<nat>, report: seq<string>)
    requires ArePlaces(files, init, at, report) && !Drifts(files, last)
    ensures ArePlaces(files, init + [last], at, report)
  {
    var jobs := init + [last];
    assert forall i :: 0 <= i < |at| ==> jobs[at[i]] == init[at[i]];
    forall n: nat | n < |jobs| && Drifts(files, jobs[n])
      ensures n in at
    {
      assert n < |init| && jobs[n] == init[n];
    }
  }

  lemma OneMorePlace(files: Files, init: seq<Job>, last: Job, at: seq<nat>, report: seq<string>)
    requires ArePlaces(files, init, at, report) && Drifts(files, last)
    ensures ArePlaces(files, init + [last], at + [|init|], report + [last.config.output])
  {
    var jobs, more := init + [last], at + [|init|];
    assert more[|at|] == |init|;
    forall n: nat | n < |jobs| && Drifts(files, jobs[n])
      ensures n in more
    {
      assert n < |init| ==> jobs[n] == init[n] && n in at;
    }
  }

  lemma {:induction false} DriftPlaces(files: Files, jobs: seq<Job>) returns (at: seq<nat>)
    ensures ArePlaces(files, jobs, at, Drifted(files, jobs))
  {
    at := [];
    if jobs != [] {
      var init, last := jobs[..|jobs| - 1], jobs[|jobs| - 1];
      assert init + [last] == jobs;
      at := DriftPlaces(files, init);
      if Drifts(files, last) {
        OneMorePlace(files, init, last, at, Drifted(files, init));
        at := at + [|init|];
      } else {
        SamePlaces(files, init, last, at, Drifted(files, init));
      }
    }
  }

  /** The check reports the stale outputs persona by persona, Claude's before Cursor's. */
  lemma ReportInOrder(files: Files, personas: seq<Persona>) returns (at: seq<nat>)
    ensures InPersonaOrder(files, personas, at, Drifted(files, Jobs(personas)))
  {
    var jobs := Jobs(personas);
    at := DriftPlaces(files, jobs);
    JobsAt(personas);
    forall n: nat | n < |jobs|
      ensures StaleAt(files, personas, n) <==> Drifts(files, jobs[n])
    {
      StaleIsDrift(files, personas, n);
    }
    forall i | 0 <= i < |at|
      ensures jobs[at[i]].config.output
           == if at[i] % 2 == 0 then personas[at[i] / 2].claude.output else personas[at[i] / 2].cursor.output
    {
      JobOfPlace(personas, at[i]);
    }
  }

  /** The check reports a path iff it is an output of some persona that is missing or differs from
      what that persona's tool prints now. */
  lemma ReportIsStale(files: Files, personas: seq<Persona>)
    ensures forall path ::
              path in Drifted(files, Jobs(personas)) <==> exists p :: p in personas && Stale(files, p, path)
  {
    var report := Drifted(files, Jobs(personas));
    var at := ReportInOrder(files, personas);
    forall path
      ensures path in report <==> exists p :: p in personas && Stale(files, p, path)
    {
      if path in report {
        var i :| 0 <= i < |report| && report[i] == path;
        assert StaleAt(files, personas, at[i]);
        assert personas[at[i] / 2] in personas && Stale(files, personas[at[i] / 2], path);
      }
      if p :| p in personas && Stale(files, p, path) {
        var k :| 0 <= k < |personas| && personas[k] == p;
        ListedWhenStale(files, personas, at, report, k, path);
      }
    }
  }

  lemma ListedWhenStale(files: Files, personas: seq<Persona>, at: seq<nat>, report: seq<string>, k: nat, path: string)
    requires InPersonaOrder(files, personas, at, report)
    requires k < |personas| && Stale(files, personas[k], path)
    ensures path in report
  {
    var claude, cursor := 2 * k, 2 * k + 1;
    assert claude / 2 == k && claude % 2 == 0 && cursor / 2 == k && cursor % 2 == 1;
    assert StaleAt(files, personas, claude) || StaleAt(files, personas, cursor);
    var n := if path == personas[k].claude.output && StaleAt(files, personas, claude) then claude else cursor;
    assert StaleAt(files, personas, n);
    var i :| 0 <= i < |at| && at[i] == n;
    assert report[i] == path;
  }

  /** Over the personas: on distinct outputs, a check right after a write reports exactly the Claude
      and Cursor outputs whose jobs are not clean. */
  lemma PersonasWriteThenCheck(files: Files, personas: seq<Persona>, path: string)
    requires DistinctFiles(personas)
    ensures path in Drifted(Written(files, Jobs(personas)), Jobs(personas)) <==>
            exists p :: p in personas &&
              (|| (path == p.claude.output && !Clean(Job(p.canonical, Claude, p.claude)))
               || (path == p.cursor.output && !Clean(Job(p.canonical, Cursor, p.cursor))))
  {
    var after := Written(files, Jobs(personas));
    PersonasWritten(files, personas);
    ReportIsStale(after, personas);
    forall p | p in personas
      ensures Drifts(after, Job(p.canonical, Claude, p.claude)) <==> !Clean(Job(p.canonical, Claude, p.claude))
      ensures Drifts(after, Job(p.canonical, Cursor, p.cursor)) <==> !Clean(Job(p.canonical, Cursor, p.cursor))
    {
      DriftOfWritten(files, after, Job(p.canonical, Claude, p.claude));
      DriftOfWritten(files, after, Job(p.canonical, Cursor, p.cursor));
    }
  }

  // ----- What the printers print -------------------------------------------------------

  lemma {:induction false} EntriesConcat(tool: Tool, a: Frontmatter, b: Frontmatter)
    ensures Entries(tool, a + b) == Entries(tool, a) + Entries(tool, b)
    decreases |b|
  {
    if b == [] {
      assert a + b == a;
    } else {
      var init, last := b[..|b| - 1], b[|b| - 1];
      assert b == init + [last] && a + b == a + init + [last];
      EntriesConcat(tool, a, init);
      EntriesAppend(tool, a + init, last);
      EntriesAppend(tool, init, last);
      AppendLast(Entries(tool, a), Entries(tool, init), Entry(tool, last.0, last.1));
    }
  }

  /** The lines of a key stand between those of the keys before it and those of the keys after it. */
  lemma EntryInPlace(tool: Tool, before: Frontmatter, e: (string, Value), after: Frontmatter)
    ensures Entries(tool, before + [e] + after)
         == Entries(tool, before) + Entry(tool, e.0, e.1) + Entries(tool, after)
  {
    EntriesConcat(tool, before + [e], after);
    EntriesAppend(tool, before, e);
  }

  lemma {:induction false} PrefixedAt(prefix: string, items: seq<string>)
    ensures |Prefixed(prefix, items)| == |items|
    ensures forall k :: 0 <= k < |items| ==> Prefixed(prefix, items)[k] == prefix + items[k]
  {
    if items != [] {
      PrefixedAt(prefix, items[..|items| - 1]);
    }
  }

  lemma {:induction false} NestedAt(entries: seq<(string, Nested)>)
    ensures |NestedLines(entries)| == |entries|
    ensures forall k :: 0 <= k < |entries| ==>
      NestedLines(entries)[k]
      == "  " + entries[k].0 + ": " + (if entries[k].1 == EmptyDict then "{}" else entries[k].1.text)
  {
    if entries != [] {
      NestedAt(entries[..|entries| - 1]);
    }
  }

  lemma {:induction false} QuotedAt(items: seq<string>)
    ensures |Quoted(items)| == |items|
    ensures forall k :: 0 <= k < |items| ==> Quoted(items)[k] == "\"" + items[k] + "\""
  {
    if items != [] {
      QuotedAt(items[..|items| - 1]);
    }
  }

  /** Claude's front matter, value by value: the words true and false, decimal numbers, texts of one
      line as they are, and one indented line for every item of a list and entry of a dictionary. */
  lemma ClaudePrints(key: string, value: Value)
    ensures var lines := Entry(Claude, key, value);
      match value
      case Bool(b) => lines == [key + ": " + (if b then "true" else "false")]
      case Int(n) => lines == [key + ": " + Decimal(n)]
      case Str(s) => '\n' !in s && |s| <= 80 ==> lines == [key + ": " + s]
      case List(items) =>
        && |lines| == 1 + |items| && lines[0] == key + ":"
        && forall k :: 0 <= k < |items| ==> lines[k + 1] == "  - " + items[k]
      case Dict(entries) =>
        && |lines| == 1 + |entries| && lines[0] == key + ":"
        && forall k :: 0 <= k < |entries| ==>
             lines[k + 1] == "  " + entries[k].0 + ": "
                             + (if entries[k].1 == EmptyDict then "{}" else entries[k].1.text)
      case Unsupported => lines == []
  {
    match value {
      case List(items) => PrefixedAt("  - ", items);
      case Dict(entries) => NestedAt(entries);
      case _ =>
    }
  }

  /** A text that Claude's printer folds: a `>-` line and indented lines. Without the indentation the
      lines of a text with line breaks join to that text, and those of a long one fold back to its
      words and break only at the width. */
  lemma ClaudeFolds(key: string, s: string)
    requires '\n' in s || |s| > 80
    ensures var lines := Entry(Claude, key, Str(s));
      && |lines| > 0 && lines[0] == key + ": >-"
      && var body := if '\n' in s then SplitLines(s) else Wrapped(s, 76);
         && |lines| == 1 + |body|
         && (forall k :: 0 <= k < |body| ==> lines[k + 1] == "  " + body[k])
         && ('\n' in s ==> Join("\n", body) == s)
         && ('\n' !in s ==> Words(Join(" ", body)) == Words(s) && Join(" ", body) == Join(" ", Words(s)))
  {
    var body := if '\n' in s then SplitLines(s) else Wrapped(s, 76);
    PrefixedAt("  ", body);
    SplitLinesJoins(s);
    WrappedFoldsBack(s, 76);
  }

  /** Cursor's front matter, value by value: texts and list items in quotes; numbers and
      dictionaries are left out. */
  lemma CursorPrints(key: string, value: Value)
    ensures var lines := Entry(Cursor, key, value);
      match value
      case Bool(b) => lines == [key + ": " + (if b then "true" else "false")]
      case Str(s) => lines == [key + ": \"" + s + "\""]
      case List(items) =>
        && |lines| == 1 + |items| && lines[0] == key + ":"
        && forall k :: 0 <= k < |items| ==> lines[k + 1] == "  - " + ("\"" + items[k] + "\"")
      case _ => lines == []
  {
    if value.List? {
      QuotedAt(value.items);
      PrefixedAt("  - ", Quoted(value.items));
    }
  }

  /** The number that a text of digits stands for. */
  function Reading(digits: string): int {
    if digits == "" then 0 else 10 * Reading(digits[..|digits| - 1]) + (digits[|digits| - 1] as int - '0' as int)
  }

  /** Printed numbers read back, and have no digit to spare. */
  lemma ReadingSnoc(digits: string, c: char)
    ensures Reading(digits + [c]) == 10 * Reading(digits) + (c as int - '0' as int)
  {
    assert (digits + [c])[..|digits|] == digits;
  }

  lemma DigitIs(d: nat)
    requires d < 10
    ensures '0' <= Digit(d) <= '9' && Digit(d) as int - '0' as int == d
  {}

  lemma NumeralSnoc(digits: string, c: char)
    requires IsNumeral(digits) && digits[0] != '0' && '0' <= c <= '9'
    ensures IsNumeral(digits + [c]) && (digits + [c])[0] != '0'
  {}

  predicate IsNumeral(digits: string) {
    && digits != "" && (digits[0] == '0' ==> digits == "0")
    && forall i :: 0 <= i < |digits| ==> '0' <= digits[i] <= '9'
  }

  /** Printed numbers are decimal numerals without leading zeros, and read back. */
  lemma {:induction false} DecimalReadsBack(n: nat)
    ensures IsNumeral(Decimal(n)) && Reading(Decimal(n)) == n
    ensures n > 0 ==> Decimal(n)[0] != '0'
    decreases n
  {
    DigitIs(n % 10);
    if n < 10 {
      assert [] + [Digit(n)] == Decimal(n);
      ReadingSnoc([], Digit(n));
    } else {
      DecimalReadsBack(n / 10);
      ReadingSnoc(Decimal(n / 10), Digit(n % 10));
      NumeralSnoc(Decimal(n / 10), Digit(n % 10));
    }
  }

  /** A negative number has a minus sign before it. */
  lemma NegativeDecimal(n: int)
    requires n < 0
    ensures Decimal(n) == "-" + Decimal(-n)
  {}

  // ----- What the reader reads ---------------------------------------------------------

  /** The body is what follows the second of two disjoint `---`, the first ones there are. */
  lemma ExtractCuts(content: string, i: nat, j: nat)
    requires DashesAt(content, i) && forall k: nat :: k < i ==> !DashesAt(content, k)
    requires i + 3 <= j && DashesAt(content, j) && forall k: nat :: i + 3 <= k < j ==> !DashesAt(content, k)
    ensures ExtractBody(content) == Strip(content[j + 3..])
  {
    FirstDashes(content, 0, i);
    FirstDashes(content, i + 3, j);
    CutAt(content, i, j);
  }

  lemma CutAt(content: string, i: nat, j: nat)
    requires i + 3 <= |content| && j + 3 <= |content|
    requires FindDashes(content, 0) == i && FindDashes(content, i + 3) == j
    ensures AfterFrontmatter(content) == content[j + 3..]
  {}

  lemma FirstDashes(s: string, from: nat, i: nat)
    requires from <= i && DashesAt(s, i) && forall k: nat :: from <= k < i ==> !DashesAt(s, k)
    ensures FindDashes(s, from) == i
  {}

  /** Without two disjoint `---` it is the whole text. */
  lemma ExtractWhole(content: string)
    requires forall i: nat, j: nat :: DashesAt(content, i) && i + 3 <= j ==> !DashesAt(content, j)
    ensures ExtractBody(content) == Strip(content)
  {}

  /** Each of the three line breaks is read as one newline, and nothing else changes. */
  lemma LineBreaksTranslate(line: string, lineBreak: string, rest: string)
    requires '\r' !in line
    requires lineBreak == "\n" || lineBreak == "\r\n" || (lineBreak == "\r" && (rest == "" || rest[0] != '\n'))
    ensures UniversalNewlines(line + lineBreak + rest) == line + "\n" + UniversalNewlines(rest)
    ensures UniversalNewlines(line) == line
  {
    UniversalIdentity(line);
    assert line + lineBreak + rest == line + (lineBreak + rest);
    UniversalConcat(line, lineBreak + rest);
    assert UniversalNewlines(lineBreak + rest) == "\n" + UniversalNewlines(rest) by {
      if lineBreak == "\r\n" {
        assert (lineBreak + rest)[2..] == rest;
      } else {
        assert (lineBreak + rest)[1..] == rest;
      }
    }
  }
}
