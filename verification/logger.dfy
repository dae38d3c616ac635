/**
 * The logger: a level and category gate in front of a console output and
 * a file output that writes one JSON line per entry into a file per
 * category and day, rotating the file through numbered copies when it
 * has grown too large. The file system is a map from paths to file sizes;
 * the size of a written line, the date, the time stamp and the generated
 * request id are parameters.
 */
module Logger {
  import opened Values
  import opened Strings

  datatype Level = DEBUG | INFO | WARN | ERROR

  /** The enumeration's numeric values. */
  function Rank(l: Level): (r: nat)
    ensures r <= 3
  {
    match l
    case DEBUG => 0
    case INFO => 1
    case WARN => 2
    case ERROR => 3
  }

  /** `LogLevel[level]`: the name an entry carries. */
  function LevelName(l: Level): string
  {
    match l
    case DEBUG => "DEBUG"
    case INFO => "INFO"
    case WARN => "WARN"
    case ERROR => "ERROR"
  }

  /** Levels are strictly ordered DEBUG < INFO < WARN < ERROR, and the rank determines the level. */
  lemma LevelOrder()
    ensures Rank(DEBUG) < Rank(INFO) < Rank(WARN) < Rank(ERROR)
    ensures forall a: Level, b: Level :: Rank(a) == Rank(b) ==> a == b
  {
  }

  datatype Category = DEFAULT | ACCESS | ERRORS | AUDIT | PERFORMANCE

  /** The category's string value, which names its log files. */
  function CategoryName(c: Category): string
  {
    match c
    case DEFAULT => "default"
    case ACCESS => "access"
    case ERRORS => "error"
    case AUDIT => "audit"
    case PERFORMANCE => "performance"
  }

  const AllCategories: seq<Category> := [DEFAULT, ACCESS, ERRORS, AUDIT, PERFORMANCE]

  const DefaultMaxSize := 10 * 1024 * 1024
  const DefaultMaxFiles := 5

  /** The logger's effective configuration; an optional field may be `undefined`. */
  datatype Config = Config(
    level: Level,
    enableConsole: bool,
    enableFile: bool,
    logDir: Option<string>,
    maxSize: Option<int>,
    maxFiles: Option<int>,
    colorize: Option<bool>,
    categories: seq<Category>)

  /** A property of a supplied object: not there, there but `undefined`, or given. */
  datatype Prop<T> = Missing | Undefined | Given(value: T)

  /** A configuration as a caller supplies it; the three required fields are always there. */
  datatype Supplied = Supplied(
    level: Level,
    enableConsole: bool,
    enableFile: bool,
    logDir: Prop<string>,
    maxSize: Prop<int>,
    maxFiles: Prop<int>,
    colorize: Prop<bool>,
    categories: Prop<seq<Category>>)

  /**
   * The default configuration for the process environment: INFO and file
   * output in production, DEBUG and console only otherwise; the log
   * directory is `LOG_DIR` unless that is unset or empty.
   */
  function DefaultConfig(production: bool, logDirEnv: Option<string>): (c: Config)
    ensures c.level == (if production then INFO else DEBUG)
    ensures c.enableConsole && c.enableFile == production
    ensures c.logDir == Some(if logDirEnv.Some? && logDirEnv.value != "" then logDirEnv.value else "logs")
    ensures c.maxSize == Some(DefaultMaxSize) && c.maxFiles == Some(DefaultMaxFiles)
    ensures c.colorize == Some(true) && c.categories == AllCategories
  {
    Config(
      if production then INFO else DEBUG,
      true,
      production,
      Some(if logDirEnv.Some? && logDirEnv.value != "" then logDirEnv.value else "logs"),
      Some(DefaultMaxSize),
      Some(DefaultMaxFiles),
      Some(true),
      AllCategories)
  }

  /** `{ ...defaults, ...supplied }` on one optional property. */
  function Override<T>(d: Option<T>, p: Prop<T>): (r: Option<T>)
    ensures p.Missing? ==> r == d
    ensures p.Undefined? ==> r.None?
    ensures p.Given? ==> r == Some(p.value)
  {
    match p
    case Missing => d
    case Undefined => None
    case Given(v) => Some(v)
  }

  /**
   * The constructor's merge: every supplied property overrides the default,
   * an explicitly `undefined` one included, except that the category list
   * falls back to the default when not given. No configuration at all means
   * the defaults.
   */
  function Merge(d: Config, supplied: Option<Supplied>): (c: Config)
    ensures supplied.None? ==> c == d
    ensures supplied.Some? ==>
      var s := supplied.value;
      && c.level == s.level && c.enableConsole == s.enableConsole && c.enableFile == s.enableFile
      && c.logDir == Override(d.logDir, s.logDir)
      && c.maxSize == Override(d.maxSize, s.maxSize)
      && c.maxFiles == Override(d.maxFiles, s.maxFiles)
      && c.colorize == Override(d.colorize, s.colorize)
      && c.categories == (if s.categories.Given? then s.categories.value else d.categories)
  {
    match supplied
    case None => d
    case Some(s) =>
      Config(s.level, s.enableConsole, s.enableFile,
        Override(d.logDir, s.logDir), Override(d.maxSize, s.maxSize), Override(d.maxFiles, s.maxFiles),
        Override(d.colorize, s.colorize),
        if s.categories.Given? then s.categories.value else d.categories)
  }

  /** A supplied configuration that names every property is taken as it is. */
  lemma MergeFullOverride(d: Config, s: Supplied)
    requires s.logDir.Given? && s.maxSize.Given? && s.maxFiles.Given? && s.colorize.Given? && s.categories.Given?
    ensures Merge(d, Some(s)) ==
      Config(s.level, s.enableConsole, s.enableFile, Some(s.logDir.value), Some(s.maxSize.value),
        Some(s.maxFiles.value), Some(s.colorize.value), s.categories.value)
  {
  }

  /** The file output's settings, with its defaults applied. */
  datatype FileOutput = FileOutput(logDir: string, maxSize: int, maxFiles: int)

  /** `x || d` on an optional number: `undefined` and `0` give the default. */
  function OrDefault(x: Option<int>, d: int): (r: int)
    ensures x.Some? && x.value != 0 ==> r == x.value
    ensures x.None? || x.value == 0 ==> r == d
  {
    if x.Some? && x.value != 0 then x.value else d
  }

  /** The outputs the logger builds from its configuration. */
  datatype Logger = Logger(config: Config, console: Option<bool>, file: Option<FileOutput>)

  /**
   * `initOutputs`: a console output when enabled (colourised unless
   * `colorize` is false), a file output when enabled and the directory is
   * not empty, with 10 MiB and 5 files for a missing or zero size and count.
   */
  function Build(c: Config): (lg: Logger)
    ensures lg.config == c
    ensures lg.console.Some? <==> c.enableConsole
    ensures lg.console.Some? ==> lg.console.value == c.colorize.GetOr(true)
    ensures lg.file.Some? <==> c.enableFile && c.logDir.Some? && c.logDir.value != ""
    ensures lg.file.Some? ==>
      && lg.file.value.logDir == c.logDir.value
      && lg.file.value.maxSize == OrDefault(c.maxSize, DefaultMaxSize)
      && lg.file.value.maxFiles == OrDefault(c.maxFiles, DefaultMaxFiles)
      && lg.file.value.maxSize != 0 && lg.file.value.maxFiles != 0
  {
    Logger(
      c,
      if c.enableConsole then Some(c.colorize.GetOr(true)) else None,
      if c.enableFile && c.logDir.Some? && c.logDir.value != "" then
        Some(FileOutput(c.logDir.value, OrDefault(c.maxSize, DefaultMaxSize), OrDefault(c.maxFiles, DefaultMaxFiles)))
      else None)
  }

  /**
   * `getInstance`: the first call builds the logger from the configuration
   * it is given, or the defaults; later calls return that logger and
   * ignore their configuration.
   */
  function GetInstance(instance: Option<Logger>, supplied: Option<Supplied>, production: bool, logDirEnv: Option<string>): (lg: Logger)
    ensures instance.Some? ==> lg == instance.value
    ensures instance.None? ==> lg == Build(Merge(DefaultConfig(production, logDirEnv), supplied))
  {
    if instance.Some? then instance.value else Build(Merge(DefaultConfig(production, logDirEnv), supplied))
  }

  /** Without a configuration, the production logger writes INFO and above to the console and to `logs`. */
  lemma ProductionDefaults()
    ensures var lg := GetInstance(None, None, true, None);
      && lg.config.level == INFO
      && lg.console == Some(true)
      && lg.file == Some(FileOutput("logs", DefaultMaxSize, DefaultMaxFiles))
  {
  }

  /** `setLevel`: only the threshold changes. */
  function SetLevel(lg: Logger, level: Level): (r: Logger)
    ensures r.config == lg.config.(level := level)
    ensures r.console == lg.console && r.file == lg.file
  {
    lg.(config := lg.config.(level := level))
  }

  /** The gate of `log`: the level reaches the threshold and the category is enabled. */
  predicate Passes(c: Config, level: Level, category: Category)
  {
    Rank(level) >= Rank(c.level) && category in c.categories
  }

  /** A gate set to a level passes every higher level in the same category. */
  lemma PassesUpward(c: Config, l1: Level, l2: Level, category: Category)
    requires Passes(c, l1, category) && Rank(l1) <= Rank(l2)
    ensures Passes(c, l2, category)
  {
  }

  /** After `setLevel(l)`, an enabled category passes exactly at the levels from `l` up. */
  lemma SetLevelGate(lg: Logger, l: Level, level: Level, category: Category)
    requires category in lg.config.categories
    ensures Passes(SetLevel(lg, l).config, level, category) <==> Rank(level) >= Rank(l)
  {
  }

  /** A log context: an object, or none. */
  type Context = Option<map<string, Json>>

  /**
   * A context that lacks a truthy `requestId` gets the generated one; one
   * that has it keeps it; no context stays none.
   */
  function StampRequestId(context: Context, newId: string): (r: Context)
    ensures context.None? ==> r.None?
    ensures context.Some? ==> r.Some? && r.value.Keys == context.value.Keys + {"requestId"}
    ensures context.Some? && Present(Field(JObj(context.value), "requestId")) ==> r == context
    ensures context.Some? && !Present(Field(JObj(context.value), "requestId")) ==>
      r == Some(context.value["requestId" := JStr(newId)])
  {
    match context
    case None => None
    case Some(fields) =>
      if Present(Field(JObj(fields), "requestId")) then context
      else Some(fields["requestId" := JStr(newId)])
  }

  /** A stamped context carries a truthy request id, and stamping again changes nothing. */
  lemma StampIdempotent(context: Context, newId: string, otherId: string)
    requires newId != ""
    ensures var r := StampRequestId(context, newId);
      && (r.Some? ==> Present(Field(JObj(r.value), "requestId")))
      && StampRequestId(r, otherId) == r
  {
  }

  /** One log line; `requestId` is copied from the context when it is truthy there. */
  datatype Entry = Entry(
    timestamp: Millis,
    level: string,
    category: string,
    message: string,
    context: Context,
    requestId: Option<Json>)

  type Millis = int

  function MakeEntry(now: Millis, level: Level, category: Category, message: string, context: Context): (e: Entry)
    ensures e.level == LevelName(level) && e.category == CategoryName(category) && e.message == message
    ensures e.context == context
    ensures e.requestId.Some? <==> context.Some? && Present(Field(JObj(context.value), "requestId"))
    ensures e.requestId.Some? ==> e.requestId.value == context.value["requestId"]
  {
    var id := if context.Some? && Present(Field(JObj(context.value), "requestId")) then Some(context.value["requestId"]) else None;
    Entry(now, LevelName(level), CategoryName(category), message, context, id)
  }

  /** The file system: path to size in bytes. */
  type Files = map<string, nat>

  function Lookup(fs: Files, p: string): Option<nat>
  {
    if p in fs then Some(fs[p]) else None
  }

  /** `${filePath}.${i}`. */
  function Numbered(path: string, i: int): string
  {
    path + "." + IntToString(i)
  }

  /** Distinct positive numbers give distinct numbered paths, none of them the path itself. */
  lemma NumberedDistinct(path: string, i: nat, j: nat)
    ensures Numbered(path, i) != path
    ensures i != j ==> Numbered(path, i) != Numbered(path, j)
  {
    if i != j && Numbered(path, i) == Numbered(path, j) {
      var a, b := Numbered(path, i), Numbered(path, j);
      assert a[|path| + 1..] == NatToString(i);
      assert b[|path| + 1..] == NatToString(j);
      NatToStringInjective(i, j);
    }
  }

  /** `renameSync(from, to)`: the file moves, replacing whatever was at `to`. */
  function Rename(fs: Files, from: string, to: string): (r: Files)
    requires from in fs
    ensures Lookup(r, to) == Some(fs[from])
    ensures from != to ==> Lookup(r, from).None?
    ensures forall k :: k != from && k != to ==> Lookup(r, k) == Lookup(fs, k)
  {
    (fs - {from})[to := fs[from]]
  }

  /** A path that rotation with `maxFiles` copies leaves alone. */
  predicate Untouched(k: string, path: string, maxFiles: int)
  {
    k != path && forall j :: 1 <= j <= maxFiles ==> k != Numbered(path, j)
  }

  /**
   * What one rotation does with at least one numbered copy: the current
   * file becomes copy 1, copy i becomes copy i + 1 up to `maxFiles`, the
   * old copy `maxFiles` is gone, and nothing else changes.
   */
  ghost predicate IsRotation(fs: Files, r: Files, path: string, maxFiles: int)
  {
    && path in fs
    && Lookup(r, path).None?
    && Lookup(r, Numbered(path, 1)) == Some(fs[path])
    && (forall j :: 2 <= j <= maxFiles ==> Lookup(r, Numbered(path, j)) == Lookup(fs, Numbered(path, j - 1)))
    && (forall k :: Untouched(k, path, maxFiles) ==> Lookup(r, k) == Lookup(fs, k))
  }

  /**
   * The state of the shift loop with `i` copies still to move: the file
   * and copies 1..i are where they were, slot i + 1 is free, copies above
   * it hold their lower neighbour's old content, and nothing else changed.
   */
  ghost predicate ShiftedAbove(fs: Files, r: Files, path: string, maxFiles: int, i: int)
  {
    && Lookup(r, path) == Lookup(fs, path)
    && Lookup(r, Numbered(path, i + 1)).None?
    && (forall j :: 1 <= j <= i ==> Lookup(r, Numbered(path, j)) == Lookup(fs, Numbered(path, j)))
    && (forall j :: i + 2 <= j <= maxFiles ==> Lookup(r, Numbered(path, j)) == Lookup(fs, Numbered(path, j - 1)))
    && (forall k :: Untouched(k, path, maxFiles) ==> Lookup(r, k) == Lookup(fs, k))
  }

  /** Deleting the oldest copy starts the shift with every copy still to move. */
  lemma ShiftStart(fs: Files, path: string, maxFiles: int)
    requires maxFiles >= 1
    ensures ShiftedAbove(fs, fs - {Numbered(path, maxFiles)}, path, maxFiles, maxFiles - 1)
  {
    NumberedDistinct(path, maxFiles, maxFiles);
    forall j | 1 <= j < maxFiles
      ensures Numbered(path, j) != Numbered(path, maxFiles)
    {
      NumberedDistinct(path, j, maxFiles);
    }
  }

  /** Moving copy i to the free slot i + 1 frees slot i. */
  lemma ShiftStep(fs: Files, r: Files, path: string, maxFiles: int, i: int)
    requires 1 <= i < maxFiles
    requires ShiftedAbove(fs, r, path, maxFiles, i)
    ensures var r' := if Numbered(path, i) in r then Rename(r, Numbered(path, i), Numbered(path, i + 1)) else r;
      ShiftedAbove(fs, r', path, maxFiles, i - 1)
  {
    var r' := if Numbered(path, i) in r then Rename(r, Numbered(path, i), Numbered(path, i + 1)) else r;
    NumberedDistinct(path, i, i + 1);
    forall j | 1 <= j <= i - 1
      ensures Lookup(r', Numbered(path, j)) == Lookup(r, Numbered(path, j))
    {
      NumberedDistinct(path, j, i);
      NumberedDistinct(path, j, i + 1);
    }
    forall j | i + 2 <= j <= maxFiles
      ensures Lookup(r', Numbered(path, j)) == Lookup(r, Numbered(path, j))
    {
      NumberedDistinct(path, j, i);
      NumberedDistinct(path, j, i + 1);
    }
  }

  /** With every copy moved, renaming the file to copy 1 completes a rotation. */
  lemma ShiftFinish(fs: Files, r: Files, path: string, maxFiles: int)
    requires maxFiles >= 1 && path in fs
    requires ShiftedAbove(fs, r, path, maxFiles, 0)
    ensures path in r && IsRotation(fs, Rename(r, path, Numbered(path, 1)), path, maxFiles)
  {
    NumberedDistinct(path, 1, 1);
    forall j | 2 <= j <= maxFiles
      ensures Numbered(path, j) != Numbered(path, 1) && Numbered(path, j) != path
    {
      NumberedDistinct(path, j, 1);
    }
  }

  /**
   * `rotateLogFileIfNeeded`: nothing happens unless the file exists and has
   * reached `maxSize`; then the oldest copy is deleted, the copies shift up
   * by one from the highest down, and the file becomes copy 1.
   */
  method RotateIfNeeded(fs: Files, path: string, maxSize: int, maxFiles: int) returns (r: Files)
    ensures path !in fs || fs[path] < maxSize ==> r == fs
    ensures path in fs && fs[path] >= maxSize && maxFiles >= 1 ==> IsRotation(fs, r, path, maxFiles)
    ensures path in fs && fs[path] >= maxSize && maxFiles < 1 ==>
      r == Rename(fs - {Numbered(path, maxFiles)}, path, Numbered(path, 1))
  {
    if path !in fs || fs[path] < maxSize {
      return fs;
    }
    if maxFiles < 1 {
      assert Numbered(path, maxFiles) != path;
      return Rename(fs - {Numbered(path, maxFiles)}, path, Numbered(path, 1));
    }
    r := fs - {Numbered(path, maxFiles)};
    ShiftStart(fs, path, maxFiles);
    var i := maxFiles - 1;
    while i >= 1
      invariant 0 <= i <= maxFiles - 1
      invariant ShiftedAbove(fs, r, path, maxFiles, i)
      decreases i
    {
      ShiftStep(fs, r, path, maxFiles, i);
      var older, newer := Numbered(path, i), Numbered(path, i + 1);
      if older in r {
        r := Rename(r, older, newer);
      }
      i := i - 1;
    }
    ShiftFinish(fs, r, path, maxFiles);
    r := Rename(r, path, Numbered(path, 1));
  }

  /**
   * A rotation loses only the old highest copy: every other file of the
   * file system is still there, under a path rotation gives it.
   */
  lemma RotationLosesOnlyOldest(fs: Files, r: Files, path: string, maxFiles: int, k: string)
    requires maxFiles >= 1 && IsRotation(fs, r, path, maxFiles)
    requires k in fs && k != Numbered(path, maxFiles)
    ensures exists k' :: k' in r && r[k'] == fs[k]
  {
    if k == path {
      assert Lookup(r, Numbered(path, 1)) == Some(fs[k]);
    } else if exists j :: 1 <= j <= maxFiles && k == Numbered(path, j) {
      var j :| 1 <= j <= maxFiles && k == Numbered(path, j);
      assert j < maxFiles;
      assert Lookup(r, Numbered(path, j + 1)) == Lookup(fs, Numbered(path, j + 1 - 1));
    } else {
      assert Untouched(k, path, maxFiles);
      assert Lookup(r, k) == Some(fs[k]);
    }
  }

  /** `getLogFilePath`: `<logDir>/<category>-<date>.jsonl`. */
  function FilePath(out: FileOutput, category: Category, date: string): string
  {
    out.logDir + "/" + CategoryName(category) + "-" + date + ".jsonl"
  }

  /** The position of the first dash, or the length when there is none. */
  function FirstDash(s: string): (k: nat)
    ensures k <= |s|
  {
    if |s| == 0 || s[0] == '-' then 0 else 1 + FirstDash(s[1..])
  }

  /** In a dash-free name followed by a dash, the first dash ends the name. */
  lemma {:induction false} FirstDashEndsName(n: string, t: string)
    requires '-' !in n
    ensures FirstDash(n + "-" + t) == |n|
  {
    if |n| > 0 {
      assert (n + "-" + t)[1..] == n[1..] + "-" + t;
      FirstDashEndsName(n[1..], t);
    }
  }

  /** A name followed by a dash determines the name when names contain no dash. */
  lemma {:induction false} NameBeforeDash(n1: string, n2: string, t1: string, t2: string)
    requires '-' !in n1 && '-' !in n2
    requires n1 + "-" + t1 == n2 + "-" + t2
    ensures n1 == n2 && t1 == t2
  {
    var s := n1 + "-" + t1;
    FirstDashEndsName(n1, t1);
    FirstDashEndsName(n2, t2);
    assert n1 == s[..|n1|] == n2;
    assert t1 == s[|n1| + 1..] == t2;
  }

  /** A numbered copy is the path with a dot and the number appended. */
  lemma NumberedSuffix(path: string, i: int)
    ensures Numbered(path, i) == path + ("." + IntToString(i))
  {
  }

  /** Every numbered copy ends in a digit. */
  lemma {:induction false} NumberedEndsInDigit(path: string, i: int)
    ensures var n := Numbered(path, i); |n| > 0 && '0' <= n[|n| - 1] <= '9'
  {
    var d := if i >= 0 then NatToString(i) else NatToString(-i);
    assert Numbered(path, i)[|Numbered(path, i)| - 1] == d[|d| - 1];
  }

  /** The part of a day file's path after the directory: `<category>-<rest>`. */
  lemma {:induction false} SplitPath(out: FileOutput, c: Category, date: string, suffix: string)
    ensures var dir := out.logDir + "/";
      && '-' !in CategoryName(c)
      && FilePath(out, c, date) + suffix == dir + (CategoryName(c) + "-" + (date + ".jsonl" + suffix))
  {
  }

  /** Two day-file paths, each with something appended, agree only for one category. */
  lemma {:induction false} SameCategory(out: FileOutput, a: Category, b: Category, d1: string, d2: string, s1: string, s2: string)
    requires FilePath(out, a, d1) + s1 == FilePath(out, b, d2) + s2
    ensures a == b && d1 + ".jsonl" + s1 == d2 + ".jsonl" + s2
  {
    var dir := out.logDir + "/";
    var na, nb := CategoryName(a), CategoryName(b);
    var ta, tb := d1 + ".jsonl" + s1, d2 + ".jsonl" + s2;
    SplitPath(out, a, d1, s1);
    SplitPath(out, b, d2, s2);
    assert na + "-" + ta == (dir + (na + "-" + ta))[|dir|..];
    assert nb + "-" + tb == (dir + (nb + "-" + tb))[|dir|..];
    NameBeforeDash(na, nb, ta, tb);
  }

  /** A day file's path determines its category and day. */
  lemma {:induction false} DayFileInjective(out: FileOutput, a: Category, b: Category, d1: string, d2: string)
    requires FilePath(out, a, d1) == FilePath(out, b, d2)
    ensures a == b && d1 == d2
  {
    assert FilePath(out, a, d1) + "" == FilePath(out, b, d2) + "";
    SameCategory(out, a, b, d1, d2, "", "");
    assert d1 + ".jsonl" + "" == d1 + ".jsonl";
    assert d2 + ".jsonl" + "" == d2 + ".jsonl";
    assert d1 == (d1 + ".jsonl")[..|d1|];
    assert d2 == (d2 + ".jsonl")[..|d2|];
  }

  /** A numbered copy's path determines its category. */
  lemma {:induction false} CopiesOfOneCategory(out: FileOutput, a: Category, b: Category, d1: string, d2: string, i: int, j: int)
    requires Numbered(FilePath(out, a, d1), i) == Numbered(FilePath(out, b, d2), j)
    ensures a == b
  {
    var pa, pb := FilePath(out, a, d1), FilePath(out, b, d2);
    var si, sj := "." + IntToString(i), "." + IntToString(j);
    NumberedSuffix(pa, i);
    NumberedSuffix(pb, j);
    assert pa + si == pb + sj;
    SameCategory(out, a, b, d1, d2, si, sj);
  }

  /**
   * The day files of different categories or days never share a path, no
   * numbered copy is a day file, and the copies of different categories
   * never share a path either: rotating one file cannot touch another.
   */
  lemma {:induction false} DayFilesDistinct(out: FileOutput, a: Category, b: Category, d1: string, d2: string, i: int, j: int)
    ensures a != b || d1 != d2 ==> FilePath(out, a, d1) != FilePath(out, b, d2)
    ensures Numbered(FilePath(out, a, d1), i) != FilePath(out, b, d2)
    ensures a != b ==> Numbered(FilePath(out, a, d1), i) != Numbered(FilePath(out, b, d2), j)
  {
    if FilePath(out, a, d1) == FilePath(out, b, d2) {
      DayFileInjective(out, a, b, d1, d2);
    }
    NumberedEndsInDigit(FilePath(out, a, d1), i);
    var q := FilePath(out, b, d2);
    assert q[|q| - 1] == 'l';
    if Numbered(FilePath(out, a, d1), i) == Numbered(FilePath(out, b, d2), j) {
      CopiesOfOneCategory(out, a, b, d1, d2, i, j);
    }
  }

  /**
   * One line of `lineSize` bytes written to `p`: appended when `p` is
   * missing or below `maxSize`; otherwise `p` is rotated first and the line
   * starts a fresh file. With `maxFiles < 1` the rotation deletes the copy
   * numbered `maxFiles`, shifts nothing and moves `p` to copy 1.
   */
  ghost predicate WroteLine(fs: Files, r: Files, p: string, maxSize: int, maxFiles: int, lineSize: nat)
  {
    && p in r
    && (p !in fs || fs[p] < maxSize ==> r == fs[p := Lookup(fs, p).GetOr(0) + lineSize])
    && (p in fs && fs[p] >= maxSize && maxFiles >= 1 ==>
          r[p] == lineSize && exists mid :: IsRotation(fs, mid, p, maxFiles) && r == mid[p := lineSize])
    && (p in fs && fs[p] >= maxSize && maxFiles < 1 ==>
          Numbered(p, maxFiles) != p && r == Rename(fs - {Numbered(p, maxFiles)}, p, Numbered(p, 1))[p := lineSize])
  }

  /**
   * `FileOutput.log`: rotates the day's file of the category when needed,
   * then appends a line of `lineSize` bytes to it.
   */
  method WriteFile(fs: Files, out: FileOutput, category: Category, date: string, lineSize: nat) returns (r: Files)
    ensures WroteLine(fs, r, FilePath(out, category, date), out.maxSize, out.maxFiles, lineSize)
  {
    var p := FilePath(out, category, date);
    var mid := RotateIfNeeded(fs, p, out.maxSize, out.maxFiles);
    if p in fs && fs[p] >= out.maxSize && out.maxFiles < 1 {
      NumberedDistinct(p, 1, 1);
    }
    r := mid[p := Lookup(mid, p).GetOr(0) + lineSize];
  }

  /** The effect of one `log` call: the caller's context afterwards, the console lines and the file system. */
  datatype Logged = Logged(context: Context, console: seq<Entry>, files: Files)

  /**
   * `Logger.log`: a message that does not pass the gate has no effect.
   * One that passes has its context stamped with a request id, then goes
   * to the console output and to the file output, each when present.
   */
  method Log(lg: Logger, fs: Files, level: Level, category: Category, message: string, context: Context,
             newId: string, now: Millis, date: string, lineSize: nat) returns (res: Logged)
    ensures !Passes(lg.config, level, category) ==> res == Logged(context, [], fs)
    ensures Passes(lg.config, level, category) ==>
      && res.context == StampRequestId(context, newId)
      && res.console == (if lg.console.Some? then [MakeEntry(now, level, category, message, res.context)] else [])
      && (lg.file.None? ==> res.files == fs)
      && (lg.file.Some? ==>
            WroteLine(fs, res.files, FilePath(lg.file.value, category, date), lg.file.value.maxSize, lg.file.value.maxFiles, lineSize))
  {
    if !Passes(lg.config, level, category) {
      return Logged(context, [], fs);
    }
    var ctx := StampRequestId(context, newId);
    var console := if lg.console.Some? then [MakeEntry(now, level, category, message, ctx)] else [];
    var files := fs;
    if lg.file.Some? {
      files := WriteFile(fs, lg.file.value, category, date, lineSize);
    }
    res := Logged(ctx, console, files);
  }

  /** Every line written for a call with a context carries that context's request id. */
  lemma EntriesCarryRequestId(context: Context, newId: string, now: Millis, level: Level, category: Category, message: string)
    requires context.Some? && newId != ""
    ensures var ctx := StampRequestId(context, newId);
      var e := MakeEntry(now, level, category, message, ctx);
      && e.requestId.Some?
      && e.requestId.value == (if Present(Field(JObj(context.value), "requestId")) then context.value["requestId"] else JStr(newId))
  {
  }
}
