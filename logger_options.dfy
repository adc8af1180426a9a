/**
 * The options of the logging unit, plugins/middleware/logger/options.go: the level names
 * the `Level` option understands, the file defaults, and the option closures, each of
 * which assigns one field of the options record.
 */
module LoggerOptions {
  import opened Base
  import opened Middleware

  /** zapcore.Level values. */
  const DebugLevel := -1
  const InfoLevel := 0
  const WarnLevel := 1
  const ErrorLevel := 2
  const DPanicLevel := 3
  const PanicLevel := 4
  const FatalLevel := 5

  const DefaultLevel := DebugLevel
  const DefaultFilename := "./access.log"
  const DefaultMaxSize := 100

  /** Go's int32, the type of MaxSize. */
  newtype int32 = x: int | -0x8000_0000 <= x < 0x8000_0000

  /** The `zapLevel` table: the only level names the `Level` option understands. */
  const ZapLevel: map<string, int> := map["debug" := DebugLevel, "info" := InfoLevel, "warn" := WarnLevel, "error" := ErrorLevel]

  /** The level the `Level` option stores for a name: the table's entry, or DefaultLevel for any other name. */
  function LevelOf(name: string): (level: int)
    ensures name in ZapLevel ==> level == ZapLevel[name]
    ensures name !in ZapLevel ==> level == DefaultLevel
    ensures DebugLevel <= level <= ErrorLevel
  {
    if name in ZapLevel then ZapLevel[name] else DefaultLevel
  }

  /** zapcore.Level.String() for the four levels the table names. */
  function LevelName(level: int): (name: string)
    requires DebugLevel <= level <= ErrorLevel
  {
    if level == DebugLevel then "debug"
    else if level == InfoLevel then "info"
    else if level == WarnLevel then "warn"
    else "error"
  }

  /** Every level the table names is reached from its own name, and every name in the table is that level's name. */
  lemma LevelNamesRoundTrip(level: int, name: string)
    requires DebugLevel <= level <= ErrorLevel
    ensures LevelOf(LevelName(level)) == level
    ensures name in ZapLevel ==> LevelName(LevelOf(name)) == name
  {
  }

  /** Names are matched exactly: "DEBUG" or "Info" are not in the table. */
  lemma LevelNamesAreCaseSensitive()
    ensures LevelOf("INFO") == DebugLevel && LevelOf("Error") == DebugLevel && LevelOf("") == DebugLevel
  {
    assert "INFO" !in ZapLevel;
    assert "Error" !in ZapLevel;
    assert "" !in ZapLevel;
  }

  /** logger.Options. */
  datatype Options = Options(
    logger: Option<SugaredLogger>,
    filename: string,
    maxSize: int32,
    localTime: bool,
    compress: bool,
    level: int,
    filterOutFunc: Option<FilterFunc>)

  /** `new(Options)`: zero values, so the level is InfoLevel (0), not DefaultLevel. */
  const ZeroOptions := Options(None, "", 0, false, false, 0, None)

  /** An option closure, identified by its argument. */
  datatype LoggerOption =
    | Logger(logger: Option<SugaredLogger>)
    | Filename(filename: string)
    | MaxSize(maxSize: int32)
    | LocalTime(localTime: bool)
    | Compress(compress: bool)
    | Level(name: string)
    | FilterOutFunc(filterOutFunc: Option<FilterFunc>)

  /** Runs one option closure. */
  function Apply(o: Options, opt: LoggerOption): Options
  {
    match opt
    case Logger(l) => o.(logger := l)
    case Filename(f) => o.(filename := f)
    case MaxSize(n) => o.(maxSize := n)
    case LocalTime(b) => o.(localTime := b)
    case Compress(b) => o.(compress := b)
    case Level(name) => o.(level := LevelOf(name))
    case FilterOutFunc(f) => o.(filterOutFunc := f)
  }

  /** Runs the closures in order. */
  function ApplyAll(o: Options, ops: seq<LoggerOption>): Options
  {
    if ops == [] then o else Apply(ApplyAll(o, ops[..|ops| - 1]), ops[|ops| - 1])
  }

  /** The setters other than Level store their argument verbatim and touch nothing else. */
  lemma SettersVerbatim(o: Options, l: Option<SugaredLogger>, f: string, n: int32, b: bool, ff: Option<FilterFunc>)
    ensures Apply(o, Logger(l)) == o.(logger := l)
    ensures Apply(o, Filename(f)) == o.(filename := f)
    ensures Apply(o, MaxSize(n)) == o.(maxSize := n)
    ensures Apply(o, LocalTime(b)) == o.(localTime := b)
    ensures Apply(o, Compress(b)) == o.(compress := b)
    ensures Apply(o, FilterOutFunc(ff)) == o.(filterOutFunc := ff)
  {
  }

  /** Options can only ever store a level between Debug and Error, so a level in that range stays in it. */
  lemma {:induction false} LevelStaysNamed(o: Options, ops: seq<LoggerOption>)
    requires DebugLevel <= o.level <= ErrorLevel
    ensures DebugLevel <= ApplyAll(o, ops).level <= ErrorLevel
  {
    if ops != [] {
      LevelStaysNamed(o, ops[..|ops| - 1]);
    }
  }

  /** The last Level option decides the level, whatever came before it. */
  lemma {:induction false} LastLevelDecides(o: Options, before: seq<LoggerOption>, name: string, after: seq<LoggerOption>)
    requires forall i :: 0 <= i < |after| ==> !after[i].Level?
    ensures ApplyAll(o, before + [Level(name)] + after).level == LevelOf(name)
    decreases |after|
  {
    var ops := before + [Level(name)] + after;
    if after == [] {
      assert ops[..|ops| - 1] == before;
    } else {
      assert ops[..|ops| - 1] == before + [Level(name)] + after[..|after| - 1];
      LastLevelDecides(o, before, name, after[..|after| - 1]);
    }
  }

  /** Without a Level option the level is left as it was, so from ZeroOptions it is InfoLevel. */
  lemma {:induction false} NoLevelOptionKeepsLevel(o: Options, ops: seq<LoggerOption>)
    requires forall i :: 0 <= i < |ops| ==> !ops[i].Level?
    ensures ApplyAll(o, ops).level == o.level
  {
    if ops != [] {
      NoLevelOptionKeepsLevel(o, ops[..|ops| - 1]);
    }
  }
}
