/**
 * The logging unit of plugins/middleware/logger/logger.go: `configure` fills the options
 * in place, `NewZapLogger` picks the supplied logger or describes the rolling file logger
 * it creates, and each interceptor returns its continuation's result and decides which
 * record to write about the call: an error record, a debug record, or none.
 */
module ZapLogger {
  import opened Base
  import opened Middleware
  import opened LoggerOptions

  /** `configure`'s defaults after the options ran: file name, file size, and a level outside [-1, 5]. */
  function WithDefaults(o: Options): (r: Options)
    ensures r.filename != "" && r.maxSize > 0 && DebugLevel <= r.level <= FatalLevel
    ensures o.filename != "" ==> r.filename == o.filename
    ensures o.filename == "" ==> r.filename == DefaultFilename
    ensures o.maxSize > 0 ==> r.maxSize == o.maxSize
    ensures o.maxSize <= 0 ==> r.maxSize == DefaultMaxSize as int32
    ensures DebugLevel <= o.level <= FatalLevel ==> r.level == o.level
    ensures !(DebugLevel <= o.level <= FatalLevel) ==> r.level == DefaultLevel
    ensures r.logger == o.logger && r.localTime == o.localTime && r.compress == o.compress && r.filterOutFunc == o.filterOutFunc
  {
    var o1 := if o.filename == "" then o.(filename := DefaultFilename) else o;
    var o2 := if o1.maxSize <= 0 then o1.(maxSize := DefaultMaxSize as int32) else o1;
    if o2.level < DebugLevel || o2.level > FatalLevel then o2.(level := DefaultLevel) else o2
  }

  /** The options a fresh unit ends up with: LocalTime and Compress on, then the options, then the defaults. */
  function ConfiguredOptions(ops: seq<LoggerOption>): Options
  {
    WithDefaults(ApplyAll(ZeroOptions.(localTime := true, compress := true), ops))
  }

  /**
   * What the unit configures from any options: a file name and size are always set, the
   * level is one the `Level` option can name (so the range reset is never what decides it),
   * and without options the file logger rolls ./access.log at 100 MB, compressed, in local
   * time, at InfoLevel.
   */
  lemma ConfiguredOptionsFacts(ops: seq<LoggerOption>)
    ensures var o := ConfiguredOptions(ops);
            o.filename != "" && o.maxSize > 0 && DebugLevel <= o.level <= ErrorLevel
    ensures var o := ConfiguredOptions(ops);
            o.level == ApplyAll(ZeroOptions.(localTime := true, compress := true), ops).level
    ensures ConfiguredOptions([]) == Options(None, DefaultFilename, DefaultMaxSize as int32, true, true, InfoLevel, None)
  {
    LevelStaysNamed(ZeroOptions.(localTime := true, compress := true), ops);
  }

  /** Configuring is idempotent on its own output: the defaults leave configured options alone. */
  lemma WithDefaultsIdempotent(o: Options)
    ensures WithDefaults(WithDefaults(o)) == WithDefaults(o)
  {
  }

  /** Options that switch LocalTime or Compress off win over the defaults configure sets first. */
  lemma OptionsOverrideFileFlags(ops: seq<LoggerOption>)
    ensures ConfiguredOptions(ops + [LocalTime(false), Compress(false)]).localTime == false
    ensures ConfiguredOptions(ops + [LocalTime(false), Compress(false)]).compress == false
  {
    var all := ops + [LocalTime(false), Compress(false)];
    assert all[..|all| - 1] == ops + [LocalTime(false)];
    assert (ops + [LocalTime(false)])[..|ops|] == ops;
    var start := ZeroOptions.(localTime := true, compress := true);
    assert ApplyAll(start, ops + [LocalTime(false)]) == ApplyAll(start, ops).(localTime := false);
    assert ApplyAll(start, all) == ApplyAll(start, ops).(localTime := false, compress := false);
  }

  /** The record an interceptor writes once its continuation returned. */
  datatype Record = NoRecord | ErrorRecord | DebugRecord

  /**
   * The deferred logging decision: nothing for a filtered-out call; otherwise an error
   * record when the call failed, and a debug record for a successful call only at DebugLevel.
   */
  function RecordFor(filtered: bool, err: Option<Error>, level: int): (rec: Record)
    ensures rec.ErrorRecord? <==> !filtered && err.Some?
    ensures rec.DebugRecord? <==> !filtered && err.None? && level == DebugLevel
    ensures rec.NoRecord? <==> filtered || (err.None? && level != DebugLevel)
  {
    if filtered then NoRecord
    else if err.Some? then ErrorRecord
    else if level == DebugLevel then DebugRecord
    else NoRecord
  }

  /** An interceptor's result together with the record it writes. */
  datatype Logged<+T> = Logged(result: T, record: Record)

  /** The logger the unit writes through: the application's, or a new zap logger over a lumberjack file. */
  datatype Sink =
    | Supplied(logger: SugaredLogger)
    | Created(filename: string, maxSize: int32, localTime: bool, compress: bool, level: int)

  /** `ZapLogger`: its options and its logger. */
  class ZapLogger {
    var options: Options
    var sink: Sink

    /**
     * `NewZapLogger`: the `filterOutFunc` argument is not used; only the FilterOutFunc
     * option filters. A supplied Logger option is used as it is; otherwise the logger is
     * built from the configured file settings and level.
     */
    constructor NewZapLogger(filterOutFunc: Option<FilterFunc>, ops: seq<LoggerOption>)
      ensures options == ConfiguredOptions(ops)
      ensures options.logger.Some? ==> sink == Supplied(options.logger.value)
      ensures options.logger.None? ==>
                sink == Created(options.filename, options.maxSize, options.localTime, options.compress, options.level)
    {
      options := ZeroOptions;
      sink := Created("", 0, false, false, 0);
      new;
      Configure(ops);
      if options.logger.Some? {
        sink := Supplied(options.logger.value);
      } else {
        sink := Created(options.filename, options.maxSize, options.localTime, options.compress, options.level);
      }
    }

    /** `configure`: LocalTime and Compress on, the options in order, then the defaults. */
    method Configure(ops: seq<LoggerOption>)
      modifies this
      ensures options == WithDefaults(ApplyAll(old(options).(localTime := true, compress := true), ops))
      ensures sink == old(sink)
    {
      options := options.(localTime := true);
      options := options.(compress := true);
      ghost var start := options;
      var i := 0;
      while i < |ops|
        invariant 0 <= i <= |ops|
        invariant options == ApplyAll(start, ops[..i])
        invariant sink == old(sink)
      {
        assert ops[..i + 1][..i] == ops[..i];
        options := Apply(options, ops[i]);
        i := i + 1;
      }
      assert ops[..|ops|] == ops;
      if options.filename == "" {
        options := options.(filename := DefaultFilename);
      }
      if options.maxSize <= 0 {
        options := options.(maxSize := DefaultMaxSize as int32);
      }
      if options.level < DebugLevel || options.level > FatalLevel {
        options := options.(level := DefaultLevel);
      }
    }

    /** `UnaryHandler`: the handler's result for the original arguments, and the record for its error. */
    function UnaryHandler(ctx: Ctx, req: Value, fullMethod: string, handler: UnaryHandler): (r: Logged<UnaryResult>)
      reads this
      ensures r.result == handler(ctx, req)
      ensures r.record == RecordFor(FilteredOut(options.filterOutFunc, ctx, fullMethod), handler(ctx, req).err, options.level)
    {
      if FilteredOut(options.filterOutFunc, ctx, fullMethod) then Logged(handler(ctx, req), NoRecord)
      else
        var h := handler(ctx, req);
        Logged(h, if h.err.Some? then ErrorRecord else if options.level == DebugLevel then DebugRecord else NoRecord)
    }

    /** `StreamHandler`: the handler's error for the original arguments, filtered by the stream's context. */
    function StreamHandler(srv: Value, stream: ServerStream, fullMethod: string, handler: StreamHandler): (r: Logged<Option<Error>>)
      reads this
      ensures r.result == handler(srv, stream)
      ensures r.record == RecordFor(FilteredOut(options.filterOutFunc, stream.ctx, fullMethod), handler(srv, stream), options.level)
    {
      if FilteredOut(options.filterOutFunc, stream.ctx, fullMethod) then Logged(handler(srv, stream), NoRecord)
      else
        var e := handler(srv, stream);
        Logged(e, if e.Some? then ErrorRecord else if options.level == DebugLevel then DebugRecord else NoRecord)
    }

    /** `UnaryClient`: the invoker's error for the original arguments, and the record for it. */
    function UnaryClient(ctx: Ctx, fullMethod: string, req: Value, reply: Value, invoker: UnaryInvoker): (r: Logged<Option<Error>>)
      reads this
      ensures r.result == invoker(ctx, fullMethod, req, reply)
      ensures r.record == RecordFor(FilteredOut(options.filterOutFunc, ctx, fullMethod), invoker(ctx, fullMethod, req, reply), options.level)
    {
      if FilteredOut(options.filterOutFunc, ctx, fullMethod) then Logged(invoker(ctx, fullMethod, req, reply), NoRecord)
      else
        var e := invoker(ctx, fullMethod, req, reply);
        Logged(e, if e.Some? then ErrorRecord else if options.level == DebugLevel then DebugRecord else NoRecord)
    }

    /** `StreamClient`: the streamer's (cs, err) for the original arguments, and the record for its error. */
    function StreamClient(ctx: Ctx, fullMethod: string, streamer: Streamer): (r: Logged<StreamResult>)
      reads this
      ensures r.result == streamer(ctx, fullMethod)
      ensures r.record == RecordFor(FilteredOut(options.filterOutFunc, ctx, fullMethod), streamer(ctx, fullMethod).err, options.level)
    {
      if FilteredOut(options.filterOutFunc, ctx, fullMethod) then Logged(streamer(ctx, fullMethod), NoRecord)
      else
        var s := streamer(ctx, fullMethod);
        Logged(s, if s.err.Some? then ErrorRecord else if options.level == DebugLevel then DebugRecord else NoRecord)
    }
  }

  /**
   * Without a Level option the configured level is InfoLevel, so a successful call never
   * gets a debug record even though DefaultLevel is DebugLevel.
   */
  lemma NoDebugRecordWithoutLevelOption(ops: seq<LoggerOption>, filtered: bool, err: Option<Error>)
    requires forall i :: 0 <= i < |ops| ==> !ops[i].Level?
    ensures ConfiguredOptions(ops).level == InfoLevel
    ensures !RecordFor(filtered, err, ConfiguredOptions(ops).level).DebugRecord?
  {
    NoLevelOptionKeepsLevel(ZeroOptions.(localTime := true, compress := true), ops);
  }

  /** Asking for an unknown level name anywhere last turns debug records on. */
  lemma UnknownLevelNameLogsDebug(ops: seq<LoggerOption>, name: string)
    requires name !in ZapLevel
    ensures ConfiguredOptions(ops + [Level(name)]).level == DebugLevel
    ensures RecordFor(false, None, ConfiguredOptions(ops + [Level(name)]).level) == DebugRecord
  {
    assert (ops + [Level(name)])[..|ops|] == ops;
  }
}
