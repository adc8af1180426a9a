/**
 * The tracing unit of plugins/middleware/opentracing: the metadata carrier MDReaderWriter,
 * the filter bypass of the four interceptors, the error flag each span receives, and the
 * copy of the outgoing metadata a client call injects into.
 *
 * The tracer is outside the model: the span it starts is an input, and what its Inject
 * writes into the carrier is the sequence of Set calls `inject`.
 */
module Opentracing {
  import opened Base
  import opened Middleware

  // ---------------------------------------------------------------------------
  // the metadata carrier

  /** ASCII lower-casing of one character. */
  function LowerChar(c: char): (d: char)
    ensures 'A' <= c <= 'Z' ==> d as int == c as int + 32
    ensures !('A' <= c <= 'Z') ==> d == c
    ensures !('A' <= d <= 'Z')
  {
    if 'A' <= c <= 'Z' then (c as int + 32) as char else c
  }

  /** `strings.ToLower`, restricted to ASCII letters. */
  function ToLower(s: string): (r: string)
    ensures |r| == |s|
    ensures forall i :: 0 <= i < |s| ==> r[i] == LowerChar(s[i])
  {
    if s == [] then [] else ToLower(s[..|s| - 1]) + [LowerChar(s[|s| - 1])]
  }

  /** Lower-casing twice is lower-casing once. */
  lemma ToLowerIdempotent(s: string)
    ensures ToLower(ToLower(s)) == ToLower(s)
  {
  }

  type Pairs = map<string, seq<string>>

  /** What `Set(key, val)` leaves in the metadata map. */
  function SetPair(m: Pairs, key: string, val: string): (r: Pairs)
    ensures r.Keys == m.Keys + {ToLower(key)}
    ensures r[ToLower(key)] == (if ToLower(key) in m then m[ToLower(key)] else []) + [val]
    ensures forall k :: k in m && k != ToLower(key) ==> r[k] == m[k]
  {
    var k := ToLower(key);
    m[k := (if k in m then m[k] else []) + [val]]
  }

  /** Keys differing only in ASCII case end up in one entry, in call order. */
  lemma SetFoldsCase(m: Pairs, k1: string, k2: string, v1: string, v2: string)
    requires ToLower(k1) == ToLower(k2)
    ensures var r := SetPair(SetPair(m, k1, v1), k2, v2);
            r[ToLower(k1)] == (if ToLower(k1) in m then m[ToLower(k1)] else []) + [v1, v2]
  {
  }

  /** A sequence of Set calls, in order. */
  function SetAll(m: Pairs, writes: seq<(string, string)>): Pairs
  {
    if writes == [] then m else SetPair(SetAll(m, writes[..|writes| - 1]), writes[|writes| - 1].0, writes[|writes| - 1].1)
  }

  /** The (key, value) pairs of one map entry, in slice order. */
  function Expand(key: string, vals: seq<string>): (ps: seq<(string, string)>)
    ensures |ps| == |vals|
    ensures forall i :: 0 <= i < |vals| ==> ps[i] == (key, vals[i])
  {
    seq(|vals|, i requires 0 <= i < |vals| => (key, vals[i]))
  }

  /** Every (key, value) pair of the map, keys taken in the iteration order `order`. */
  function AllPairs(m: Pairs, order: seq<string>): seq<(string, string)>
  {
    if order == [] then [] else AllPairs(m, order[..|order| - 1]) + Expand(order[|order| - 1], ValuesOf(m, order[|order| - 1]))
  }

  /** The values of a key; a key the map lacks has none. */
  function ValuesOf(m: Pairs, k: string): seq<string>
  {
    if k in m then m[k] else []
  }

  /** A valid iteration order of a Go map: every key exactly once. */
  predicate IterationOrder(m: Pairs, order: seq<string>)
  {
    (forall k :: k in order ==> k in m) && (forall k :: k in m ==> k in order)
    && (forall i, j :: 0 <= i < j < |order| ==> order[i] != order[j])
  }

  /** The handler succeeds on every pair of the sequence. */
  predicate AllSucceed(ps: seq<(string, string)>, handler: (string, string) -> Option<Error>)
  {
    forall i :: 0 <= i < |ps| ==> handler(ps[i].0, ps[i].1).None?
  }

  /**
   * Whether the handler succeeds on every pair does not depend on the key order: it is the
   * same as succeeding on every value of every key in the order.
   */
  lemma {:induction false} AllSucceedByKey(m: Pairs, order: seq<string>, handler: (string, string) -> Option<Error>)
    requires forall k :: k in order ==> k in m
    ensures AllSucceed(AllPairs(m, order), handler)
            <==> forall k, i :: k in order && 0 <= i < |m[k]| ==> handler(k, m[k][i]).None?
  {
    if order != [] {
      var front := order[..|order| - 1];
      var last := order[|order| - 1];
      AllSucceedByKey(m, front, handler);
      assert ValuesOf(m, last) == m[last];
      AllSucceedAppend(AllPairs(m, front), Expand(last, m[last]), handler);
      ExpandSucceeds(last, m[last], handler);
      assert order == front + [last];
      assert forall k :: k in order <==> k in front || k == last;
    }
  }

  /** The handler succeeds on one key's pairs exactly when it succeeds on each of its values. */
  lemma ExpandSucceeds(k: string, vs: seq<string>, handler: (string, string) -> Option<Error>)
    ensures AllSucceed(Expand(k, vs), handler) <==> forall i :: 0 <= i < |vs| ==> handler(k, vs[i]).None?
  {
  }

  /** Two iteration orders of the same map agree on whether every handler call succeeds. */
  lemma OrderIrrelevantForSuccess(m: Pairs, o1: seq<string>, o2: seq<string>, handler: (string, string) -> Option<Error>)
    requires IterationOrder(m, o1) && IterationOrder(m, o2)
    ensures AllSucceed(AllPairs(m, o1), handler) <==> AllSucceed(AllPairs(m, o2), handler)
  {
    AllSucceedByKey(m, o1, handler);
    AllSucceedByKey(m, o2, handler);
  }

  /** `MDReaderWriter`: a view of a metadata map, sharing it. */
  datatype MDReaderWriter = MDReaderWriter(md: MD)
  {
    /** `Set`: append `val` to the entry of the lower-cased key, in place. */
    method Set(key: string, val: string)
      modifies md
      ensures md.pairs == SetPair(old(md.pairs), key, val)
    {
      var k := ToLower(key);
      var existing := if k in md.pairs then md.pairs[k] else [];
      md.pairs := md.pairs[k := existing + [val]];
    }

    /**
     * `ForeachKey`: call the handler on every (key, value) pair, keys in the map's
     * iteration order `order`, values in slice order, stopping at the first error.
     * `visited` lists the calls made.
     */
    method ForeachKey(order: seq<string>, handler: (string, string) -> Option<Error>)
      returns (err: Option<Error>, visited: seq<(string, string)>)
      requires IterationOrder(md.pairs, order)
      ensures visited <= AllPairs(md.pairs, order)
      ensures err.None? ==> visited == AllPairs(md.pairs, order) && AllSucceed(visited, handler)
      ensures err.Some? ==> |visited| > 0 && err == handler(visited[|visited| - 1].0, visited[|visited| - 1].1)
                            && AllSucceed(visited[..|visited| - 1], handler)
    {
      var m := md.pairs;
      visited := [];
      var i := 0;
      while i < |order|
        invariant 0 <= i <= |order|
        invariant visited == AllPairs(m, order[..i]) && AllSucceed(visited, handler)
      {
        var e, done := VisitValues(order[i], ValuesOf(m, order[i]), handler);
        ForeachStep(m, order, i, done, handler);
        if e.Some? {
          return e, visited + done;
        }
        visited := visited + done;
        i := i + 1;
      }
      assert order[..|order|] == order;
      return None, visited;
    }
  }

  /** What one key's visit adds to the pairs visited so far, on both ways out of the inner loop. */
  lemma ForeachStep(m: Pairs, order: seq<string>, i: nat, done: seq<(string, string)>, handler: (string, string) -> Option<Error>)
    requires i < |order|
    requires AllSucceed(AllPairs(m, order[..i]), handler)
    requires done <= Expand(order[i], ValuesOf(m, order[i]))
    ensures AllPairs(m, order[..i]) + done <= AllPairs(m, order)
    ensures done == Expand(order[i], ValuesOf(m, order[i])) && AllSucceed(done, handler) ==>
              AllPairs(m, order[..i + 1]) == AllPairs(m, order[..i]) + done
              && AllSucceed(AllPairs(m, order[..i]) + done, handler)
    ensures |done| > 0 && AllSucceed(done[..|done| - 1], handler) ==>
              var v := AllPairs(m, order[..i]) + done;
              v[|v| - 1] == done[|done| - 1] && AllSucceed(v[..|v| - 1], handler)
  {
    NextKeyPairs(m, order, i);
    ForeachPrefix(m, order, i, done);
    AllSucceedAppend(AllPairs(m, order[..i]), done, handler);
    if |done| > 0 {
      DropLast(AllPairs(m, order[..i]), done, handler);
    }
  }

  /** The pairs of one more key follow the pairs before it. */
  lemma NextKeyPairs(m: Pairs, order: seq<string>, i: nat)
    requires i < |order|
    ensures AllPairs(m, order[..i + 1]) == AllPairs(m, order[..i]) + Expand(order[i], ValuesOf(m, order[i]))
  {
    assert order[..i + 1][..i] == order[..i];
  }

  /** A prefix of one more key's pairs keeps the visited pairs a prefix of all pairs. */
  lemma ForeachPrefix(m: Pairs, order: seq<string>, i: nat, done: seq<(string, string)>)
    requires i < |order|
    requires done <= Expand(order[i], ValuesOf(m, order[i]))
    ensures AllPairs(m, order[..i]) + done <= AllPairs(m, order)
  {
    var before := AllPairs(m, order[..i]);
    var all := Expand(order[i], ValuesOf(m, order[i]));
    NextKeyPairs(m, order, i);
    PrefixExtends(AllPairs(m, order[..i + 1]), order, i + 1, m);
    assert before + done <= before + all by {
      assert forall j :: 0 <= j < |before + done| ==> (before + done)[j] == (before + all)[j];
    }
  }

  /** Dropping the last visited pair of a key drops the last pair of the whole visit. */
  lemma DropLast(before: seq<(string, string)>, done: seq<(string, string)>, handler: (string, string) -> Option<Error>)
    requires |done| > 0
    ensures var v := before + done;
            v[|v| - 1] == done[|done| - 1]
            && (AllSucceed(before, handler) && AllSucceed(done[..|done| - 1], handler) ==> AllSucceed(v[..|v| - 1], handler))
  {
    var v := before + done;
    assert v[..|v| - 1] == before + done[..|done| - 1];
    AllSucceedAppend(before, done[..|done| - 1], handler);
  }

  /** The inner loop of ForeachKey: the handler on each value of one key, stopping at the first error. */
  method VisitValues(k: string, vs: seq<string>, handler: (string, string) -> Option<Error>)
    returns (err: Option<Error>, done: seq<(string, string)>)
    ensures done <= Expand(k, vs)
    ensures err.None? ==> done == Expand(k, vs) && AllSucceed(done, handler)
    ensures err.Some? ==> |done| > 0 && err == handler(done[|done| - 1].0, done[|done| - 1].1)
                          && AllSucceed(done[..|done| - 1], handler)
  {
    done := [];
    var j := 0;
    while j < |vs|
      invariant 0 <= j <= |vs|
      invariant done == Expand(k, vs[..j]) && AllSucceed(done, handler)
    {
      assert Expand(k, vs[..j + 1]) == Expand(k, vs[..j]) + [(k, vs[j])];
      var e := handler(k, vs[j]);
      if e.Some? {
        assert done + [(k, vs[j])] <= Expand(k, vs);
        return e, done + [(k, vs[j])];
      }
      done := done + [(k, vs[j])];
      j := j + 1;
    }
    assert vs[..|vs|] == vs;
    return None, done;
  }

  /** The handler succeeds on a concatenation exactly when it succeeds on both parts. */
  lemma AllSucceedAppend(a: seq<(string, string)>, b: seq<(string, string)>, handler: (string, string) -> Option<Error>)
    ensures AllSucceed(a + b, handler) <==> AllSucceed(a, handler) && AllSucceed(b, handler)
  {
    if AllSucceed(a, handler) && AllSucceed(b, handler) {
      forall i | 0 <= i < |a + b|
        ensures handler((a + b)[i].0, (a + b)[i].1).None?
      {
        if i >= |a| {
          assert (a + b)[i] == b[i - |a|];
        }
      }
    }
    if AllSucceed(a + b, handler) {
      forall i | 0 <= i < |a|
        ensures handler(a[i].0, a[i].1).None?
      {
        assert (a + b)[i] == a[i];
      }
      forall i | 0 <= i < |b|
        ensures handler(b[i].0, b[i].1).None?
      {
        assert (a + b)[|a| + i] == b[i];
      }
    }
  }

  /** The pairs of the first keys of an order are a prefix of the pairs of the whole order. */
  lemma {:induction false} PrefixExtends(ps: seq<(string, string)>, order: seq<string>, n: nat, m: Pairs)
    requires n <= |order|
    requires ps == AllPairs(m, order[..n])
    ensures ps <= AllPairs(m, order)
    decreases |order| - n
  {
    if n < |order| {
      assert order[..n + 1][..n] == order[..n];
      PrefixExtends(AllPairs(m, order[..n + 1]), order, n + 1, m);
    } else {
      assert order[..n] == order;
    }
  }

  // ---------------------------------------------------------------------------
  // the interceptors

  /**
   * opentracing.Options; `tracer` is the configured opentracing.Tracer, None while it is
   * nil (the spans it starts are inputs of each call).
   */
  datatype Options = Options(filterOutFunc: Option<FilterFunc>, logger: Option<SugaredLogger>, tracer: Option<Handle>)

  /** `new(Options)`. */
  const ZeroOptions := Options(None, None, None)

  datatype TraceOption = FilterOutFunc(f: Option<FilterFunc>) | Logger(l: Option<SugaredLogger>) | Tracer(t: Option<Handle>)

  function Apply(o: Options, opt: TraceOption): Options
  {
    match opt
    case FilterOutFunc(f) => o.(filterOutFunc := f)
    case Logger(l) => o.(logger := l)
    case Tracer(t) => o.(tracer := t)
  }

  function ApplyAll(o: Options, ops: seq<TraceOption>): Options
  {
    if ops == [] then o else Apply(ApplyAll(o, ops[..|ops| - 1]), ops[|ops| - 1])
  }

  /** What happens to the span of one call: its error tag, its parent, and that it was finished. */
  datatype SpanRecord = SpanRecord(span: Span, parent: Option<Span>, error: bool, finished: bool)

  /** The server side tags the span as an error exactly when the handler failed. */
  predicate ServerSpanError(err: Option<Error>)
  {
    err.Some?
  }

  /** The client side does not treat io.EOF as a failure. */
  predicate ClientSpanError(err: Option<Error>)
  {
    err.Some? && err.value != EOF
  }

  /** A unary server call: the result, the context the handler received, the span. */
  datatype UnaryServerTrace = UnaryServerTrace(result: UnaryResult, handlerCtx: Ctx, span: Option<SpanRecord>)

  /** A stream server call: the error, the stream the handler received, the span. */
  datatype StreamServerTrace = StreamServerTrace(err: Option<Error>, handlerStream: ServerStream, span: Option<SpanRecord>)

  /** `Opentracing`, as NewOpentracing builds it. */
  datatype Opentracing = Opentracing(options: Options)
  {
    /**
     * `UnaryHandler`: a filtered-out call goes to the handler untouched without a span;
     * otherwise the handler gets the context carrying the new server span, a child of the
     * span context `extracted` from the incoming metadata, its result is returned unchanged,
     * and the span is tagged as an error iff the handler failed. An unfiltered call uses the
     * tracer, so the tracer must be set.
     */
    function UnaryHandler(ctx: Ctx, req: Value, fullMethod: string, handler: UnaryHandler, span: Span, extracted: Option<Span>): (r: UnaryServerTrace)
      requires FilteredOut(options.filterOutFunc, ctx, fullMethod) || options.tracer.Some?
      ensures FilteredOut(options.filterOutFunc, ctx, fullMethod) ==>
                r.handlerCtx == ctx && r.result == handler(ctx, req) && r.span.None?
      ensures !FilteredOut(options.filterOutFunc, ctx, fullMethod) ==>
                && r.handlerCtx == ctx.(span := Some(span))
                && r.result == handler(r.handlerCtx, req)
                && r.span == Some(SpanRecord(span, extracted, r.result.err.Some?, true))
    {
      if FilteredOut(options.filterOutFunc, ctx, fullMethod) then
        UnaryServerTrace(handler(ctx, req), ctx, None)
      else
        var newCtx := ctx.(span := Some(span));
        var res := handler(newCtx, req);
        UnaryServerTrace(res, newCtx, Some(SpanRecord(span, extracted, ServerSpanError(res.err), true)))
    }

    /**
     * `StreamHandler`: the context carrying the span is discarded, so the handler always
     * receives the original stream; the span, a child of the span context `extracted` from
     * the incoming metadata, is tagged as an error iff the handler failed.
     */
    function StreamHandler(srv: Value, stream: ServerStream, fullMethod: string, handler: StreamHandler, span: Span, extracted: Option<Span>): (r: StreamServerTrace)
      requires FilteredOut(options.filterOutFunc, stream.ctx, fullMethod) || options.tracer.Some?
      ensures r.handlerStream == stream && r.err == handler(srv, stream)
      ensures FilteredOut(options.filterOutFunc, stream.ctx, fullMethod) ==> r.span.None?
      ensures !FilteredOut(options.filterOutFunc, stream.ctx, fullMethod) ==>
                r.span == Some(SpanRecord(span, extracted, r.err.Some?, true))
    {
      if FilteredOut(options.filterOutFunc, stream.ctx, fullMethod) then
        StreamServerTrace(handler(srv, stream), stream, None)
      else
        var err := handler(srv, stream);
        StreamServerTrace(err, stream, Some(SpanRecord(span, extracted, ServerSpanError(err), true)))
    }
  }

  /** `NewOpentracing`: without a logger construction aborts; a missing tracer is not checked. */
  function NewOpentracing(ops: seq<TraceOption>): (r: Result<Opentracing>)
    ensures r.Err? <==> ApplyAll(ZeroOptions, ops).logger.None?
    ensures r.Ok? ==> r.value.options == ApplyAll(ZeroOptions, ops)
  {
    var o := ApplyAll(ZeroOptions, ops);
    if o.logger.None? then Err(Fatal("opentracing middleware has no logger")) else Ok(Opentracing(o))
  }

  /** A unit configured without the Tracer option is built all the same, and then no unfiltered call may reach it. */
  lemma TracerNotRequiredToConstruct(l: SugaredLogger)
    ensures var r := NewOpentracing([Logger(Some(l))]);
            r.Ok? && r.value.options.tracer.None?
  {
    assert [Logger(Some(l))][..0] == [];
    assert ApplyAll(ZeroOptions, [Logger(Some(l))]) == ZeroOptions.(logger := Some(l));
  }

  /**
   * `newClientSpanFromContext`: the tracer's writes go into a fresh metadata map, a copy
   * of the caller's outgoing metadata when there is one; the returned context carries that
   * map and nothing else changes. The caller's map is not touched.
   */
  method NewClientSpanFromContext(ctx: Ctx, inject: seq<(string, string)>) returns (newCtx: Ctx)
    ensures newCtx.outgoing.Some? && fresh(newCtx.outgoing.value)
    ensures newCtx == ctx.(outgoing := newCtx.outgoing)
    ensures newCtx.outgoing.value.pairs
            == SetAll(if ctx.outgoing.Some? then ctx.outgoing.value.pairs else map[], inject)
    ensures ctx.outgoing.Some? ==> ctx.outgoing.value.pairs == old(ctx.outgoing.value.pairs)
  {
    var md: MD;
    if ctx.outgoing.None? {
      md := new MD(map[]);
    } else {
      md := new MD(ctx.outgoing.value.pairs);
    }
    InjectAll(MDReaderWriter(md), inject);
    newCtx := ctx.(outgoing := Some(md));
  }

  /** The injection loop: Set for each pair, in order. */
  method InjectAll(writer: MDReaderWriter, inject: seq<(string, string)>)
    modifies writer.md
    ensures writer.md.pairs == SetAll(old(writer.md.pairs), inject)
  {
    var i := 0;
    while i < |inject|
      invariant 0 <= i <= |inject|
      invariant writer.md.pairs == SetAll(old(writer.md.pairs), inject[..i])
    {
      assert inject[..i + 1][..i] == inject[..i];
      writer.Set(inject[i].0, inject[i].1);
      i := i + 1;
    }
    assert inject[..|inject|] == inject;
  }

  /** A unary client call: the error, the context the invoker received, the span. */
  datatype UnaryClientTrace = UnaryClientTrace(err: Option<Error>, invokerCtx: Ctx, span: Option<SpanRecord>)

  /** A stream client call: the (cs, err) pair, the context the streamer received, the span. */
  datatype StreamClientTrace = StreamClientTrace(result: StreamResult, streamerCtx: Ctx, span: Option<SpanRecord>)

  /**
   * `UnaryClient`: a filtered-out call goes to the invoker untouched without a span;
   * otherwise the invoker gets the context with the injected copy of the metadata, its
   * error is returned unchanged, and the span (a child of the context's span) is tagged as
   * an error iff the error is neither nil nor io.EOF. An unfiltered call starts the span
   * with the tracer, so the tracer must be set.
   */
  method UnaryClient(t: Opentracing, ctx: Ctx, fullMethod: string, req: Value, reply: Value, invoker: UnaryInvoker,
                     span: Span, inject: seq<(string, string)>) returns (r: UnaryClientTrace)
    requires FilteredOut(t.options.filterOutFunc, ctx, fullMethod) || t.options.tracer.Some?
    ensures FilteredOut(t.options.filterOutFunc, ctx, fullMethod) ==>
              r == UnaryClientTrace(invoker(ctx, fullMethod, req, reply), ctx, None)
    ensures !FilteredOut(t.options.filterOutFunc, ctx, fullMethod) ==>
              && r.invokerCtx.outgoing.Some? && fresh(r.invokerCtx.outgoing.value)
              && r.invokerCtx == ctx.(outgoing := r.invokerCtx.outgoing)
              && r.invokerCtx.outgoing.value.pairs == SetAll(if ctx.outgoing.Some? then ctx.outgoing.value.pairs else map[], inject)
              && r.err == invoker(r.invokerCtx, fullMethod, req, reply)
              && r.span == Some(SpanRecord(span, ctx.span, ClientSpanError(r.err), true))
  {
    if FilteredOut(t.options.filterOutFunc, ctx, fullMethod) {
      return UnaryClientTrace(invoker(ctx, fullMethod, req, reply), ctx, None);
    }
    var newCtx := NewClientSpanFromContext(ctx, inject);
    var err := invoker(newCtx, fullMethod, req, reply);
    return UnaryClientTrace(err, newCtx, Some(SpanRecord(span, ctx.span, ClientSpanError(err), true)));
  }

  /** `StreamClient`: as UnaryClient, for the streamer's (cs, err). */
  method StreamClient(t: Opentracing, ctx: Ctx, fullMethod: string, streamer: Streamer,
                      span: Span, inject: seq<(string, string)>) returns (r: StreamClientTrace)
    requires FilteredOut(t.options.filterOutFunc, ctx, fullMethod) || t.options.tracer.Some?
    ensures FilteredOut(t.options.filterOutFunc, ctx, fullMethod) ==>
              r == StreamClientTrace(streamer(ctx, fullMethod), ctx, None)
    ensures !FilteredOut(t.options.filterOutFunc, ctx, fullMethod) ==>
              && r.streamerCtx.outgoing.Some? && fresh(r.streamerCtx.outgoing.value)
              && r.streamerCtx == ctx.(outgoing := r.streamerCtx.outgoing)
              && r.streamerCtx.outgoing.value.pairs == SetAll(if ctx.outgoing.Some? then ctx.outgoing.value.pairs else map[], inject)
              && r.result == streamer(r.streamerCtx, fullMethod)
              && r.span == Some(SpanRecord(span, ctx.span, ClientSpanError(r.result.err), true))
  {
    if FilteredOut(t.options.filterOutFunc, ctx, fullMethod) {
      return StreamClientTrace(streamer(ctx, fullMethod), ctx, None);
    }
    var newCtx := NewClientSpanFromContext(ctx, inject);
    var res := streamer(newCtx, fullMethod);
    return StreamClientTrace(res, newCtx, Some(SpanRecord(span, ctx.span, ClientSpanError(res.err), true)));
  }

  /** io.EOF ends a stream normally: it never marks a client span, while it does mark a server span. */
  lemma EofTreatedDifferently()
    ensures !ClientSpanError(Some(EOF)) && ServerSpanError(Some(EOF))
  {
  }
}
