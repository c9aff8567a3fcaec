/**
 * Tracing proxies (autologging.py:142-215 and 347-430): a proxy checks
 * whether TRACE is enabled, emits a CALL record, calls the callable it
 * wraps, emits a RETURN record and hands the value back unchanged.
 */
module Tracing {
  import opened Results
  import opened Records

  /** Which factory made a proxy; each binds and forwards its arguments differently. */
  datatype TracerKind = FunctionTracer | InstanceTracer | ClassTracer | StaticTracer

  /**
   * What a proxy closes over: its kind, the name of its logger, the name it
   * logs the call under, and the caller information of the proxied code.
   */
  datatype Tracer = Tracer(kind: TracerKind, loggerName: string, callee: string, caller: CallerInfo)

  /** A Python function object: `__name__`, `__module__`, `__code__`, and what it runs. */
  datatype PyFunction = PyFunction(name: string, moduleName: string, code: CodeObject, body: Body)

  /** An original routine (identified by `id`), or a tracing proxy around another function. */
  datatype Body = Native(id: nat) | Proxy(tracer: Tracer, wrapped: PyFunction)

  /** The arguments of one call: `*args` and `**keywords`. */
  datatype Args<V> = Args(positional: seq<V>, keywords: map<string, V>)

  /** A raised exception: a binding failure of the proxy itself, or one propagated from the callee. */
  datatype PyError<V> = TypeError | Raised(exception: V)

  datatype Outcome<V> = Returned(value: V) | Failed(error: PyError<V>)

  /** The outcome of a call together with the trace records emitted during it, in order. */
  datatype Run<V> = Run(outcome: Outcome<V>, records: seq<TraceRecord<V>>)

  /** The arguments a proxy logs and those it passes on to the callable it wraps. */
  datatype Bound<V> = Bound(logged: Args<V>, forwarded: Args<V>)

  /**
   * Binding the proxy's leading parameter `param` (`self` or `cls`) the way
   * Python does: from the first positional argument, or else by keyword;
   * a missing or doubly given argument is a TypeError (None).
   */
  function BindReceiver<V>(param: string, a: Args<V>): (r: Option<(V, Args<V>)>)
    ensures r.Some? <==> ((|a.positional| > 0) != (param in a.keywords))
    ensures r.Some? ==> param !in r.value.1.keywords
    ensures r.Some? && |a.positional| > 0 ==>
              r.value.0 == a.positional[0] && r.value.1 == Args(a.positional[1..], a.keywords)
    ensures r.Some? && |a.positional| == 0 ==>
              r.value.0 == a.keywords[param] && r.value.1.positional == []
              && r.value.1.keywords == a.keywords - {param}
  {
    if |a.positional| > 0 then
      if param in a.keywords then None
      else Some((a.positional[0], Args(a.positional[1..], a.keywords)))
    else if param in a.keywords then Some((a.keywords[param], Args([], a.keywords - {param})))
    else None
  }

  /**
   * The signatures of the four proxies: `(*args, **keywords)` for function
   * and static proxies, `(self, *args, **keywords)` for instance proxies,
   * which pass `self` on, and `(cls, *args, **keywords)` for class proxies,
   * which receive `cls` but do not pass it on.
   */
  function Bind<V>(kind: TracerKind, a: Args<V>): (b: Option<Bound<V>>)
    ensures (kind == FunctionTracer || kind == StaticTracer) ==> b == Some(Bound(a, a))
    ensures kind == InstanceTracer && b.Some? ==>
              |b.value.forwarded.positional| == |b.value.logged.positional| + 1
              && b.value.forwarded.positional[1..] == b.value.logged.positional
              && b.value.forwarded.keywords == b.value.logged.keywords
    ensures kind == InstanceTracer ==> (b.Some? <==> ((|a.positional| > 0) != ("self" in a.keywords)))
    ensures kind == InstanceTracer && |a.positional| > 0 && "self" !in a.keywords ==>
              b == Some(Bound(Args(a.positional[1..], a.keywords), a))
    ensures kind == InstanceTracer && |a.positional| == 0 && "self" in a.keywords ==>
              b == Some(Bound(Args([], a.keywords - {"self"}),
                              Args([a.keywords["self"]], a.keywords - {"self"})))
    ensures kind == ClassTracer && b.Some? ==> b.value.forwarded == b.value.logged
    ensures kind == ClassTracer ==> (b.Some? <==> ((|a.positional| > 0) != ("cls" in a.keywords)))
    ensures kind == ClassTracer && |a.positional| > 0 && "cls" !in a.keywords ==>
              b == Some(Bound(Args(a.positional[1..], a.keywords), Args(a.positional[1..], a.keywords)))
    ensures kind == ClassTracer && |a.positional| == 0 && "cls" in a.keywords ==>
              b == Some(Bound(Args([], a.keywords - {"cls"}), Args([], a.keywords - {"cls"})))
  {
    assert |a.positional| > 0 ==> [a.positional[0]] + a.positional[1..] == a.positional;
    assert "self" in a.keywords ==> [a.keywords["self"]] + [] == [a.keywords["self"]];
    match kind
    case FunctionTracer => Some(Bound(a, a))
    case StaticTracer => Some(Bound(a, a))
    case InstanceTracer =>
      (match BindReceiver("self", a)
       case None => None
       case Some((self, rest)) => Some(Bound(rest, Args([self] + rest.positional, rest.keywords))))
    case ClassTracer =>
      (match BindReceiver("cls", a)
       case None => None
       case Some((_, rest)) => Some(Bound(rest, rest)))
  }

  /**
   * One call of a proxy. `enabled` is whether the proxy's logger is enabled
   * for TRACE, `host` what the host logger's `findCaller` would report (the
   * proxy's own frame), and `original` the callable the proxy holds, which
   * answers with its outcome and the records it emits itself.
   */
  function Invoke<V>(t: Tracer, enabled: bool, host: FrameInfo, original: Args<V> -> Run<V>,
                     a: Args<V>): (run: Run<V>)
    ensures Bind(t.kind, a).None? ==> run == Run(Failed(TypeError), [])
    ensures Bind(t.kind, a).Some? ==>
              var b := Bind(t.kind, a).value;
              var inner := original(b.forwarded);
              && run.outcome == inner.outcome
              && (!enabled ==> run.records == inner.records)
              && (enabled ==>
                    && |run.records| >= 1 + |inner.records|
                    && IsCallRecord(run.records[0], t.loggerName, t.caller, t.callee,
                                    b.logged.positional, b.logged.keywords)
                    && run.records[1..1 + |inner.records|] == inner.records)
              && (enabled && inner.outcome.Returned? ==>
                    && |run.records| == |inner.records| + 2
                    && IsReturnRecord(run.records[|run.records| - 1], t.loggerName, t.caller,
                                      t.callee, inner.outcome.value))
              && (enabled && inner.outcome.Failed? ==> |run.records| == |inner.records| + 1)
  {
    match Bind(t.kind, a)
    case None => Run(Failed(TypeError), [])
    case Some(b) =>
      if enabled then
        var call := AutologgingCall(t.loggerName, t.caller, true, host, t.callee,
                                    b.logged.positional, b.logged.keywords);
        var inner := original(b.forwarded);
        match inner.outcome
        case Returned(v) =>
          Run(inner.outcome, call + inner.records + AutologgingReturn(t.loggerName, t.caller, true, host, t.callee, v))
        case Failed(_) =>
          Run(inner.outcome, call + inner.records)
      else
        original(b.forwarded)
  }

  /**
   * A proxy function object for `f`: `functools.wraps` copies the name and
   * module, the proxy keeps its own code object `proxyCode`, and its caller
   * information is read from `f`'s code object.
   */
  function MakeTracer(kind: TracerKind, loggerName: string, callee: string, f: PyFunction,
                      proxyCode: CodeObject): (p: PyFunction)
    ensures p.name == f.name && p.moduleName == f.moduleName && p.code == proxyCode
    ensures p.body.Proxy? && p.body.wrapped == f
    ensures p.body.tracer.kind == kind && p.body.tracer.loggerName == loggerName
    ensures p.body.tracer.callee == callee
    ensures p.body.tracer.caller.filename == f.code.filename
    ensures p.body.tracer.caller.funcName == f.code.name
    ensures p.body.tracer.caller.firstLine == f.code.firstLine
    ensures p.body.tracer.caller.lastLine == CaptureCaller(f.code).lastLine
  {
    PyFunction(f.name, f.moduleName, proxyCode, Proxy(Tracer(kind, loggerName, callee, CaptureCaller(f.code)), f))
  }

  /** `_make_function_tracer`: a function proxy that logs under the function's `__name__`. */
  function MakeFunctionTracer(f: PyFunction, loggerName: string, proxyCode: CodeObject): (p: PyFunction)
    ensures p.body.Proxy? && p.body.wrapped == f && p.name == f.name
    ensures p.body.tracer.kind == FunctionTracer && p.body.tracer.loggerName == loggerName
    ensures p.body.tracer.callee == f.name
    ensures p.body.tracer.caller == CaptureCaller(f.code)
  {
    MakeTracer(FunctionTracer, loggerName, f.name, f, proxyCode)
  }

  /** The argument `traced` receives: a logger, or the function to trace. */
  datatype TracedArg = TraceToLogger(loggerName: string) | TraceFunction(f: PyFunction)

  /** What `traced` returns: a decorator bound to a logger, or the proxy. */
  datatype TracedResult = TracingDecorator(loggerName: string) | TracedFunction(proxy: PyFunction)

  /** `traced(obj)` (autologging.py:182-192). */
  function Traced(arg: TracedArg, proxyCode: CodeObject): (r: TracedResult)
    ensures arg.TraceToLogger? <==> r.TracingDecorator?
    ensures arg.TraceToLogger? ==> r.loggerName == arg.loggerName
    ensures arg.TraceFunction? ==> r.proxy == MakeFunctionTracer(arg.f, arg.f.moduleName, proxyCode)
  {
    match arg
    case TraceToLogger(name) => TracingDecorator(name)
    case TraceFunction(f) => TracedFunction(MakeFunctionTracer(f, f.moduleName, proxyCode))
  }

  /** Apply what `traced` returned to the function being decorated. */
  function ApplyTraced(r: TracedResult, f: PyFunction, proxyCode: CodeObject): PyFunction
  {
    match r
    case TracingDecorator(name) => MakeFunctionTracer(f, name, proxyCode)
    case TracedFunction(p) => p
  }

  /**
   * Unlike `logged`, `traced` logs to the module's logger itself (or to the
   * logger it was given), not to a child named after the function.
   */
  lemma TracedLoggerName(arg: TracedArg, f: PyFunction, proxyCode: CodeObject)
    requires arg.TraceFunction? ==> arg.f == f
    ensures var p := ApplyTraced(Traced(arg, proxyCode), f, proxyCode);
            p.body.Proxy? && p.body.wrapped == f
            && p.body.tracer.loggerName == (if arg.TraceToLogger? then arg.loggerName else f.moduleName)
  {
  }

  /** Whether tracing is enabled never changes what a proxy returns or raises. */
  lemma TracingPreservesOutcome<V>(t: Tracer, e1: bool, e2: bool, h1: FrameInfo, h2: FrameInfo,
                                   original: Args<V> -> Run<V>, a: Args<V>)
    ensures Invoke(t, e1, h1, original, a).outcome == Invoke(t, e2, h2, original, a).outcome
  {
  }

  /** With tracing disabled, a function or static proxy is indistinguishable from what it wraps. */
  lemma DisabledProxyIsTransparent<V>(t: Tracer, host: FrameInfo, original: Args<V> -> Run<V>, a: Args<V>)
    requires t.kind == FunctionTracer || t.kind == StaticTracer
    ensures Invoke(t, false, host, original, a) == original(a)
  {
  }

  /**
   * The class proxy receives `cls` but never passes it on: the class it is
   * called with changes neither the outcome nor the records.
   */
  lemma ClassProxyIgnoresCls<V>(t: Tracer, enabled: bool, host: FrameInfo, original: Args<V> -> Run<V>,
                                c1: V, c2: V, args: seq<V>, keywords: map<string, V>)
    requires t.kind == ClassTracer
    ensures Invoke(t, enabled, host, original, Args([c1] + args, keywords))
         == Invoke(t, enabled, host, original, Args([c2] + args, keywords))
  {
  }

  /**
   * The host logger's caller lookup (which would name the proxy's frame)
   * contributes nothing but its stack information to the records.
   */
  lemma HostFrameIsReplaced<V>(t: Tracer, enabled: bool, h1: FrameInfo, h2: FrameInfo,
                               original: Args<V> -> Run<V>, a: Args<V>)
    requires h1.stackInfo == h2.stackInfo
    ensures Invoke(t, enabled, h1, original, a) == Invoke(t, enabled, h2, original, a)
  {
  }

  /**
   * The scenario of a traced module-level function: a callee that returns
   * `v` yields exactly CALL at the first line, then RETURN at the last line,
   * both attributed to the original's file and code name; when disabled,
   * no record at all.
   */
  lemma FunctionTracerProtocol<V>(f: PyFunction, loggerName: string, proxyCode: CodeObject,
                                  enabled: bool, host: FrameInfo, original: Args<V> -> Run<V>,
                                  a: Args<V>, v: V)
    requires original(a) == Run(Returned(v), [])
    ensures var t := MakeFunctionTracer(f, loggerName, proxyCode).body.tracer;
            var run := Invoke(t, enabled, host, original, a);
            && run.outcome == Returned(v)
            && (!enabled ==> run.records == [])
            && (enabled ==>
                  && |run.records| == 2
                  && run.records[0].lineno == f.code.firstLine
                  && run.records[1].lineno == f.code.firstLine + LineTable.LineIncrements(f.code.lnotab)
                  && run.records[0].pathname == run.records[1].pathname == f.code.filename
                  && run.records[0].funcName == run.records[1].funcName == f.code.name
                  && run.records[0].message == CallMessage(f.name, a.positional, a.keywords)
                  && run.records[1].message == ReturnMessage(f.name, v))
  {
  }

  /** A callee that raises leaves only the CALL record: no RETURN is emitted and nothing is caught. */
  lemma RaisingCalleeLeavesOnlyCall<V>(t: Tracer, host: FrameInfo, original: Args<V> -> Run<V>,
                                       a: Args<V>, e: V)
    requires t.kind == FunctionTracer || t.kind == StaticTracer
    requires original(a) == Run(Failed(Raised(e)), [])
    ensures var run := Invoke(t, true, host, original, a);
            run.outcome == Failed(Raised(e)) && |run.records| == 1
            && IsCallRecord(run.records[0], t.loggerName, t.caller, t.callee, a.positional, a.keywords)
  {
  }

  /**
   * A proxy around a proxy: the records nest, outer CALL, inner CALL,
   * inner RETURN, outer RETURN.
   */
  lemma NestedProxiesBracket<V>(outer: Tracer, inner: Tracer, host: FrameInfo,
                                original: Args<V> -> Run<V>, a: Args<V>, v: V)
    requires outer.kind == FunctionTracer && inner.kind == FunctionTracer
    requires original(a) == Run(Returned(v), [])
    ensures var run := Invoke(outer, true, host, (b: Args<V>) => Invoke(inner, true, host, original, b), a);
            && run.outcome == Returned(v)
            && |run.records| == 4
            && IsCallRecord(run.records[0], outer.loggerName, outer.caller, outer.callee, a.positional, a.keywords)
            && IsCallRecord(run.records[1], inner.loggerName, inner.caller, inner.callee, a.positional, a.keywords)
            && IsReturnRecord(run.records[2], inner.loggerName, inner.caller, inner.callee, v)
            && IsReturnRecord(run.records[3], outer.loggerName, outer.caller, outer.callee, v)
  {
  }
}
