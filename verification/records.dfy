/**
 * The caller information `_LoggerCallerProxy` captures from a proxied
 * function's code object, and the TRACE records it emits with it
 * (autologging.py:433-502).
 */
module Records {
  import opened Results
  import opened LineTable

  /** The custom tracing level, below DEBUG (autologging.py:40). */
  const TRACE: nat := 1

  /** The message templates of the proxies (autologging.py:208, 211) and the prefixes prepended to them. */
  const CALL_FORMAT: string := "%s *%r **%r"
  const RETURN_FORMAT: string := "%s %r"
  const CALL_PREFIX: string := "CALL "
  const RETURN_PREFIX: string := "RETURN "

  /** The parts of a compiled code object the model reads. */
  datatype CodeObject = CodeObject(filename: string, firstLine: int, lnotab: seq<Byte>, name: string)

  /** Caller information captured once, when a proxy is made. */
  datatype CallerInfo = CallerInfo(filename: string, firstLine: int, lastLine: int, funcName: string)

  /** What `_LoggerCallerProxy.__init__` records about the proxied function's code. */
  function CaptureCaller(code: CodeObject): (c: CallerInfo)
    ensures c.filename == code.filename && c.funcName == code.name
    ensures c.firstLine == code.firstLine <= c.lastLine
    ensures c.lastLine == code.firstLine + LineIncrements(code.lnotab)
  {
    CallerInfo(code.filename, code.firstLine, FindLastLineNumber(code.firstLine, code.lnotab), code.name)
  }

  /** The tuple `findCaller` answers: file, line, function name and (Python 3.2 on) stack information. */
  datatype FrameInfo = FrameInfo(filename: string, lineno: int, funcName: string, stackInfo: Option<string>)

  /**
   * `autologging_findCaller`: the host logger's answer (`host`, which names
   * the proxy's own frame) keeps only its fields after the third.
   */
  function FindCaller(caller: CallerInfo, lineno: int, host: FrameInfo): (r: FrameInfo)
    ensures r.filename == caller.filename && r.lineno == lineno && r.funcName == caller.funcName
    ensures r.stackInfo == host.stackInfo
  {
    FrameInfo(caller.filename, lineno, caller.funcName, host.stackInfo)
  }

  /** The message arguments: the callee's name with the call's arguments, or that name with the returned value. */
  datatype Message<V> =
    | CallMessage(callee: string, args: seq<V>, keywords: map<string, V>)
    | ReturnMessage(callee: string, value: V)

  /** The fields of a `logging.LogRecord` that tracing determines. */
  datatype TraceRecord<V> = TraceRecord(loggerName: string, level: nat, pathname: string, lineno: int,
                                        funcName: string, stackInfo: Option<string>,
                                        msg: string, message: Message<V>)

  /** A CALL record as the source promises it: attributed to the first line of the proxied function. */
  ghost predicate IsCallRecord<V>(r: TraceRecord<V>, loggerName: string, caller: CallerInfo,
                            callee: string, args: seq<V>, keywords: map<string, V>)
  {
    && r.loggerName == loggerName && r.level == TRACE
    && r.pathname == caller.filename && r.lineno == caller.firstLine && r.funcName == caller.funcName
    && r.msg == "CALL %s *%r **%r" && r.message == CallMessage(callee, args, keywords)
  }

  /** A RETURN record as the source promises it: attributed to the last line of the proxied function. */
  ghost predicate IsReturnRecord<V>(r: TraceRecord<V>, loggerName: string, caller: CallerInfo,
                              callee: string, value: V)
  {
    && r.loggerName == loggerName && r.level == TRACE
    && r.pathname == caller.filename && r.lineno == caller.lastLine && r.funcName == caller.funcName
    && r.msg == "RETURN %s %r" && r.message == ReturnMessage(callee, value)
  }

  /** `Logger.log(TRACE, msg, *args)` once `findCaller` has answered `where`. */
  function LogTrace<V>(loggerName: string, where: FrameInfo, msg: string, message: Message<V>): TraceRecord<V>
  {
    TraceRecord(loggerName, TRACE, where.filename, where.lineno, where.funcName, where.stackInfo, msg, message)
  }

  /** `autologging_call`: at most one record, emitted only when TRACE is enabled. */
  function AutologgingCall<V>(loggerName: string, caller: CallerInfo, enabled: bool, host: FrameInfo,
                              callee: string, args: seq<V>, keywords: map<string, V>): (records: seq<TraceRecord<V>>)
    ensures |records| == if enabled then 1 else 0
    ensures enabled ==> IsCallRecord(records[0], loggerName, caller, callee, args, keywords)
    ensures enabled ==> records[0].stackInfo == host.stackInfo
  {
    if enabled then
      var where := FindCaller(caller, caller.firstLine, host);
      [LogTrace(loggerName, where, CALL_PREFIX + CALL_FORMAT, CallMessage(callee, args, keywords))]
    else []
  }

  /** `autologging_return`: at most one record, emitted only when TRACE is enabled. */
  function AutologgingReturn<V>(loggerName: string, caller: CallerInfo, enabled: bool, host: FrameInfo,
                                callee: string, value: V): (records: seq<TraceRecord<V>>)
    ensures |records| == if enabled then 1 else 0
    ensures enabled ==> IsReturnRecord(records[0], loggerName, caller, callee, value)
    ensures enabled ==> records[0].stackInfo == host.stackInfo
  {
    if enabled then
      var where := FindCaller(caller, caller.lastLine, host);
      [LogTrace(loggerName, where, RETURN_PREFIX + RETURN_FORMAT, ReturnMessage(callee, value))]
    else []
  }
}
