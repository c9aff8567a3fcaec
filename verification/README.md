# Autologging core, modelled in Dafny

This project models the bookkeeping at the heart of Autologging 0.3.0
(`autologging.py`), a Python library that injects loggers into classes and
functions and traces their calls and returns at a custom `TRACE` level.
The model covers the following parts:

- **Last-line reconstruction** (`LineTable`). `_find_last_line_number`
  walks a code object's line-number table. The table is a sequence of
  (address increment, line increment) byte pairs. The function adds every
  line increment to the first line. The model has the function, the
  source's loop as a method, and lemmas about it: the result never falls
  below the first line, and address bytes never matter. Under the source's
  unsigned reading of the bytes (autologging.py:525), the result is also the
  largest line reached. CPython 3.6 and later store signed line increments,
  and that reading is not modelled.
- **Logger names** (`Naming`, `Logged`). `logged` names a logger
  `parent + "." + qualname`, with `__name__` as the fallback. The parent is
  the module, or the logger passed to `@logged(logger)`. On a function the
  logger goes under `__logger`. On a class it goes under
  `"_" + name.lstrip('_') + "__logger"`. No other attribute changes.
- **Trace records** (`Records`). `_LoggerCallerProxy` captures the
  proxied code's file, first line, last line and code name once. It
  emits a CALL record at the first line and a RETURN record at the last
  line. Its `findCaller` replaces the proxy frame's file, line and
  function name by the captured ones.
- **Tracing proxies** (`Tracing`). One call of a function, instance,
  class or static proxy is a pure function of four inputs: the enabled
  flag, the captured identity, the arguments, and the callable the proxy
  holds. It gives the outcome and the records emitted, in order. The
  value is always passed through. When tracing is enabled, CALL and
  RETURN bracket the callee's own records. When the callee raises, only
  CALL is emitted. The instance proxy passes `self` on. The class proxy
  receives `cls` and drops it (autologging.py:392 and 396).
- **The class rewrite** (`TracedMethods`). `TracedMethods(*args)` creates
  a metaclass that rewrites the class namespace. The namespace is a map
  from member name to member kind. A leading logger argument becomes the
  parent of the logger name. Exactly the named entries become proxies of
  the same kind. Every other entry stays as it was. A missing name is a
  KeyError.

Python values are a type parameter `V`. A plain routine's behaviour is the
`original` argument of `Tracing.Invoke`. That argument is the callable the
proxy's closure holds: for class and static methods, it is what
`descriptor.__get__(None, descriptor)` returned. The code object of each
proxy's own nested function is compiled by Python, so the model takes it as
a parameter (`proxyCode`). The host logger is represented by two inputs: an
enabled flag and the frame its `findCaller` would report.

Where the tests and the source disagree, the model follows the source.
`test/test_autologging.py:173` expects a function's logger to be named just
`parent`. autologging.py:125 names it `parent + "." + qualname`, and
`Logged.AddLoggerTo` does the same.

## Model

| member | source | states |
|---|---|---|
| LineTable.FindLastLineNumber | autologging.py:505-527 | the last line is never below the first line; a table with fewer than two bytes gives exactly the first line |
| LineTable.FindLastLineNumberLoop | autologging.py:512-527 | the loop from index 1 in steps of 2 computes the first line plus the sum of the bytes at odd indices |
| LineTable.AddressBytesIgnored | autologging.py:513-526 | two tables that agree at every odd index give the same last line, so address increments never matter |
| LineTable.LastLineIsMaximum | autologging.py:512-527 | the line reached after any prefix of the table is at most the computed last line |
| LineTable.IncrementsAppend | autologging.py:516-526 | putting whole pairs in front adds their line increments, which is why the pairwise walk sums the table |
| Naming.ChildLoggerName | autologging.py:125 | the name is the parent, a dot, then the child, and the child can be read back from the name |
| Naming.StripLeadingUnderscores | autologging.py:131 | the result is a suffix of the input that does not start with `_`, and everything before it is `_` |
| Naming.PrivateLoggerAttr | autologging.py:131 | the class logger attribute starts with `_` and ends with `__logger` |
| Naming.PrivateLoggerAttrCollision | autologging.py:131 | two classes share a logger attribute exactly when their names agree after stripping leading underscores |
| Naming.StripFixedPoints | autologging.py:131 | stripping is idempotent and leaves a name unchanged exactly when it does not start with `_` |
| Naming.PrivateLoggerAttrOfPublicClass | autologging.py:54-59 | class `Test` keeps its logger under `_Test__logger` |
| Naming.LeadingUnderscoresIgnored | autologging.py:131 | any run of underscores put in front of a class name is stripped away, so the stripped name, and with it the logger attribute, is unchanged |
| Naming.PrivateLoggerAttrOfNonPublicClass | test/test_mangle_name.py:42-44 | the class name `_NonPublicClass` that test checks, under the same stripping rule, gives the logger attribute `_NonPublicClass__logger` |
| Naming.PrivateLoggerAttrOfInternalClass | test/test_mangle_name.py:46-48 | the class name `__InternalClass` that test checks, under the same stripping rule, gives the logger attribute `_InternalClass__logger` |
| Logged.AddLoggerTo | autologging.py:120-132 | the same object comes back with exactly one attribute added or replaced: `__logger` on a function, the mangled name on a class; it holds the logger `parent.qualname` (or `parent.__name__`) |
| Logged.Logged | autologging.py:134-139 | a logger argument gives a decorator bound to its name; any other argument is decorated at once with the module as parent |
| Logged.LoggedLoggerName | autologging.py:121-139 | in both decorator forms the logger is `parent + "." + qualified name`, with the module or the given logger as parent |
| Logged.LoggedClassExample | autologging.py:54-59 | class `Test` in module `autologging` gets `_Test__logger` named `autologging.Test` |
| Logged.LoggedClassUnderParentExample | autologging.py:74-80 | under logger `test.parent` the class logger is `test.parent.Test` |
| Logged.LoggedFunctionExample | autologging.py:84-90 | a function under logger `test.parent` gets `__logger` named `test.parent.test_fn` |
| Records.CaptureCaller | autologging.py:453-459 | the captured file and name come from the code object; the last line is the first line plus the line increments, never below the first |
| Records.FindCaller | autologging.py:488-502 | the file, line and function name are the captured ones; only the host's trailing stack information is kept |
| Records.AutologgingCall | autologging.py:462-473 | when enabled, exactly one record at TRACE, at the captured first line, message `CALL %s *%r **%r` with the name, args and keywords; when disabled, none |
| Records.AutologgingReturn | autologging.py:475-486 | when enabled, exactly one record at TRACE, at the captured last line, message `RETURN %s %r` with the name and value; when disabled, none |
| Tracing.BindReceiver | autologging.py:363 | `self`/`cls` binds from the first positional argument or else by keyword; missing or given twice is a TypeError; the other arguments, keywords with their values, are passed on unchanged |
| Tracing.Bind | autologging.py:363-429 | function and static proxies log and forward all arguments; the instance proxy logs the arguments after `self` and forwards `self` too; the class proxy logs and forwards only the arguments after `cls`; the instance and class proxies raise TypeError exactly when the receiver is missing or given both positionally and by keyword, and a receiver given by keyword is removed from the keywords |
| Tracing.Invoke | autologging.py:206-214 | the outcome is the callee's; disabled adds no record; enabled puts a CALL first, the callee's own records next, and a RETURN carrying the value last (no RETURN if it raised) |
| Tracing.MakeTracer | autologging.py:360-362 | the proxy keeps the original's name and module; its caller file, name, first and last line come from the original's code object, not from the proxy |
| Tracing.MakeFunctionTracer | autologging.py:195-215 | a function proxy wraps the function, logs under its `__name__`, and captures its code's caller information |
| Tracing.Traced | autologging.py:182-192 | a logger argument gives a decorator for that logger; a function is traced at once on its module's logger |
| Tracing.TracedLoggerName | autologging.py:182-192 | `traced` logs to the module logger or the given logger itself, not to a child named after the function |
| Tracing.TracingPreservesOutcome | autologging.py:207-214 | whether tracing is enabled never changes what the proxy returns or raises |
| Tracing.DisabledProxyIsTransparent | autologging.py:213-214 | disabled, a function or static proxy behaves exactly as the callable it wraps |
| Tracing.ClassProxyIgnoresCls | autologging.py:392-400 | the class the class proxy is called with changes neither its outcome nor its records |
| Tracing.HostFrameIsReplaced | autologging.py:500-502 | the proxy's own frame contributes nothing to the records except stack information |
| Tracing.FunctionTracerProtocol | autologging.py:204-212 | a returning callee yields exactly CALL at the first line and RETURN at the reconstructed last line, both carrying the original's file and code name; disabled, no record |
| Tracing.RaisingCalleeLeavesOnlyCall | autologging.py:207-212 | a callee that raises leaves exactly the CALL record and its exception propagates unchanged |
| Tracing.NestedProxiesBracket | autologging.py:207-212 | a proxy around a proxy emits outer CALL, inner CALL, inner RETURN, outer RETURN |
| TracedMethods.MakeMethodTracer | autologging.py:328-344 | staticmethod gives a staticmethod proxy, classmethod a classmethod proxy, a function an instance proxy, each logging as `ClassName.methodName`; a non-routine has no code object and fails |
| TracedMethods.ReplaceAll | autologging.py:319-323 | succeeds exactly when every name is a routine in the namespace; keeps the keys, and every unnamed entry is unchanged |
| TracedMethods.ReplaceAllKeepsKinds | autologging.py:338-344 | every entry keeps its kind after the rewrite |
| TracedMethods.ReplaceAllWrapsEachOnce | autologging.py:320-323 | with no repeated name, each named entry is exactly the proxy made from its original member |
| TracedMethods.ReplaceAllErrors | autologging.py:321-322 | a failure is a KeyError on a logger or an absent name, or a named entry that is not a routine |
| TracedMethods.TracingMetaNew | autologging.py:310-324 | the logger is `parent.ClassName`, with parent the leading logger's name or `__module__`; success exactly when the parent exists and every name is a routine; unnamed entries unchanged, kinds kept |
| TracedMethods.NamedMethodsAreTraced | autologging.py:310-323 | each named method becomes a proxy on the class's logger, labelled `ClassName.methodName`, carrying the method's own code identity |
| TracedMethods.RepeatedNameWrapsProxy | autologging.py:320-323 | a name given twice is wrapped twice, and the outer proxy then takes its caller information from the inner proxy's code object |

## Left out

- The host `logging` library is not modelled: the logger hierarchy, effective levels, handlers, the `getLogger` cache and `LogRecord` construction. "Enabled for TRACE" is a boolean input, a logger is its name, and records are a list.
- The enabled flag is read once per call. The source checks it twice, in the proxy and again in `autologging_call`/`autologging_return`. A level change made by the callee itself is not modelled.
- Descriptor binding and `__get__` are not modelled. The callable a class or static proxy holds is given as the `original` argument. Calling an untraced member through its class is not modelled.
- `functools.wraps` is modelled only as far as the name and module are copied. The other copied metadata is not modelled.
- The `self.__dict__.update(logger.__dict__)` impersonation and the `findCaller` monkey-patch are not modelled. Only their effect on record fields is.
- The Python 2 `str` branch of the line-number table is not modelled. The table is one sequence of bytes 0..255.
- `%r` rendering is not modelled. Messages keep their template and their arguments unrendered.
- The bodies of plain routines are not modelled. They appear only through the `original` argument.
- Records.CaptureCaller: a code object without a line-number table is not modelled. autologging.py:517 reads `co_lnotab` with no guard, so on such a runtime the source raises AttributeError when the proxy is made; the model's code object always has a table.
- Concurrent calls of one proxy are not modelled. The source passes the line to report through the shared attribute `_autologging_f_lineno`. It writes that attribute at autologging.py:472 and 485 and reads it at 501, with no lock. Two threads in the same proxy can therefore report each other's line. The model treats each call on its own.
- The order of keyword arguments is not modelled. `**keywords` is forwarded (autologging.py:210) and rendered by `**%r` (autologging.py:208) in insertion order, but `Tracing.Args` keeps the keywords in a map.
- Tracing.MakeFunctionTracer: the logged name is fixed when the proxy is made. The source reads `function.__name__` again on every call (autologging.py:208 and 211), so renaming the function afterwards changes later records. Only the method tracers compute their label once (autologging.py:361, 390 and 419).
- Logged.AddLoggerTo: the AttributeError cases are not modelled. `setattr` at autologging.py:131 fails on an object that refuses new attributes, such as a builtin function or a bound method. An object with neither `__qualname__` nor `__name__` fails at autologging.py:124. `ClassObject` stands for a class, or any other object that accepts new attributes and has a name.
- TracedMethods.ReplaceAll: a failure returns only the error. The source rewrites the caller's `dict_` in place (autologging.py:320-323), so the entries named before the failing one are already proxies when the KeyError propagates.
- Tracing.Traced: an argument without `__code__`, such as a class or a builtin, is not modelled. In the source it fails with an AttributeError at autologging.py:455. A bound method forwards `__module__`, `__name__` and `__code__` to its function and is traced like it; the model takes the function itself.
- TracedMethods.TracingMetaNew: a `__module__` entry bound to a routine counts as missing. The `str()` of such an object contains a memory address, so the model cannot know it.
- TracedMethods.MakeMethodTracer: dispatch uses exact member kinds. Subclasses of `staticmethod` or `classmethod`, which the source sends to the instance branch, are not modelled.
- Generator proxies (YIELD/STOP), the no-op switch and its environment variable, warnings for unknown method names, the default traceable-method policy and `_TracingLoggerDelegator` are not modelled. Tests exercise them, but autologging.py 0.3.0 does not implement them.
- src/autoformatting.py (a JSON formatter), setup.py and the test modules are not part of this model.
