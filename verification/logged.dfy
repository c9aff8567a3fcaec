/**
 * The `logged` decorator (autologging.py:44-139): it stores a logger named
 * after the decorated class or function as an attribute of that object.
 */
module Logged {
  import opened Results
  import opened Naming

  /**
   * What `isinstance(obj, types.FunctionType)` decides: a plain function, or
   * a class (any other object that accepts new attributes).
   */
  datatype TargetKind = FunctionObject | ClassObject

  /** An attribute value; the model only tells loggers (by name) from other objects. */
  datatype Attr = LoggerAttr(loggerName: string) | OtherAttr(tag: nat)

  /**
   * A decorated class or function: its `__name__`, its `__qualname__` when
   * the runtime has one, its `__module__`, and its attributes.
   */
  datatype Target = Target(kind: TargetKind, name: string, qualname: Option<string>,
                           moduleName: string, attrs: map<string, Attr>)

  /** The argument `logged` receives: a parent logger, or the object to decorate. */
  datatype LoggedArg = ParentLogger(parentName: string) | Decorate(target: Target)

  /** What `logged` returns: a decorator bound to a parent name, or the decorated object. */
  datatype LoggedResult = Decorator(parent: string) | Decorated(target: Target)

  /** The name that follows the parent in the logger's name. */
  function SimpleName(t: Target): string
  {
    match t.qualname
    case Some(q) => q
    case None => t.name
  }

  /** The attribute that receives the logger. */
  function LoggerAttrName(t: Target): string
  {
    match t.kind
    case FunctionObject => LOGGER_SUFFIX
    case ClassObject => PrivateLoggerAttr(t.name)
  }

  /** `add_logger_to(obj, parent)`: add exactly one attribute, holding the child logger of `parent`. */
  function AddLoggerTo(t: Target, parent: string): (r: Target)
    ensures r.kind == t.kind && r.name == t.name && r.qualname == t.qualname && r.moduleName == t.moduleName
    ensures r.attrs.Keys == t.attrs.Keys + {LoggerAttrName(t)}
    ensures r.attrs[LoggerAttrName(t)] == LoggerAttr(ChildLoggerName(parent, SimpleName(t)))
    ensures forall k :: k in t.attrs && k != LoggerAttrName(t) ==> r.attrs[k] == t.attrs[k]
    ensures t.kind == FunctionObject ==> LoggerAttrName(t) == "__logger"
    ensures t.kind == ClassObject ==>
              LoggerAttrName(t) == "_" + StripLeadingUnderscores(t.name) + "__logger"
  {
    var logger := LoggerAttr(ChildLoggerName(parent, SimpleName(t)));
    t.(attrs := t.attrs[LoggerAttrName(t) := logger])
  }

  /** `logged(obj)`: a logger argument yields a decorator, anything else is decorated at once. */
  function Logged(arg: LoggedArg): (r: LoggedResult)
    ensures arg.ParentLogger? <==> r.Decorator?
    ensures arg.ParentLogger? ==> r.parent == arg.parentName
    ensures arg.Decorate? ==> r.target == AddLoggerTo(arg.target, arg.target.moduleName)
  {
    match arg
    case ParentLogger(name) => Decorator(name)
    case Decorate(t) => Decorated(AddLoggerTo(t, t.moduleName))
  }

  /** Apply what `logged` returned to the object being decorated. */
  function Apply(d: LoggedResult, t: Target): Target
  {
    match d
    case Decorator(parent) => AddLoggerTo(t, parent)
    case Decorated(already) => already
  }

  /**
   * In both decorator forms the logger is named parent + "." + qualified name,
   * where the parent is the module, or the logger given to `@logged(logger)`.
   */
  lemma LoggedLoggerName(arg: LoggedArg, t: Target)
    requires arg.Decorate? ==> arg.target == t
    ensures var parent := if arg.ParentLogger? then arg.parentName else t.moduleName;
            Apply(Logged(arg), t).attrs[LoggerAttrName(t)]
              == LoggerAttr(parent + "." + SimpleName(t))
  {
  }

  /** The docstring's first example (autologging.py:54-59): a class in module `autologging`. */
  lemma LoggedClassExample(attrs: map<string, Attr>)
    ensures var t := Target(ClassObject, "Test", Some("Test"), "autologging", attrs);
            var r := Apply(Logged(Decorate(t)), t);
            "_Test__logger" in r.attrs && r.attrs["_Test__logger"] == LoggerAttr("autologging.Test")
  {
    PrivateLoggerAttrOfPublicClass();
    assert ChildLoggerName("autologging", "Test") == "autologging.Test";
  }

  /** The docstring's third example (autologging.py:74-80): a class under a named parent logger. */
  lemma LoggedClassUnderParentExample(attrs: map<string, Attr>)
    ensures var t := Target(ClassObject, "Test", Some("Test"), "autologging", attrs);
            var r := Apply(Logged(ParentLogger("test.parent")), t);
            "_Test__logger" in r.attrs && r.attrs["_Test__logger"] == LoggerAttr("test.parent.Test")
  {
    PrivateLoggerAttrOfPublicClass();
    assert ChildLoggerName("test.parent", "Test") == "test.parent.Test";
  }

  /** A function's logger sits under the plain key `__logger` (autologging.py:84-90). */
  lemma LoggedFunctionExample(attrs: map<string, Attr>)
    ensures var t := Target(FunctionObject, "test_fn", Some("test_fn"), "m", attrs);
            var r := Apply(Logged(ParentLogger("test.parent")), t);
            r.attrs["__logger"] == LoggerAttr("test.parent.test_fn")
  {
    assert ChildLoggerName("test.parent", "test_fn") == "test.parent.test_fn";
  }
}
