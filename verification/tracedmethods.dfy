/**
 * The `TracedMethods` metaclass factory (autologging.py:218-344): when the
 * class is created, each member named in the factory's arguments is
 * replaced in the class namespace by a tracing proxy of the same kind.
 */
module TracedMethods {
  import opened Results
  import opened Naming
  import opened Records
  import opened Tracing

  /**
   * An entry of a class namespace: a staticmethod, a classmethod, a plain
   * function (an instance method), or any other value, kept as its `str()`.
   */
  datatype Member =
    | StaticMethod(f: PyFunction)
    | ClassMethod(f: PyFunction)
    | Function(f: PyFunction)
    | Value(text: string)

  /** An argument of `TracedMethods(*args)`: a logger, or a member name. */
  datatype MetaArg = LoggerArg(loggerName: string) | NameArg(name: string)

  /** Why class creation fails: a `dict_[...]` lookup, or a member without a code object. */
  datatype ClassError = KeyError(key: MetaArg) | NoCodeObject(memberName: string)

  /** A class namespace after the rewrite, with the name of the logger its proxies use. */
  datatype TracedClass = TracedClass(loggerName: string, members: map<string, Member>)

  predicate IsRoutine(m: Member)
  {
    !m.Value?
  }

  predicate SameKind(m: Member, n: Member)
  {
    && (m.StaticMethod? <==> n.StaticMethod?)
    && (m.ClassMethod? <==> n.ClassMethod?)
    && (m.Function? <==> n.Function?)
  }

  /** `_make_method_tracer`'s dispatch on `type(method)`. */
  function TracerKindOf(m: Member): TracerKind
  {
    match m
    case StaticMethod(_) => StaticTracer
    case ClassMethod(_) => ClassTracer
    case _ => InstanceTracer
  }

  /**
   * `_make_method_tracer(classname, method, logger)`: a proxy of the same
   * kind, logging under "ClassName.methodName". `proxyCode` gives the code
   * object of each kind's nested proxy function. A value that is not a
   * routine has no `__code__`, which the source reports as an AttributeError.
   */
  function MakeMethodTracer(className: string, m: Member, loggerName: string,
                            proxyCode: TracerKind -> CodeObject): (r: Option<Member>)
    ensures r.Some? <==> IsRoutine(m)
    ensures r.Some? ==> SameKind(r.value, m) && IsRoutine(r.value)
    ensures r.Some? ==>
              var p := r.value.f;
              && p.name == m.f.name
              && p.body.Proxy? && p.body.wrapped == m.f
              && p.body.tracer.kind == TracerKindOf(m)
              && p.body.tracer.loggerName == loggerName
              && p.body.tracer.callee == ChildLoggerName(className, m.f.name)
              && p.body.tracer.caller == CaptureCaller(m.f.code)
  {
    if m.Value? then None
    else
      var kind := TracerKindOf(m);
      var p := MakeTracer(kind, loggerName, ChildLoggerName(className, m.f.name), m.f, proxyCode(kind));
      match m
      case StaticMethod(_) => Some(StaticMethod(p))
      case ClassMethod(_) => Some(ClassMethod(p))
      case Function(_) => Some(Function(p))
  }

  /** The member names among the arguments. */
  function NameSet(names: seq<MetaArg>): (s: set<string>)
    ensures forall i :: 0 <= i < |names| && names[i].NameArg? ==> names[i].name in s
    ensures forall n :: n in s ==> exists i :: 0 <= i < |names| && names[i] == NameArg(n)
  {
    if names == [] then {}
    else (if names[0].NameArg? then {names[0].name} else {}) + NameSet(names[1..])
  }

  /** Every argument names a routine of the namespace. */
  predicate AllTraceable(members: map<string, Member>, names: seq<MetaArg>)
  {
    forall i :: 0 <= i < |names| ==>
      names[i].NameArg? && names[i].name in members && IsRoutine(members[names[i].name])
  }

  predicate Distinct(names: seq<MetaArg>)
  {
    forall i, j :: 0 <= i < j < |names| ==> names[i] != names[j]
  }

  /**
   * The source's loop: replace each named member in turn. A name absent
   * from the namespace, or a logger in a later position, fails the lookup.
   */
  function ReplaceAll(className: string, members: map<string, Member>, names: seq<MetaArg>,
                      loggerName: string, proxyCode: TracerKind -> CodeObject)
    : (r: Result<map<string, Member>, ClassError>)
    ensures r.Ok? <==> AllTraceable(members, names)
    ensures r.Ok? ==> r.value.Keys == members.Keys
    ensures r.Ok? ==> forall k :: k in members && k !in NameSet(names) ==> r.value[k] == members[k]
    decreases |names|
  {
    if names == [] then Ok(members)
    else
      match names[0]
      case LoggerArg(_) => Err(KeyError(names[0]))
      case NameArg(n) =>
        if n !in members then Err(KeyError(names[0]))
        else
          match MakeMethodTracer(className, members[n], loggerName, proxyCode)
          case None => Err(NoCodeObject(n))
          case Some(p) =>
            TraceableAfterReplace(members, n, p, names);
            ReplaceAll(className, members[n := p], names[1..], loggerName, proxyCode)
  }

  /** Replacing the first named routine by another routine keeps the rest of the names traceable. */
  lemma TraceableAfterReplace(members: map<string, Member>, n: string, p: Member, names: seq<MetaArg>)
    requires |names| > 0 && names[0] == NameArg(n)
    requires n in members && IsRoutine(members[n]) && IsRoutine(p)
    ensures AllTraceable(members, names) <==> AllTraceable(members[n := p], names[1..])
  {
    if AllTraceable(members[n := p], names[1..]) {
      forall i | 0 <= i < |names|
        ensures names[i].NameArg? && names[i].name in members && IsRoutine(members[names[i].name])
      {
        if i > 0 {
          assert names[i] == names[1..][i - 1];
        }
      }
    }
  }

  /** Without repetitions, the first name does not come back later. */
  lemma DistinctTail(names: seq<MetaArg>)
    requires |names| > 0
    ensures Distinct(names) ==> Distinct(names[1..])
    ensures Distinct(names) && names[0].NameArg? ==> names[0].name !in NameSet(names[1..])
  {
  }

  /** The rewrite keeps every member's kind: static stays static, class stays class. */
  lemma {:induction false} ReplaceAllKeepsKinds(className: string, members: map<string, Member>,
                                                 names: seq<MetaArg>, loggerName: string,
                                                 proxyCode: TracerKind -> CodeObject)
    requires ReplaceAll(className, members, names, loggerName, proxyCode).Ok?
    ensures var r := ReplaceAll(className, members, names, loggerName, proxyCode).value;
            forall k :: k in members ==> SameKind(r[k], members[k])
    decreases |names|
  {
    if names != [] {
      var n := names[0].name;
      var p := MakeMethodTracer(className, members[n], loggerName, proxyCode).value;
      ReplaceAllKeepsKinds(className, members[n := p], names[1..], loggerName, proxyCode);
    }
  }

  /**
   * With no name repeated, each named member is exactly the proxy
   * `_make_method_tracer` makes from the original member.
   */
  lemma {:induction false} ReplaceAllWrapsEachOnce(className: string, members: map<string, Member>,
                                                    names: seq<MetaArg>, loggerName: string,
                                                    proxyCode: TracerKind -> CodeObject, k: string)
    requires Distinct(names) && AllTraceable(members, names)
    requires k in members && k in NameSet(names)
    ensures var r := ReplaceAll(className, members, names, loggerName, proxyCode);
            r.Ok? && Some(r.value[k]) == MakeMethodTracer(className, members[k], loggerName, proxyCode)
    decreases |names|
  {
    var n := names[0].name;
    var p := MakeMethodTracer(className, members[n], loggerName, proxyCode).value;
    DistinctTail(names);
    if k != n {
      ReplaceAllWrapsEachOnce(className, members[n := p], names[1..], loggerName, proxyCode, k);
    }
  }

  /**
   * A failure names its cause: a logger or an absent name used as a key
   * (KeyError), or a named entry that is not a routine.
   */
  lemma {:induction false} ReplaceAllErrors(className: string, members: map<string, Member>,
                                             names: seq<MetaArg>, loggerName: string,
                                             proxyCode: TracerKind -> CodeObject)
    requires ReplaceAll(className, members, names, loggerName, proxyCode).Err?
    ensures var e := ReplaceAll(className, members, names, loggerName, proxyCode).error;
            && (e.KeyError? ==> e.key in names && (e.key.LoggerArg? || e.key.name !in members))
            && (e.NoCodeObject? ==> e.memberName in members && members[e.memberName].Value?)
    decreases |names|
  {
    if names[0].NameArg? && names[0].name in members && IsRoutine(members[names[0].name]) {
      var n := names[0].name;
      var p := MakeMethodTracer(className, members[n], loggerName, proxyCode).value;
      ReplaceAllErrors(className, members[n := p], names[1..], loggerName, proxyCode);
    }
  }

  /** The arguments that name members: all of them, or all after a leading logger. */
  function MethodNames(args: seq<MetaArg>): seq<MetaArg>
  {
    if |args| > 0 && args[0].LoggerArg? then args[1..] else args
  }

  /** The parent of the class's logger: the leading logger's name, or `dict_["__module__"]`. */
  function ParentName(args: seq<MetaArg>, members: map<string, Member>): Option<string>
  {
    if |args| > 0 && args[0].LoggerArg? then Some(args[0].loggerName)
    else if "__module__" in members && members["__module__"].Value? then Some(members["__module__"].text)
    else None
  }

  /**
   * `TracingMeta.__new__(meta, name, bases, dict_)`: name the logger
   * parent + "." + class name, then replace the named members.
   */
  function TracingMetaNew(className: string, members: map<string, Member>, args: seq<MetaArg>,
                          proxyCode: TracerKind -> CodeObject): (r: Result<TracedClass, ClassError>)
    ensures r.Ok? <==> ParentName(args, members).Some? && AllTraceable(members, MethodNames(args))
    ensures r.Ok? ==> r.value.loggerName == ChildLoggerName(ParentName(args, members).value, className)
    ensures r.Ok? ==> r.value.members.Keys == members.Keys
    ensures r.Ok? ==> forall k :: k in members ==> SameKind(r.value.members[k], members[k])
    ensures r.Ok? ==> forall k :: k in members && k !in NameSet(MethodNames(args)) ==>
                        r.value.members[k] == members[k]
    ensures ParentName(args, members).None? ==> r == Err(KeyError(NameArg("__module__")))
  {
    match ParentName(args, members)
    case None => Err(KeyError(NameArg("__module__")))
    case Some(p) =>
      var loggerName := ChildLoggerName(p, className);
      match ReplaceAll(className, members, MethodNames(args), loggerName, proxyCode)
      case Err(e) => Err(e)
      case Ok(rewritten) =>
        ReplaceAllKeepsKinds(className, members, MethodNames(args), loggerName, proxyCode);
        Ok(TracedClass(loggerName, rewritten))
  }

  /**
   * Each distinct named method becomes a proxy logging to parent.ClassName
   * under "ClassName.methodName", with the caller information of the
   * method's own code; the proxy wraps the original member's function.
   */
  lemma NamedMethodsAreTraced(className: string, members: map<string, Member>, args: seq<MetaArg>,
                              proxyCode: TracerKind -> CodeObject, k: string)
    requires Distinct(MethodNames(args)) && AllTraceable(members, MethodNames(args))
    requires ParentName(args, members).Some?
    requires k in members && k in NameSet(MethodNames(args))
    ensures TracingMetaNew(className, members, args, proxyCode).Ok?
    ensures var r := TracingMetaNew(className, members, args, proxyCode).value;
            var m, p := members[k], r.members[k].f;
            && SameKind(r.members[k], m)
            && p.body.Proxy? && p.body.wrapped == m.f
            && p.body.tracer.loggerName == r.loggerName
            && p.body.tracer.callee == className + "." + m.f.name
            && p.body.tracer.caller == CaptureCaller(m.f.code)
  {
    var parent := ParentName(args, members).value;
    var loggerName := ChildLoggerName(parent, className);
    var replaced := ReplaceAll(className, members, MethodNames(args), loggerName, proxyCode);
    assert replaced.Ok?;
    ReplaceAllWrapsEachOnce(className, members, MethodNames(args), loggerName, proxyCode, k);
  }

  /**
   * Naming a member twice wraps the proxy again; the outer proxy then takes
   * its caller information from the inner proxy's own code object, not from
   * the method.
   */
  lemma RepeatedNameWrapsProxy(className: string, members: map<string, Member>, n: string,
                               loggerName: string, proxyCode: TracerKind -> CodeObject)
    requires n in members && IsRoutine(members[n])
    ensures var r := ReplaceAll(className, members, [NameArg(n), NameArg(n)], loggerName, proxyCode);
            var kind := TracerKindOf(members[n]);
            && r.Ok? && n in r.value && IsRoutine(r.value[n])
            && r.value[n].f.body.Proxy?
            && r.value[n].f.body.tracer.caller == CaptureCaller(proxyCode(kind))
            && r.value[n].f.body.wrapped.body.Proxy?
            && r.value[n].f.body.wrapped.body.wrapped == members[n].f
  {
  }
}
