/** The string computations behind logger names and logger attribute names. */
module Naming {

  /** The dotted name of a child logger: `"%s.%s" % (parent, child)`. */
  function ChildLoggerName(parent: string, child: string): (name: string)
    ensures |name| == |parent| + 1 + |child|
    ensures name[..|parent|] == parent
    ensures name[|parent|] == '.'
    ensures name[|parent| + 1..] == child
  {
    parent + "." + child
  }

  /** Python's `s.lstrip('_')`: drop the maximal run of leading underscores. */
  function StripLeadingUnderscores(s: string): (r: string)
    ensures |r| <= |s| && r == s[|s| - |r|..]
    ensures r == [] || r[0] != '_'
    ensures forall i :: 0 <= i < |s| - |r| ==> s[i] == '_'
  {
    if |s| > 0 && s[0] == '_' then StripLeadingUnderscores(s[1..]) else s
  }

  /** The suffix shared by every logger attribute name. */
  const LOGGER_SUFFIX: string := "__logger"

  /**
   * The attribute under which a class's logger is stored: the name
   * autologging.py:131 builds, `"_%s__logger" % name.lstrip('_')`.
   */
  function PrivateLoggerAttr(className: string): (attr: string)
    ensures |attr| > |LOGGER_SUFFIX|
    ensures attr[0] == '_'
    ensures attr[|attr| - |LOGGER_SUFFIX|..] == LOGGER_SUFFIX
  {
    "_" + StripLeadingUnderscores(className) + LOGGER_SUFFIX
  }

  /** Two class names share a logger attribute exactly when they agree after stripping underscores. */
  lemma PrivateLoggerAttrCollision(a: string, b: string)
    ensures PrivateLoggerAttr(a) == PrivateLoggerAttr(b) <==>
            StripLeadingUnderscores(a) == StripLeadingUnderscores(b)
  {
    var sa, sb := StripLeadingUnderscores(a), StripLeadingUnderscores(b);
    if PrivateLoggerAttr(a) == PrivateLoggerAttr(b) {
      var pa := PrivateLoggerAttr(a);
      assert |sa| == |sb|;
      assert sa == pa[1..|pa| - |LOGGER_SUFFIX|];
      assert sb == PrivateLoggerAttr(b)[1..|pa| - |LOGGER_SUFFIX|];
    }
  }

  /** Stripping is idempotent, and it gives back the name it was handed once no underscore leads. */
  lemma StripFixedPoints(s: string)
    ensures StripLeadingUnderscores(StripLeadingUnderscores(s)) == StripLeadingUnderscores(s)
    ensures (s == [] || s[0] != '_') <==> StripLeadingUnderscores(s) == s
  {
  }

  /** The docstring's example class `Test` (autologging.py:54-59). */
  lemma PrivateLoggerAttrOfPublicClass()
    ensures PrivateLoggerAttr("Test") == "_Test__logger"
  {
    assert StripLeadingUnderscores("Test") == "Test";
  }

  /** Any run of underscores put in front of a class name is stripped away with the name's own. */
  lemma {:induction false} LeadingUnderscoresIgnored(underscores: string, className: string)
    requires forall i :: 0 <= i < |underscores| ==> underscores[i] == '_'
    ensures StripLeadingUnderscores(underscores + className) == StripLeadingUnderscores(className)
    decreases |underscores|
  {
    if |underscores| > 0 {
      assert (underscores + className)[1..] == underscores[1..] + className;
      LeadingUnderscoresIgnored(underscores[1..], className);
    } else {
      assert underscores + className == className;
    }
  }

  /** A class name with no leading underscore appears in its logger attribute as it is. */
  lemma PlainNameKept(className: string)
    requires className == [] || className[0] != '_'
    ensures PrivateLoggerAttr(className) == "_" + className + LOGGER_SUFFIX
  {
  }

  /** One leading underscore is dropped: the class name `_NonPublicClass` from test_mangle_name.py:42-44, under the same stripping rule. */
  lemma PrivateLoggerAttrOfNonPublicClass()
    ensures PrivateLoggerAttr("_NonPublicClass") == "_" + "NonPublicClass" + "__logger"
  {
    assert "_NonPublicClass" == "_" + "NonPublicClass";
    LeadingUnderscoresIgnored("_", "NonPublicClass");
    PlainNameKept("NonPublicClass");
  }

  /** Two leading underscores are dropped: the class name `__InternalClass` from test_mangle_name.py:46-48, under the same stripping rule. */
  lemma PrivateLoggerAttrOfInternalClass()
    ensures PrivateLoggerAttr("__InternalClass") == "_" + "InternalClass" + "__logger"
  {
    assert "__InternalClass" == "__" + "InternalClass";
    LeadingUnderscoresIgnored("__", "InternalClass");
    PlainNameKept("InternalClass");
  }
}
