/** The object path a stub registers its interface at: the interface name
    with every `.` turned into `/`, after a leading `/`. */
module ObjectPaths {
  import opened Text
  import opened Ir
  import opened Emission

  /** The path is the name, one character further on, with dots turned into
      slashes; no dot is left in it. */
  lemma ObjectPathShape(name: string)
    ensures var p := ObjectPath(name);
      && |p| == |name| + 1
      && p[0] == '/'
      && (forall k :: 0 <= k < |name| ==> p[k + 1] == if name[k] == '.' then '/' else name[k])
      && '.' !in p
  {
    var p := ObjectPath(name);
    forall k | 0 <= k < |name|
      ensures p[k + 1] == if name[k] == '.' then '/' else name[k]
    {
      ReplaceCharAt(name, '.', '/', k);
    }
    forall j | 0 <= j < |p|
      ensures p[j] != '.'
    {
      if j > 0 {
        ReplaceCharAt(name, '.', '/', j - 1);
      }
    }
  }

  /** A name without slashes is recovered from its path. */
  lemma ObjectPathInverse(name: string)
    requires '/' !in name
    ensures ReplaceChar(ObjectPath(name)[1..], '/', '.') == name
  {
    assert ObjectPath(name)[1..] == ReplaceChar(name, '.', '/');
    ReplaceCharBack(name, '.', '/');
  }

  /** Interfaces whose names have no slashes are registered at different
      paths. */
  lemma ObjectPathInjective(a: string, b: string)
    requires '/' !in a && '/' !in b
    ensures ObjectPath(a) == ObjectPath(b) ==> a == b
  {
    ObjectPathInverse(a);
    ObjectPathInverse(b);
  }

  /** Regrouping the tail of a concatenation. */
  lemma RegroupTail(x: string, a: string, b: string, c: string, d: string, e: string)
    ensures x + a + b + c + d + e == x + (a + b + c + d + e)
  {
  }

  /** The text `t` holds the `register_object` call for the object path
      `path`, with the interface looked up under `name`. */
  ghost predicate Registers(t: string, path: string, name: string)
  {
    exists pre, post :: t == pre + RegisterCall + path + PathEnd + LookupCall + name + post
  }

  lemma RegistersWitness(t: string, pre: string, path: string, name: string, post: string)
    requires t == pre + RegisterCall + path + PathEnd + LookupCall + name + post
    ensures Registers(t, path, name)
  {
  }

  /** The bus callbacks register the object at `objectPath` and look the
      interface up under `ifaceName`. */
  lemma BusCallbacksRegister(ns: string, cls: string, objectPath: string, ifaceName: string)
    ensures Registers(BusCallbacks(ns, cls, objectPath, ifaceName), objectPath, ifaceName)
  {
    var pre := "\nvoid " + ns + BusAcquiredParams + cls + MethodCallSlot + cls + GetPropertySlot + cls
               + SetPropertySlotEnd;
    var x := pre + RegisterCall + objectPath + PathEnd + LookupCall + ifaceName;
    RegroupTail(x, RegisterFailed, ns, NameAcquiredParams, ns, NameLostParams);
    var post := RegisterFailed + ns + NameAcquiredParams + ns + NameLostParams;
    RegistersWitness(BusCallbacks(ns, cls, objectPath, ifaceName), pre, objectPath, ifaceName, post);
  }

  /** The last write but one of a stub definition is its bus callbacks. */
  lemma StubDefinitionEnd(w: seq<string>, i: Interface)
    ensures var r := StubDefinition(w, i);
      && |r| >= 2
      && r[|r| - 2] == BusCallbacks(i.cppNamespaceName, i.cppClassName, ObjectPath(i.name), i.name)
      && r[|r| - 1] == "\n"
  {
  }

  /** The text `on_bus_acquired` is written with registers the object at the
      object path of the interface's name, and looks the interface up in the
      introspection data under that name. */
  lemma StubDefinitionRegisters(w: seq<string>, i: Interface)
    ensures var r := StubDefinition(w, i);
      && |r| >= 2
      && r[|r| - 1] == "\n"
      && Registers(r[|r| - 2], ObjectPath(i.name), i.name)
  {
    StubDefinitionEnd(w, i);
    BusCallbacksRegister(i.cppNamespaceName, i.cppClassName, ObjectPath(i.name), i.name);
  }
}
