/** What the access flags of a property decide: a getter is declared,
    defined and dispatched exactly for readable properties, a setter exactly
    for writable ones, on the proxy side and on the stub side alike. */
module Gating {
  import opened Text
  import opened Ir
  import opened Emission

  /** Two texts differ when their k-th characters from the end differ. */
  lemma EndsDiffer(x: string, a: string, y: string, b: string, k: nat)
    requires k < |a| && k < |b|
    requires a[|a| - 1 - k] != b[|b| - 1 - k]
    ensures x + a != y + b
  {
    assert (x + a)[|x + a| - 1 - k] == a[|a| - 1 - k];
    assert (y + b)[|y + b| - 1 - k] == b[|b| - 1 - k];
  }

  /** Lines gated by two flags: each gated line is present iff its flag is
      set, when the lines differ from each other and from the newline. */
  lemma GatedLines(d: seq<string>, g: string, s: string, a: bool, b: bool)
    requires g != s && g != "\n" && s != "\n"
    requires d == (if a then [g, "\n"] else []) + (if b then [s, "\n"] else [])
    ensures g in d <==> a
    ensures s in d <==> b
  {
  }

  // ---------------------------------------------------------------- declarations in the proxy header

  lemma ProxyAccessorsDiffer(p: Property)
    ensures ProxyGetterDecl(p) != ProxySetterDecl(p)
    ensures ProxyGetterDecl(p) != ProxySetFinishDecl(p)
    ensures ProxyGetterDecl(p) != "\n" && ProxySetterDecl(p) != "\n" && ProxySetFinishDecl(p) != "\n"
  {
    var g := "     " + p.cpptypeOut + " " + p.name;
    var s := "     void " + p.name + "_set(" + p.cpptypeIn;
    var f := "     void " + p.name;
    EndsDiffer(g, "_get();", s, SetterSlotDecl, 2);
    EndsDiffer(g, "_get();", f, SetFinishDecl, 2);
    EndsDiffer(g, "_get();", "", "\n", 0);
    EndsDiffer(s, SetterSlotDecl, "", "\n", 0);
    EndsDiffer(f, SetFinishDecl, "", "\n", 0);
  }

  /** The proxy class declares `<name>_get()` iff the property is readable,
      and `<name>_set` with `<name>_set_finish` iff it is writable. */
  lemma ProxyPropertyDeclGating(w: seq<string>, p: Property)
    ensures ProxyGetterDecl(p) in ProxyPropertyDecl(w, p)[|w|..] <==> p.readable
    ensures ProxySetterDecl(p) in ProxyPropertyDecl(w, p)[|w|..] <==> p.writable
    ensures ProxySetFinishDecl(p) in ProxyPropertyDecl(w, p)[|w|..] <==> p.writable
  {
    var d := ProxyPropertyDecl(w, p)[|w|..];
    assert d == (if p.readable then [ProxyGetterDecl(p), "\n"] else [])
                + (if p.writable then [ProxySetterDecl(p), "\n", ProxySetFinishDecl(p), "\n"] else []);
    ProxyAccessorsDiffer(p);
  }

  // ---------------------------------------------------------------- declarations in the stub header

  lemma StubAccessorsDiffer(p: Property)
    ensures StubGetterDecl(p) != StubSetterDecl(p)
    ensures StubGetterDecl(p) != "\n" && StubSetterDecl(p) != "\n"
  {
    var g := "    virtual " + p.cpptypeOut + " " + p.name;
    var s := VirtualVoid + p.name + "_set(" + p.cpptypeIn;
    EndsDiffer(g, "_get() = 0;", s, " value) = 0;", 6);
    EndsDiffer(g, "_get() = 0;", "", "\n", 0);
    EndsDiffer(s, " value) = 0;", "", "\n", 0);
  }

  /** The stub class declares the pure virtual `<name>_get()` iff the
      property is readable and `<name>_set` iff it is writable. */
  lemma StubPropertyDeclGating(w: seq<string>, p: Property)
    ensures StubGetterDecl(p) in StubPropertyDecl(w, p)[|w|..] <==> p.readable
    ensures StubSetterDecl(p) in StubPropertyDecl(w, p)[|w|..] <==> p.writable
  {
    var d := StubPropertyDecl(w, p)[|w|..];
    var g := StubGetterDecl(p);
    var s := StubSetterDecl(p);
    assert d == (if p.readable then [g, "\n"] else []) + (if p.writable then [s, "\n"] else []);
    StubAccessorsDiffer(p);
    GatedLines(d, g, s, p.readable, p.writable);
  }

  // ---------------------------------------------------------------- all properties of a class

  /** The lines one property contributes: its getter line when it is
      readable, its setter lines when it is writable. */
  function Gated(p: Property, g: Property -> string, s: Property -> seq<string>): seq<string>
  {
    (if p.readable then [g(p), "\n"] else []) + (if p.writable then s(p) else [])
  }

  lemma GatedMember(p: Property, g: Property -> string, s: Property -> seq<string>, t: string)
    requires t in Gated(p, g, s)
    ensures t == "\n" || (p.readable && t == g(p)) || (p.writable && t in s(p))
  {
  }

  /** A property loop whose body appends the gated lines of its property. */
  ghost predicate GatedStep(step: (seq<string>, Property) -> seq<string>, g: Property -> string, s: Property -> seq<string>)
  {
    forall v, p :: step(v, p) == v + Gated(p, g, s)
  }

  lemma {:induction false} GatedEachFrame(w: seq<string>, ps: seq<Property>, step: (seq<string>, Property) -> seq<string>,
                                          g: Property -> string, s: Property -> seq<string>)
    requires GatedStep(step, g, s)
    ensures |Each(w, ps, step)| >= |w| && Each(w, ps, step)[..|w|] == w
    decreases |ps|
  {
    if |ps| > 0 {
      GatedEachFrame(w, ps[..|ps| - 1], step, g, s);
    }
  }

  /** The loop's writes past `w`, one property further on. */
  lemma GatedEachLast(w: seq<string>, ps: seq<Property>, step: (seq<string>, Property) -> seq<string>,
                      g: Property -> string, s: Property -> seq<string>)
    requires GatedStep(step, g, s) && |ps| > 0
    ensures |Each(w, ps[..|ps| - 1], step)| >= |w|
    ensures Each(w, ps, step)[|w|..] == Each(w, ps[..|ps| - 1], step)[|w|..] + Gated(ps[|ps| - 1], g, s)
  {
    var v := Each(w, ps[..|ps| - 1], step);
    GatedEachFrame(w, ps[..|ps| - 1], step, g, s);
    assert Each(w, ps, step) == v + Gated(ps[|ps| - 1], g, s);
  }

  /** The getter of every readable property and the setter lines of every
      writable one are among the loop's writes. */
  lemma {:induction false} GatedEachCovers(w: seq<string>, ps: seq<Property>, step: (seq<string>, Property) -> seq<string>,
                                           g: Property -> string, s: Property -> seq<string>)
    requires GatedStep(step, g, s)
    ensures |Each(w, ps, step)| >= |w|
    ensures forall p | p in Select(ps, IsReadable) :: g(p) in Each(w, ps, step)[|w|..]
    ensures forall p, t | p in Select(ps, IsWritable) && t in s(p) :: t in Each(w, ps, step)[|w|..]
    decreases |ps|
  {
    GatedEachFrame(w, ps, step, g, s);
    if |ps| > 0 {
      var n := |ps| - 1;
      var ps' := ps[..n];
      var p := ps[n];
      GatedEachCovers(w, ps', step, g, s);
      GatedEachLast(w, ps, step, g, s);
      var x := Each(w, ps', step)[|w|..];
      var e := Gated(p, g, s);
      assert Select(ps, IsReadable) == Select(ps', IsReadable) + (if IsReadable(p) then [p] else []);
      assert Select(ps, IsWritable) == Select(ps', IsWritable) + (if IsWritable(p) then [p] else []);
      forall q | q in Select(ps, IsReadable)
        ensures g(q) in x + e
      {
        if q in Select(ps', IsReadable) {
          assert g(q) in x;
        } else {
          assert q == p && g(p) in e;
        }
      }
      forall q, t | q in Select(ps, IsWritable) && t in s(q)
        ensures t in x + e
      {
        if q in Select(ps', IsWritable) {
          assert t in x;
        } else {
          assert q == p && t in e;
        }
      }
    }
  }

  /** Every write of the loop is a newline, the getter of a readable
      property or a setter line of a writable one. */
  lemma {:induction false} GatedEachOnly(w: seq<string>, ps: seq<Property>, step: (seq<string>, Property) -> seq<string>,
                                         g: Property -> string, s: Property -> seq<string>)
    requires GatedStep(step, g, s)
    ensures |Each(w, ps, step)| >= |w|
    ensures forall t | t in Each(w, ps, step)[|w|..] ::
      || t == "\n"
      || (exists p | p in Select(ps, IsReadable) :: t == g(p))
      || (exists p | p in Select(ps, IsWritable) :: t in s(p))
    decreases |ps|
  {
    GatedEachFrame(w, ps, step, g, s);
    if |ps| == 0 {
      assert Each(w, ps, step)[|w|..] == [];
    } else {
      var n := |ps| - 1;
      var ps' := ps[..n];
      var p := ps[n];
      GatedEachOnly(w, ps', step, g, s);
      GatedEachLast(w, ps, step, g, s);
      var x := Each(w, ps', step)[|w|..];
      var e := Gated(p, g, s);
      assert Select(ps, IsReadable) == Select(ps', IsReadable) + (if IsReadable(p) then [p] else []);
      assert Select(ps, IsWritable) == Select(ps', IsWritable) + (if IsWritable(p) then [p] else []);
      forall q | q in Select(ps', IsReadable)
        ensures q in Select(ps, IsReadable)
      {
      }
      forall q | q in Select(ps', IsWritable)
        ensures q in Select(ps, IsWritable)
      {
      }
      forall t | t in x + e
        ensures || t == "\n"
                || (exists q | q in Select(ps, IsReadable) :: t == g(q))
                || (exists q | q in Select(ps, IsWritable) :: t in s(q))
      {
        if t !in x {
          GatedMember(p, g, s, t);
          if p.readable {
            assert p in Select(ps, IsReadable);
          }
          if p.writable {
            assert p in Select(ps, IsWritable);
          }
        }
      }
    }
  }

  /** A line of a two-line list that is no newline is one of the two lines. */
  lemma NotNewline(t: string, a: string, b: string)
    requires t in [a, "\n", b, "\n"] && t != "\n"
    ensures t == a || t == b
  {
  }

  function ProxySetterLines(p: Property): seq<string>
  {
    [ProxySetterDecl(p), "\n", ProxySetFinishDecl(p), "\n"]
  }

  /** The property loop of a proxy class declares the getter of every
      readable property and the setter pair of every writable one, and
      nothing but those and newlines. */
  lemma ProxyPropertyDeclsGating(w: seq<string>, ps: seq<Property>)
    ensures |Each(w, ps, ProxyPropertyDecl)| >= |w|
    ensures var d := Each(w, ps, ProxyPropertyDecl)[|w|..];
      && (forall p | p in Select(ps, IsReadable) :: ProxyGetterDecl(p) in d)
      && (forall p | p in Select(ps, IsWritable) :: ProxySetterDecl(p) in d && ProxySetFinishDecl(p) in d)
      && (forall t | t in d ::
            || t == "\n"
            || (exists p | p in Select(ps, IsReadable) :: t == ProxyGetterDecl(p))
            || (exists p | p in Select(ps, IsWritable) :: t == ProxySetterDecl(p) || t == ProxySetFinishDecl(p)))
  {
    forall v, p
      ensures ProxyPropertyDecl(v, p) == v + Gated(p, ProxyGetterDecl, ProxySetterLines)
    {
    }
    GatedEachCovers(w, ps, ProxyPropertyDecl, ProxyGetterDecl, ProxySetterLines);
    GatedEachOnly(w, ps, ProxyPropertyDecl, ProxyGetterDecl, ProxySetterLines);
    var d := Each(w, ps, ProxyPropertyDecl)[|w|..];
    forall p | p in Select(ps, IsWritable)
      ensures ProxySetterDecl(p) in d && ProxySetFinishDecl(p) in d
    {
      assert ProxySetterDecl(p) in ProxySetterLines(p);
      assert ProxySetFinishDecl(p) in ProxySetterLines(p);
    }
    forall t | t in d && t != "\n" && !(exists p | p in Select(ps, IsReadable) :: t == ProxyGetterDecl(p))
      ensures exists p | p in Select(ps, IsWritable) :: t == ProxySetterDecl(p) || t == ProxySetFinishDecl(p)
    {
      var p :| p in Select(ps, IsWritable) && t in ProxySetterLines(p);
      NotNewline(t, ProxySetterDecl(p), ProxySetFinishDecl(p));
    }
  }

  function StubSetterLines(p: Property): seq<string>
  {
    [StubSetterDecl(p), "\n"]
  }

  /** The property loop of a stub class declares the pure virtual getter of
      every readable property and the setter of every writable one, and
      nothing but those and newlines. */
  lemma StubPropertyDeclsGating(w: seq<string>, ps: seq<Property>)
    ensures |Each(w, ps, StubPropertyDecl)| >= |w|
    ensures var d := Each(w, ps, StubPropertyDecl)[|w|..];
      && (forall p | p in Select(ps, IsReadable) :: StubGetterDecl(p) in d)
      && (forall p | p in Select(ps, IsWritable) :: StubSetterDecl(p) in d)
      && (forall t | t in d ::
            || t == "\n"
            || (exists p | p in Select(ps, IsReadable) :: t == StubGetterDecl(p))
            || (exists p | p in Select(ps, IsWritable) :: t == StubSetterDecl(p)))
  {
    forall v, p
      ensures StubPropertyDecl(v, p) == v + Gated(p, StubGetterDecl, StubSetterLines)
    {
    }
    GatedEachCovers(w, ps, StubPropertyDecl, StubGetterDecl, StubSetterLines);
    GatedEachOnly(w, ps, StubPropertyDecl, StubGetterDecl, StubSetterLines);
    var d := Each(w, ps, StubPropertyDecl)[|w|..];
    forall p | p in Select(ps, IsWritable)
      ensures StubSetterDecl(p) in d
    {
      assert StubSetterDecl(p) in StubSetterLines(p);
    }
    forall t | t in d && t != "\n" && !(exists p | p in Select(ps, IsReadable) :: t == StubGetterDecl(p))
      ensures exists p | p in Select(ps, IsWritable) :: t == StubSetterDecl(p)
    {
      var p :| p in Select(ps, IsWritable) && t in StubSetterLines(p);
      assert t == StubSetterDecl(p);
    }
  }

  // ---------------------------------------------------------------- definitions in the proxy source

  lemma ProxyDefsDiffer(i: Interface, p: Property)
    ensures ProxyGetterDef(i.cppNamespaceName, p) != ProxySetterDef(i, p)
    ensures ProxyGetterDef(i.cppNamespaceName, p) != "\n" && ProxySetterDef(i, p) != "\n"
  {
    var ns := i.cppNamespaceName;
    var g := "\n" + p.cpptypeOut + " " + ns + "::" + p.name + CachedNames + p.cpptypeGet + FindCached + p.name
             + GetCached + p.name + CacheMiss + p.cpptypeGetCast;
    var s := "\n\nvoid " + ns + "::" + p.name + "_set(" + p.cpptypeIn + SetterParams + i.name
             + PushName + p.name + PushValue + p.cpptypeGet + " >::create(" + p.cpptypeToDbus + CallSet
             + ns + "::" + p.name;
    EndsDiffer(g, ReturnCached, s, SetFinishDef, 0);
    EndsDiffer(g, ReturnCached, "", "\n", 0);
    assert |ProxySetterDef(i, p)| > 1;
  }

  /** `generate_property_handlers` defines the getter of a property iff it
      is readable and its setter pair iff it is writable. */
  lemma PropertyHandlerGating(w: seq<string>, i: Interface, p: Property)
    ensures ProxyGetterDef(i.cppNamespaceName, p) in PropertyHandler(w, i, p)[|w|..] <==> p.readable
    ensures ProxySetterDef(i, p) in PropertyHandler(w, i, p)[|w|..] <==> p.writable
  {
    var d := PropertyHandler(w, i, p)[|w|..];
    var g := ProxyGetterDef(i.cppNamespaceName, p);
    var s := ProxySetterDef(i, p);
    assert d == (if p.readable then [g, "\n"] else []) + (if p.writable then [s, "\n"] else []);
    ProxyDefsDiffer(i, p);
    GatedLines(d, g, s, p.readable, p.writable);
  }

  // ---------------------------------------------------------------- dispatch in the stub source

  /** The property loop of `on_interface_get_property` writes one branch per
      readable property, in declaration order. */
  lemma {:induction false} GetBranches(w: seq<string>, ps: seq<Property>)
    ensures Each(w, ps, GetBranchOf) == Lines(w, Select(ps, IsReadable), GetBranch)
    decreases |ps|
  {
    if |ps| > 0 {
      var ps' := ps[..|ps| - 1];
      var p := ps[|ps| - 1];
      GetBranches(w, ps');
      var sel := Select(ps', IsReadable);
      if p.readable {
        assert Select(ps, IsReadable) == sel + [p];
        assert (sel + [p])[..|sel|] == sel;
      } else {
        assert Select(ps, IsReadable) == sel;
      }
    }
  }

  /** The property loop of `on_interface_set_property` writes one branch per
      writable property, in declaration order. */
  lemma {:induction false} SetBranches(w: seq<string>, ps: seq<Property>)
    ensures Each(w, ps, SetBranchOf) == Lines(w, Select(ps, IsWritable), SetBranch)
    decreases |ps|
  {
    if |ps| > 0 {
      var ps' := ps[..|ps| - 1];
      var p := ps[|ps| - 1];
      SetBranches(w, ps');
      var sel := Select(ps', IsWritable);
      if p.writable {
        assert Select(ps, IsWritable) == sel + [p];
        assert (sel + [p])[..|sel|] == sel;
      } else {
        assert Select(ps, IsWritable) == sel;
      }
    }
  }

  /** `on_interface_set_property` has a branch for every writable property,
      and whichever branch runs, it ends by emitting `PropertiesChanged`
      and returning true. */
  lemma SetDispatchShape(w: seq<string>, ns: string, ps: seq<Property>)
    ensures var r := SetDispatch(w, ns, ps);
      && r == Line(Lines(Line(w, SetPropertyHead(ns)), Select(ps, IsWritable), SetBranch), SetPropertyTail)
      && r[|r| - 2] == SetPropertyTail
  {
    SetBranches(Line(w, SetPropertyHead(ns)), ps);
  }
}
