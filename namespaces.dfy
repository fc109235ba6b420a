/** Namespace balance of the two headers. Every write is read as an opening
    line `namespace s {`, a closing line `}// s`, or neither; a header is
    balanced when its markers, run against a stack of open namespaces, close
    every namespace they open, innermost first. */
module Namespaces {
  import opened Wrappers
  import opened Text
  import opened Ir
  import opened Emission

  datatype Marker = Open(segment: string) | Close(segment: string)

  function OpenMarker(segment: string): Marker
  {
    Open(segment)
  }

  function CloseMarker(segment: string): Marker
  {
    Close(segment)
  }

  const OpenPrefix: string := "namespace "
  const OpenSuffix: string := " {"
  const ClosePrefix: string := "}// "

  /** The namespace marker a single write stands for, if any. */
  function Classify(t: string): (r: seq<Marker>)
    ensures |r| <= 1
  {
    if |t| >= |OpenPrefix| + |OpenSuffix| && StartsWith(t, OpenPrefix) && EndsWith(t, OpenSuffix)
    then [Open(t[|OpenPrefix|..|t| - |OpenSuffix|])]
    else if StartsWith(t, ClosePrefix) then [Close(t[|ClosePrefix|..])]
    else []
  }

  /** The markers of a sequence of writes, in order. */
  function Markers(ws: seq<string>): seq<Marker>
  {
    if |ws| == 0 then [] else Markers(ws[..|ws| - 1]) + Classify(ws[|ws| - 1])
  }

  /** A write that is no namespace line. */
  predicate Plain(t: string)
  {
    Classify(t) == []
  }

  /** One marker run against the stack of open namespaces: an opening line
      pushes its segment, a closing line pops it and fails (`None`) unless it
      names the innermost open namespace. */
  function Step(stack: Option<seq<string>>, m: Marker): Option<seq<string>>
  {
    match stack
    case None => None
    case Some(st) =>
      match m
      case Open(s) => Some(st + [s])
      case Close(s) => if |st| > 0 && st[|st| - 1] == s then Some(st[..|st| - 1]) else None
  }

  /** The stack left after running all of `ms` from an empty one. */
  function Run(ms: seq<Marker>): Option<seq<string>>
  {
    if |ms| == 0 then Some([]) else Step(Run(ms[..|ms| - 1]), ms[|ms| - 1])
  }

  /** Every namespace opened is closed again, innermost first. */
  predicate Balanced(ms: seq<Marker>)
  {
    Run(ms) == Some([])
  }

  /** `ms` followed by the opening markers of `xs`, in order. */
  function Opens(ms: seq<Marker>, xs: seq<string>): seq<Marker>
  {
    if |xs| == 0 then ms else Opens(ms, xs[..|xs| - 1]) + [Open(xs[|xs| - 1])]
  }

  /** `ms` followed by the closing markers of `xs`, last segment first. */
  function Closes(ms: seq<Marker>, xs: seq<string>): seq<Marker>
    decreases |xs|
  {
    if |xs| == 0 then ms else Closes(ms + [Close(xs[|xs| - 1])], xs[..|xs| - 1])
  }

  /** `ms` followed by the markers of the class of `i`: its outer namespaces
      opened outermost first, then closed innermost first. */
  function Nest(ms: seq<Marker>, i: Interface): seq<Marker>
  {
    var outer := OuterNamespaces(i.cppNamespaceName);
    Closes(Opens(ms, outer), outer)
  }

  /** `ms` followed by the nests of all of `ifaces`, in order. */
  function Nests(ms: seq<Marker>, ifaces: seq<Interface>): seq<Marker>
  {
    if |ifaces| == 0 then ms else Nest(Nests(ms, ifaces[..|ifaces| - 1]), ifaces[|ifaces| - 1])
  }

  // ---------------------------------------------------------------- classifying writes

  lemma OpenLineClassify(s: string)
    ensures Classify(OpenLine(s)) == [Open(s)]
  {
    var t := OpenLine(s);
    assert t == OpenPrefix + s + OpenSuffix;
    assert t[..|OpenPrefix|] == OpenPrefix;
    assert t[|t| - |OpenSuffix|..] == OpenSuffix;
    assert t[|OpenPrefix|..|t| - |OpenSuffix|] == s;
  }

  lemma CloseLineClassify(s: string)
    ensures Classify(CloseLine(s)) == [Close(s)]
  {
    var t := CloseLine(s);
    assert t == ClosePrefix + s;
    assert t[0] == '}';
    if |t| >= |OpenPrefix| {
      assert t[..|OpenPrefix|][0] == t[0];
    }
    assert t[..|ClosePrefix|] == ClosePrefix;
    assert t[|ClosePrefix|..] == s;
  }

  /** A write that starts with neither 'n' nor '}' is no namespace line. */
  lemma FirstCharPlain(t: string)
    requires |t| == 0 || (t[0] != 'n' && t[0] != '}')
    ensures Plain(t)
  {
    if |t| >= |OpenPrefix| {
      assert t[..|OpenPrefix|][0] == t[0];
    }
    if |t| >= |ClosePrefix| {
      assert t[..|ClosePrefix|][0] == t[0];
    }
  }

  lemma {:induction false} MarkersAppend(a: seq<string>, b: seq<string>)
    ensures Markers(a + b) == Markers(a) + Markers(b)
    decreases |b|
  {
    if |b| == 0 {
      assert a + b == a;
    } else {
      var b' := b[..|b| - 1];
      assert (a + b)[..|a + b| - 1] == a + b';
      MarkersAppend(a, b');
    }
  }

  lemma LineMarkers(w: seq<string>, t: string)
    ensures Markers(Line(w, t)) == Markers(w) + Classify(t)
  {
    assert Line(w, t) == w + [t, "\n"];
    MarkersAppend(w, [t, "\n"]);
    assert [t, "\n"][..1] == [t];
    assert [t][..0] == [];
    FirstCharPlain("\n");
  }

  lemma PlainLine(w: seq<string>, t: string)
    requires Plain(t)
    ensures Markers(Line(w, t)) == Markers(w)
  {
    LineMarkers(w, t);
  }

  /** `Lines` of plain writes adds no marker. */
  lemma {:induction false} PlainLines<T>(w: seq<string>, xs: seq<T>, f: T -> string)
    requires forall k :: 0 <= k < |xs| ==> Plain(f(xs[k]))
    ensures Markers(Lines(w, xs, f)) == Markers(w)
    decreases |xs|
  {
    if |xs| > 0 {
      PlainLines(w, xs[..|xs| - 1], f);
      PlainLine(Lines(w, xs[..|xs| - 1], f), f(xs[|xs| - 1]));
    }
  }

  lemma {:induction false} OpensMarkers(w: seq<string>, xs: seq<string>)
    ensures Markers(Lines(w, xs, OpenLine)) == Opens(Markers(w), xs)
    decreases |xs|
  {
    if |xs| > 0 {
      var xs' := xs[..|xs| - 1];
      OpensMarkers(w, xs');
      LineMarkers(Lines(w, xs', OpenLine), OpenLine(xs[|xs| - 1]));
      OpenLineClassify(xs[|xs| - 1]);
    }
  }

  /** `Lines` peeled from the front. */
  lemma {:induction false} LinesFront<T>(w: seq<string>, xs: seq<T>, f: T -> string)
    requires |xs| > 0
    ensures Lines(w, xs, f) == Lines(Line(w, f(xs[0])), xs[1..], f)
    decreases |xs|
  {
    if |xs| > 1 {
      var xs' := xs[..|xs| - 1];
      LinesFront(w, xs', f);
      assert xs'[1..] == xs[1..][..|xs[1..]| - 1];
      assert xs'[0] == xs[0];
    } else {
      assert xs[1..] == [];
      assert xs[..0] == [];
    }
  }

  lemma {:induction false} ClosesMarkers(w: seq<string>, xs: seq<string>)
    ensures Markers(Lines(w, Reverse(xs), CloseLine)) == Closes(Markers(w), xs)
    decreases |xs|
  {
    if |xs| > 0 {
      var xs' := xs[..|xs| - 1];
      var r := Reverse(xs);
      assert r == [xs[|xs| - 1]] + Reverse(xs');
      assert r[0] == xs[|xs| - 1];
      assert r[1..] == Reverse(xs');
      LinesFront(w, r, CloseLine);
      var w1 := Line(w, CloseLine(xs[|xs| - 1]));
      ClosesMarkers(w1, xs');
      LineMarkers(w, CloseLine(xs[|xs| - 1]));
      CloseLineClassify(xs[|xs| - 1]);
    } else {
      assert Reverse(xs) == [];
    }
  }

  // ---------------------------------------------------------------- running markers

  lemma RunSnoc(ms: seq<Marker>, m: Marker)
    ensures Run(ms + [m]) == Step(Run(ms), m)
  {
    assert (ms + [m])[..|ms|] == ms;
  }

  /** Opening lines push their segments in order. */
  lemma {:induction false} RunOpens(ms: seq<Marker>, st: seq<string>, xs: seq<string>)
    requires Run(ms) == Some(st)
    ensures Run(Opens(ms, xs)) == Some(st + xs)
    decreases |xs|
  {
    if |xs| == 0 {
      assert st + xs == st;
    } else {
      var xs' := xs[..|xs| - 1];
      RunOpens(ms, st, xs');
      RunSnoc(Opens(ms, xs'), Open(xs[|xs| - 1]));
      assert st + xs' + [xs[|xs| - 1]] == st + xs;
    }
  }

  /** Closing lines, last segment first, pop the same segments again. */
  lemma {:induction false} RunCloses(ms: seq<Marker>, st: seq<string>, xs: seq<string>)
    requires Run(ms) == Some(st + xs)
    ensures Run(Closes(ms, xs)) == Some(st)
    decreases |xs|
  {
    if |xs| == 0 {
      assert st + xs == st;
    } else {
      var xs' := xs[..|xs| - 1];
      RunSnoc(ms, Close(xs[|xs| - 1]));
      var full := st + xs;
      assert full[|full| - 1] == xs[|xs| - 1];
      assert full[..|full| - 1] == st + xs';
      RunCloses(ms + [Close(xs[|xs| - 1])], st, xs');
    }
  }

  lemma RunNest(ms: seq<Marker>, st: seq<string>, i: Interface)
    requires Run(ms) == Some(st)
    ensures Run(Nest(ms, i)) == Some(st)
  {
    var outer := OuterNamespaces(i.cppNamespaceName);
    RunOpens(ms, st, outer);
    RunCloses(Opens(ms, outer), st, outer);
  }

  lemma {:induction false} RunNests(ms: seq<Marker>, st: seq<string>, ifaces: seq<Interface>)
    requires Run(ms) == Some(st)
    ensures Run(Nests(ms, ifaces)) == Some(st)
    decreases |ifaces|
  {
    if |ifaces| > 0 {
      RunNests(ms, st, ifaces[..|ifaces| - 1]);
      RunNest(Nests(ms, ifaces[..|ifaces| - 1]), st, ifaces[|ifaces| - 1]);
    }
  }

  /** The nest of an interface spelt out: its outer namespaces opened in
      order, then closed in reverse order. */
  lemma {:induction false} OpensExplicit(ms: seq<Marker>, xs: seq<string>)
    ensures Opens(ms, xs) == ms + Map(xs, OpenMarker)
    decreases |xs|
  {
    if |xs| > 0 {
      OpensExplicit(ms, xs[..|xs| - 1]);
      assert Map(xs, OpenMarker) == Map(xs[..|xs| - 1], OpenMarker) + [Open(xs[|xs| - 1])];
    } else {
      assert Map(xs, OpenMarker) == [];
    }
  }

  lemma {:induction false} ClosesExplicit(ms: seq<Marker>, xs: seq<string>)
    ensures Closes(ms, xs) == ms + Map(Reverse(xs), CloseMarker)
    decreases |xs|
  {
    if |xs| > 0 {
      var xs' := xs[..|xs| - 1];
      ClosesExplicit(ms + [Close(xs[|xs| - 1])], xs');
      var r := Reverse(xs);
      assert r == [xs[|xs| - 1]] + Reverse(xs');
      assert Map(r, CloseMarker) == [Close(xs[|xs| - 1])] + Map(Reverse(xs'), CloseMarker);
    } else {
      assert Map(Reverse(xs), CloseMarker) == [];
    }
  }

  lemma NestExplicit(ms: seq<Marker>, i: Interface)
    ensures Nest(ms, i) == ms + Map(OuterNamespaces(i.cppNamespaceName), OpenMarker)
                             + Map(Reverse(OuterNamespaces(i.cppNamespaceName)), CloseMarker)
  {
    var outer := OuterNamespaces(i.cppNamespaceName);
    OpensExplicit(ms, outer);
    ClosesExplicit(Opens(ms, outer), outer);
  }

  // ---------------------------------------------------------------- the proxy header

  lemma ProxyMethodDeclPlain(w: seq<string>, m: Method)
    ensures Markers(ProxyMethodDecl(w, m)) == Markers(w)
  {
    var w1 := Line(w, "    void " + m.name + " (");
    FirstCharPlain("    void " + m.name + " (");
    PlainLine(w, "    void " + m.name + " (");
    forall k | 0 <= k < |m.inArgs|
      ensures Plain(ProxyInParam(m.inArgs[k]))
    {
      FirstCharPlain(ProxyInParam(m.inArgs[k]));
    }
    PlainLines(w1, m.inArgs, ProxyInParam);
    var w2 := Lines(w1, m.inArgs, ProxyInParam);
    FirstCharPlain(SlotParamDecl);
    PlainLine(w2, SlotParamDecl);
    var w3 := Line(w2, SlotParamDecl);
    FirstCharPlain("");
    PlainLine(w3, "");
    var w4 := Line(w3, "");
    FirstCharPlain("    void " + m.name + "_finish (");
    PlainLine(w4, "    void " + m.name + "_finish (");
    var w5 := Line(w4, "    void " + m.name + "_finish (");
    forall k | 0 <= k < |m.outArgs|
      ensures Plain(ProxyOutParam(m.outArgs[k]))
    {
      FirstCharPlain(ProxyOutParam(m.outArgs[k]));
    }
    PlainLines(w5, m.outArgs, ProxyOutParam);
    FirstCharPlain(ResParamDecl);
    PlainLine(Lines(w5, m.outArgs, ProxyOutParam), ResParamDecl);
  }

  lemma ProxyPropertyDeclPlain(w: seq<string>, p: Property)
    ensures Markers(ProxyPropertyDecl(w, p)) == Markers(w)
  {
    FirstCharPlain(ProxyGetterDecl(p));
    FirstCharPlain(ProxySetterDecl(p));
    FirstCharPlain(ProxySetFinishDecl(p));
    var w1 := if p.readable then Line(w, ProxyGetterDecl(p)) else w;
    if p.readable {
      PlainLine(w, ProxyGetterDecl(p));
    }
    if p.writable {
      PlainLine(w1, ProxySetterDecl(p));
      PlainLine(Line(w1, ProxySetterDecl(p)), ProxySetFinishDecl(p));
    }
  }

  lemma {:induction false} ProxyMethodDeclsPlain(w: seq<string>, ms: seq<Method>)
    ensures Markers(Each(w, ms, ProxyMethodDecl)) == Markers(w)
    decreases |ms|
  {
    if |ms| > 0 {
      ProxyMethodDeclsPlain(w, ms[..|ms| - 1]);
      ProxyMethodDeclPlain(Each(w, ms[..|ms| - 1], ProxyMethodDecl), ms[|ms| - 1]);
    }
  }

  lemma {:induction false} ProxyPropertyDeclsPlain(w: seq<string>, ps: seq<Property>)
    ensures Markers(Each(w, ps, ProxyPropertyDecl)) == Markers(w)
    decreases |ps|
  {
    if |ps| > 0 {
      ProxyPropertyDeclsPlain(w, ps[..|ps| - 1]);
      ProxyPropertyDeclPlain(Each(w, ps[..|ps| - 1], ProxyPropertyDecl), ps[|ps| - 1]);
    }
  }

  /** The proxy class of an interface opens its outer namespaces outermost
      first and closes them innermost first, with no other namespace line. */
  lemma ProxyClassDeclMarkers(w: seq<string>, i: Interface)
    ensures Markers(ProxyClassDecl(w, i)) == Nest(Markers(w), i)
  {
    var outer := OuterNamespaces(i.cppNamespaceName);
    OpensMarkers(w, outer);
    var w1 := NamespaceOpens(w, i.cppNamespaceName);
    FirstCharPlain(ProxyClassHead(i.cppClassName));
    PlainLine(w1, ProxyClassHead(i.cppClassName));
    var w2 := Line(w1, ProxyClassHead(i.cppClassName));
    ProxyMethodDeclsPlain(w2, i.methods);
    var w3 := Each(w2, i.methods, ProxyMethodDecl);
    ProxyPropertyDeclsPlain(w3, i.properties);
    var w4 := Each(w3, i.properties, ProxyPropertyDecl);
    FirstCharPlain("");
    PlainLine(w4, "");
    var w5 := Line(w4, "");
    FirstCharPlain(ProxyClassTail(i.cppClassName));
    PlainLine(w5, ProxyClassTail(i.cppClassName));
    ClosesMarkers(Line(w5, ProxyClassTail(i.cppClassName)), outer);
  }

  lemma {:induction false} ProxyClassDeclsMarkers(w: seq<string>, ifaces: seq<Interface>)
    ensures Markers(Each(w, ifaces, ProxyClassDecl)) == Nests(Markers(w), ifaces)
    decreases |ifaces|
  {
    if |ifaces| > 0 {
      var ifaces' := ifaces[..|ifaces| - 1];
      ProxyClassDeclsMarkers(w, ifaces');
      ProxyClassDeclMarkers(Each(w, ifaces', ProxyClassDecl), ifaces[|ifaces| - 1]);
    }
  }

  /** The namespace lines of the proxy header balance whenever those before
      it do, as in the empty file `generate` starts from. */
  lemma ProxyHeaderBalanced(w: seq<string>, commonHName: string, ifaces: seq<Interface>)
    requires Balanced(Markers(w))
    ensures Balanced(Markers(ProxyHeader(w, commonHName, ifaces)))
  {
    ProxyHeaderMarkers(w, commonHName, ifaces);
    RunNests(Markers(w), [], ifaces);
  }

  /** The namespace lines of the proxy header are those of its classes, one
      nest per interface in order. */
  lemma ProxyHeaderMarkers(w: seq<string>, commonHName: string, ifaces: seq<Interface>)
    ensures Markers(ProxyHeader(w, commonHName, ifaces)) == Nests(Markers(w), ifaces)
  {
    FirstCharPlain(IncludeString);
    FirstCharPlain(IncludeGlibmm);
    FirstCharPlain(IncludeGiomm);
    FirstCharPlain(IncludeLine(commonHName));
    FirstCharPlain("");
    var w1 := Line(w, IncludeString);
    PlainLine(w, IncludeString);
    var w2 := Line(w1, IncludeGlibmm);
    PlainLine(w1, IncludeGlibmm);
    var w3 := Line(w2, IncludeGiomm);
    PlainLine(w2, IncludeGiomm);
    var w4 := Line(w3, IncludeLine(commonHName));
    PlainLine(w3, IncludeLine(commonHName));
    var w5 := Line(w4, "");
    PlainLine(w4, "");
    ProxyClassDeclsMarkers(w5, ifaces);
  }

  // ---------------------------------------------------------------- the stub header

  lemma StubInParamsPlain(args: seq<Arg>)
    ensures forall k :: 0 <= k < |args| ==> Plain(StubInParam(args[k]))
  {
    forall k | 0 <= k < |args|
      ensures Plain(StubInParam(args[k]))
    {
      FirstCharPlain(StubInParam(args[k]));
    }
  }

  lemma StubMethodDeclPlain(w: seq<string>, m: Method)
    ensures Markers(StubMethodDecl(w, m)) == Markers(w)
  {
    FirstCharPlain("virtual void " + m.name + " (");
    PlainLine(w, "virtual void " + m.name + " (");
    var w1 := Line(w, "virtual void " + m.name + " (");
    StubInParamsPlain(m.inArgs);
    PlainLines(w1, m.inArgs, StubInParam);
    FirstCharPlain(InvocationDecl);
    PlainLine(Lines(w1, m.inArgs, StubInParam), InvocationDecl);
  }

  lemma StubPropertyDeclPlain(w: seq<string>, p: Property)
    ensures Markers(StubPropertyDecl(w, p)) == Markers(w)
  {
    FirstCharPlain(StubGetterDecl(p));
    FirstCharPlain(StubSetterDecl(p));
    var w1 := if p.readable then Line(w, StubGetterDecl(p)) else w;
    if p.readable {
      PlainLine(w, StubGetterDecl(p));
    }
    if p.writable {
      PlainLine(w1, StubSetterDecl(p));
    }
  }

  lemma {:induction false} StubMethodDeclsPlain(w: seq<string>, ms: seq<Method>)
    ensures Markers(Each(w, ms, StubMethodDecl)) == Markers(w)
    decreases |ms|
  {
    if |ms| > 0 {
      StubMethodDeclsPlain(w, ms[..|ms| - 1]);
      StubMethodDeclPlain(Each(w, ms[..|ms| - 1], StubMethodDecl), ms[|ms| - 1]);
    }
  }

  lemma {:induction false} StubPropertyDeclsPlain(w: seq<string>, ps: seq<Property>)
    ensures Markers(Each(w, ps, StubPropertyDecl)) == Markers(w)
    decreases |ps|
  {
    if |ps| > 0 {
      StubPropertyDeclsPlain(w, ps[..|ps| - 1]);
      StubPropertyDeclPlain(Each(w, ps[..|ps| - 1], StubPropertyDecl), ps[|ps| - 1]);
    }
  }

  /** The constructor declaration `<class> ();` is no namespace line for a
      class name made of identifier characters. */
  lemma ConstructorDeclPlain(cls: string)
    requires IsIdentifier(cls)
    ensures Plain(cls + " ();")
  {
    var t := cls + " ();";
    if |cls| > 0 {
      assert t[0] == cls[0];
      assert IsIdentifierChar(cls[0]);
    }
    assert t[|t| - 1] == ';';
    assert t[|t| - |OpenSuffix|..][1] == t[|t| - 1];
    assert !EndsWith(t, OpenSuffix);
    if |t| >= |ClosePrefix| {
      assert t[..|ClosePrefix|][0] == t[0];
    }
    assert !StartsWith(t, ClosePrefix);
  }

  /** The lines that open the stub class, up to `protected:`. */
  lemma StubClassHeadPlain(w: seq<string>, cls: string)
    requires IsIdentifier(cls)
    ensures Markers(Line(Line(Line(Line(Line(w, "class " + cls + " {"), "public:"), cls + " ();"), ConnectDecl), "protected:"))
         == Markers(w)
  {
    FirstCharPlain("class " + cls + " {");
    PlainLine(w, "class " + cls + " {");
    var w1 := Line(w, "class " + cls + " {");
    FirstCharPlain("public:");
    PlainLine(w1, "public:");
    var w2 := Line(w1, "public:");
    ConstructorDeclPlain(cls);
    PlainLine(w2, cls + " ();");
    var w3 := Line(w2, cls + " ();");
    FirstCharPlain(ConnectDecl);
    PlainLine(w3, ConnectDecl);
    FirstCharPlain("protected:");
    PlainLine(Line(w3, ConnectDecl), "protected:");
  }

  lemma StubClassTailPlain()
    ensures Plain(StubClassTail)
  {
    FirstCharPlain(StubClassTail);
  }

  /** The stub class of an interface nests like the proxy class. */
  lemma StubClassDeclMarkers(w: seq<string>, i: Interface)
    requires IsIdentifier(i.cppClassName)
    ensures Markers(StubClassDecl(w, i)) == Nest(Markers(w), i)
  {
    var outer := OuterNamespaces(i.cppNamespaceName);
    OpensMarkers(w, outer);
    var w1 := NamespaceOpens(w, i.cppNamespaceName);
    StubClassHeadPlain(w1, i.cppClassName);
    var w6 := Line(Line(Line(Line(Line(w1, "class " + i.cppClassName + " {"), "public:"), i.cppClassName + " ();"),
                             ConnectDecl), "protected:");
    StubMethodDeclsPlain(w6, i.methods);
    var w7 := Each(w6, i.methods, StubMethodDecl);
    StubPropertyDeclsPlain(w7, i.properties);
    var w8 := Each(w7, i.properties, StubPropertyDecl);
    StubClassTailPlain();
    PlainLine(w8, StubClassTail);
    var w9 := Line(w8, StubClassTail);
    ClosesMarkers(w9, outer);
    FirstCharPlain("");
    PlainLine(NamespaceCloses(w9, i.cppNamespaceName), "");
  }

  lemma {:induction false} StubClassDeclsMarkers(w: seq<string>, ifaces: seq<Interface>)
    requires forall k :: 0 <= k < |ifaces| ==> IsIdentifier(ifaces[k].cppClassName)
    ensures Markers(Each(w, ifaces, StubClassDecl)) == Nests(Markers(w), ifaces)
    decreases |ifaces|
  {
    if |ifaces| > 0 {
      var ifaces' := ifaces[..|ifaces| - 1];
      StubClassDeclsMarkers(w, ifaces');
      StubClassDeclMarkers(Each(w, ifaces', StubClassDecl), ifaces[|ifaces| - 1]);
    }
  }

  lemma {:induction false} IntrospectionPlain(w: seq<string>, nodeXmls: seq<seq<Byte>>)
    ensures Markers(StubIntrospection(w, nodeXmls)) == Markers(w)
    decreases |nodeXmls|
  {
    if |nodeXmls| > 0 {
      var w1 := StubIntrospection(w, nodeXmls[..|nodeXmls| - 1]);
      IntrospectionPlain(w, nodeXmls[..|nodeXmls| - 1]);
      var index := |nodeXmls| - 1;
      var xml := nodeXmls[index];
      FirstCharPlain(XmlArrayHead(index));
      MarkersAppend(w1, [XmlArrayHead(index)]);
      XmlBytesPlain(Put(w1, XmlArrayHead(index)), xml);
      var w2 := XmlBytes(Put(w1, XmlArrayHead(index)), xml);
      FirstCharPlain("0x00");
      PlainLine(w2, "0x00");
      assert Plain("};");
      PlainLine(Line(w2, "0x00"), "};");
    }
  }

  lemma {:induction false} XmlBytesPlain(w: seq<string>, xml: seq<Byte>)
    ensures Markers(XmlBytes(w, xml)) == Markers(w)
    decreases |xml|
  {
    if |xml| > 0 {
      XmlBytesPlain(w, xml[..|xml| - 1]);
      FirstCharPlain(XmlByte(xml[|xml| - 1]));
      MarkersAppend(XmlBytes(w, xml[..|xml| - 1]), [XmlByte(xml[|xml| - 1])]);
    }
  }

  /** The namespace lines of the stub header balance whenever those before
      it do, as in the empty file `generate` starts from. */
  lemma StubHeaderBalanced(w: seq<string>, nodeXmls: seq<seq<Byte>>, commonHName: string, ifaces: seq<Interface>)
    requires Balanced(Markers(w))
    requires forall k :: 0 <= k < |ifaces| ==> IsIdentifier(ifaces[k].cppClassName)
    ensures Balanced(Markers(StubHeaderFile(w, nodeXmls, commonHName, ifaces)))
  {
    StubHeaderMarkers(w, nodeXmls, commonHName, ifaces);
    RunNests(Markers(w), [], ifaces);
  }

  /** The namespace lines of the stub header (after the introspection
      arrays) are those of its classes, one nest per interface in order. */
  lemma StubHeaderMarkers(w: seq<string>, nodeXmls: seq<seq<Byte>>, commonHName: string, ifaces: seq<Interface>)
    requires forall k :: 0 <= k < |ifaces| ==> IsIdentifier(ifaces[k].cppClassName)
    ensures Markers(StubHeaderFile(w, nodeXmls, commonHName, ifaces)) == Nests(Markers(w), ifaces)
  {
    IntrospectionPlain(w, nodeXmls);
    var w1 := StubIntrospection(w, nodeXmls);
    StubIncludesPlain(w1, commonHName);
    StubClassDeclsMarkers(Line(w1, StubIncludes(commonHName)), ifaces);
  }

  lemma StubIncludesPlain(w: seq<string>, commonHName: string)
    ensures Markers(Line(w, StubIncludes(commonHName))) == Markers(w)
  {
    FirstCharPlain(StubIncludes(commonHName));
    PlainLine(w, StubIncludes(commonHName));
  }

  /** The common header declares its class outside any namespace. */
  lemma CommonHeaderBalanced()
    ensures Markers(CommonHeader([])) == []
    ensures Balanced(Markers(CommonHeader([])))
  {
    CommonClassPlain();
    PlainLine([], CommonClass);
  }

  lemma CommonClassPlain()
    ensures Plain(CommonClass)
  {
    assert CommonClass[0] == '\n';
    FirstCharPlain(CommonClass);
  }

  /** The namespaces a class is put in, followed by the class's own segment,
      join back into its qualified name. */
  lemma OuterNamespacesJoin(cppNamespaceName: string)
    ensures var segments := Split(cppNamespaceName, "::");
      Join(OuterNamespaces(cppNamespaceName) + [segments[|segments| - 1]], "::") == cppNamespaceName
  {
    var segments := Split(cppNamespaceName, "::");
    assert OuterNamespaces(cppNamespaceName) + [segments[|segments| - 1]] == segments;
    SplitJoin(cppNamespaceName, "::");
  }
}
