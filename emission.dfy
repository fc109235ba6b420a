/** What the generator writes, as pure functions of the interface records.

    A sink is modelled by the sequence of strings handed to its `write`. Every
    function here takes the writes `w` a sink has received so far and gives
    its writes after one generator step, so that each step reads as the lines
    it emits, in order: `emit(dest, text)` is `Line(w, text)`, which writes
    `text` and then a separate "\n"; `emit(dest, text, False)` is `Put(w, text)`.

    The fixed passages of the C++ templates are named constants; their
    indentation is normalised, and long passages are spelt as concatenations
    of short pieces. */
module Emission {
  import opened Text
  import opened Ir

  // ---------------------------------------------------------------- writes

  /** One `dest.write(text)`. */
  function Put(w: seq<string>, text: string): seq<string>
  {
    w + [text]
  }

  /** `emit(dest, text)`: the text, then a newline of its own. */
  function Line(w: seq<string>, text: string): seq<string>
  {
    Put(Put(w, text), "\n")
  }

  /** `emit(dest, text, newline)`. */
  function Emitted(w: seq<string>, text: string, newline: bool): seq<string>
  {
    if newline then Line(w, text) else Put(w, text)
  }

  /** What a file holds after the writes `w`. */
  function Contents(w: seq<string>): string
  {
    if |w| == 0 then "" else Contents(w[..|w| - 1]) + w[|w| - 1]
  }

  /** `emit` appends the text to the file, and a newline when asked to. */
  lemma EmittedContents(w: seq<string>, text: string, newline: bool)
    ensures Contents(Emitted(w, text, newline)) == Contents(w) + text + (if newline then "\n" else "")
  {
    assert Put(w, text)[..|w|] == w;
    if newline {
      assert Line(w, text)[..|w| + 1] == Put(w, text);
    }
  }

  /** `for x in xs: emit(dest, f(x))`. */
  function Lines<T>(w: seq<string>, xs: seq<T>, f: T -> string): seq<string>
  {
    if |xs| == 0 then w else Line(Lines(w, xs[..|xs| - 1], f), f(xs[|xs| - 1]))
  }

  /** A loop over `xs` whose body, run on element `x`, turns writes `w` into
      `step(w, x)`. */
  function Each<T>(w: seq<string>, xs: seq<T>, step: (seq<string>, T) -> seq<string>): seq<string>
  {
    if |xs| == 0 then w else step(Each(w, xs[..|xs| - 1], step), xs[|xs| - 1])
  }

  lemma LinesStep<T>(w: seq<string>, xs: seq<T>, k: nat, f: T -> string)
    requires k < |xs|
    ensures Lines(w, xs[..k + 1], f) == Line(Lines(w, xs[..k], f), f(xs[k]))
  {
    assert xs[..k + 1][..k] == xs[..k];
  }

  lemma EachStep<T>(w: seq<string>, xs: seq<T>, k: nat, step: (seq<string>, T) -> seq<string>)
    requires k < |xs|
    ensures Each(w, xs[..k + 1], step) == step(Each(w, xs[..k], step), xs[k])
  {
    assert xs[..k + 1][..k] == xs[..k];
  }

  function IncludeLine(fileName: string): string
  {
    "#include \"" + fileName + "\""
  }

  // ---------------------------------------------------------------- namespaces

  /** The namespaces a class sits in: every `::`-separated segment of its
      qualified name but the last (`split("::")[:-1]`). */
  function OuterNamespaces(cppNamespaceName: string): seq<string>
  {
    var segments := Split(cppNamespaceName, "::");
    segments[..|segments| - 1]
  }

  function OpenLine(segment: string): string
  {
    "namespace " + segment + " {"
  }

  function CloseLine(segment: string): string
  {
    "}// " + segment
  }

  /** The namespaces opened, outermost first. */
  function NamespaceOpens(w: seq<string>, cppNamespaceName: string): seq<string>
  {
    Lines(w, OuterNamespaces(cppNamespaceName), OpenLine)
  }

  /** The namespaces closed, innermost first (`reversed(...)`). */
  function NamespaceCloses(w: seq<string>, cppNamespaceName: string): seq<string>
  {
    Lines(w, Reverse(OuterNamespaces(cppNamespaceName)), CloseLine)
  }

  // ---------------------------------------------------------------- proxy: intro

  /** The banner's first line has no indentation, so `dedent` leaves the
      indentation of the others in place; only the blank last line goes. */
  const BannerIndent: string := "                     "
  const BannerHead: string := "/*\n" + BannerIndent + "* Generated by " + "gdbus-codegen-glibmm "
  const LicenseLines: string :=
    ". DO NOT EDIT.\n" + BannerIndent + "*\n" + BannerIndent + "* The license of this " + "code is the same as for the "
    + "source it was derived from.\n" + BannerIndent + "*/\n"

  function Banner(version: string): string
  {
    BannerHead + version + LicenseLines
  }

  /** `generate_intro`. */
  function ProxyIntro(w: seq<string>, version: string, proxyHName: string): seq<string>
  {
    var w := Line(w, Banner(version));
    Line(w, IncludeLine(proxyHName))
  }

  // ---------------------------------------------------------------- proxy: declarations

  const IncludeString: string := "#include <string>"
  const IncludeGlibmm: string := "#include <glibmm.h>"
  const IncludeGiomm: string := "#include <giomm.h>"

  const CreateForBusDecl: string :=
    " : public Glib::ObjectBase {\n" + "public:\n" + "    static void createForBus " + "(Gio::DBus::BusType busType,\n"
    + "        Gio::DBus::" + "ProxyFlags proxyFlags,\n" + "        const std::string " + "&name,\n"
    + "        const std::string " + "&objectPath,\n" + "        const " + "Gio::SlotAsyncReady &slot);\n" + "\n"
    + "    static Glib::RefPtr<"
  const CreateForBusFinishDecl: string :=
    "> createForBusFinish " + "(Glib::RefPtr<Gio::" + "AsyncResult> result);"
  const ReferenceMembers: string :=
    "    void reference() {}\n" + "    void unreference() {}\n" + "private:\n" + "    "
  const ProxyConstructorDecl: string :=
    " (Glib::RefPtr<Gio::DBus::" + "Proxy> proxy) : " + "Glib::ObjectBase() {\n" + "        this->m_proxy = " + "proxy;\n" + "    }\n"
    + "    Glib::RefPtr<Gio::DBus::" + "Proxy> m_proxy;\n" + "};"

  /** The class head with the `createForBus`/`createForBusFinish` factory pair. */
  function ProxyClassHead(cppClassName: string): string
  {
    "\nclass " + cppClassName + CreateForBusDecl + cppClassName + CreateForBusFinishDecl
  }

  /** The private constructor from a `Gio::DBus::Proxy` and the closing brace. */
  function ProxyClassTail(cppClassName: string): string
  {
    "\n" + ReferenceMembers + cppClassName + ProxyConstructorDecl
  }

  function ProxyInParam(a: Arg): string
  {
    "      " + a.cpptypeIn + " " + a.name + ","
  }

  function ProxyOutParam(a: Arg): string
  {
    "      " + a.cpptypeOut + "& " + a.name + ","
  }

  const SlotParamDecl: string := "      const " + "Gio::SlotAsyncReady &slot);\n"
  const ResParamDecl: string := "      const " + "Glib::RefPtr<Gio::" + "AsyncResult>& res);"

  /** The begin/finish declaration pair of one method; both use `m.name`. */
  function ProxyMethodDecl(w: seq<string>, m: Method): seq<string>
  {
    // Async call method
    var w := Line(w, "    void " + m.name + " (");
    var w := Lines(w, m.inArgs, ProxyInParam);
    var w := Line(w, SlotParamDecl);
    var w := Line(w, "");
    // _finish method
    var w := Line(w, "    void " + m.name + "_finish (");
    var w := Lines(w, m.outArgs, ProxyOutParam);
    Line(w, ResParamDecl)
  }

  function ProxyGetterDecl(p: Property): string
  {
    "     " + p.cpptypeOut + " " + p.name + "_get();"
  }

  const SetterSlotDecl: string := ", const Gio::SlotAsyncReady " + "&);"
  const SetFinishDecl: string := "_set_finish(const " + "Glib::RefPtr<Gio::" + "AsyncResult>&);"

  function ProxySetterDecl(p: Property): string
  {
    "     void " + p.name + "_set(" + p.cpptypeIn + SetterSlotDecl
  }

  function ProxySetFinishDecl(p: Property): string
  {
    "     void " + p.name + SetFinishDecl
  }

  /** The accessors of one property: a getter when it is readable, a setter
      and its `_set_finish` when it is writable. */
  function ProxyPropertyDecl(w: seq<string>, p: Property): seq<string>
  {
    var w := if p.readable then Line(w, ProxyGetterDecl(p)) else w;
    if p.writable then Line(Line(w, ProxySetterDecl(p)), ProxySetFinishDecl(p)) else w
  }

  /** The proxy class of one interface inside its namespaces. */
  function ProxyClassDecl(w: seq<string>, i: Interface): seq<string>
  {
    var w := NamespaceOpens(w, i.cppNamespaceName);
    var w := Line(w, ProxyClassHead(i.cppClassName));
    var w := Each(w, i.methods, ProxyMethodDecl);
    var w := Each(w, i.properties, ProxyPropertyDecl);
    var w := Line(w, "");
    var w := Line(w, ProxyClassTail(i.cppClassName));
    NamespaceCloses(w, i.cppNamespaceName)
  }

  /** `declare_types`: the includes, then one class per interface. */
  function ProxyHeader(w: seq<string>, commonHName: string, ifaces: seq<Interface>): seq<string>
  {
    var w := Line(w, IncludeString);
    var w := Line(w, IncludeGlibmm);
    var w := Line(w, IncludeGiomm);
    var w := Line(w, IncludeLine(commonHName));
    var w := Line(w, "");
    Each(w, ifaces, ProxyClassDecl)
  }

  // ---------------------------------------------------------------- proxy: method calls

  function BeginParam(a: Arg): string
  {
    "    " + a.cpptypeIn + " arg_" + a.name + ","
  }

  const ParamsVector: string := "std::vector<Glib::" + "VariantBase> params;"
  const CreateTuple: string := "  base = " + "Glib::VariantContainerBase::" + "create_tuple (params);"
  const PushBack: string := "  params.push_back ("

  function SendParam(a: Arg): string
  {
    "  " + a.cpptypeSend(a.name + "_param", a.name)
  }

  function PushParam(a: Arg): string
  {
    PushBack + a.name + "_param);"
  }

  /** With two or more in-arguments, each is packed into `<name>_param` and
      pushed onto `params`. */
  function PackOne(w: seq<string>, a: Arg): seq<string>
  {
    var w := Line(w, SendParam(a));
    Line(w, PushParam(a))
  }

  /** With exactly one in-argument, it is packed straight into `params`. */
  function SendAsParams(a: Arg): string
  {
    "  " + a.cpptypeSend("params", a.name)
  }

  /** The in-argument packing of a begin call, chosen by the number of
      in-arguments; a tuple is created from `params` whenever there is one. */
  function PackInArgs(w: seq<string>, args: seq<Arg>): seq<string>
  {
    var w := if |args| > 1 then Each(Line(w, ParamsVector), args, PackOne)
             else if |args| == 1 then Lines(w, args, SendAsParams)
             else w;
    if |args| > 0 then Line(w, CreateTuple) else w
  }

  const CallbackParam: string := "    const " + "Gio::SlotAsyncReady " + "&callback){"
  const BaseDecl: string := "  Glib::VariantContainerBase " + "base;"
  const ProxyCall: string := "  m_proxy->call ("

  /** The asynchronous begin call; its definition uses `m.camelName`, the
      call itself the wire name `m.name`. */
  function ProxyBegin(w: seq<string>, ns: string, m: Method): seq<string>
  {
    var w := Line(w, "void " + ns + "::" + m.camelName + " (");
    var w := Lines(w, m.inArgs, BeginParam);
    var w := Line(w, CallbackParam);
    var w := Line(w, BaseDecl);
    var w := PackInArgs(w, m.inArgs);
    var w := Line(w, ProxyCall);
    var w := Line(w, "    \"" + m.name + "\",");
    var w := Line(w, "    callback,");
    var w := Line(w, "    base);");
    Line(w, "}")
  }

  function FinishParam(a: Arg): string
  {
    "     " + a.cpptypeOut + "& out_" + a.name + ","
  }

  const FinishPrologue: string :=
    "\nconst Glib::RefPtr<Gio::" + "AsyncResult>& result)\n" + "{\n  Glib::" + "VariantContainerBase wrapped;\n"
    + "  wrapped = " + "m_proxy->call_finish(result);\n"

  /** Out-argument number `x` is read from child `str(x)` of the reply. */
  function UnpackLine(a: Arg, x: nat): string
  {
    "  " + a.cppvalueGet(a.name + "_variant", "out_" + a.name, Decimal(x))
  }

  function UnpackOut(w: seq<string>, a: Arg, x: nat): seq<string>
  {
    var w := Line(w, UnpackLine(a, x));
    Line(w, "")
  }

  /** `for x in range(0, len(args))`. */
  function UnpackOutArgs(w: seq<string>, args: seq<Arg>): seq<string>
  {
    if |args| == 0 then w
    else UnpackOut(UnpackOutArgs(w, args[..|args| - 1]), args[|args| - 1], |args| - 1)
  }

  function ProxyFinish(w: seq<string>, ns: string, m: Method): seq<string>
  {
    var w := Line(w, "void " + ns + "::" + m.camelName + "_finish (");
    var w := Lines(w, m.outArgs, FinishParam);
    var w := Line(w, FinishPrologue);
    var w := UnpackOutArgs(w, m.outArgs);
    var w := Line(w, "}");
    Line(w, "")
  }

  /** The body of the method loop of `generate_method_calls`. */
  function MethodCall(w: seq<string>, ns: string, m: Method): seq<string>
  {
    ProxyFinish(ProxyBegin(w, ns, m), ns, m)
  }

  /** `generate_method_calls` for the methods `ms` of the class `ns`. */
  function MethodCalls(w: seq<string>, ns: string, ms: seq<Method>): seq<string>
  {
    if |ms| == 0 then w else MethodCall(MethodCalls(w, ns, ms[..|ms| - 1]), ns, ms[|ms| - 1])
  }

  lemma MethodCallsStep(w: seq<string>, ns: string, ms: seq<Method>, k: nat)
    requires k < |ms|
    ensures MethodCalls(w, ns, ms[..k + 1]) == MethodCall(MethodCalls(w, ns, ms[..k]), ns, ms[k])
  {
    assert ms[..k + 1][..k] == ms[..k];
  }

  // ---------------------------------------------------------------- proxy: property handlers

  const CachedNames: string :=
    "_get() {\n" + "    std::vector<Glib::" + "ustring> props = " + "m_proxy->" + "get_cached_property_names();\n"
    + "    Glib::Variant<"
  const FindCached: string := " > b;\n" + "    if (std::find(" + "props.begin(), props.end(), \""
  const GetCached: string := "\") != props.end()) {\n" + "        m_proxy->" + "get_cached_property(b, \""
  const CacheMiss: string :=
    "\");\n" + "    } else {\n" + "        g_print (\"Todo: " + "lookup value\\n\");\n" + "    }\n" + "    return "
  const ReturnCached: string := "(b.get());\n}"

  /** The getter reads the cached property and returns it converted by
      `cpptypeGetCast`. */
  function ProxyGetterDef(ns: string, p: Property): string
  {
    "\n" + p.cpptypeOut + " " + ns + "::" + p.name + CachedNames + p.cpptypeGet + FindCached + p.name
    + GetCached + p.name + CacheMiss + p.cpptypeGetCast + ReturnCached
  }

  const SetterParams: string :=
    " value, const " + "Gio::SlotAsyncReady &cb) {\n" + "    std::vector<Glib::" + "VariantBase> paramsVec;\n"
    + "    paramsVec.push_back " + "(Glib::Variant<Glib::" + "ustring>::create(\""
  const PushName: string := "\"));\n" + "    paramsVec.push_back " + "(Glib::Variant<Glib::" + "ustring>::create(\""
  const PushValue: string :=
    "\"));\n" + "    paramsVec.push_back " + "(Glib::Variant<Glib::" + "VariantBase>::create(Glib::" + "Variant<"
  const CallSet: string :=
    "(value))));\n" + "    Glib::" + "VariantContainerBase params " + "= Glib::VariantContainerBase::" + "create_tuple(paramsVec);\n"
    + "    m_proxy->call(" + "\"org.freedesktop.DBus.Properti" + "es.Set\",\n" + "                  cb,\n"
    + "                  params\n" + "                  );\n" + "}\n\nvoid "
  const SetFinishDef: string := "_set_finish(const " + "Glib::RefPtr<Gio::" + "AsyncResult>& res) {\n" + "}\n"

  /** The asynchronous setter pair: a `Properties.Set` call with the tuple
      (interface name, property name, boxed value) and an empty `_set_finish`. */
  function ProxySetterDef(i: Interface, p: Property): string
  {
    "\n\nvoid " + i.cppNamespaceName + "::" + p.name + "_set(" + p.cpptypeIn + SetterParams + i.name
    + PushName + p.name + PushValue + p.cpptypeGet + " >::create(" + p.cpptypeToDbus + CallSet
    + i.cppNamespaceName + "::" + p.name + SetFinishDef
  }

  /** The body of the property loop of `generate_property_handlers`. */
  function PropertyHandler(w: seq<string>, i: Interface, p: Property): seq<string>
  {
    var w := if p.readable then Line(w, ProxyGetterDef(i.cppNamespaceName, p)) else w;
    if p.writable then Line(w, ProxySetterDef(i, p)) else w
  }

  /** `generate_property_handlers` for the properties `ps` of `i`. */
  function PropertyHandlers(w: seq<string>, i: Interface, ps: seq<Property>): seq<string>
  {
    if |ps| == 0 then w else PropertyHandler(PropertyHandlers(w, i, ps[..|ps| - 1]), i, ps[|ps| - 1])
  }

  // ---------------------------------------------------------------- proxy: factory

  const CreateForBusParams: string :=
    "::createForBus (\n" + "    Gio::DBus::BusType " + "busType,\n" + "    Gio::DBus::ProxyFlags " + "proxyFlags,\n"
    + "    const std::string &name,\n" + "    const std::string " + "&objectPath,\n"
    + "    const " + "Gio::SlotAsyncReady &slot) {\n" + "  Gio::DBus::Proxy::" + "create_for_bus (busType,\n"
    + "      name,\n" + "      objectPath,\n" + "      \""
  const CreateForBusRest: string :=
    "\",\n      slot,\n" + "      Glib::RefPtr<Gio::" + "DBus::InterfaceInfo>(),\n" + "      proxyFlags);\n" + "}\n\n"
    + "Glib::RefPtr<"
  const CreateForBusFinishHead: string :=
    "::createForBusFinish " + "(Glib::RefPtr<Gio::" + "AsyncResult> result) {\n"
    + "    Glib::RefPtr<Gio::DBus::" + "Proxy> proxy = " + "Gio::DBus::Proxy::" + "create_for_bus_finish " + "(result);\n" + "    "
  const WrapProxy: string := " (proxy);\n" + "    return Glib::RefPtr<"

  /** `generate_proxy`: the two-phase factory `createForBus`/`createForBusFinish`
      of the proxy class, for the D-Bus interface `i.name`. */
  function ProxyFactory(i: Interface): string
  {
    var ns := i.cppNamespaceName;
    "\nvoid " + ns + CreateForBusParams + i.name + CreateForBusRest + ns + "> " + ns + CreateForBusFinishHead
    + ns + " *p = new " + ns + WrapProxy + ns + "> (p);\n}"
  }

  /** The body of the interface loop of `generate`, on the proxy definition file. */
  function ProxyDefinition(w: seq<string>, i: Interface): seq<string>
  {
    var w := MethodCalls(w, i.cppNamespaceName, i.methods);
    var w := PropertyHandlers(w, i, i.properties);
    Line(w, ProxyFactory(i))
  }

  /** The proxy definition file as `generate` writes it. */
  function ProxyDefinitionFile(w: seq<string>, version: string, proxyHName: string, ifaces: seq<Interface>): seq<string>
  {
    Each(ProxyIntro(w, version, proxyHName), ifaces, ProxyDefinition)
  }

  // ---------------------------------------------------------------- stub: introspection

  const XmlArrayName: string := "const char interfaceXml"

  function XmlArrayHead(index: nat): string
  {
    XmlArrayName + Decimal(index) + "[] = { "
  }

  function XmlByte(b: Byte): string
  {
    "0x" + HexByte(b) + ", "
  }

  /** `for char in node_xml`, each byte written without a newline. */
  function XmlBytes(w: seq<string>, xml: seq<Byte>): seq<string>
  {
    if |xml| == 0 then w else Put(XmlBytes(w, xml[..|xml| - 1]), XmlByte(xml[|xml| - 1]))
  }

  /** One introspection document as a null-terminated C array named by its index. */
  function EmbeddedXml(w: seq<string>, index: nat, xml: seq<Byte>): seq<string>
  {
    var w := Put(w, XmlArrayHead(index));
    var w := XmlBytes(w, xml);
    var w := Line(w, "0x00"); // Null terminator
    Line(w, "};")
  }

  /** `generate_stub_introspection`. */
  function StubIntrospection(w: seq<string>, nodeXmls: seq<seq<Byte>>): seq<string>
  {
    if |nodeXmls| == 0 then w
    else EmbeddedXml(StubIntrospection(w, nodeXmls[..|nodeXmls| - 1]), |nodeXmls| - 1, nodeXmls[|nodeXmls| - 1])
  }

  /** `generate_stub_intro`. */
  function StubIntro(w: seq<string>, stubHName: string): seq<string>
  {
    Line(w, IncludeLine(stubHName))
  }

  // ---------------------------------------------------------------- stub: declarations

  const StubIncludeHead: string := "#include <string>\n" + "#include <glibmm.h>\n" + "#include <giomm.h>\n" + "#include \""

  function StubIncludes(commonHName: string): string
  {
    "\n" + (StubIncludeHead + commonHName + "\"\n")
  }

  function StubInParam(a: Arg): string
  {
    "    " + a.cpptypeIn + " " + a.name + ","
  }

  const InvocationDecl: string := "    const " + "Glib::RefPtr<Gio::DBus::" + "MethodInvocation>& " + "invocation) = 0;"

  /** The pure virtual a server implements for one method. */
  function StubMethodDecl(w: seq<string>, m: Method): seq<string>
  {
    // Async call method
    var w := Line(w, "virtual void " + m.name + " (");
    var w := Lines(w, m.inArgs, StubInParam);
    Line(w, InvocationDecl)
  }

  function StubGetterDecl(p: Property): string
  {
    "    virtual " + p.cpptypeOut + " " + p.name + "_get() = 0;"
  }

  const VirtualVoid: string := "    virtual void "

  function StubSetterDecl(p: Property): string
  {
    VirtualVoid + p.name + "_set(" + p.cpptypeIn + " value) = 0;"
  }

  /** The pure virtual accessors of one property, gated like the proxy's. */
  function StubPropertyDecl(w: seq<string>, p: Property): seq<string>
  {
    var w := if p.readable then Line(w, StubGetterDecl(p)) else w;
    if p.writable then Line(w, StubSetterDecl(p)) else w
  }

  const ConnectDecl: string := "void connect " + "(Gio::DBus::BusType, " + "std::string);"

  /** The callback declarations and the private members of the stub class. */
  const StubClassTail: string :=
    "\n"
    + ("void on_bus_acquired(const " + "Glib::RefPtr<Gio::DBus::" + "Connection>& connection,\n"
    + "                     const " + "Glib::ustring& /* name */);\n" + "\n"
    + "void on_name_acquired(const " + "Glib::RefPtr<Gio::DBus::" + "Connection>& /* connection " + "*/,\n"
    + "                      const " + "Glib::ustring& /* name */);\n" + "\n"
    + "void on_name_lost(const " + "Glib::RefPtr<Gio::DBus::" + "Connection>& connection,\n"
    + "                  const " + "Glib::ustring& /* name */);\n" + "\n"
    + "void on_method_call(const " + "Glib::RefPtr<Gio::DBus::" + "Connection>& /* connection " + "*/,\n"
    + "                   const " + "Glib::ustring& /* sender */,\n"
    + "                   const " + "Glib::ustring& /* " + "object_path */,\n"
    + "                   const " + "Glib::ustring& /* " + "interface_name */,\n"
    + "                   const " + "Glib::ustring& method_name,\n"
    + "                   const " + "Glib::VariantContainerBase& " + "parameters,\n"
    + "                   const " + "Glib::RefPtr<Gio::DBus::" + "MethodInvocation>& " + "invocation);\n" + "\n"
    + "void on_interface_get_property" + "(Glib::VariantBase& property,\n"
    + "                             " + "          const " + "Glib::RefPtr<Gio::DBus::" + "Connection>& connection,\n"
    + "                             " + "          const " + "Glib::ustring& sender,\n"
    + "                             " + "          const " + "Glib::ustring& object_path,\n"
    + "                             " + "          const " + "Glib::ustring& " + "interface_name,\n"
    + "                             " + "          const " + "Glib::ustring& " + "property_name);\n" + "\n"
    + "bool on_interface_set_property" + "(\n"
    + "       const " + "Glib::RefPtr<Gio::DBus::" + "Connection>& connection,\n"
    + "       const Glib::ustring& " + "sender,\n"
    + "       const Glib::ustring& " + "object_path,\n"
    + "       const Glib::ustring& " + "interface_name,\n"
    + "       const Glib::ustring& " + "property_name,\n"
    + "       const " + "Glib::VariantBase& value);\n"
    + "private:\n" + "guint connectionId, " + "registeredId;\n" + "Glib::RefPtr<Gio::DBus::" + "NodeInfo> introspection_data;\n" + "};")

  /** The abstract stub class of one interface inside its namespaces. */
  function StubClassDecl(w: seq<string>, i: Interface): seq<string>
  {
    var w := NamespaceOpens(w, i.cppNamespaceName);
    var w := Line(w, "class " + i.cppClassName + " {");
    var w := Line(w, "public:");
    var w := Line(w, i.cppClassName + " ();");
    var w := Line(w, ConnectDecl);
    var w := Line(w, "protected:");
    var w := Each(w, i.methods, StubMethodDecl);
    var w := Each(w, i.properties, StubPropertyDecl);
    var w := Line(w, StubClassTail);
    var w := NamespaceCloses(w, i.cppNamespaceName);
    Line(w, "")
  }

  /** `declare_types_stub`: the includes, then one class per interface. */
  function StubHeader(w: seq<string>, commonHName: string, ifaces: seq<Interface>): seq<string>
  {
    Each(Line(w, StubIncludes(commonHName)), ifaces, StubClassDecl)
  }

  /** The stub header file as `generate` writes it. */
  function StubHeaderFile(w: seq<string>, nodeXmls: seq<seq<Byte>>, commonHName: string, ifaces: seq<Interface>): seq<string>
  {
    StubHeader(StubIntrospection(w, nodeXmls), commonHName, ifaces)
  }

  // ---------------------------------------------------------------- stub: definitions

  /** The object path an interface is registered at: "/" and its name with
      every '.' replaced by '/'. */
  function ObjectPath(name: string): string
  {
    "/" + ReplaceChar(name, '.', '/')
  }

  const StubConstructor: string := " () : connectionId(0), " + "registeredId(0) {\n" + "\n}\nvoid "
  const ConnectBody: string :=
    "::connect (\n" + "    Gio::DBus::BusType " + "busType,\n" + "    std::string name)\n" + "{\n    try {\n"
    + "            " + "introspection_data = " + "Gio::DBus::NodeInfo::" + "create_for_xml(" + "interfaceXml0);\n"
    + "    } catch(const " + "Glib::Error& ex) {\n"
    + "            " + "g_warning(\"Unable to create " + "introspection data: \");\n"
    + "            " + "g_warning(std::string(" + "ex.what()).c_str());\n" + "            g_warning(\"\\n\");\n" + "    }\n"
    + "    connectionId = " + "Gio::DBus::own_name(Gio::" + "DBus::BUS_TYPE_SESSION,\n"
    + "                             " + "          name,\n"
    + "                             " + "          " + "sigc::mem_fun(this, &"
  const BusAcquiredSlot: string := "::on_bus_acquired),\n" + "                             " + "          " + "sigc::mem_fun(this, &"
  const NameAcquiredSlot: string := "::on_name_acquired),\n" + "                             " + "          " + "sigc::mem_fun(this, &"
  const NameLostSlot: string := "::on_name_lost));\n}\nvoid "
  const MethodCallParams: string :=
    "::on_method_call(const " + "Glib::RefPtr<Gio::DBus::" + "Connection>& /* connection " + "*/,\n"
    + "                   const " + "Glib::ustring& /* sender */,\n"
    + "                   const " + "Glib::ustring& /* " + "object_path */,\n"
    + "                   const " + "Glib::ustring& /* " + "interface_name */,\n"
    + "                   const " + "Glib::ustring& method_name,\n"
    + "                   const " + "Glib::VariantContainerBase& " + "parameters,\n"
    + "                   const " + "Glib::RefPtr<Gio::DBus::" + "MethodInvocation>& " + "invocation) {"

  /** The constructor, `connect` and the head of `on_method_call`. As in the
      source, `connect` always loads `interfaceXml0` and owns the name on the
      session bus, whatever the interface and the `busType` argument. */
  function StubPrologue(ns: string, cls: string): string
  {
    "\n" + ns + "::" + cls + StubConstructor + ns + ConnectBody
    + cls + BusAcquiredSlot + cls + NameAcquiredSlot + cls + NameLostSlot + ns + MethodCallParams
  }

  const UnboxVariant: string := "        Glib::Variant<"
  const GetChild: string := "        parameters.get_child(" + "base_"

  /** In-argument number `ai` is read from child `ai` of the call parameters. */
  function GetChildLine(a: Arg, ai: nat): string
  {
    GetChild + a.name + ", " + Decimal(ai) + ");"
  }

  function UnboxIn(w: seq<string>, a: Arg, ai: nat): seq<string>
  {
    var w := Line(w, UnboxVariant + a.cpptypeGet + " > base_" + a.name + ";");
    var w := Line(w, GetChildLine(a, ai));
    var w := Line(w, "        " + a.cpptypeGet + " p_" + a.name + ";");
    var w := Line(w, "        p_" + a.name + " = base_" + a.name + ".get();");
    Line(w, "")
  }

  /** `for ai in range(len(args))`. */
  function UnboxInArgs(w: seq<string>, args: seq<Arg>): seq<string>
  {
    if |args| == 0 then w else UnboxIn(UnboxInArgs(w, args[..|args| - 1]), args[|args| - 1], |args| - 1)
  }

  function CastInArg(a: Arg): string
  {
    "    " + a.cpptypeGetCast + "(p_" + a.name + "),"
  }

  const MethodCompare: string := "    if (method_name.compare(\""
  const InvocationArg: string := "            invocation);"

  /** The dispatch branch of one method in `on_method_call`: it unboxes the
      in-arguments and calls the server's method with them. */
  function MethodDispatch(w: seq<string>, m: Method): seq<string>
  {
    var w := Line(w, MethodCompare + m.name + "\") == 0) {");
    var w := UnboxInArgs(w, m.inArgs);
    var w := Line(w, "        " + m.name + "(");
    var w := Lines(w, m.inArgs, CastInArg);
    var w := Line(w, InvocationArg);
    Line(w, "    }")
  }

  const GetPropertyParams: string :=
    "::on_interface_get_property(" + "Glib::VariantBase& property,\n"
    + "                             " + "          const " + "Glib::RefPtr<Gio::DBus::" + "Connection>& connection,\n"
    + "                             " + "          const " + "Glib::ustring& sender,\n"
    + "                             " + "          const " + "Glib::ustring& object_path,\n"
    + "                             " + "          const " + "Glib::ustring& " + "interface_name,\n"
    + "                             " + "          const " + "Glib::ustring& " + "property_name) {\n"

  function GetPropertyHead(ns: string): string
  {
    "\nvoid " + ns + GetPropertyParams
  }

  const PropertyCompare: string := "\nif (property_name.compare(\""
  const GetVariant: string := "\") == 0) {\n" + "    property = Glib::Variant<"
  const GetterCall: string := "_get()));\n}\n"

  /** The get-dispatch branch of a readable property. */
  function GetBranch(p: Property): string
  {
    PropertyCompare + p.name + GetVariant + p.cpptypeGet + " >::create(" + p.cpptypeToDbus + "(" + p.name + GetterCall
  }

  /** The body of the property loop of `on_interface_get_property`. */
  function GetBranchOf(w: seq<string>, p: Property): seq<string>
  {
    if p.readable then Line(w, GetBranch(p)) else w
  }

  const SetPropertyParams: string :=
    "::on_interface_set_property(\n"
    + "       const " + "Glib::RefPtr<Gio::DBus::" + "Connection>& connection,\n"
    + "       const Glib::ustring& " + "sender,\n"
    + "       const Glib::ustring& " + "object_path,\n"
    + "       const Glib::ustring& " + "interface_name,\n"
    + "       const Glib::ustring& " + "property_name,\n"
    + "       const " + "Glib::VariantBase& value) {\n"
    + "    std::map<Glib::ustring, " + "Glib::VariantBase> " + "changedProps;\n"
    + "    std::vector<Glib::" + "ustring> changedPropsNoValue;\n" + "\n"

  /** Closes `on_interface_get_property` and opens `on_interface_set_property`
      with its empty `changedProps` map and `changedPropsNoValue` vector. */
  function SetPropertyHead(ns: string): string
  {
    "\n}\n\nbool " + ns + SetPropertyParams
  }

  const SetVariant: string := "\") == 0) {\n    Glib::Variant<"
  const CastDynamic: string := " > castValue = " + "Glib::VariantBase::" + "cast_dynamic<Glib::Variant<"
  const CastValue: string := " > >(value);\n    "
  const DeclareVal: string := " val;\n    val = "
  const UnboxCast: string := "(castValue.get());\n    "
  const CallSetter: string := "_set(val);\n    changedProps[\""
  const RecordChanged: string := "\"] = castValue;\n}\n"

  /** The set-dispatch branch of a writable property: unbox the value, call the
      setter `<name>_set(val)`, then record `changedProps["<name>"]`. */
  function SetBranch(p: Property): string
  {
    PropertyCompare + p.name + SetVariant + p.cpptypeGet + CastDynamic
    + p.cpptypeGet + CastValue + p.cpptypeOut + DeclareVal + p.cpptypeGetCast
    + UnboxCast + p.name + CallSetter + p.name + RecordChanged
  }

  /** The body of the property loop of `on_interface_set_property`. */
  function SetBranchOf(w: seq<string>, p: Property): seq<string>
  {
    if p.writable then Line(w, SetBranch(p)) else w
  }

  /** The unconditional end of `on_interface_set_property`: the tuple
      (interface_name, changedProps, changedPropsNoValue) is sent as the
      `PropertiesChanged` signal of `org.freedesktop.DBus.Properties`, and the
      handler returns true. */
  const SetPropertyTail: string :=
    "\n    Glib::Variant<std::map<" + "Glib::ustring,  " + "Glib::VariantBase> > " + "changedPropsVar = "
    + "Glib::Variant<std::map " + "<Glib::ustring, " + "Glib::VariantBase> >::create " + "(changedProps);\n"
    + "    Glib::Variant<std::" + "vector<Glib::ustring> > " + "changedPropsNoValueVar = "
    + "Glib::Variant<std::vector<" + "Glib::ustring> " + ">::create(" + "changedPropsNoValue);\n"
    + "    std::vector<Glib::" + "VariantBase> ps;\n"
    + "    ps.push_back(Glib::" + "Variant<Glib::ustring>::" + "create(interface_name));\n"
    + "    ps.push_back(" + "changedPropsVar);\n"
    + "    ps.push_back(" + "changedPropsNoValueVar);\n"
    + "    Glib::" + "VariantContainerBase " + "propertiesChangedVariant = "
    + "Glib::Variant<std::vector<" + "Glib::VariantBase> " + ">::create_tuple(ps); \n" + "\n"
    + "    connection->emit_signal(\n" + "        object_path,\n" + "        \"org.freedesktop.DBus." + "Properties\",\n"
    + "        \"PropertiesChanged\",\n" + "        Glib::ustring(),\n" + "        propertiesChangedVaria" + "nt);\n"
    + "    return true;\n}\n"

  /** The set-property handler: its head, one branch per writable property, and its tail. */
  function SetDispatch(w: seq<string>, ns: string, ps: seq<Property>): seq<string>
  {
    var w := Line(w, SetPropertyHead(ns));
    var w := Each(w, ps, SetBranchOf);
    Line(w, SetPropertyTail)
  }

  const BusAcquiredParams: string :=
    "::on_bus_acquired(const " + "Glib::RefPtr<Gio::DBus::" + "Connection>& connection,\n"
    + "                         " + "const Glib::ustring& /* name " + "*/) {\n"
    + "    g_print(\"Bus name " + "acquired!\\n\");\n" + "    Gio::DBus::" + "InterfaceVTable " + "*interface_vtable =\n"
    + "          new " + "Gio::DBus::InterfaceVTable(\n" + "                " + "sigc::mem_fun(this, &"
  const MethodCallSlot: string := "::on_method_call),\n" + "                " + "sigc::mem_fun(this, &"
  const GetPropertySlot: string := "::on_interface_get_property),\n" + "                " + "sigc::mem_fun(this, &"
  const SetPropertySlotEnd: string :=
    "::on_interface_set_property));" + "\n    try {\n" + "        registeredId = "
  const RegisterCall: string := "connection->register_object(\""
  const PathEnd: string := "\",\n        "
  const LookupCall: string := "introspection_data->" + "lookup_interface(\""
  const RegisterFailed: string :=
    "\"),\n" + "        *interface_vtable);\n" + "    }\n" + "    catch(const Glib::Error& " + "ex) {\n"
    + "        g_warning(" + "\"Registration of object " + "failed\");\n" + "    }\n" + "\n    return;\n" + "}\nvoid "
  const NameAcquiredParams: string :=
    "::on_name_acquired(const " + "Glib::RefPtr<Gio::DBus::" + "Connection>& /* connection " + "*/,\n"
    + "                      const " + "Glib::ustring& /* name */) {}\n" + "\nvoid "
  const NameLostParams: string :=
    "::on_name_lost(const " + "Glib::RefPtr<Gio::DBus::" + "Connection>& connection,\n"
    + "                  const " + "Glib::ustring& /* name */) {}\n"

  /** `on_bus_acquired` registers the object at `objectPath` with the
      interface `ifaceName` and the method/property vtable; the name callbacks
      are empty. */
  function BusCallbacks(ns: string, cls: string, objectPath: string, ifaceName: string): string
  {
    "\nvoid " + ns + BusAcquiredParams
    + cls + MethodCallSlot + cls + GetPropertySlot + cls + SetPropertySlotEnd
    + RegisterCall + objectPath + PathEnd + LookupCall + ifaceName + RegisterFailed
    + ns + NameAcquiredParams + ns + NameLostParams
  }

  /** The body of the interface loop of `define_types_stub`. */
  function StubDefinition(w: seq<string>, i: Interface): seq<string>
  {
    var ns := i.cppNamespaceName;
    var w := Line(w, StubPrologue(ns, i.cppClassName));
    var w := Each(w, i.methods, MethodDispatch);
    var w := Line(w, "    }");
    var w := Line(w, GetPropertyHead(ns));
    var w := Each(w, i.properties, GetBranchOf);
    var w := SetDispatch(w, ns, i.properties);
    Line(w, BusCallbacks(ns, i.cppClassName, ObjectPath(i.name), i.name))
  }

  /** The stub definition file as `generate` writes it. */
  function StubDefinitionFile(w: seq<string>, stubHName: string, ifaces: seq<Interface>): seq<string>
  {
    Each(StubIntro(w, stubHName), ifaces, StubDefinition)
  }

  // ---------------------------------------------------------------- common

  /** `create_common`: the `Common` helper class (list unwrapping and string
      vector conversions). */
  const CommonClass: string :=
    "\n"
    + ("class Common {\n" + "    public:\n" + "        template<typename T>\n"
    + "        static void " + "unwrapList(std::vector<T> " + "&list, const " + "Glib::VariantContainerBase " + "&wrapped) {\n"
    + "            for (int i = 0; " + "i < wrapped.get_n_children " + "(); i++) {\n"
    + "                " + "Glib::Variant<T> item;\n" + "                " + "wrapped.get_child(item, i);\n"
    + "                " + "list.push_back(item.get());\n" + "            }\n" + "        }\n" + "\n"
    + "        static " + "std::vector<Glib::ustring> " + "stdStringVecToGlibStringVec(" + "const std::vector<std::" + "string> &strv) {\n"
    + "            " + "std::vector<Glib::ustring> " + "newStrv;\n" + "            for (int i = 0; " + "i < strv.size(); i++) {\n"
    + "                " + "newStrv.push_back(strv[i]);\n" + "            }\n" + "\n            return newStrv;\n" + "        }\n" + "\n"
    + "        static " + "std::vector<std::string> " + "glibStringVecToStdStringVec(" + "const std::vector<Glib::" + "ustring> &strv) {\n"
    + "            " + "std::vector<std::string> " + "newStrv;\n" + "            for (int i = 0; " + "i < strv.size(); i++) {\n"
    + "                " + "newStrv.push_back(strv[i]);\n" + "            }\n" + "\n            return newStrv;\n" + "        }\n" + "};")

  /** The common header file. */
  function CommonHeader(w: seq<string>): seq<string>
  {
    Line(w, CommonClass)
  }
}
