/** The class `CodeGenerator`: six output files and the generator steps that
    write to them. Each step is proved to leave in the one file it uses
    exactly the writes the matching function of `Emission` gives. */
module CodeGen {
  import opened Text
  import opened Ir
  import opened Emission

  // ---------------------------------------------------------------- output files

  /** An open output file: its name and the strings handed to its `write`. */
  class Sink {
    const name: string
    var writes: seq<string>

    constructor (name: string)
      ensures this.name == name && writes == []
    {
      this.name := name;
      writes := [];
    }

    /** `write(text)`. */
    method Write(text: string)
      modifies this
      ensures writes == Put(old(writes), text)
    {
      writes := writes + [text];
    }
  }

  // ---------------------------------------------------------------- the generator

  class CodeGenerator {
    const ifaces: seq<Interface>
    const nodeXmls: seq<seq<Byte>>
    /** `config.VERSION`. */
    const version: string

    const proxyH: Sink
    const proxyCpp: Sink
    const stubH: Sink
    const stubCpp: Sink
    const commonH: Sink
    const commonCpp: Sink

    /** The six files are six different objects. */
    ghost predicate Distinct()
    {
      && proxyH != proxyCpp && proxyH != stubH && proxyH != stubCpp && proxyH != commonH && proxyH != commonCpp
      && proxyCpp != stubH && proxyCpp != stubCpp && proxyCpp != commonH && proxyCpp != commonCpp
      && stubH != stubCpp && stubH != commonH && stubH != commonCpp
      && stubCpp != commonH && stubCpp != commonCpp
      && commonH != commonCpp
    }

    /** The generator over freshly opened, empty files with the given names. */
    constructor (ifaces: seq<Interface>, nodeXmls: seq<seq<Byte>>, version: string,
                 proxyHName: string, proxyCppName: string, stubCppName: string,
                 stubHName: string, commonCppName: string, commonHName: string)
      ensures this.ifaces == ifaces && this.nodeXmls == nodeXmls && this.version == version
      ensures proxyH.name == proxyHName && proxyCpp.name == proxyCppName && stubH.name == stubHName
      ensures stubCpp.name == stubCppName && commonH.name == commonHName && commonCpp.name == commonCppName
      ensures proxyH.writes == [] && proxyCpp.writes == [] && stubH.writes == []
      ensures stubCpp.writes == [] && commonH.writes == [] && commonCpp.writes == []
      ensures fresh(proxyH) && fresh(proxyCpp) && fresh(stubH) && fresh(stubCpp) && fresh(commonH) && fresh(commonCpp)
      ensures Distinct()
    {
      this.ifaces := ifaces;
      this.nodeXmls := nodeXmls;
      this.version := version;
      proxyH := new Sink(proxyHName);
      proxyCpp := new Sink(proxyCppName);
      stubCpp := new Sink(stubCppName);
      stubH := new Sink(stubHName);
      commonCpp := new Sink(commonCppName);
      commonH := new Sink(commonHName);
    }

    /** `emit`: writes `text` to `dest`, then "\n" when `newline` holds. */
    method Emit(dest: Sink, text: string, newline: bool := true)
      modifies dest
      ensures dest.writes == Emitted(old(dest.writes), text, newline)
    {
      dest.Write(text);
      if newline {
        dest.Write("\n");
      }
    }

    method EmitHP(text: string, newline: bool := true)
      modifies proxyH
      ensures proxyH.writes == Emitted(old(proxyH.writes), text, newline)
    {
      Emit(proxyH, text, newline);
    }

    method EmitCppP(text: string, newline: bool := true)
      modifies proxyCpp
      ensures proxyCpp.writes == Emitted(old(proxyCpp.writes), text, newline)
    {
      Emit(proxyCpp, text, newline);
    }

    method EmitHS(text: string, newline: bool := true)
      modifies stubH
      ensures stubH.writes == Emitted(old(stubH.writes), text, newline)
    {
      Emit(stubH, text, newline);
    }

    method EmitCppS(text: string, newline: bool := true)
      modifies stubCpp
      ensures stubCpp.writes == Emitted(old(stubCpp.writes), text, newline)
    {
      Emit(stubCpp, text, newline);
    }

    method EmitHCommon(text: string, newline: bool := true)
      modifies commonH
      ensures commonH.writes == Emitted(old(commonH.writes), text, newline)
    {
      Emit(commonH, text, newline);
    }

    method EmitCppCommon(text: string, newline: bool := true)
      modifies commonCpp
      ensures commonCpp.writes == Emitted(old(commonCpp.writes), text, newline)
    {
      Emit(commonCpp, text, newline);
    }

    /** The opening lines of the namespaces around a class, outermost first. */
    method EmitNamespaceOpens(dest: Sink, cppNamespaceName: string)
      modifies dest
      ensures dest.writes == NamespaceOpens(old(dest.writes), cppNamespaceName)
    {
      var outer := OuterNamespaces(cppNamespaceName);
      ghost var s := dest.writes;
      for j := 0 to |outer|
        invariant dest.writes == Lines(s, outer[..j], OpenLine)
      {
        Emit(dest, OpenLine(outer[j]));
        LinesStep(s, outer, j, OpenLine);
      }
      assert outer[..|outer|] == outer;
    }

    /** The closing lines of the namespaces around a class, innermost first. */
    method EmitNamespaceCloses(dest: Sink, cppNamespaceName: string)
      modifies dest
      ensures dest.writes == NamespaceCloses(old(dest.writes), cppNamespaceName)
    {
      var inner := Reverse(OuterNamespaces(cppNamespaceName));
      ghost var s := dest.writes;
      for j := 0 to |inner|
        invariant dest.writes == Lines(s, inner[..j], CloseLine)
      {
        Emit(dest, CloseLine(inner[j]));
        LinesStep(s, inner, j, CloseLine);
      }
      assert inner[..|inner|] == inner;
    }

    /** `generate_intro`: the banner and the include of the proxy header. */
    method GenerateIntro()
      modifies proxyCpp
      ensures proxyCpp.writes == ProxyIntro(old(proxyCpp.writes), version, proxyH.name)
    {
      EmitCppP(Banner(version));
      EmitCppP(IncludeLine(proxyH.name));
    }

    /** `declare_types`: the proxy header. */
    method DeclareTypes()
      modifies proxyH
      ensures proxyH.writes == ProxyHeader(old(proxyH.writes), commonH.name, ifaces)
    {
      EmitHP(IncludeString);
      EmitHP(IncludeGlibmm);
      EmitHP(IncludeGiomm);
      EmitHP(IncludeLine(commonH.name));
      EmitHP("");
      ghost var s := proxyH.writes;
      for k := 0 to |ifaces|
        invariant proxyH.writes == Each(s, ifaces[..k], ProxyClassDecl)
      {
        DeclareProxyClass(ifaces[k]);
        EachStep(s, ifaces, k, ProxyClassDecl);
      }
      assert ifaces[..|ifaces|] == ifaces;
    }

    /** The body of the interface loop of `declare_types`. */
    method DeclareProxyClass(i: Interface)
      modifies proxyH
      ensures proxyH.writes == ProxyClassDecl(old(proxyH.writes), i)
    {
      EmitNamespaceOpens(proxyH, i.cppNamespaceName);
      EmitHP(ProxyClassHead(i.cppClassName));
      ghost var s1 := proxyH.writes;
      for j := 0 to |i.methods|
        invariant proxyH.writes == Each(s1, i.methods[..j], ProxyMethodDecl)
      {
        DeclareProxyMethod(i.methods[j]);
        EachStep(s1, i.methods, j, ProxyMethodDecl);
      }
      assert i.methods[..|i.methods|] == i.methods;
      ghost var s2 := proxyH.writes;
      for j := 0 to |i.properties|
        invariant proxyH.writes == Each(s2, i.properties[..j], ProxyPropertyDecl)
      {
        var p := i.properties[j];
        if p.readable {
          EmitHP(ProxyGetterDecl(p));
        }
        if p.writable {
          EmitHP(ProxySetterDecl(p));
          EmitHP(ProxySetFinishDecl(p));
        }
        EachStep(s2, i.properties, j, ProxyPropertyDecl);
      }
      assert i.properties[..|i.properties|] == i.properties;
      EmitHP("");
      EmitHP(ProxyClassTail(i.cppClassName));
      EmitNamespaceCloses(proxyH, i.cppNamespaceName);
    }

    /** The body of the method loop of `declare_types`. */
    method DeclareProxyMethod(m: Method)
      modifies proxyH
      ensures proxyH.writes == ProxyMethodDecl(old(proxyH.writes), m)
    {
      // the asynchronous call
      EmitHP("    void " + m.name + " (");
      ghost var s1 := proxyH.writes;
      for q := 0 to |m.inArgs|
        invariant proxyH.writes == Lines(s1, m.inArgs[..q], ProxyInParam)
      {
        EmitHP(ProxyInParam(m.inArgs[q]));
        LinesStep(s1, m.inArgs, q, ProxyInParam);
      }
      assert m.inArgs[..|m.inArgs|] == m.inArgs;
      EmitHP(SlotParamDecl);
      EmitHP("");

      // and the call that collects its result
      EmitHP("    void " + m.name + "_finish (");
      ghost var s2 := proxyH.writes;
      for q := 0 to |m.outArgs|
        invariant proxyH.writes == Lines(s2, m.outArgs[..q], ProxyOutParam)
      {
        EmitHP(ProxyOutParam(m.outArgs[q]));
        LinesStep(s2, m.outArgs, q, ProxyOutParam);
      }
      assert m.outArgs[..|m.outArgs|] == m.outArgs;
      EmitHP(ResParamDecl);
    }

    /** `generate_method_calls`: the begin/finish definitions of every method of `i`. */
    method GenerateMethodCalls(i: Interface)
      modifies proxyCpp
      ensures proxyCpp.writes == MethodCalls(old(proxyCpp.writes), i.cppNamespaceName, i.methods)
    {
      ghost var o := proxyCpp.writes;
      for k := 0 to |i.methods|
        invariant proxyCpp.writes == MethodCalls(o, i.cppNamespaceName, i.methods[..k])
      {
        var m := i.methods[k];
        GenerateBegin(i.cppNamespaceName, m);
        GenerateFinish(i.cppNamespaceName, m);
        MethodCallsStep(o, i.cppNamespaceName, i.methods, k);
      }
      assert i.methods[..|i.methods|] == i.methods;
    }

    /** The async begin part of the method loop of `generate_method_calls`. */
    method GenerateBegin(ns: string, m: Method)
      modifies proxyCpp
      ensures proxyCpp.writes == ProxyBegin(old(proxyCpp.writes), ns, m)
    {
      EmitCppP("void " + ns + "::" + m.camelName + " (");
      ghost var s1 := proxyCpp.writes;
      for q := 0 to |m.inArgs|
        invariant proxyCpp.writes == Lines(s1, m.inArgs[..q], BeginParam)
      {
        EmitCppP(BeginParam(m.inArgs[q]));
        LinesStep(s1, m.inArgs, q, BeginParam);
      }
      assert m.inArgs[..|m.inArgs|] == m.inArgs;
      EmitCppP(CallbackParam);
      EmitCppP(BaseDecl);
      PackInArguments(m.inArgs);
      EmitCppP(ProxyCall);
      EmitCppP("    \"" + m.name + "\",");
      EmitCppP("    callback,");
      EmitCppP("    base);");
      EmitCppP("}");
    }

    /** The packing of the in-arguments into `base`, chosen by their number. */
    method PackInArguments(args: seq<Arg>)
      modifies proxyCpp
      ensures proxyCpp.writes == PackInArgs(old(proxyCpp.writes), args)
    {
      if |args| > 1 {
        EmitCppP(ParamsVector);
        ghost var s := proxyCpp.writes;
        for q := 0 to |args|
          invariant proxyCpp.writes == Each(s, args[..q], PackOne)
        {
          var a := args[q];
          EmitCppP(SendParam(a));
          EmitCppP(PushParam(a));
          EachStep(s, args, q, PackOne);
        }
        assert args[..|args|] == args;
      } else if |args| == 1 {
        ghost var s := proxyCpp.writes;
        for q := 0 to |args|
          invariant proxyCpp.writes == Lines(s, args[..q], SendAsParams)
        {
          EmitCppP(SendAsParams(args[q]));
          LinesStep(s, args, q, SendAsParams);
        }
        assert args[..|args|] == args;
      }
      if |args| > 0 {
        EmitCppP(CreateTuple);
      }
    }

    /** The finish part of the method loop of `generate_method_calls`; out-argument
        `x` is unpacked from child `x` of the reply. */
    method GenerateFinish(ns: string, m: Method)
      modifies proxyCpp
      ensures proxyCpp.writes == ProxyFinish(old(proxyCpp.writes), ns, m)
    {
      EmitCppP("void " + ns + "::" + m.camelName + "_finish (");
      ghost var s1 := proxyCpp.writes;
      for q := 0 to |m.outArgs|
        invariant proxyCpp.writes == Lines(s1, m.outArgs[..q], FinishParam)
      {
        EmitCppP(FinishParam(m.outArgs[q]));
        LinesStep(s1, m.outArgs, q, FinishParam);
      }
      assert m.outArgs[..|m.outArgs|] == m.outArgs;
      EmitCppP(FinishPrologue);
      ghost var s2 := proxyCpp.writes;
      for x := 0 to |m.outArgs|
        invariant proxyCpp.writes == UnpackOutArgs(s2, m.outArgs[..x])
      {
        var a := m.outArgs[x];
        EmitCppP(UnpackLine(a, x));
        EmitCppP("");
        assert m.outArgs[..x + 1][..x] == m.outArgs[..x];
      }
      assert m.outArgs[..|m.outArgs|] == m.outArgs;
      EmitCppP("}");
      EmitCppP("");
    }

    /** `generate_property_handlers`: the getter of each readable property and
        the setter pair of each writable one. */
    method GeneratePropertyHandlers(i: Interface)
      modifies proxyCpp
      ensures proxyCpp.writes == PropertyHandlers(old(proxyCpp.writes), i, i.properties)
    {
      ghost var o := proxyCpp.writes;
      for k := 0 to |i.properties|
        invariant proxyCpp.writes == PropertyHandlers(o, i, i.properties[..k])
      {
        var p := i.properties[k];
        if p.readable {
          EmitCppP(ProxyGetterDef(i.cppNamespaceName, p));
        }
        if p.writable {
          EmitCppP(ProxySetterDef(i, p));
        }
        assert i.properties[..k + 1][..k] == i.properties[..k];
      }
      assert i.properties[..|i.properties|] == i.properties;
    }

    /** `generate_proxy`: the factory of the proxy class of `i`. */
    method GenerateProxy(i: Interface)
      modifies proxyCpp
      ensures proxyCpp.writes == Line(old(proxyCpp.writes), ProxyFactory(i))
    {
      EmitCppP(ProxyFactory(i));
    }

    /** `generate_stub_introspection`: every introspection document as a C array. */
    method GenerateStubIntrospection()
      modifies stubH
      ensures stubH.writes == StubIntrospection(old(stubH.writes), nodeXmls)
    {
      ghost var o := stubH.writes;
      for i := 0 to |nodeXmls|
        invariant stubH.writes == StubIntrospection(o, nodeXmls[..i])
      {
        var nodeXml := nodeXmls[i];
        ghost var t := stubH.writes;
        EmitHS(XmlArrayHead(i), false);
        ghost var u := stubH.writes;
        for c := 0 to |nodeXml|
          invariant stubH.writes == XmlBytes(u, nodeXml[..c])
        {
          EmitHS(XmlByte(nodeXml[c]), false);
          assert nodeXml[..c + 1][..c] == nodeXml[..c];
        }
        assert nodeXml[..|nodeXml|] == nodeXml;
        EmitHS("0x00");
        EmitHS("};");
        assert nodeXmls[..i + 1][..i] == nodeXmls[..i];
      }
      assert nodeXmls[..|nodeXmls|] == nodeXmls;
    }

    /** `generate_stub_intro`: the include of the stub header. */
    method GenerateStubIntro()
      modifies stubCpp
      ensures stubCpp.writes == StubIntro(old(stubCpp.writes), stubH.name)
    {
      EmitCppS(IncludeLine(stubH.name));
    }

    /** `declare_types_stub`: the abstract stub classes. */
    method DeclareTypesStub()
      modifies stubH
      ensures stubH.writes == StubHeader(old(stubH.writes), commonH.name, ifaces)
    {
      EmitHS(StubIncludes(commonH.name));
      ghost var s := stubH.writes;
      for k := 0 to |ifaces|
        invariant stubH.writes == Each(s, ifaces[..k], StubClassDecl)
      {
        DeclareStubClass(ifaces[k]);
        EachStep(s, ifaces, k, StubClassDecl);
      }
      assert ifaces[..|ifaces|] == ifaces;
    }

    /** The body of the interface loop of `declare_types_stub`. */
    method DeclareStubClass(i: Interface)
      modifies stubH
      ensures stubH.writes == StubClassDecl(old(stubH.writes), i)
    {
      EmitNamespaceOpens(stubH, i.cppNamespaceName);
      EmitHS("class " + i.cppClassName + " {");
      EmitHS("public:");
      EmitHS(i.cppClassName + " ();");
      EmitHS(ConnectDecl);
      EmitHS("protected:");
      ghost var s1 := stubH.writes;
      for j := 0 to |i.methods|
        invariant stubH.writes == Each(s1, i.methods[..j], StubMethodDecl)
      {
        DeclareStubMethod(i.methods[j]);
        EachStep(s1, i.methods, j, StubMethodDecl);
      }
      assert i.methods[..|i.methods|] == i.methods;
      ghost var s2 := stubH.writes;
      for j := 0 to |i.properties|
        invariant stubH.writes == Each(s2, i.properties[..j], StubPropertyDecl)
      {
        var p := i.properties[j];
        if p.readable {
          EmitHS(StubGetterDecl(p));
        }
        if p.writable {
          EmitHS(StubSetterDecl(p));
        }
        EachStep(s2, i.properties, j, StubPropertyDecl);
      }
      assert i.properties[..|i.properties|] == i.properties;
      EmitHS(StubClassTail);
      EmitNamespaceCloses(stubH, i.cppNamespaceName);
      EmitHS("");
    }

    /** The body of the method loop of `declare_types_stub`. */
    method DeclareStubMethod(m: Method)
      modifies stubH
      ensures stubH.writes == StubMethodDecl(old(stubH.writes), m)
    {
      EmitHS("virtual void " + m.name + " (");
      ghost var s1 := stubH.writes;
      for q := 0 to |m.inArgs|
        invariant stubH.writes == Lines(s1, m.inArgs[..q], StubInParam)
      {
        EmitHS(StubInParam(m.inArgs[q]));
        LinesStep(s1, m.inArgs, q, StubInParam);
      }
      assert m.inArgs[..|m.inArgs|] == m.inArgs;
      EmitHS(InvocationDecl);
    }

    /** `define_types_stub`: constructor, `connect`, the three dispatchers and
        the bus callbacks of every interface. */
    method DefineTypesStub()
      modifies stubCpp
      ensures stubCpp.writes == Each(old(stubCpp.writes), ifaces, StubDefinition)
    {
      ghost var o := stubCpp.writes;
      for k := 0 to |ifaces|
        invariant stubCpp.writes == Each(o, ifaces[..k], StubDefinition)
      {
        DefineStubClass(ifaces[k]);
        EachStep(o, ifaces, k, StubDefinition);
      }
      assert ifaces[..|ifaces|] == ifaces;
    }

    /** The body of the interface loop of `define_types_stub`. */
    method DefineStubClass(i: Interface)
      modifies stubCpp
      ensures stubCpp.writes == StubDefinition(old(stubCpp.writes), i)
    {
      var objectPath := ObjectPath(i.name);
      EmitCppS(StubPrologue(i.cppNamespaceName, i.cppClassName));
      ghost var s1 := stubCpp.writes;
      for j := 0 to |i.methods|
        invariant stubCpp.writes == Each(s1, i.methods[..j], MethodDispatch)
      {
        DefineMethodDispatch(i.methods[j]);
        EachStep(s1, i.methods, j, MethodDispatch);
      }
      assert i.methods[..|i.methods|] == i.methods;
      EmitCppS("    }");
      EmitCppS(GetPropertyHead(i.cppNamespaceName));
      ghost var s2 := stubCpp.writes;
      for j := 0 to |i.properties|
        invariant stubCpp.writes == Each(s2, i.properties[..j], GetBranchOf)
      {
        var p := i.properties[j];
        if p.readable {
          EmitCppS(GetBranch(p));
        }
        EachStep(s2, i.properties, j, GetBranchOf);
      }
      assert i.properties[..|i.properties|] == i.properties;
      EmitCppS(SetPropertyHead(i.cppNamespaceName));
      ghost var s3 := stubCpp.writes;
      for j := 0 to |i.properties|
        invariant stubCpp.writes == Each(s3, i.properties[..j], SetBranchOf)
      {
        var p := i.properties[j];
        if p.writable {
          EmitCppS(SetBranch(p));
        }
        EachStep(s3, i.properties, j, SetBranchOf);
      }
      EmitCppS(SetPropertyTail);
      EmitCppS(BusCallbacks(i.cppNamespaceName, i.cppClassName, objectPath, i.name));
    }

    /** The body of the method loop of `define_types_stub`: in-argument `ai` is
        unboxed from child `ai` of the call parameters. */
    method DefineMethodDispatch(m: Method)
      modifies stubCpp
      ensures stubCpp.writes == MethodDispatch(old(stubCpp.writes), m)
    {
      EmitCppS(MethodCompare + m.name + "\") == 0) {");
      ghost var s1 := stubCpp.writes;
      for ai := 0 to |m.inArgs|
        invariant stubCpp.writes == UnboxInArgs(s1, m.inArgs[..ai])
      {
        var a := m.inArgs[ai];
        EmitCppS(UnboxVariant + a.cpptypeGet + " > base_" + a.name + ";");
        EmitCppS(GetChildLine(a, ai));
        EmitCppS("        " + a.cpptypeGet + " p_" + a.name + ";");
        EmitCppS("        p_" + a.name + " = base_" + a.name + ".get();");
        EmitCppS("");
        assert m.inArgs[..ai + 1][..ai] == m.inArgs[..ai];
      }
      assert m.inArgs[..|m.inArgs|] == m.inArgs;
      EmitCppS("        " + m.name + "(");
      ghost var s2 := stubCpp.writes;
      for q := 0 to |m.inArgs|
        invariant stubCpp.writes == Lines(s2, m.inArgs[..q], CastInArg)
      {
        EmitCppS(CastInArg(m.inArgs[q]));
        LinesStep(s2, m.inArgs, q, CastInArg);
      }
      assert m.inArgs[..|m.inArgs|] == m.inArgs;
      EmitCppS(InvocationArg);
      EmitCppS("    }");
    }

    /** `create_common`: the `Common` helper class, in the common header. */
    method CreateCommon()
      modifies commonH
      ensures commonH.writes == CommonHeader(old(commonH.writes))
    {
      EmitHCommon(CommonClass);
    }

    /** `generate`: the proxy files, then the stub files, then the common
        header. Each file ends up with exactly the text its steps give, and
        the common definition file receives nothing. */
    method Generate()
      requires Distinct()
      modifies proxyH, proxyCpp, stubH, stubCpp, commonH
      ensures proxyCpp.writes == ProxyDefinitionFile(old(proxyCpp.writes), version, proxyH.name, ifaces)
      ensures proxyH.writes == ProxyHeader(old(proxyH.writes), commonH.name, ifaces)
      ensures stubH.writes == StubHeaderFile(old(stubH.writes), nodeXmls, commonH.name, ifaces)
      ensures stubCpp.writes == StubDefinitionFile(old(stubCpp.writes), stubH.name, ifaces)
      ensures commonH.writes == CommonHeader(old(commonH.writes))
      ensures commonCpp.writes == old(commonCpp.writes)
    {
      // client side: the proxy source and header
      GenerateIntro();
      DeclareTypes();
      ghost var s := proxyCpp.writes;
      for k := 0 to |ifaces|
        invariant proxyCpp.writes == Each(s, ifaces[..k], ProxyDefinition)
        invariant proxyH.writes == ProxyHeader(old(proxyH.writes), commonH.name, ifaces)
        invariant stubH.writes == old(stubH.writes) && stubCpp.writes == old(stubCpp.writes)
        invariant commonH.writes == old(commonH.writes)
      {
        var i := ifaces[k];
        GenerateMethodCalls(i);
        GeneratePropertyHandlers(i);
        GenerateProxy(i);
        EachStep(s, ifaces, k, ProxyDefinition);
      }
      assert ifaces[..|ifaces|] == ifaces;

      // server side: the stub header and source
      GenerateStubIntrospection();
      GenerateStubIntro();
      DeclareTypesStub();
      DefineTypesStub();

      // the shared helper class
      CreateCommon();
    }
  }
}
