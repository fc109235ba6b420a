/** Where the argument lines land: the in-argument packing of a proxy begin
    call, chosen by the number of in-arguments, and the positional
    unpacking of proxy out-arguments and stub in-arguments, each by its own
    index. Every statement gives the writes at fixed offsets from the writes
    `w` the step started from. */
module Arguments {
  import opened Wrappers
  import opened Text
  import opened Ir
  import opened Emission

  // ---------------------------------------------------------------- lines in order

  /** A line keeps the writes before it. */
  lemma LineKeeps(w: seq<string>, t: string)
    ensures |Line(w, t)| == |w| + 2
    ensures Line(w, t)[..|w|] == w && Line(w, t)[|w|] == t
  {
  }

  /** Writes extended by a line still start with any prefix of the old
      writes. */
  lemma LineKeepsPrefix(p: seq<string>, w: seq<string>, t: string)
    requires |p| <= |w| && w[..|p|] == p
    ensures Line(w, t)[..|p|] == p
  {
    LineKeeps(w, t);
    assert Line(w, t)[..|p|] == Line(w, t)[..|w|][..|p|];
  }

  /** `Lines` writes each element's line followed by a newline, in order,
      after the writes it started from. */
  lemma {:induction false} LinesLayout<T>(w: seq<string>, xs: seq<T>, f: T -> string)
    ensures |Lines(w, xs, f)| == |w| + 2 * |xs|
    ensures Lines(w, xs, f)[..|w|] == w
    ensures forall k :: 0 <= k < |xs| ==>
      Lines(w, xs, f)[|w| + 2 * k] == f(xs[k]) && Lines(w, xs, f)[|w| + 2 * k + 1] == "\n"
    decreases |xs|
  {
    if |xs| > 0 {
      var xs' := xs[..|xs| - 1];
      LinesLayout(w, xs', f);
      var r' := Lines(w, xs', f);
      var r := Lines(w, xs, f);
      assert r == r' + [f(xs[|xs| - 1]), "\n"];
      forall k | 0 <= k < |xs|
        ensures r[|w| + 2 * k] == f(xs[k]) && r[|w| + 2 * k + 1] == "\n"
      {
        if k < |xs'| {
          assert xs'[k] == xs[k];
        }
      }
    }
  }

  // ---------------------------------------------------------------- packing

  /** Two or more in-arguments: each argument's send and push-back lines,
      in argument order. */
  lemma {:induction false} PackEachLayout(w: seq<string>, args: seq<Arg>)
    ensures |Each(w, args, PackOne)| == |w| + 4 * |args|
    ensures Each(w, args, PackOne)[..|w|] == w
    ensures forall k :: 0 <= k < |args| ==>
      && Each(w, args, PackOne)[|w| + 4 * k] == SendParam(args[k])
      && Each(w, args, PackOne)[|w| + 4 * k + 1] == "\n"
      && Each(w, args, PackOne)[|w| + 4 * k + 2] == PushParam(args[k])
      && Each(w, args, PackOne)[|w| + 4 * k + 3] == "\n"
    decreases |args|
  {
    if |args| > 0 {
      var args' := args[..|args| - 1];
      PackEachLayout(w, args');
      var r' := Each(w, args', PackOne);
      var r := Each(w, args, PackOne);
      var a := args[|args| - 1];
      assert r == r' + [SendParam(a), "\n", PushParam(a), "\n"];
      forall k | 0 <= k < |args|
        ensures r[|w| + 4 * k] == SendParam(args[k]) && r[|w| + 4 * k + 1] == "\n"
        ensures r[|w| + 4 * k + 2] == PushParam(args[k]) && r[|w| + 4 * k + 3] == "\n"
      {
        if k < |args'| {
          assert args'[k] == args[k];
        }
      }
    }
  }

  /** The packing writes nothing without in-arguments. */
  lemma PackNoArgs(w: seq<string>)
    ensures PackInArgs(w, []) == w
  {
  }

  /** A single in-argument is sent straight into `params`, and the tuple is
      created from it. */
  lemma PackOneArg(w: seq<string>, a: Arg)
    ensures PackInArgs(w, [a]) == w + [SendAsParams(a), "\n", CreateTuple, "\n"]
  {
    assert [a][..0] == [];
    assert Lines(w, [a], SendAsParams) == Line(w, SendAsParams(a));
  }

  /** Two or more in-arguments: the `params` vector, then the send and
      push-back lines of every argument in argument order, then the tuple. */
  lemma PackManyArgs(w: seq<string>, args: seq<Arg>)
    requires |args| > 1
    ensures var r := PackInArgs(w, args);
      && |r| == |w| + 4 * |args| + 4
      && r[..|w|] == w
      && r[|w|] == ParamsVector && r[|w| + 1] == "\n"
      && (forall k :: 0 <= k < |args| ==>
            && r[|w| + 2 + 4 * k] == SendParam(args[k])
            && r[|w| + 3 + 4 * k] == "\n"
            && r[|w| + 4 + 4 * k] == PushParam(args[k])
            && r[|w| + 5 + 4 * k] == "\n")
      && r[|r| - 2] == CreateTuple && r[|r| - 1] == "\n"
  {
    var w1 := Line(w, ParamsVector);
    PackEachLayout(w1, args);
    var e := Each(w1, args, PackOne);
    var r := Line(e, CreateTuple);
    assert PackInArgs(w, args) == r;
    LineKeeps(e, CreateTuple);
    LineKeepsPrefix(w, w1, "");
    assert e[..|w|] == e[..|w1|][..|w|];
    assert r[..|w|] == r[..|e|][..|w|];
    assert r[|w|] == e[|w|] == w1[|w|];
    assert r[|w| + 1] == e[|w| + 1] == w1[|w| + 1];
    forall k | 0 <= k < |args|
      ensures r[|w| + 2 + 4 * k] == SendParam(args[k]) && r[|w| + 3 + 4 * k] == "\n"
      ensures r[|w| + 4 + 4 * k] == PushParam(args[k]) && r[|w| + 5 + 4 * k] == "\n"
    {
      assert r[|w| + 2 + 4 * k] == e[|w1| + 4 * k];
      assert r[|w| + 3 + 4 * k] == e[|w1| + 4 * k + 1];
      assert r[|w| + 4 + 4 * k] == e[|w1| + 4 * k + 2];
      assert r[|w| + 5 + 4 * k] == e[|w1| + 4 * k + 3];
    }
  }

  /** `create_tuple` is written iff there is an in-argument, and then as the
      last line of the packing. */
  lemma PackTuple(w: seq<string>, args: seq<Arg>)
    ensures |args| == 0 <==> PackInArgs(w, args) == w
    ensures |args| > 0 ==> |PackInArgs(w, args)| >= |w| + 4 && PackInArgs(w, args)[|PackInArgs(w, args)| - 2] == CreateTuple
  {
    if |args| == 1 {
      PackOneArg(w, args[0]);
      assert args == [args[0]];
    } else if |args| > 1 {
      PackManyArgs(w, args);
    }
  }

  /** In the begin call of a method, the packing follows the head line, one
      parameter line per in-argument, the callback parameter and the `base`
      declaration, and is followed by the `m_proxy->call (` line. */
  lemma ProxyBeginPacking(w: seq<string>, ns: string, m: Method)
    ensures var v := Line(Line(Lines(Line(w, "void " + ns + "::" + m.camelName + " ("), m.inArgs, BeginParam),
                               CallbackParam), BaseDecl);
      var p := PackInArgs(v, m.inArgs);
      && |v| == |w| + 6 + 2 * |m.inArgs|
      && ProxyBegin(w, ns, m)[..|p|] == p
      && ProxyBegin(w, ns, m)[|p|] == ProxyCall
  {
    var v0 := Line(w, "void " + ns + "::" + m.camelName + " (");
    LinesLayout(v0, m.inArgs, BeginParam);
    var p := PackInArgs(Line(Line(Lines(v0, m.inArgs, BeginParam), CallbackParam), BaseDecl), m.inArgs);
    var p1 := Line(p, ProxyCall);
    LineKeeps(p, ProxyCall);
    var p2 := Line(p1, "    \"" + m.name + "\",");
    LineKeepsPrefix(p, p1, "    \"" + m.name + "\",");
    var p3 := Line(p2, "    callback,");
    LineKeepsPrefix(p, p2, "    callback,");
    var p4 := Line(p3, "    base);");
    LineKeepsPrefix(p, p3, "    base);");
    LineKeepsPrefix(p, p4, "}");
    assert ProxyBegin(w, ns, m) == Line(p4, "}");
  }

  // ---------------------------------------------------------------- positional unpacking

  /** Out-argument `x` is unpacked from child `str(x)` of the reply, for
      every `x` in argument order. */
  lemma {:induction false} UnpackOutLayout(w: seq<string>, args: seq<Arg>)
    ensures |UnpackOutArgs(w, args)| == |w| + 4 * |args|
    ensures UnpackOutArgs(w, args)[..|w|] == w
    ensures forall x :: 0 <= x < |args| ==>
      && UnpackOutArgs(w, args)[|w| + 4 * x] == UnpackLine(args[x], x)
      && UnpackOutArgs(w, args)[|w| + 4 * x + 1] == "\n"
      && UnpackOutArgs(w, args)[|w| + 4 * x + 2] == ""
      && UnpackOutArgs(w, args)[|w| + 4 * x + 3] == "\n"
    decreases |args|
  {
    if |args| > 0 {
      var args' := args[..|args| - 1];
      UnpackOutLayout(w, args');
      var r' := UnpackOutArgs(w, args');
      var r := UnpackOutArgs(w, args);
      var n := |args| - 1;
      assert r == r' + [UnpackLine(args[n], n), "\n", "", "\n"];
      forall x | 0 <= x < |args|
        ensures r[|w| + 4 * x] == UnpackLine(args[x], x) && r[|w| + 4 * x + 1] == "\n"
        ensures r[|w| + 4 * x + 2] == "" && r[|w| + 4 * x + 3] == "\n"
      {
        if x < n {
          assert args'[x] == args[x];
        }
      }
    }
  }

  /** In the `_finish` definition of a method, out-argument `x` is read by
      `cppvalue_get` with the index string `str(x)`. */
  lemma ProxyFinishIndices(w: seq<string>, ns: string, m: Method, x: nat)
    requires x < |m.outArgs|
    ensures var a := m.outArgs[x];
      var r := ProxyFinish(w, ns, m);
      && |r| > |w| + 4 + 2 * |m.outArgs| + 4 * x
      && r[|w| + 4 + 2 * |m.outArgs| + 4 * x]
         == "  " + a.cppvalueGet(a.name + "_variant", "out_" + a.name, Decimal(x))
  {
    var v0 := Line(w, "void " + ns + "::" + m.camelName + "_finish (");
    LinesLayout(v0, m.outArgs, FinishParam);
    var v := Line(Lines(v0, m.outArgs, FinishParam), FinishPrologue);
    UnpackOutLayout(v, m.outArgs);
    var u := UnpackOutArgs(v, m.outArgs);
    assert |v| == |w| + 4 + 2 * |m.outArgs|;
    assert u[|v| + 4 * x] == UnpackLine(m.outArgs[x], x);
    assert ProxyFinish(w, ns, m)[..|u|] == u;
  }

  /** The length of the run of decimal digits that ends `t`. */
  function TrailingDigits(t: string): (n: nat)
    ensures n <= |t|
  {
    if |t| > 0 && '0' <= t[|t| - 1] <= '9' then TrailingDigits(t[..|t| - 1]) + 1 else 0
  }

  /** The child index a `get_child(base_<name>, <index>);` line reads: the
      digits just before its closing `);`. */
  function ChildIndex(t: string): Option<nat>
  {
    if |t| >= 2 && t[|t| - 2..] == ");" then
      var b := t[..|t| - 2];
      ParseDecimal(b[|b| - TrailingDigits(b)..])
    else None
  }

  lemma {:induction false} TrailingDigitsAfterSpace(p: string, d: string)
    requires |p| > 0 && p[|p| - 1] == ' '
    requires forall k :: 0 <= k < |d| ==> '0' <= d[k] <= '9'
    ensures TrailingDigits(p + d) == |d|
    decreases |d|
  {
    if |d| == 0 {
      assert p + d == p;
    } else {
      assert (p + d)[..|p + d| - 1] == p + d[..|d| - 1];
      TrailingDigitsAfterSpace(p, d[..|d| - 1]);
    }
  }

  /** The index read back from the `get_child` line of in-argument `ai` is
      `ai`. */
  lemma ChildIndexOf(a: Arg, ai: nat)
    ensures ChildIndex(GetChildLine(a, ai)) == Some(ai)
  {
    var t := GetChildLine(a, ai);
    var p := GetChild + a.name + ", ";
    var d := Decimal(ai);
    assert t == (p + d) + ");";
    assert t[..|t| - 2] == p + d;
    TrailingDigitsAfterSpace(p, d);
    assert (p + d)[|p + d| - |d|..] == d;
    DecimalRoundTrip(ai);
  }

  /** One unboxing: ten writes, the third reading the child `ai`. */
  lemma UnboxInShape(w: seq<string>, a: Arg, ai: nat)
    ensures |UnboxIn(w, a, ai)| == |w| + 10
    ensures UnboxIn(w, a, ai)[..|w|] == w
    ensures UnboxIn(w, a, ai)[|w| + 2] == GetChildLine(a, ai)
  {
    var w1 := Line(w, UnboxVariant + a.cpptypeGet + " > base_" + a.name + ";");
    var w2 := Line(w1, GetChildLine(a, ai));
    LineKeeps(w, UnboxVariant + a.cpptypeGet + " > base_" + a.name + ";");
    LineKeeps(w1, GetChildLine(a, ai));
    var w3 := Line(w2, "        " + a.cpptypeGet + " p_" + a.name + ";");
    LineKeepsPrefix(w, w2, "        " + a.cpptypeGet + " p_" + a.name + ";");
    LineKeepsPrefix(w2[..|w| + 3], w2, "        " + a.cpptypeGet + " p_" + a.name + ";");
    var w4 := Line(w3, "        p_" + a.name + " = base_" + a.name + ".get();");
    LineKeepsPrefix(w, w3, "        p_" + a.name + " = base_" + a.name + ".get();");
    LineKeepsPrefix(w2[..|w| + 3], w3, "        p_" + a.name + " = base_" + a.name + ".get();");
    LineKeepsPrefix(w, w4, "");
    LineKeepsPrefix(w2[..|w| + 3], w4, "");
    var r := Line(w4, "");
    assert r[..|w| + 3][|w| + 2] == r[|w| + 2];
  }

  /** In-argument number `ai` is unboxed with `get_child(base_<name>, ai)`,
      for every `ai` in argument order. */
  lemma {:induction false} UnboxInLayout(w: seq<string>, args: seq<Arg>)
    ensures |UnboxInArgs(w, args)| == |w| + 10 * |args|
    ensures UnboxInArgs(w, args)[..|w|] == w
    ensures forall ai :: 0 <= ai < |args| ==>
      UnboxInArgs(w, args)[|w| + 10 * ai + 2] == GetChildLine(args[ai], ai)
    decreases |args|
  {
    if |args| > 0 {
      var args' := args[..|args| - 1];
      UnboxInLayout(w, args');
      var r' := UnboxInArgs(w, args');
      var r := UnboxInArgs(w, args);
      var n := |args| - 1;
      UnboxInShape(r', args[n], n);
      forall ai | 0 <= ai < |args|
        ensures r[|w| + 10 * ai + 2] == GetChildLine(args[ai], ai)
      {
        if ai < n {
          assert args'[ai] == args[ai];
          assert r[|w| + 10 * ai + 2] == r'[|w| + 10 * ai + 2];
        }
      }
    }
  }

  /** In the dispatch branch of a method in `on_method_call`, in-argument
      `ai` is read from child `ai` of the call parameters: the index read
      back from its `get_child` line is `ai`. */
  lemma MethodDispatchIndices(w: seq<string>, m: Method, ai: nat)
    requires ai < |m.inArgs|
    ensures var a := m.inArgs[ai];
      var r := MethodDispatch(w, m);
      && |r| > |w| + 4 + 10 * ai
      && r[|w| + 4 + 10 * ai] == GetChild + a.name + ", " + Decimal(ai) + ");"
      && ChildIndex(r[|w| + 4 + 10 * ai]) == Some(ai)
  {
    var v := Line(w, MethodCompare + m.name + "\") == 0) {");
    UnboxInLayout(v, m.inArgs);
    var u := UnboxInArgs(v, m.inArgs);
    assert u[|v| + 10 * ai + 2] == GetChildLine(m.inArgs[ai], ai);
    var u1 := Line(u, "        " + m.name + "(");
    LineKeeps(u, "        " + m.name + "(");
    var u2 := Lines(u1, m.inArgs, CastInArg);
    LinesLayout(u1, m.inArgs, CastInArg);
    assert u2[..|u|] == u2[..|u1|][..|u|];
    var u3 := Line(u2, InvocationArg);
    LineKeepsPrefix(u, u2, InvocationArg);
    LineKeepsPrefix(u, u3, "    }");
    assert MethodDispatch(w, m) == Line(u3, "    }");
    assert MethodDispatch(w, m)[..|u|] == u;
    ChildIndexOf(m.inArgs[ai], ai);
  }
}
