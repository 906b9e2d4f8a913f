/** The Java binding generator (apigen_java.go): for every API method it emits
    a static method of class Mumax2 that sends the call's name and its arguments,
    as strings, to the engine and parses the answer. The fifo client emitted as
    the file's header is fixed text and is not modelled.

    A Go type enters as its name (reflect.Type's String()); a nil return type,
    for a method without result, is None. */
module JavaGen {
  import opened Wrappers
  import opened Strings
  import opened Writers

  function Filename(): string
  {
    "Mumax2.java"
  }

  function Comment(): string
  {
    "//"
  }

  function Footer(): string
  {
    "}"
  }

  /** writeFooter closes the class. */
  method WriteFooter(out: Writer)
    modifies out
    ensures out.text == old(out.text) + Footer()
  {
    out.Write("}");
  }

  /** The declared return type: "void" for nil, otherwise the type's name. */
  function RetName(returnType: Option<string>): string
  {
    if returnType.None? then "void" else returnType.value
  }

  /** java_parse, with Go's zero value "" for a missing key. */
  const JavaParse: map<string, string> := map["int" := "Integer.parseInt"]

  function Parse(ret: string): string
  {
    if ret in JavaParse then JavaParse[ret] else ""
  }

  /** Only an int result is parsed; every other result, void included, is
      returned through a bare parenthesis. */
  lemma ParseOnlyInt(ret: string)
    ensures Parse(ret) == (if ret == "int" then "Integer.parseInt" else "")
  {
  }

  // ------------------------------------------------------------ the stub

  /** The parameter declaration `type argK`, K counting from 1. */
  function Param(t: string, i: nat): string
  {
    t + " arg" + NatToString(i + 1)
  }

  /** The first n parameter declarations with the given types, separated by
      ", ", as the parameter loop builds them. */
  function ParamsUpTo(types: seq<string>, n: nat): string
    requires n <= |types|
  {
    if n == 0 then ""
    else if n == 1 then Param(types[0], 0)
    else ParamsUpTo(types, n - 1) + ", " + Param(types[n - 1], n - 1)
  }

  function Params(types: seq<string>): string
  {
    ParamsUpTo(types, |types|)
  }

  /** The call argument `"" + argK`, which turns argument K into a string. */
  function CallArg(i: nat): string
  {
    "\"\" + arg" + NatToString(i + 1)
  }

  function CallArgsUpTo(n: nat): string
  {
    if n == 0 then ""
    else if n == 1 then CallArg(0)
    else CallArgsUpTo(n - 1) + ", " + CallArg(n - 1)
  }

  /** The signature up to its parameters. */
  function HeaderOpen(ret: string, name: string): string
  {
    "\n\tpublic static " + ret + " " + name + "("
  }

  function CallOpen(name: string): string
  {
    "\t\tString returned = call(\"" + name + "\",new String[]{"
  }

  function ReturnStmt(ret: string): string
  {
    "\t\treturn " + Parse(ret) + "(returned);"
  }

  /** A whole stub with the given parameter text and n call arguments:
      Fprintln puts a space between the parameters and "){". */
  function JavaStub(ret: string, name: string, params: string, n: nat): string
  {
    "\n" + HeaderOpen(ret, name) + params + " ){\n"
    + CallOpen(name) + CallArgsUpTo(n) + "});\n"
    + ReturnStmt(ret) + "\n" + "\t}\n"
  }

  /** writeFunc as written: every parameter is declared with the name of the
      RETURN type, and for a nil return type with arguments the first such
      call panics (nil dereference), after the signature's opening was
      written. The panic is not recovered. */
  function JavaText(name: string, argTypes: seq<string>, returnType: Option<string>): (string, Outcome)
  {
    if returnType.None? && |argTypes| > 0 then ("\n" + HeaderOpen("void", name), Fail(NilDereference))
    else (JavaStub(RetName(returnType), name, Params(seq(|argTypes|, _ => RetName(returnType))), |argTypes|), Pass)
  }

  /** writeFunc as intended: parameter K is declared with the K-th argument
      type, and a nil return type is only ever printed as "void". */
  function FixedJavaText(name: string, argTypes: seq<string>, returnType: Option<string>): string
  {
    JavaStub(RetName(returnType), name, Params(argTypes), |argTypes|)
  }

  // ------------------------------------------------------------ properties

  /** The parameter loop joins the declarations with ", ". */
  lemma {:induction false} ParamsJoin(types: seq<string>, n: nat)
    requires n <= |types|
    ensures ParamsUpTo(types, n) == JoinWith(seq(n, i requires 0 <= i < n => Param(types[i], i)), ", ")
    decreases n
  {
    var ps := seq(n, i requires 0 <= i < n => Param(types[i], i));
    if n > 0 {
      ParamsJoin(types, n - 1);
      var init := seq(n - 1, i requires 0 <= i < n - 1 => Param(types[i], i));
      assert ps == init + [Param(types[n - 1], n - 1)];
      JoinWithSnoc(init, Param(types[n - 1], n - 1), ", ");
    }
  }

  /** The `"" + argK` terms for K from 1 to n, in order. */
  function CallArgList(n: nat): (cs: seq<string>)
    ensures |cs| == n && forall i :: 0 <= i < n ==> cs[i] == CallArg(i)
  {
    if n == 0 then [] else CallArgList(n - 1) + [CallArg(n - 1)]
  }

  /** The call loop joins the `"" + argK` terms with ", ". */
  lemma {:induction false} CallArgsJoin(n: nat)
    ensures CallArgsUpTo(n) == JoinWith(CallArgList(n), ", ")
    decreases n
  {
    if n > 0 {
      CallArgsJoin(n - 1);
      JoinWithSnoc(CallArgList(n - 1), CallArg(n - 1), ", ");
    }
  }

  /** Splitting the parameter text at its commas gives every declaration in
      order, the later ones behind one space, when no type name holds a comma. */
  lemma ParamsInOrder(types: seq<string>)
    requires |types| >= 1
    requires forall i :: 0 <= i < |types| ==> ',' !in types[i]
    ensures var parts := Split(Params(types), ',');
            && |parts| == |types|
            && parts[0] == Param(types[0], 0)
            && forall i :: 1 <= i < |types| ==> parts[i] == " " + Param(types[i], i)
  {
    var n := |types|;
    var ps := seq(n, i requires 0 <= i < n => Param(types[i], i));
    ParamsJoin(types, n);
    forall i | 0 <= i < n
      ensures ',' !in ps[i]
    {
      ParamNoComma(types[i], i);
    }
    assert ", "[0] == ',' && ", "[1..] == " ";
    SplitJoinWith(ps, ", ");
  }

  lemma ParamNoComma(t: string, i: nat)
    requires ',' !in t
    ensures ',' !in Param(t, i)
  {
    var d := NatToString(i + 1);
    assert Param(t, i) == t + " arg" + d;
    assert forall k :: 0 <= k < |d| ==> d[k] != ',';
  }

  /** Parameter K of the corrected stub is declared with the K-th argument type. */
  lemma FixedParamsOwnTypes(name: string, argTypes: seq<string>, returnType: Option<string>)
    requires |argTypes| >= 1
    requires forall i :: 0 <= i < |argTypes| ==> ',' !in argTypes[i]
    ensures FixedJavaText(name, argTypes, returnType) == JavaStub(RetName(returnType), name, Params(argTypes), |argTypes|)
    ensures var parts := Split(Params(argTypes), ',');
            && |parts| == |argTypes|
            && parts[0] == argTypes[0] + " arg1"
            && forall i :: 1 <= i < |argTypes| ==> parts[i] == " " + argTypes[i] + " arg" + NatToString(i + 1)
  {
    ParamsInOrder(argTypes);
    assert NatToString(1) == "1";
    assert Param(argTypes[0], 0) == argTypes[0] + " arg1";
    forall i | 1 <= i < |argTypes|
      ensures " " + Param(argTypes[i], i) == " " + argTypes[i] + " arg" + NatToString(i + 1)
    {
      Assoc4(" ", argTypes[i], " arg", NatToString(i + 1));
    }
  }

  lemma Assoc4(w: string, x: string, y: string, z: string)
    ensures w + (x + y + z) == w + x + y + z
  {
  }

  /** The text before and after a stub's parameters. */
  function StubPrefix(ret: string, name: string): string
  {
    "\n" + HeaderOpen(ret, name)
  }

  function StubSuffix(ret: string, name: string, n: nat): string
  {
    " ){\n" + CallOpen(name) + CallArgsUpTo(n) + "});\n" + ReturnStmt(ret) + "\n" + "\t}\n"
  }

  lemma Regroup(a0: string, a1: string, p: string, a3: string, a4: string, a5: string,
                a6: string, a7: string, a8: string, a9: string)
    ensures a0 + a1 + p + a3 + a4 + a5 + a6 + a7 + a8 + a9
         == (a0 + a1) + p + (a3 + a4 + a5 + a6 + a7 + a8 + a9)
  {
  }

  /** A stub is its parameters between a fixed prefix and suffix. */
  lemma StubAround(ret: string, name: string, params: string, n: nat)
    ensures JavaStub(ret, name, params, n) == StubPrefix(ret, name) + params + StubSuffix(ret, name, n)
  {
    Regroup("\n", HeaderOpen(ret, name), params, " ){\n", CallOpen(name), CallArgsUpTo(n), "});\n",
            ReturnStmt(ret), "\n", "\t}\n");
  }

  lemma MiddleDetermined(pre: string, p1: string, p2: string, post: string)
    requires pre + p1 + post == pre + p2 + post
    ensures p1 == p2
  {
    assert p1 == (pre + p1 + post)[|pre|..|pre| + |p1|];
  }

  /** The stub around the parameters is fixed, so the stub determines them. */
  lemma StubDeterminesParams(ret: string, name: string, p1: string, p2: string, n: nat)
    requires JavaStub(ret, name, p1, n) == JavaStub(ret, name, p2, n)
    ensures p1 == p2
  {
    StubAround(ret, name, p1, n);
    StubAround(ret, name, p2, n);
    MiddleDetermined(StubPrefix(ret, name), p1, p2, StubSuffix(ret, name, n));
  }

  lemma SuffixCancel(x: string, y: string, z: string)
    requires x + z == y + z
    ensures x == y
  {
    assert x == (x + z)[..|x|];
  }

  /** As written, an argument of a type other than the return type is
      declared with the return type, so the stub differs from the intended one:
      writeFunc("f", [a], t) declares `t arg1`. */
  lemma ParamDeclaredWithReturnType(name: string, a: string, t: string)
    requires a != t
    ensures JavaText(name, [a], Some(t)) == (JavaStub(t, name, t + " arg1", 1), Pass)
    ensures FixedJavaText(name, [a], Some(t)) == JavaStub(t, name, a + " arg1", 1)
    ensures JavaText(name, [a], Some(t)).0 != FixedJavaText(name, [a], Some(t))
  {
    assert NatToString(1) == "1";
    assert Param(t, 0) == t + " arg1";
    assert Param(a, 0) == a + " arg1";
    assert Params(seq(1, _ => t)) == Param(t, 0);
    if JavaStub(t, name, t + " arg1", 1) == JavaStub(t, name, a + " arg1", 1) {
      StubDeterminesParams(t, name, t + " arg1", a + " arg1", 1);
      SuffixCancel(t, a, " arg1");
    }
  }

  /** As written, every parameter is declared with the return type's name. */
  lemma AllParamsUseReturnType(name: string, argTypes: seq<string>, t: string)
    ensures JavaText(name, argTypes, Some(t)).1 == Pass
    ensures JavaText(name, argTypes, Some(t)).0
         == JavaStub(t, name, JoinWith(seq(|argTypes|, i requires 0 <= i < |argTypes| => Param(t, i)), ", "), |argTypes|)
  {
    var n := |argTypes|;
    var types := seq(n, _ => t);
    ParamsJoin(types, n);
    assert seq(n, i requires 0 <= i < n => Param(types[i], i)) == seq(n, i requires 0 <= i < n => Param(t, i));
  }

  /** A method without result but with arguments makes writeFunc panic right
      after "public static void name(" was written; the intended stub declares
      the method void. */
  lemma NilReturnWithArgsPanics(name: string, argTypes: seq<string>)
    requires |argTypes| > 0
    ensures JavaText(name, argTypes, None) == ("\n" + HeaderOpen("void", name), Fail(NilDereference))
    ensures FixedJavaText(name, argTypes, None) == JavaStub("void", name, Params(argTypes), |argTypes|)
  {
  }

  // ------------------------------------------------------------ the writer

  /** The call-argument loop of writeFunc. */
  method WriteCallArgs(out: Writer, n: nat)
    modifies out
    ensures out.text == old(out.text) + CallArgsUpTo(n)
  {
    ghost var start := out.text;
    for i := 0 to n
      invariant out.text == start + CallArgsUpTo(i)
    {
      ghost var before := out.text;
      if i != 0 {
        out.Write(", ");
        Assoc(start, CallArgsUpTo(i), ", ");
      }
      out.Write(CallArg(i));
      Assoc(start, if i == 0 then "" else CallArgsUpTo(i) + ", ", CallArg(i));
    }
  }

  /** writeFunc, as written. */
  method WriteFunc(out: Writer, funcName: string, argTypes: seq<string>, returnType: Option<string>)
    returns (r: Outcome)
    modifies out
    ensures (out.text, r) == (old(out.text) + JavaText(funcName, argTypes, returnType).0,
                              JavaText(funcName, argTypes, returnType).1)
  {
    ghost var start := out.text;
    out.Write("\n");
    var ret := "void";
    if returnType.Some? {
      ret := returnType.value;
    }
    out.Write(HeaderOpen(ret, funcName));
    assert out.text == start + StubPrefix(ret, funcName);

    ghost var types := seq(|argTypes|, _ => ret);
    var args := "";
    for i := 0 to |argTypes|
      invariant returnType.Some? || i == 0
      invariant args == ParamsUpTo(types, i)
    {
      if returnType.None? {
        assert out.text == start + ("\n" + HeaderOpen("void", funcName));
        return Fail(NilDereference);
      }
      if i != 0 {
        args := args + ", ";
      }
      args := args + Param(returnType.value, i);
    }
    assert args == Params(types);
    WriteStubRest(out, funcName, args, |argTypes|, ret);
    StubAround(ret, funcName, args, |argTypes|);
    Assoc(start, StubPrefix(ret, funcName), args + StubSuffix(ret, funcName, |argTypes|));
    Assoc(StubPrefix(ret, funcName), args, StubSuffix(ret, funcName, |argTypes|));
    r := Pass;
  }

  /** The rest of the stub once its parameters are known. */
  method WriteStubRest(out: Writer, funcName: string, args: string, n: nat, ret: string)
    modifies out
    ensures out.text == old(out.text) + (args + StubSuffix(ret, funcName, n))
  {
    ghost var head := out.text;
    out.Write(args + " ){\n");
    out.Write(CallOpen(funcName));
    WriteCallArgs(out, n);
    out.Write("});\n");
    out.Write(ReturnStmt(ret));
    out.Write("\n");
    out.Write("\t}\n");
    StubPieces(head, args, " ){\n", CallOpen(funcName), CallArgsUpTo(n), "});\n", ReturnStmt(ret), "\n", "\t}\n");
  }

  lemma StubPieces(head: string, p: string, a3: string, a4: string, a5: string, a6: string, a7: string,
                   a8: string, a9: string)
    ensures head + (p + a3) + a4 + a5 + a6 + a7 + a8 + a9 == head + p + (a3 + a4 + a5 + a6 + a7 + a8 + a9)
  {
  }
}
