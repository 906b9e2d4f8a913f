/** The Python binding generator (python.go): for every API method it emits a
    stub that sends the call's name and arguments to the engine and converts
    the answer. The socket/fifo client emitted as the file's header is fixed
    text and is not modelled.

    A Go type enters as its name (reflect.Type's String()); of the argument
    types only their number matters. */
module PythonGen {
  import opened Strings
  import opened Writers

  function Filename(): string
  {
    "mumax2.py"
  }

  function Comment(): string
  {
    "#"
  }

  // ------------------------------------------------------- doc comments

  /** "# " + line + "\n" for every line, in order. */
  function DocLines(lines: seq<string>): string
    decreases |lines|
  {
    if |lines| == 0 then "" else DocLines(lines[..|lines| - 1]) + "# " + lines[|lines| - 1] + "\n"
  }

  /** pyDocComment: nothing for no lines; otherwise "#" and then every line
      behind "# ", so the first line opens with "##". */
  function DocComment(lines: seq<string>): string
  {
    if |lines| == 0 then "" else "#" + DocLines(lines)
  }

  /** pyDocComment, accumulating the comment line by line. */
  method PyDocComment(lines: seq<string>) returns (str: string)
    ensures str == DocComment(lines)
  {
    if |lines| == 0 {
      return "";
    }
    str := "#";
    for i := 0 to |lines|
      invariant str == "#" + DocLines(lines[..i])
    {
      assert lines[..i + 1][..i] == lines[..i];
      str := str + "# " + lines[i] + "\n";
    }
    assert lines[..|lines|] == lines;
  }

  /** The comment lines, with the "# " marker and their newline. */
  function Marked(lines: seq<string>): seq<string>
  {
    seq(|lines|, i requires 0 <= i < |lines| => "# " + lines[i])
  }

  lemma {:induction false} DocLinesSplit(lines: seq<string>, t: string)
    requires forall i :: 0 <= i < |lines| ==> '\n' !in lines[i]
    ensures Split(DocLines(lines) + t, '\n') == Marked(lines) + Split(t, '\n')
    decreases |lines|
  {
    if |lines| > 0 {
      var init := lines[..|lines| - 1];
      var last := lines[|lines| - 1];
      assert DocLines(lines) + t == DocLines(init) + ("# " + last + "\n" + t);
      DocLinesSplit(init, "# " + last + "\n" + t);
      assert "# " + last + "\n" + t == ("# " + last) + ['\n'] + t;
      SplitAround("# " + last, t, '\n');
      assert Marked(lines) == Marked(init) + ["# " + last];
    } else {
      assert DocLines(lines) + t == t;
      assert Marked(lines) + Split(t, '\n') == Split(t, '\n');
    }
  }

  /** A doc comment of newline-free lines has one line per comment line, each
      behind "# " (the first behind "##"), and ends with a newline. */
  lemma DocCommentLines(lines: seq<string>)
    requires |lines| > 0
    requires forall i :: 0 <= i < |lines| ==> '\n' !in lines[i]
    ensures Split(DocComment(lines), '\n') == ["#" + Marked(lines)[0]] + Marked(lines)[1..] + [""]
  {
    DocLinesSplit(lines, "");
    assert DocLines(lines) + "" == DocLines(lines);
    SplitPrefix("#", DocLines(lines), '\n');
  }

  // -------------------------------------------------- printf with no operands

  /** Characters that may stand between a '%' and its verb: flags, width and
      precision. */
  predicate IsSpecChar(c: char)
  {
    IsFlag(c) || IsDigit(c) || c == '.'
  }

  predicate IsFlag(c: char)
  {
    c == ' ' || c == '+' || c == '-' || c == '#' || c == '0'
  }

  predicate IsDigit(c: char)
  {
    '0' <= c <= '9'
  }

  /** How many flag characters open `f`. */
  function FlagsLen(f: string): (k: nat)
    ensures k <= |f|
    ensures forall i :: 0 <= i < k ==> IsFlag(f[i])
    ensures k < |f| ==> !IsFlag(f[k])
  {
    if |f| == 0 || !IsFlag(f[0]) then 0 else 1 + FlagsLen(f[1..])
  }

  /** How many digits open `f`. */
  function DigitsLen(f: string): (k: nat)
    ensures k <= |f|
    ensures forall i :: 0 <= i < k ==> IsDigit(f[i])
    ensures k < |f| ==> !IsDigit(f[k])
  {
    if |f| == 0 || !IsDigit(f[0]) then 0 else 1 + DigitsLen(f[1..])
  }

  /** The digits of `f` from `start` on run for DigitsLen of the rest. */
  lemma DigitsFrom(f: string, start: nat)
    requires start <= |f|
    ensures var d := DigitsLen(f[start..]);
            && (forall i :: start <= i < start + d ==> IsDigit(f[i]))
            && (start + d < |f| ==> !IsDigit(f[start + d]))
  {
    var d := DigitsLen(f[start..]);
    forall i | start <= i < start + d ensures IsDigit(f[i]) { assert f[i] == f[start..][i - start]; }
    if start + d < |f| { assert f[start + d] == f[start..][d]; }
  }

  /** How much of `f` Go's fmt reads between a '%' and its verb: the flags,
      then the width digits, then a '.' and the precision digits, the '.'
      only when it is not the last character of the format. */
  function SpecLen(f: string): (k: nat)
    ensures k <= |f|
  {
    var b := FlagsLen(f) + DigitsLen(f[FlagsLen(f)..]);
    if b + 1 < |f| && f[b] == '.' then b + 1 + DigitsLen(f[b + 1..]) else b
  }

  /** What SpecLen reads are spec characters in Go's order: a flag never
      follows a width digit, at most one '.' is read, it is not the last
      character of the format, and only digits follow it. */
  lemma SpecLenInGoOrder(f: string)
    ensures var k := SpecLen(f);
            && (forall i :: 0 <= i < k ==> IsSpecChar(f[i]))
            && (forall i :: 0 <= i < k && f[i] == '.' ==> i + 1 < |f| && forall j :: i < j < k ==> IsDigit(f[j]))
            && (forall i :: 0 <= i < k && '1' <= f[i] <= '9' ==> forall j :: i < j < k ==> !(IsFlag(f[j]) && f[j] != '0'))
  {
    var a, b := SpecRegions(f);
    SpecInRegions(f, a, b, SpecLen(f));
  }

  /** The flags end at a, the width digits at b. */
  lemma SpecRegions(f: string) returns (a: nat, b: nat)
    ensures a <= b <= SpecLen(f) <= |f|
    ensures forall i :: 0 <= i < a ==> IsFlag(f[i])
    ensures forall i :: a <= i < b ==> IsDigit(f[i])
    ensures b < SpecLen(f) ==> b + 1 < |f| && f[b] == '.' && forall i :: b < i < SpecLen(f) ==> IsDigit(f[i])
  {
    a := FlagsLen(f);
    DigitsFrom(f, a);
    b := a + DigitsLen(f[a..]);
    if b + 1 < |f| && f[b] == '.' {
      DigitsFrom(f, b + 1);
    }
  }

  /** The order facts, from the three regions of a spec: flags in f[..a],
      width digits in f[a..b], and, when the spec runs past b, a '.' at b
      that is not the format's last character, followed by digits. */
  lemma SpecInRegions(f: string, a: nat, b: nat, k: nat)
    requires a <= b <= k <= |f|
    requires forall i :: 0 <= i < a ==> IsFlag(f[i])
    requires forall i :: a <= i < b ==> IsDigit(f[i])
    requires b < k ==> b + 1 < |f| && f[b] == '.' && forall i :: b < i < k ==> IsDigit(f[i])
    ensures forall i :: 0 <= i < k ==> IsSpecChar(f[i])
    ensures forall i :: 0 <= i < k && f[i] == '.' ==> i + 1 < |f| && forall j :: i < j < k ==> IsDigit(f[j])
    ensures forall i :: 0 <= i < k && '1' <= f[i] <= '9' ==> forall j :: i < j < k ==> !(IsFlag(f[j]) && f[j] != '0')
  {
    forall i | 0 <= i < k && f[i] == '.'
      ensures i + 1 < |f| && forall j :: i < j < k ==> IsDigit(f[j])
    {
      assert i == b;
    }
  }

  /** fmt.Sprintf(f) with no operands: "%%" is a percent sign, any other verb
      has no operand and prints as "%!verb(MISSING)", and a '%' at the end
      prints as "%!(NOVERB)". */
  function Printf0(f: string): string
    decreases |f|
  {
    if |f| == 0 then ""
    else if f[0] != '%' then [f[0]] + Printf0(f[1..])
    else
      var k := SpecLen(f[1..]);
      if 1 + k == |f| then "%!(NOVERB)"
      else if f[1 + k] == '%' then "%" + Printf0(f[2 + k..])
      else "%!" + [f[1 + k]] + "(MISSING)" + Printf0(f[2 + k..])
  }

  /** Printf0 at a '%' whose spec is followed by a verb other than '%'. */
  lemma PrintfAtVerb(spec: string, v: char, rest: string)
    requires SpecLen(spec + [v] + rest) == |spec| && v != '%'
    ensures Printf0(['%'] + spec + [v] + rest) == "%!" + [v] + "(MISSING)" + Printf0(rest)
  {
    var f := ['%'] + spec + [v] + rest;
    assert f[1..] == spec + [v] + rest;
    assert f[1 + |spec|] == v;
    assert f[2 + |spec|..] == rest;
  }

  /** A flag after a width digit ends the spec: it is taken as the verb, as
      Go prints "%5-d" as "%!-(MISSING)d". */
  lemma FlagAfterWidthIsVerb(d: char, c: char, rest: string)
    requires '1' <= d <= '9' && IsFlag(c) && c != '0'
    ensures Printf0(['%', d, c] + rest) == "%!" + [c] + "(MISSING)" + Printf0(rest)
  {
    WidthThenFlag(d, c, rest);
    PrintfAtVerb([d], c, rest);
    assert ['%', d, c] + rest == ['%'] + [d] + [c] + rest;
  }

  lemma WidthThenFlag(d: char, c: char, rest: string)
    requires '1' <= d <= '9' && IsFlag(c) && c != '0'
    ensures SpecLen([d] + [c] + rest) == 1
  {
    var g := [d] + [c] + rest;
    assert g == [d, c] + rest;
    assert FlagsLen(g) == 0;
    assert g[0..] == g && g[1..] == [c] + rest;
    assert DigitsLen(g[1..]) == 0;
    assert DigitsLen(g[0..]) == 1;
  }

  /** Only one precision is read: a second '.' is the verb, as Go prints
      "%1.2.3d" as "%!.(MISSING)3d". */
  lemma SecondDotIsVerb(w: char, p: char, rest: string)
    requires IsDigit(w) && IsDigit(p) && w != '0'
    ensures Printf0(['%', w, '.', p, '.'] + rest) == "%!" + ['.'] + "(MISSING)" + Printf0(rest)
  {
    WidthPrecisionThenDot(w, p, rest);
    PrintfAtVerb([w, '.', p], '.', rest);
    assert ['%', w, '.', p, '.'] + rest == ['%'] + [w, '.', p] + ['.'] + rest;
  }

  lemma WidthPrecisionThenDot(w: char, p: char, rest: string)
    requires IsDigit(w) && IsDigit(p) && w != '0'
    ensures SpecLen([w, '.', p] + ['.'] + rest) == 3
  {
    var g := [w, '.', p] + ['.'] + rest;
    assert g == [w, '.', p, '.'] + rest;
    assert FlagsLen(g) == 0;
    assert g[0..] == g && g[1..] == ['.', p, '.'] + rest;
    assert DigitsLen(g[1..]) == 0;
    assert DigitsLen(g[0..]) == 1;
    assert g[2..] == [p, '.'] + rest && g[2..][1..] == ['.'] + rest;
    assert DigitsLen(g[2..][1..]) == 0;
    assert DigitsLen(g[2..]) == 1;
  }

  /** A '.' that ends the format is not a precision but the verb. */
  lemma TrailingDotIsVerb(w: char)
    requires '1' <= w <= '9'
    ensures Printf0(['%', w, '.']) == "%!.(MISSING)"
  {
    var f := ['%', w, '.'];
    var g := f[1..];
    assert g == [w, '.'];
    assert FlagsLen(g) == 0;
    assert g[0..] == g && g[1..] == ['.'];
    assert DigitsLen(g[1..]) == 0;
    assert DigitsLen(g[0..]) == 1;
    assert SpecLen(g) == 1;
    assert f[3..] == [];
  }

  /** A format without '%' prints as itself. */
  lemma {:induction false} Printf0Plain(f: string)
    requires '%' !in f
    ensures Printf0(f) == f
    decreases |f|
  {
    if |f| > 0 {
      assert '%' !in f[1..];
      Printf0Plain(f[1..]);
      assert [f[0]] + f[1..] == f;
    }
  }

  // ------------------------------------------------------------ functions

  /** python_convert, with Go's zero value "" for a missing key. */
  const PythonConvert: map<string, string> :=
    map["int" := "int", "float32" := "float", "float64" := "float", "string" := "str", "bool" := "bool", "" := ""]

  function Convert(t: string): string
  {
    if t in PythonConvert then PythonConvert[t] else ""
  }

  /** Both float widths become Python floats, a Go string a str, int and bool
      keep their names, and any other type gets no conversion at all. */
  lemma ConvertTable(t: string)
    ensures Convert("float32") == "float" && Convert("float64") == "float"
    ensures Convert("string") == "str" && Convert("int") == "int" && Convert("bool") == "bool"
    ensures t !in {"int", "float32", "float64", "string", "bool"} ==> Convert(t) == ""
  {
  }

  /** The i-th return expression: conv(ret[i]). */
  function Conversion(returnTypes: seq<string>, i: nat): string
    requires i < |returnTypes|
  {
    Convert(returnTypes[i]) + "(ret[" + NatToString(i) + "])"
  }

  function Conversions(returnTypes: seq<string>): seq<string>
  {
    seq(|returnTypes|, i requires 0 <= i < |returnTypes| => Conversion(returnTypes, i))
  }

  /** "def name(": what is written of the header before the arguments. */
  function DefOpen(doc: string, name: string): string
  {
    doc + "def " + name + "("
  }

  /** The header line: Fprintln puts a space between the arguments and "):". */
  function HeaderLine(doc: string, name: string, args: string): string
  {
    DefOpen(doc, name) + args + " ):"
  }

  function CallLine(name: string, args: string): string
  {
    "\tret = call(\"" + name + "\", [" + args + "])"
  }

  function ReturnLine(rets: string): string
  {
    "\treturn " + rets
  }

  /** The first n return expressions, separated by ", ", as the return loop
      writes them. */
  function ReturnsUpTo(returnTypes: seq<string>, n: nat): string
    requires n <= |returnTypes|
  {
    if n == 0 then ""
    else if n == 1 then Conversion(returnTypes, 0)
    else ReturnsUpTo(returnTypes, n - 1) + ", " + Conversion(returnTypes, n - 1)
  }

  /** The return expressions, joined with ", ". */
  function Returns(returnTypes: seq<string>): string
  {
    ReturnsUpTo(returnTypes, |returnTypes|)
  }

  /** The return loop writes the conversions joined with ", ". */
  lemma {:induction false} ReturnsJoin(returnTypes: seq<string>, n: nat)
    requires n <= |returnTypes|
    ensures ReturnsUpTo(returnTypes, n) == JoinWith(Conversions(returnTypes)[..n], ", ")
    decreases n
  {
    var convs := Conversions(returnTypes);
    if n > 0 {
      ReturnsJoin(returnTypes, n - 1);
      assert convs[..n] == convs[..n - 1] + [convs[n - 1]];
      JoinWithSnoc(convs[..n - 1], convs[n - 1], ", ");
    }
  }

  /** What follows "def name(" in a stub: the arguments and the rest of the
      header line, the call line and the return line. */
  function StubRest(name: string, args: string, rets: string): string
  {
    args + " ):\n" + CallLine(name, args) + "\n" + ReturnLine(rets) + "\n"
  }

  /** The text WriteFunc writes once the doc comment has been printed as `doc`,
      and whether a panic cut it short: the argument loop runs over the
      argument types and indexes the names, so fewer names than types panics
      right after "def name(" was written; the panic is recovered. */
  function FuncTextWith(doc: string, name: string, argNames: seq<string>, nArgs: nat,
                        returnTypes: seq<string>): (string, bool)
  {
    if |argNames| < nArgs then ("\n" + DefOpen(doc, name), true)
    else ("\n" + DefOpen(doc, name) + StubRest(name, JoinWith(argNames[..nArgs], ", "), Returns(returnTypes)), false)
  }

  /** WriteFunc as written: the doc comment goes through Fprintf as its format. */
  function FuncText(name: string, comment: seq<string>, argNames: seq<string>, nArgs: nat,
                    returnTypes: seq<string>): (string, bool)
  {
    FuncTextWith(Printf0(DocComment(comment)), name, argNames, nArgs, returnTypes)
  }

  /** WriteFunc as intended: the doc comment is written verbatim. */
  function FixedFuncText(name: string, comment: seq<string>, argNames: seq<string>, nArgs: nat,
                         returnTypes: seq<string>): (string, bool)
  {
    FuncTextWith(DocComment(comment), name, argNames, nArgs, returnTypes)
  }

  /** Four newline-free lines, each ended by a newline, split back into the
      four lines and an empty remainder. */
  lemma {:induction false} FourLines(l0: string, l1: string, l2: string, l3: string)
    requires '\n' !in l0 && '\n' !in l1 && '\n' !in l2 && '\n' !in l3
    ensures Split(l0 + "\n" + l1 + "\n" + l2 + "\n" + l3 + "\n", '\n') == [l0, l1, l2, l3, ""]
  {
    var t3 := l3 + ['\n'] + "";
    var t2 := l2 + ['\n'] + t3;
    var t1 := l1 + ['\n'] + t2;
    var t0 := l0 + ['\n'] + t1;
    assert l0 + "\n" + l1 + "\n" + l2 + "\n" + l3 + "\n" == t0;
    SplitNoSep("", '\n');
    SplitAround(l3, "", '\n');
    SplitAround(l2, t3, '\n');
    SplitAround(l1, t2, '\n');
    SplitAround(l0, t1, '\n');
  }

  /** A complete stub, line by line. */
  lemma {:induction false} StubLines(doc: string, name: string, args: string, rets: string)
    requires '\n' !in HeaderLine(doc, name, args) && '\n' !in CallLine(name, args) && '\n' !in ReturnLine(rets)
    ensures Split("\n" + DefOpen(doc, name) + StubRest(name, args, rets), '\n')
         == ["", HeaderLine(doc, name, args), CallLine(name, args), ReturnLine(rets), ""]
  {
    var header := HeaderLine(doc, name, args);
    var call := CallLine(name, args);
    var ret := ReturnLine(rets);
    var nl := "\n";
    var open := DefOpen(doc, name);
    assert StubRest(name, args, rets) == args + " ):" + nl + call + nl + ret + nl;
    assert nl + open + (args + " ):" + nl + call + nl + ret + nl) == "" + nl + (open + args + " ):") + nl + call + nl + ret + nl;
    FourLines("", header, call, ret);
  }

  /** With enough names the stub is a blank line, the header "def name(args ):"
      behind the doc comment, the call line with the same argument text and the
      return line; with too few names only the blank line, the doc comment and
      "def name(" are written, and the panic is reported. */
  lemma StubShape(doc: string, name: string, argNames: seq<string>, nArgs: nat, returnTypes: seq<string>)
    ensures var (text, panicked) := FuncTextWith(doc, name, argNames, nArgs, returnTypes);
            && (panicked <==> |argNames| < nArgs)
            && (panicked ==> text == "\n" + DefOpen(doc, name))
            && (!panicked ==>
                  var args := JoinWith(argNames[..nArgs], ", ");
                  var header := HeaderLine(doc, name, args);
                  var call := CallLine(name, args);
                  var ret := ReturnLine(Returns(returnTypes));
                  '\n' !in header && '\n' !in call && '\n' !in ret ==>
                    Split(text, '\n') == ["", header, call, ret, ""])
  {
    if |argNames| >= nArgs {
      var args := JoinWith(argNames[..nArgs], ", ");
      var rets := Returns(returnTypes);
      if '\n' !in HeaderLine(doc, name, args) && '\n' !in CallLine(name, args) && '\n' !in ReturnLine(rets) {
        StubLines(doc, name, args, rets);
      }
    }
  }

  /** The argument text is the names joined with ", ": splitting it at the
      commas gives the first name and then every later name behind one space,
      so the names can be read back when none of them holds a comma. */
  lemma ArgumentsReadBack(argNames: seq<string>, nArgs: nat)
    requires 1 <= nArgs <= |argNames|
    requires forall i :: 0 <= i < nArgs ==> ',' !in argNames[i]
    ensures var parts := Split(JoinWith(argNames[..nArgs], ", "), ',');
            && |parts| == nArgs
            && parts[0] == argNames[0]
            && forall i :: 1 <= i < nArgs ==> parts[i] == " " + argNames[i]
  {
    var names := argNames[..nArgs];
    assert ", "[0] == ',' && ", "[1..] == " ";
    SplitJoinWith(names, ", ");
  }

  /** The return line lists conv(ret[i]) for every result i in order. */
  lemma ReturnsInOrder(returnTypes: seq<string>, i: nat)
    requires i < |returnTypes|
    ensures Conversions(returnTypes)[i] == Convert(returnTypes[i]) + "(ret[" + NatToString(i) + "])"
    ensures |Conversions(returnTypes)| == |returnTypes|
  {
  }

  /** A doc comment without '%' is written as it is. */
  lemma PlainCommentVerbatim(comment: seq<string>)
    requires forall i :: 0 <= i < |comment| ==> '%' !in comment[i]
    ensures FuncText("f", comment, [], 0, []) == FixedFuncText("f", comment, [], 0, [])
    ensures forall name, names, n, rts :: FuncText(name, comment, names, n, rts) == FixedFuncText(name, comment, names, n, rts)
  {
    NoPercentInDoc(comment);
    Printf0Plain(DocComment(comment));
  }

  lemma {:induction false} NoPercentInDoc(lines: seq<string>)
    requires forall i :: 0 <= i < |lines| ==> '%' !in lines[i]
    ensures '%' !in DocLines(lines) && '%' !in DocComment(lines)
    decreases |lines|
  {
    if |lines| > 0 {
      NoPercentInDoc(lines[..|lines| - 1]);
    }
  }

  /** Text without '%' in front of a format prints as itself. */
  lemma {:induction false} Printf0Prefix(a: string, f: string)
    requires '%' !in a
    ensures Printf0(a + f) == a + Printf0(f)
    decreases |a|
  {
    if |a| > 0 {
      assert (a + f)[0] == a[0] && (a + f)[1..] == a[1..] + f;
      assert '%' !in a[1..];
      Printf0Prefix(a[1..], f);
      assert [a[0]] + a[1..] == a;
    } else {
      assert a + f == f;
    }
  }

  /** A '%' whose verb is a newline, with nothing after it. */
  lemma Printf0NewlineVerb()
    ensures Printf0("%" + "\n") == "%!" + "\n" + "(MISSING)"
  {
    var f := "%" + "\n";
    assert f[0] == '%' && f[1] == '\n' && |f| == 2;
    assert f[1..] == "\n" && f[2..] == "";
    assert SpecLen("\n") == 0;
  }

  /** After text without '%', a '%' that ends a line. */
  lemma PercentAtLineEnd(pre: string)
    requires '%' !in pre
    ensures Printf0(pre + "%" + "\n") == pre + "%!" + "\n" + "(MISSING)"
  {
    Assoc(pre, "%", "\n");
    Printf0Prefix(pre, "%" + "\n");
    Printf0NewlineVerb();
  }

  /** As written, a '%' at the end of a comment line takes the line's newline
      as its verb and prints "%!\n(MISSING)" in place of "%\n". */
  lemma PercentSwallowsNewline(line: string)
    requires '%' !in line
    ensures Printf0(DocComment([line + "%"])) == "## " + line + "%!" + "\n" + "(MISSING)"
  {
    OneLineDoc(line + "%");
    Assoc("## ", line, "%");
    PercentAtLineEnd("## " + line);
  }

  /** The doc comment of a single line. */
  lemma OneLineDoc(l: string)
    ensures DocComment([l]) == "## " + l + "\n"
  {
    assert [l][..0] == [];
    assert DocLines([l]) == "# " + l + "\n";
  }

  /** A printed doc comment holding one newline breaks the header line in
      two: the text after the newline comes before "def". */
  lemma BrokenHeader(d0: string, d1: string, name: string)
    requires '\n' !in d0 && '\n' !in HeaderLine(d1, name, "") && '\n' !in name
    ensures Split(FuncTextWith(d0 + "\n" + d1, name, [], 0, []).0, '\n')
         == ["", d0, HeaderLine(d1, name, ""), CallLine(name, ""), ReturnLine(""), ""]
  {
    var nl := "\n";
    var open := DefOpen(d1, name);
    var rest := StubRest(name, "", "");
    assert JoinWith([][..0], ", ") == "" && Returns([]) == "";
    Regroup(d0, nl, d1, "def ", name, "(");
    assert DefOpen(d0 + nl + d1, name) == d0 + nl + open;
    var text := FuncTextWith(d0 + nl + d1, name, [], 0, []).0;
    assert text == nl + DefOpen(d0 + nl + d1, name) + rest;
    Regroup2(nl, d0, open, rest);
    assert '\n' !in CallLine(name, "") && '\n' !in ReturnLine("");
    StubLines(d1, name, "", "");
    var tail := Split(open + rest, '\n');
    SplitAround("", open + rest, '\n');
    assert nl + open + rest == "" + ['\n'] + (open + rest);
    assert Split(nl + open + rest, '\n') == [""] + tail;
    assert ([""] + tail)[1..] == tail;
    assert tail == [HeaderLine(d1, name, ""), CallLine(name, ""), ReturnLine(""), ""];
    SplitAround(d0, open + rest, '\n');
    SplitAround("", d0 + nl + (open + rest), '\n');
  }

  lemma Regroup(a: string, b: string, c: string, x: string, y: string, z: string)
    ensures a + b + c + x + y + z == a + b + (c + x + y + z)
  {
  }

  lemma Regroup2(nl: string, d0: string, open: string, rest: string)
    ensures nl + (d0 + nl + open) + rest == "" + nl + (d0 + nl + (open + rest))
    ensures nl + open + rest == "" + nl + (open + rest)
  {
  }

  /** So the header of a stub whose comment line ends in '%' starts with
      "(MISSING)" instead of "def", which is not valid Python. */
  lemma PercentBreaksStub(name: string, line: string)
    requires '%' !in line && '\n' !in line && '\n' !in name
    ensures Split(FuncText(name, [line + "%"], [], 0, []).0, '\n')
         == ["", "## " + line + "%!", HeaderLine("(MISSING)", name, ""), CallLine(name, ""), ReturnLine(""), ""]
  {
    PercentSwallowsNewline(line);
    var d0 := "## " + line + "%!";
    var d1 := "(MISSING)";
    var doc := Printf0(DocComment([line + "%"]));
    assert doc == d0 + "\n" + d1;
    assert FuncText(name, [line + "%"], [], 0, []) == FuncTextWith(doc, name, [], 0, []);
    assert '\n' !in d0 && '\n' !in HeaderLine(d1, name, "");
    BrokenHeader(d0, d1, name);
  }

  /** A doc comment is empty or ends with a newline. */
  lemma DocEndsLine(comment: seq<string>)
    ensures DocComment(comment) == "" <==> comment == []
    ensures comment != [] ==> DocComment(comment)[|DocComment(comment)| - 1] == '\n'
  {
    if |comment| > 0 {
      var init := comment[..|comment| - 1];
      assert DocComment(comment) == "#" + DocLines(init) + "# " + comment[|comment| - 1] + "\n";
    }
  }

  /** Whatever else happens, a stub opens with a blank line, then the printed
      doc comment, then "def ". */
  lemma OpensWithDoc(doc: string, name: string, argNames: seq<string>, nArgs: nat, returnTypes: seq<string>)
    ensures var text := FuncTextWith(doc, name, argNames, nArgs, returnTypes).0;
            && |text| >= 1 + |doc| + 4
            && text[..1 + |doc|] == "\n" + doc
            && text[1 + |doc|..1 + |doc| + 4] == "def "
  {
    var text := FuncTextWith(doc, name, argNames, nArgs, returnTypes).0;
    var pre := "\n" + doc;
    var tail := text[|pre| + 4 + |name| + 1..];
    assert text == pre + ("def " + name + "(" + tail);
  }

  /** As intended, the doc comment is written verbatim, and the "def" that
      follows it starts a line of its own. */
  lemma FixedStubKeepsComment(name: string, comment: seq<string>, argNames: seq<string>, nArgs: nat,
                              returnTypes: seq<string>)
    ensures var text := FixedFuncText(name, comment, argNames, nArgs, returnTypes).0;
            var k := 1 + |DocComment(comment)|;
            && text[..k] == "\n" + DocComment(comment)
            && text[k - 1] == '\n'
            && text[k..k + 4] == "def "
  {
    DocEndsLine(comment);
    OpensWithDoc(DocComment(comment), name, argNames, nArgs, returnTypes);
  }

  /** WriteFooter writes nothing. */
  method WriteFooter(out: Writer)
    ensures out.text == old(out.text)
  {
  }

  /** The pieces WriteFunc writes after "def name(" make up the rest of the stub. */
  lemma RestPieces(name: string, args: string, rets: string)
    ensures args + " ):\n" + CallLine(name, args) + "\n\treturn " + rets + "\n" == StubRest(name, args, rets)
  {
  }

  /** One more element of a prefix. */
  lemma JoinNext(parts: seq<string>, j: nat, sep: string)
    requires j < |parts|
    ensures JoinWith(parts[..j + 1], sep) == if j == 0 then parts[j] else JoinWith(parts[..j], sep) + sep + parts[j]
  {
    assert parts[..j + 1] == parts[..j] + [parts[j]];
    JoinWithSnoc(parts[..j], parts[j], sep);
  }

  /** The return loop of WriteFunc: conv(ret[i]) for every result, separated
      by ", ". */
  method WriteReturns(out: Writer, returnTypes: seq<string>)
    modifies out
    ensures out.text == old(out.text) + Returns(returnTypes)
  {
    ghost var start := out.text;
    for j := 0 to |returnTypes|
      invariant out.text == start + ReturnsUpTo(returnTypes, j)
    {
      if j != 0 {
        out.Write(", ");
        Assoc(start, ReturnsUpTo(returnTypes, j), ", ");
      }
      out.Write(Conversion(returnTypes, j));
      Assoc(start, if j == 0 then "" else ReturnsUpTo(returnTypes, j) + ", ", Conversion(returnTypes, j));
    }
  }

  /** The argument loop of WriteFunc: the first n names joined with ", ";
      `ok` is false when there are fewer than n names, where Go's index panics. */
  method JoinArgs(argNames: seq<string>, n: nat) returns (args: string, ok: bool)
    ensures ok <==> n <= |argNames|
    ensures ok ==> args == JoinWith(argNames[..n], ", ")
  {
    args := "";
    var i := 0;
    while i < n
      invariant 0 <= i <= n && i <= |argNames|
      invariant args == JoinWith(argNames[..i], ", ")
    {
      if i >= |argNames| {
        return args, false;
      }
      JoinNext(argNames, i, ", ");
      if i != 0 {
        args := args + ", ";
      }
      args := args + argNames[i];
      i := i + 1;
    }
    ok := true;
  }

  /** WriteFunc: writes the stub for one API method; a panic on the way is
      recovered and reported instead of propagated. */
  method WriteFunc(out: Writer, name: string, comment: seq<string>, argNames: seq<string>,
                   argTypes: seq<string>, returnTypes: seq<string>) returns (recovered: bool)
    modifies out
    ensures var (text, panicked) := FuncText(name, comment, argNames, |argTypes|, returnTypes);
            out.text == old(out.text) + text && recovered == panicked
  {
    ghost var start := out.text;
    out.Write("\n");
    var doc := PyDocComment(comment);
    out.Write(Printf0(doc));
    out.Write("def " + name + "(");
    ghost var open := "\n" + DefOpen(Printf0(doc), name);
    assert out.text == start + open;

    var args, ok := JoinArgs(argNames, |argTypes|);
    if !ok {
      return true;
    }
    ghost var rets := Returns(returnTypes);
    out.Write(args + " ):\n");
    out.Write(CallLine(name, args));
    out.Write("\n\treturn ");
    WriteReturns(out, returnTypes);
    out.Write("\n");
    RestPieces(name, args, rets);
    Regroup7(start, open, args + " ):\n", CallLine(name, args), "\n\treturn ", rets, "\n");
    recovered := false;
  }

  lemma Regroup7(a: string, b: string, c: string, d: string, e: string, f: string, g: string)
    ensures a + b + c + d + e + f + g == a + (b + (c + d + e + f + g))
  {
  }
}
