/** The class assembler of src/Stencil.php: a header (namespace, imports), a
    class line and a flat buffer of body lines, joined into the text of one
    PHP file. */
module Stencils {
  import opened PhpText
  import opened NameConversion
  import opened Literals
  import Comments
  import Methods

  /** One `use` import: the class name (already ucfirst-ed) and an optional
      alias. */
  datatype Import = Import(classname: string, alias: Option<string>)

  /** The argument of Stencil::implement, which accepts a string, an array of
      strings, or anything else. */
  datatype InterfaceArg = One(name: string) | Many(names: seq<string>) | Neither

  /** `use C;` or `use C as Alias;`, with the alias ucfirst-ed at render time. */
  function UseLine(imp: Import): (r: string)
    ensures StartsWith(r, "use " + imp.classname) && EndsWith(r, ";")
    ensures imp.alias.None? ==> r == "use " + imp.classname + ";"
    ensures imp.alias.Some? ==> EndsWith(r, " as " + Ucfirst(imp.alias.value) + ";")
    ensures imp.alias.Some? ==> r == "use " + imp.classname + (" as " + Ucfirst(imp.alias.value)) + ";"
  {
    var aliasPart := if imp.alias.Some? then " as " + Ucfirst(imp.alias.value) else "";
    ConcatEnds("use " + imp.classname, aliasPart, ";");
    "use " + imp.classname + aliasPart + ";"
  }

  function UseLines(imports: seq<Import>): (r: seq<string>)
    ensures |r| == |imports|
    ensures forall j :: 0 <= j < |imports| ==> r[j] == UseLine(imports[j])
  {
    seq(|imports|, j requires 0 <= j < |imports| => UseLine(imports[j]))
  }

  /** The part of the class line before any `extends`. */
  function ClassHead(isAbstract: bool, classname: string): string {
    (if isAbstract then "abstract " else "") + "class " + classname
  }

  /** `[abstract ]class Name[ extends P][ implements I1, I2]`: the `extends`
      part appears exactly when a parent is set and comes before the
      `implements` part, which appears exactly when an interface is listed. */
  function ClassLine(isAbstract: bool, classname: string, parent: Option<string>,
                     interfaces: seq<string>): (r: string)
    ensures StartsWith(r, "abstract ") <==> isAbstract
    ensures StartsWith(r, ClassHead(isAbstract, classname))
    ensures parent.Some? ==> StartsWith(r, ClassHead(isAbstract, classname) + (" extends " + parent.value))
    ensures interfaces != [] ==> EndsWith(r, " implements " + Implode(", ", interfaces))
    ensures interfaces == [] && parent.Some? ==> r == ClassHead(isAbstract, classname) + (" extends " + parent.value)
    ensures interfaces == [] && parent.None? ==> r == ClassHead(isAbstract, classname)
    ensures interfaces != [] && parent.None? ==>
              r == ClassHead(isAbstract, classname) + (" implements " + Implode(", ", interfaces))
    ensures interfaces != [] && parent.Some? ==>
              r == ClassHead(isAbstract, classname) + (" extends " + parent.value)
                   + (" implements " + Implode(", ", interfaces))
  {
    var head := ClassHead(isAbstract, classname);
    var ext := if parent.Some? then " extends " + parent.value else "";
    var imp := if interfaces != [] then " implements " + Implode(", ", interfaces) else "";
    ConcatEnds(head, ext, imp);
    ClassHeadAbstract(isAbstract, classname, head + ext + imp);
    head + ext + imp
  }

  /** Any text that starts with the class head starts with `abstract `
      exactly when the class is abstract. */
  lemma ClassHeadAbstract(isAbstract: bool, classname: string, s: string)
    requires StartsWith(s, ClassHead(isAbstract, classname))
    ensures StartsWith(s, "abstract ") <==> isAbstract
  {
    var head := ClassHead(isAbstract, classname);
    if isAbstract {
      assert head[..9] == "abstract ";
      assert s[..9] == head[..9];
    } else if |s| >= 9 {
      assert s[0] == head[0] == 'c' && s[..9][0] == s[0];
    }
  }

  /** The PHP tag, then the namespace line exactly when a namespace is set. */
  function HeaderPart(eol: string, namespace: Option<string>): (r: seq<string>)
    ensures |r| == if namespace.Some? then 2 else 1
    ensures r[0] == "<?php " + eol
    ensures namespace.Some? ==> r[1] == "namespace " + namespace.value + ";" + eol
  {
    ["<?php " + eol] + (if namespace.Some? then ["namespace " + namespace.value + ";" + eol] else [])
  }

  /** One `use` line per import, in order, and one empty segment after them;
      nothing at all without imports. */
  function ImportPart(imports: seq<Import>): (r: seq<string>)
    ensures |r| == if imports != [] then |imports| + 1 else 0
    ensures forall j :: 0 <= j < |imports| ==> r[j] == UseLine(imports[j])
    ensures imports != [] ==> r[|imports|] == ""
  {
    if imports != [] then UseLines(imports) + [""] else []
  }

  /** The class line, `{`, the body lines in order and `}`. */
  function ClassPart(classLine: string, lines: seq<string>): (r: seq<string>)
    ensures |r| == 3 + |lines| && r[0] == classLine && r[1] == "{" && r[|r| - 1] == "}"
    ensures r[2..|r| - 1] == lines
  {
    var r := [classLine, "{"] + lines + ["}"];
    assert r[2..|r| - 1] == lines;
    r
  }

  /** Stencil::template's segments for the given fields, before they are
      joined by the line separator `eol`. */
  function FileSegments(eol: string, namespace: Option<string>, imports: seq<Import>,
                        isAbstract: bool, classname: string, parent: Option<string>,
                        interfaces: seq<string>, lines: seq<string>): (r: seq<string>)
    ensures |r| == 4 + (if namespace.Some? then 1 else 0) + (if imports != [] then |imports| + 1 else 0)
                   + |lines|
  {
    HeaderPart(eol, namespace) + ImportPart(imports)
    + ClassPart(ClassLine(isAbstract, classname, parent, interfaces), lines)
  }

  /** The file starts with the PHP tag and, exactly when a namespace is set,
      the namespace line; it has four segments besides the namespace line,
      the import block and the body lines. */
  lemma FileSegmentsHeader(eol: string, namespace: Option<string>, imports: seq<Import>,
                           isAbstract: bool, classname: string, parent: Option<string>,
                           interfaces: seq<string>, lines: seq<string>)
    ensures var r := FileSegments(eol, namespace, imports, isAbstract, classname, parent, interfaces, lines);
            && |r| == 4 + (if namespace.Some? then 1 else 0) + (if imports != [] then |imports| + 1 else 0) + |lines|
            && r[0] == "<?php " + eol
            && (namespace.Some? ==> r[1] == "namespace " + namespace.value + ";" + eol)
  {
    var header := HeaderPart(eol, namespace);
    var rest := ImportPart(imports) + ClassPart(ClassLine(isAbstract, classname, parent, interfaces), lines);
    assert FileSegments(eol, namespace, imports, isAbstract, classname, parent, interfaces, lines) == header + rest;
  }

  /** After the header come the `use` lines of the imports, in order, and
      exactly one empty segment, exactly when there are imports. */
  lemma FileSegmentsImports(eol: string, namespace: Option<string>, imports: seq<Import>,
                            isAbstract: bool, classname: string, parent: Option<string>,
                            interfaces: seq<string>, lines: seq<string>)
    ensures var r := FileSegments(eol, namespace, imports, isAbstract, classname, parent, interfaces, lines);
            var k := if namespace.Some? then 1 else 0;
            && |r| > k + |imports| + 1
            && r[1 + k..1 + k + |imports|] == UseLines(imports)
            && (imports != [] ==> r[1 + k + |imports|] == "")
  {
    var header := HeaderPart(eol, namespace);
    var uses := ImportPart(imports);
    var tail := uses + ClassPart(ClassLine(isAbstract, classname, parent, interfaces), lines);
    var r := header + tail;
    assert FileSegments(eol, namespace, imports, isAbstract, classname, parent, interfaces, lines) == r;
    assert r[|header|..] == tail;
    if imports != [] {
      assert uses == UseLines(imports) + [""];
      assert tail[..|imports|] == UseLines(imports);
      assert tail[|imports|] == "";
    }
  }

  /** The file ends with the class line, `{`, every body line in order and
      `}`. */
  lemma FileSegmentsClass(eol: string, namespace: Option<string>, imports: seq<Import>,
                          isAbstract: bool, classname: string, parent: Option<string>,
                          interfaces: seq<string>, lines: seq<string>)
    ensures var r := FileSegments(eol, namespace, imports, isAbstract, classname, parent, interfaces, lines);
            var n := |r| - |lines| - 3;
            && n >= 1
            && r[n] == ClassLine(isAbstract, classname, parent, interfaces)
            && r[n + 1] == "{"
            && r[n + 2..|r| - 1] == lines
            && r[|r| - 1] == "}"
  {
    var front := HeaderPart(eol, namespace) + ImportPart(imports);
    var body := ClassPart(ClassLine(isAbstract, classname, parent, interfaces), lines);
    var r := front + body;
    assert FileSegments(eol, namespace, imports, isAbstract, classname, parent, interfaces, lines) == r;
    assert r[|front|..] == body;
    assert r[|front| + 2..|r| - 1] == body[2..|body| - 1];
  }

  /** The file text opens with the PHP tag and closes with the class's
      closing brace. */
  lemma FileTextEnds(eol: string, namespace: Option<string>, imports: seq<Import>,
                     isAbstract: bool, classname: string, parent: Option<string>,
                     interfaces: seq<string>, lines: seq<string>)
    ensures var text := Implode(eol, FileSegments(eol, namespace, imports, isAbstract, classname,
                                                  parent, interfaces, lines));
            StartsWith(text, "<?php " + eol) && EndsWith(text, "}")
  {
    ImplodeEnds(eol, FileSegments(eol, namespace, imports, isAbstract, classname, parent, interfaces, lines));
  }

  /** `const NAME = value;`: the name in capitals, booleans and strings
      formatted as for properties, everything else converted as PHP converts
      it to a string. */
  function ConstantLine(name: string, v: Literal): (r: string)
    ensures |r| == |name| + |ConstantText(v)| + 10
    ensures StartsWith(r, "const ") && EndsWith(r, ";")
    ensures r[6..6 + |name|] == Upper(name)
    ensures forall i :: 6 <= i < 6 + |name| ==> !IsLowerAscii(r[i])
    ensures r[6 + |name|..|r| - 1] == " = " + ConstantText(v)
  {
    var head := "const " + Upper(name);
    assert head[..6] == "const " && head[6..] == Upper(name);
    Declaration(head, " = " + ConstantText(v))
  }

  /** A head and a value part closed by `;`; both parts can be read back. */
  function Declaration(head: string, rest: string): (r: string)
    ensures StartsWith(r, head) && EndsWith(r, ";")
    ensures |r| == |head| + |rest| + 1 && r[..|head|] == head && r[|head|..|r| - 1] == rest
  {
    var r := head + rest + ";";
    assert r[..|head|] == head;
    assert r[|head|..|r| - 1] == rest;
    r
  }

  /** `vis[ static] $key`, the part of a property declaration before its
      value. */
  function PropertyHead(visibility: string, isStatic: bool, key: string): string {
    visibility + (if isStatic then " static" else "") + " $" + key
  }

  /** The head starts with the visibility, has ` static` right after it
      exactly for a static property, and ends with `$` and the key. */
  lemma PropertyHeadParts(visibility: string, isStatic: bool, key: string)
    ensures var h := PropertyHead(visibility, isStatic, key);
      StartsWith(h, visibility) && EndsWith(h, " $" + key)
      && |h| == |visibility| + (if isStatic then 7 else 0) + 2 + |key|
      && (isStatic ==> StartsWith(h, visibility + " static"))
  {
    var st := if isStatic then " static" else "";
    ConcatEnds(visibility, st, " $" + key);
    assert PropertyHead(visibility, isStatic, key) == visibility + st + (" $" + key);
  }

  /** The property declaration `vis[ static] $key[ = value];`. */
  function DeclarationLine(visibility: string, isStatic: bool, key: string, v: Literal): string {
    Declaration(PropertyHead(visibility, isStatic, key), DefaultSuffix(v))
  }

  /** The declaration is the head, then ` = ` and the formatted value unless
      the value is null, then `;`; head and value read back from it. */
  lemma DeclarationLineParts(visibility: string, isStatic: bool, key: string, v: Literal)
    ensures var r := DeclarationLine(visibility, isStatic, key, v);
      var head := PropertyHead(visibility, isStatic, key);
      StartsWith(r, head) && EndsWith(r, ";")
      && r[|head|..|r| - 1] == DefaultSuffix(v)
      && (v.Null? <==> |r| == |head| + 1)
  {
  }

  /** Stencil::addVariable's line: none unless the lower-cased visibility
      is public, private or protected; otherwise the head in the lower-cased
      visibility with the snake_case name, then the ` = value` part (empty
      for null), then `;`. */
  function VariableLine(naming: Naming, name: string, visibility: string, v: Literal,
                        isStatic: bool): (r: Option<string>)
    ensures r.Some? <==> IsVisibility(Lower(visibility))
    ensures r.Some? ==>
              var head := PropertyHead(Lower(visibility), isStatic, naming.snake(name));
              && |r.value| == |head| + |DefaultSuffix(v)| + 1
              && StartsWith(r.value, head) && EndsWith(r.value, ";")
              && r.value[|head|..|r.value| - 1] == DefaultSuffix(v)
  {
    var vis := Lower(visibility);
    if IsVisibility(vis) then Some(DeclarationLine(vis, isStatic, naming.snake(name), v)) else None
  }

  /** A visibility keyword written in lower case passes the check and is
      used as it is. */
  lemma KeywordVariableLine(naming: Naming, name: string, vis: string, v: Literal, isStatic: bool)
    requires vis == "public" || vis == "private" || vis == "protected"
    ensures VariableLine(naming, name, vis, v, isStatic) == Some(DeclarationLine(vis, isStatic, naming.snake(name), v))
  {
    VisibilityKeywordsLower(vis);
  }

  /** Every line given a prefix of n spaces. */
  function Indented(n: nat, ls: seq<string>): (r: seq<string>)
    ensures |r| == |ls|
    ensures forall j :: 0 <= j < |ls| ==> r[j] == Spaces(n) + ls[j]
  {
    seq(|ls|, j requires 0 <= j < |ls| => Spaces(n) + ls[j])
  }

  /** n empty lines. */
  function Blanks(n: nat): (r: seq<string>)
    ensures |r| == n && forall j :: 0 <= j < n ==> r[j] == ""
  {
    seq(n, _ => "")
  }

  /** Stencil::generate on a file system given as a map from paths to file
      contents: a file that exists is left alone; otherwise it is created
      with the text. */
  function WriteIfAbsent(files: map<string, string>, path: string, text: string): (r: map<string, string>)
    ensures path in r && r[path] == (if path in files then files[path] else text)
    ensures r.Keys == files.Keys + {path}
    ensures forall p :: p in files ==> p in r && r[p] == files[p]
  {
    if path in files then files else files[path := text]
  }

  /** Generating twice writes the file once: the second call changes
      nothing, whatever text it would have written. */
  lemma WriteIfAbsentOnce(files: map<string, string>, path: string, text1: string, text2: string)
    ensures WriteIfAbsent(WriteIfAbsent(files, path, text1), path, text2) == WriteIfAbsent(files, path, text1)
  {
  }

  class Stencil {
    /** The case-conversion collaborator for class, file and property names. */
    const naming: Naming
    var filename: string
    var namespace: Option<string>
    var imports: seq<Import>
    var isAbstract: bool
    var classname: string
    var parent: Option<string>
    var interfaces: seq<string>
    /** The body buffer that raw, lineBreak and every add method append to. */
    var lines: seq<string>
    /** The default number of spaces before a body line. */
    var indention: int

    /** `new Stencil($name)`: the file name is the PascalCase name, the class
        name only ucfirst-ed; everything else empty. */
    constructor (naming: Naming, name: string)
      ensures this.naming == naming && filename == naming.pascal(name) && classname == Ucfirst(name)
      ensures namespace.None? && imports == [] && !isAbstract && parent.None? && interfaces == []
      ensures lines == [] && indention == 0
    {
      this.naming := naming;
      filename := naming.pascal(name);
      classname := Ucfirst(name);
      namespace := None;
      imports := [];
      isAbstract := false;
      parent := None;
      interfaces := [];
      lines := [];
      indention := 0;
    }

    /** The indentation a call with argument i uses: i itself, or the default
        when i is negative. */
    function Indent(i: int): (r: int)
      reads this`indention
      ensures i >= 0 ==> r == i
      ensures i < 0 ==> r == indention
      ensures r >= 0 <==> i >= 0 || indention >= 0
    {
      if i < 0 then indention else i
    }

    /** The default indentation is given in levels of four spaces. */
    method SetIndention(n: int)
      modifies this`indention
      ensures indention == 4 * n
    {
      indention := n * 4;
    }

    method SetNamespace(ns: string)
      modifies this`namespace
      ensures namespace == Some(ReplaceSlashes(ns))
    {
      namespace := Some(ReplaceSlashes(ns));
    }

    method SetAsAbstract()
      modifies this`isAbstract
      ensures isAbstract
    {
      isAbstract := true;
    }

    /** Unlike the constructor, setClassname converts to PascalCase. */
    method SetClassname(c: string)
      modifies this`classname
      ensures classname == naming.pascal(c)
    {
      classname := naming.pascal(c);
    }

    /** The parent is ucfirst-ed, then its slashes turned into backslashes. */
    method Extends(p: string)
      modifies this`parent
      ensures parent == Some(ReplaceSlashes(Ucfirst(p)))
    {
      parent := Some(ReplaceSlashes(Ucfirst(p)));
    }

    /** Appends an import; the same class may be imported more than once. */
    method Use(c: string, alias: Option<string>)
      modifies this`imports
      ensures imports == old(imports) + [Import(Ucfirst(c), alias)]
    {
      imports := imports + [Import(Ucfirst(c), alias)];
    }

    /** A single name is appended ucfirst-ed; a list is appended unchanged,
        in order; anything else changes nothing. */
    method Implement(arg: InterfaceArg)
      modifies this`interfaces
      ensures arg.One? ==> interfaces == old(interfaces) + [Ucfirst(arg.name)]
      ensures arg.Many? ==> interfaces == old(interfaces) + arg.names
      ensures arg.Neither? ==> interfaces == old(interfaces)
    {
      match arg
      case One(name) => interfaces := interfaces + [Ucfirst(name)];
      case Many(names) => interfaces := interfaces + names;
      case Neither =>
    }

    /** Appends one body line: `i` spaces, or the default indentation when
        `i` is negative, then the text.  (PHP's str_repeat refuses a negative
        count, hence the requirement.) */
    method Raw(s: string, i: int)
      requires i >= 0 || indention >= 0
      modifies this`lines
      ensures lines == old(lines) + [Spaces(Indent(i)) + s]
    {
      var n := i;
      if n < 0 {
        n := indention;
      }
      lines := lines + [Spaces(n) + s];
    }

    method AddConstant(name: string, v: Literal, i: int)
      requires i >= 0 || indention >= 0
      modifies this`lines
      ensures lines == old(lines) + [Spaces(Indent(i)) + ConstantLine(name, v)]
    {
      var n := Indent(i);
      var value: string;
      match v {
        case Bool(b) => value := if b then "true" else "false";
        case Str(s) => value := "\"" + AddSlashes(s) + "\"";
        case Int(k) => value := Decimal(k);
        case Arr(_) => value := "Array";
        case Null => value := "";
      }
      assert value == ConstantText(v);
      Raw("const " + Upper(name) + (" = " + value) + ";", n);
    }

    /** The property text addVariable builds for a visibility already known
        to be valid. */
    method DeclarationText(vis: string, name: string, v: Literal, isStatic: bool) returns (template: string)
      ensures template == DeclarationLine(vis, isStatic, naming.snake(name), v)
    {
      template := vis;
      if isStatic {
        template := template + " static";
      }
      template := template + " $" + naming.snake(name);
      assert template == PropertyHead(vis, isStatic, naming.snake(name));
      if !v.Null? {
        template := template + " = " + Formatted(v);
      }
      assert template == PropertyHead(vis, isStatic, naming.snake(name)) + DefaultSuffix(v);
      template := template + ";";
    }

    /** Appends the declaration line when the visibility is valid, and
        leaves the buffer as it was otherwise. */
    method AddVariable(name: string, visibility: string, v: Literal, isStatic: bool, i: int)
      requires IsVisibility(Lower(visibility)) ==> i >= 0 || indention >= 0
      modifies this`lines
      ensures VariableLine(naming, name, visibility, v, isStatic).None? ==> lines == old(lines)
      ensures VariableLine(naming, name, visibility, v, isStatic).Some? ==>
                lines == old(lines) + [Spaces(Indent(i)) + VariableLine(naming, name, visibility, v, isStatic).value]
    {
      var n := Indent(i);
      var vis := Lower(visibility);
      if IsVisibility(vis) {
        var template := DeclarationText(vis, name, v, isStatic);
        Raw(template, n);
      }
    }

    method AddPublicVariable(name: string, v: Literal, isStatic: bool, i: int)
      requires i >= 0 || indention >= 0
      modifies this`lines
      ensures lines == old(lines) + [Spaces(Indent(i)) + DeclarationLine("public", isStatic, naming.snake(name), v)]
    {
      KeywordVariableLine(naming, name, "public", v, isStatic);
      AddVariable(name, "public", v, isStatic, Indent(i));
    }

    method AddPublicStaticVariable(name: string, v: Literal, i: int)
      requires i >= 0 || indention >= 0
      modifies this`lines
      ensures lines == old(lines) + [Spaces(Indent(i)) + DeclarationLine("public", true, naming.snake(name), v)]
    {
      AddPublicVariable(name, v, true, Indent(i));
    }

    method AddNullPublicVariable(name: string, isStatic: bool, i: int)
      requires i >= 0 || indention >= 0
      modifies this`lines
      ensures lines == old(lines) + [Spaces(Indent(i)) + DeclarationLine("public", isStatic, naming.snake(name), Null)]
    {
      AddPublicVariable(name, Null, isStatic, Indent(i));
    }

    method AddPrivateVariable(name: string, v: Literal, isStatic: bool, i: int)
      requires i >= 0 || indention >= 0
      modifies this`lines
      ensures lines == old(lines) + [Spaces(Indent(i)) + DeclarationLine("private", isStatic, naming.snake(name), v)]
    {
      KeywordVariableLine(naming, name, "private", v, isStatic);
      AddVariable(name, "private", v, isStatic, Indent(i));
    }

    method AddPrivateStaticVariable(name: string, v: Literal, i: int)
      requires i >= 0 || indention >= 0
      modifies this`lines
      ensures lines == old(lines) + [Spaces(Indent(i)) + DeclarationLine("private", true, naming.snake(name), v)]
    {
      AddPrivateVariable(name, v, true, Indent(i));
    }

    method AddNullPrivateVariable(name: string, isStatic: bool, i: int)
      requires i >= 0 || indention >= 0
      modifies this`lines
      ensures lines == old(lines) + [Spaces(Indent(i)) + DeclarationLine("private", isStatic, naming.snake(name), Null)]
    {
      AddPrivateVariable(name, Null, isStatic, Indent(i));
    }

    method AddProtectedVariable(name: string, v: Literal, isStatic: bool, i: int)
      requires i >= 0 || indention >= 0
      modifies this`lines
      ensures lines == old(lines) + [Spaces(Indent(i)) + DeclarationLine("protected", isStatic, naming.snake(name), v)]
    {
      KeywordVariableLine(naming, name, "protected", v, isStatic);
      AddVariable(name, "protected", v, isStatic, Indent(i));
    }

    method AddProtectedStaticVariable(name: string, v: Literal, i: int)
      requires i >= 0 || indention >= 0
      modifies this`lines
      ensures lines == old(lines) + [Spaces(Indent(i)) + DeclarationLine("protected", true, naming.snake(name), v)]
    {
      AddProtectedVariable(name, v, true, Indent(i));
    }

    method AddNullProtectedVariable(name: string, isStatic: bool, i: int)
      requires i >= 0 || indention >= 0
      modifies this`lines
      ensures lines == old(lines) + [Spaces(Indent(i)) + DeclarationLine("protected", isStatic, naming.snake(name), Null)]
    {
      AddProtectedVariable(name, Null, isStatic, Indent(i));
    }

    /** Appends n empty lines, none when n is not positive. */
    method LineBreak(n: int)
      modifies this`lines
      ensures lines == old(lines) + Blanks(if n < 0 then 0 else n)
    {
      var i := 1;
      while i <= n
        invariant 1 <= i && (n >= 0 ==> i <= n + 1) && (n < 0 ==> i == 1)
        invariant lines == old(lines) + Blanks(i - 1)
        decreases n - i + 1
      {
        lines := lines + [""];
        assert Blanks(i) == Blanks(i - 1) + [""];
        i := i + 1;
      }
    }

    /** A `// ` comment line with the message ucfirst-ed. */
    method AddLineComment(message: string, i: int)
      requires i >= 0 || indention >= 0
      modifies this`lines
      ensures lines == old(lines) + [Spaces(Indent(i)) + ("// " + Ucfirst(message))]
    {
      Raw("// " + Ucfirst(message), i);
    }

    /** Appends every line of the method's templates, in order, each at the
        same indentation. */
    method AddMethod(m: Methods.Method, i: int)
      requires i >= 0 || indention >= 0
      modifies this`lines
      ensures lines == old(lines) + Indented(Indent(i), m.Lines())
    {
      var n := Indent(i);
      var templates := m.Templates();
      AddAll(templates, n);
    }

    /** Appends every line of the doc block's templates, in order, each at
        the same indentation. */
    method AddComment(c: Comments.Comment, i: int)
      requires i >= 0 || indention >= 0
      modifies this`lines
      ensures lines == old(lines) + Indented(Indent(i), c.Lines())
    {
      var n := Indent(i);
      var templates := c.Templates();
      AddAll(templates, n);
    }

    /** The loop shared by addMethod and addComment: raw() on each line. */
    method AddAll(templates: seq<string>, n: nat)
      modifies this`lines
      ensures lines == old(lines) + Indented(n, templates)
    {
      var k := 0;
      while k < |templates|
        invariant 0 <= k <= |templates|
        invariant lines == old(lines) + Indented(n, templates[..k])
      {
        Raw(templates[k], n);
        assert Indented(n, templates[..k + 1]) == Indented(n, templates[..k]) + [Spaces(n) + templates[k]];
        k := k + 1;
      }
      assert templates[..k] == templates;
    }

    /** The segments template() joins, for the current fields: the PHP tag
        first, the body lines just before the closing brace. */
    function Segments(eol: string): (r: seq<string>)
      reads this
      ensures |r| >= 4 + |lines| && r[0] == "<?php " + eol && r[|r| - 1] == "}"
      ensures r[|r| - 1 - |lines|..|r| - 1] == lines
    {
      FileSegmentsHeader(eol, namespace, imports, isAbstract, classname, parent, interfaces, lines);
      FileSegmentsClass(eol, namespace, imports, isAbstract, classname, parent, interfaces, lines);
      FileSegments(eol, namespace, imports, isAbstract, classname, parent, interfaces, lines)
    }

    /** The class line template() writes, built piece by piece. */
    method ClassLineText() returns (template: string)
      ensures template == ClassLine(isAbstract, classname, parent, interfaces)
    {
      template := "";
      if isAbstract {
        template := template + "abstract ";
      }
      template := template + "class " + classname;
      assert template == ClassHead(isAbstract, classname);
      if parent.Some? {
        template := template + (" extends " + parent.value);
      }
      if interfaces != [] {
        template := template + (" implements " + Implode(", ", interfaces));
      }
    }

    /** The header segments: the PHP tag, the namespace line and the
        import block. */
    method HeaderSegments(eol: string) returns (segments: seq<string>)
      ensures segments == HeaderPart(eol, namespace) + ImportPart(imports)
    {
      segments := ["<?php " + eol];
      if namespace.Some? {
        segments := segments + ["namespace " + namespace.value + ";" + eol];
      }
      ghost var header := segments;
      if imports != [] {
        var j := 0;
        while j < |imports|
          invariant 0 <= j <= |imports|
          invariant segments == header + UseLines(imports[..j])
        {
          var template := "use " + imports[j].classname;
          if imports[j].alias.Some? {
            template := template + " as " + Ucfirst(imports[j].alias.value);
          }
          template := template + ";";
          assert template == UseLine(imports[j]);
          assert UseLines(imports[..j + 1]) == UseLines(imports[..j]) + [UseLine(imports[j])];
          segments := segments + [template];
          j := j + 1;
        }
        assert imports[..j] == imports;
        segments := segments + [""];
      }
    }

    /** Stencil::template: the file text, the segments joined by `eol`.  It
        changes no field. */
    method Template(eol: string) returns (text: string)
      ensures text == Implode(eol, Segments(eol))
    {
      var segments := HeaderSegments(eol);
      ghost var header := segments;
      var template := ClassLineText();
      segments := segments + [template, "{"];
      ghost var front := segments;
      var k := 0;
      while k < |lines|
        invariant 0 <= k <= |lines|
        invariant segments == front + lines[..k]
      {
        segments := segments + [lines[k]];
        assert lines[..k + 1] == lines[..k] + [lines[k]];
        k := k + 1;
      }
      assert lines[..k] == lines;
      segments := segments + ["}"];
      assert segments == header + ClassPart(template, lines);
      text := Implode(eol, segments);
    }

    /** With no change in between, template() gives the same text twice. */
    method TemplateTwice(eol: string) returns (first: string, second: string)
      ensures first == second
      ensures first == Implode(eol, Segments(eol))
    {
      first := Template(eol);
      second := Template(eol);
    }

    /** The path generate() writes to. */
    function TargetPath(path: string): (r: string)
      reads this
      ensures StartsWith(r, path) && EndsWith(r, ".php")
      ensures |r| == |path| + |Ucfirst(filename)| + 4 && r[|path|..|r| - 4] == Ucfirst(filename)
    {
      var name := Ucfirst(filename);
      var r := path + name + ".php";
      assert r[..|path|] == path;
      assert r[|path|..|r| - 4] == name;
      r
    }

    /** Stencil::generate: writes the template to the target path unless a
        file is already there. */
    method Generate(path: string, eol: string, files: map<string, string>) returns (written: map<string, string>)
      ensures written == WriteIfAbsent(files, TargetPath(path), Implode(eol, Segments(eol)))
    {
      var target := path + Ucfirst(filename) + ".php";
      if target in files {
        written := files;
      } else {
        var text := Template(eol);
        written := files[target := text];
      }
    }
  }
}
