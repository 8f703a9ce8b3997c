/** The method assembler of src/Method.php: a signature line and, unless the
    method is abstract, a `{ ... }` body block. */
module Methods {
  import opened PhpText
  import opened NameConversion
  import opened Literals
  import opened OrderedMap

  /** One argument: its default value (`Null` when there is none) and its
      optional type hint. */
  datatype Arg = Arg(value: Literal, dataType: Option<string>)

  /** `[type ]$key[ = default]`. */
  function ArgText(key: string, a: Arg): string {
    (if a.dataType.Some? then a.dataType.value + " " else "") + "$" + key + DefaultSuffix(a.value)
  }

  /** An argument's text: the type hint and a space when there is one, the
      variable, and ` = ` with the formatted default unless the default is
      null, and nothing else. */
  lemma ArgTextParts(key: string, a: Arg)
    ensures var r := ArgText(key, a);
      (a.dataType.Some? ==> StartsWith(r, a.dataType.value + " $" + key))
      && (a.dataType.None? ==> StartsWith(r, "$" + key))
      && EndsWith(r, "$" + key + DefaultSuffix(a.value))
      && |r| == (if a.dataType.Some? then |a.dataType.value| + 1 else 0) + 1 + |key|
                + |DefaultSuffix(a.value)|
  {
    var hint := if a.dataType.Some? then a.dataType.value + " " else "";
    ConcatEnds(hint, "$" + key, DefaultSuffix(a.value));
    if a.dataType.Some? {
      assert hint + ("$" + key) == a.dataType.value + " $" + key;
    }
  }

  /** The argument texts in insertion order, one per argument. */
  function ArgTexts(args: Entries<Arg>): (r: seq<string>)
    ensures |r| == |args|
  {
    if args == [] then []
    else ArgTexts(args[..|args| - 1]) + [ArgText(args[|args| - 1].0, args[|args| - 1].1)]
  }

  /** The j-th argument text is the text of the j-th argument. */
  lemma {:induction false} ArgTextAt(args: Entries<Arg>, j: nat)
    requires j < |args|
    ensures ArgTexts(args)[j] == ArgText(args[j].0, args[j].1)
  {
    if j < |args| - 1 {
      var init := args[..|args| - 1];
      ArgTextAt(init, j);
      assert init[j] == args[j];
    }
  }

  lemma ArgTextsAt(args: Entries<Arg>)
    ensures forall j :: 0 <= j < |args| ==> ArgTexts(args)[j] == ArgText(args[j].0, args[j].1)
  {
    forall j | 0 <= j < |args|
      ensures ArgTexts(args)[j] == ArgText(args[j].0, args[j].1)
    {
      ArgTextAt(args, j);
    }
  }

  /** One round of the argument loop of Method::templates: the optional type
      hint, `$key`, the optional default, then ", ". */
  method AppendArgument(template: string, key: string, arg: Arg) returns (t: string)
    ensures t == template + ArgText(key, arg) + ", "
  {
    t := template;
    if arg.dataType.Some? {
      t := t + arg.dataType.value + " ";
    }
    t := t + "$" + key;
    if !arg.value.Null? {
      t := t + " = " + Formatted(arg.value);
    }
    t := t + ", ";
  }

  /** Writing one more argument extends the "text, " run by that argument. */
  lemma AppendArgumentStep(head: string, args: Entries<Arg>, i: nat)
    requires i < |args|
    ensures head + Terminated(", ", ArgTexts(args[..i])) + ArgText(args[i].0, args[i].1) + ", "
         == head + Terminated(", ", ArgTexts(args[..i + 1]))
  {
    var prev, x := ArgTexts(args[..i]), ArgText(args[i].0, args[i].1);
    assert ArgTexts(args[..i + 1]) == prev + [x] by {
      assert args[..i + 1][..i] == args[..i];
    }
    TerminatedSnoc(", ", prev, x);
    AppendAssoc(head, Terminated(", ", prev), x, ", ");
  }

  lemma AppendAssoc(a: string, b: string, c: string, d: string)
    ensures a + b + c + d == a + (b + c + d)
  {
  }

  /** The argument loop of Method::templates: each argument followed by
      ", ", then the last two characters cut off, which leaves the argument
      texts joined by ", " after the text written so far. */
  method AppendArguments(head: string, args: Entries<Arg>) returns (template: string)
    ensures template == head + Implode(", ", ArgTexts(args))
  {
    template := head;
    if args != [] {
      var i := 0;
      while i < |args|
        invariant 0 <= i <= |args|
        invariant template == head + Terminated(", ", ArgTexts(args[..i]))
      {
        template := AppendArgument(template, args[i].0, args[i].1);
        AppendArgumentStep(head, args, i);
        i := i + 1;
      }
      ghost var joined := head + Implode(", ", ArgTexts(args));
      assert template == joined + ", " by {
        assert args[..i] == args;
        TerminatedIsImplode(", ", ArgTexts(args));
      }
      template := template[..|template| - 2];
      assert template == joined;
    }
  }

  /** The signature: visibility, the optional `abstract` and `static`
      keywords in that order, `function`, the camelCase name and the argument
      list joined by ", " in insertion order; an abstract signature ends the
      statement with `;`. */
  function Signature(visibility: string, isAbstract: bool, isStatic: bool,
                     name: string, args: Entries<Arg>): (r: string)
    ensures StartsWith(r, visibility + " " + (if isAbstract then "abstract " else "")
                          + (if isStatic then "static " else "") + "function " + name + "(")
    ensures isAbstract ==> EndsWith(r, ");")
    ensures !isAbstract ==> EndsWith(r, ")")
    ensures args == [] ==> r == visibility + " " + (if isAbstract then "abstract " else "")
                               + (if isStatic then "static " else "") + "function " + name + "()"
                               + (if isAbstract then ";" else "")
    ensures var head := visibility + " " + (if isAbstract then "abstract " else "")
                        + (if isStatic then "static " else "") + "function " + name + "(";
            var close := if isAbstract then 2 else 1;
            |r| == |head| + |Implode(", ", ArgTexts(args))| + close
            && r[|head|..|r| - close] == Implode(", ", ArgTexts(args))
  {
    var head := visibility + " " + (if isAbstract then "abstract " else "")
                + (if isStatic then "static " else "") + "function " + name + "(";
    var list := Implode(", ", ArgTexts(args));
    var r := head + list + (if isAbstract then ");" else ")");
    assert r[..|head|] == head;
    assert r[|head|..|head| + |list|] == list;
    r
  }

  /** Adding an argument whose name is already present replaces its default
      and type in place: arguments a, b, then a again render as the new a
      followed by b. */
  lemma ReAddedArgumentKeepsPlace(a: string, b: string, x: Arg, y: Arg, z: Arg)
    requires a != b
    ensures Implode(", ", ArgTexts(Put(Put(Put([], a, x), b, y), a, z)))
            == ArgText(a, z) + ", " + ArgText(b, y)
  {
    ReAddKeepsFirstPosition(a, b, x, y, z);
    ArgTextsAt([(a, z), (b, y)]);
    var texts := ArgTexts([(a, z), (b, y)]);
    assert texts == [ArgText(a, z), ArgText(b, y)];
    assert texts[1..] == [ArgText(b, y)];
  }

  /** Method::templates as a function of the method's fields.  An abstract
      method is its signature alone, ending in `);`, with no brace line.
      Otherwise the signature is followed by `{`, the body lines in order and
      `}`: 3 + |body| lines, from which the body can be read back. */
  function MethodLines(visibility: string, isAbstract: bool, isStatic: bool,
                       name: string, args: Entries<Arg>, body: seq<string>): (r: seq<string>)
    ensures r != [] && r[0] == Signature(visibility, isAbstract, isStatic, name, args)
    ensures isAbstract ==> |r| == 1 && EndsWith(r[0], ");") && "{" !in r && "}" !in r
    ensures !isAbstract ==> |r| == 3 + |body| && r[1] == "{" && r[|r| - 1] == "}"
    ensures !isAbstract ==> r[2..|r| - 1] == body
  {
    var sig := Signature(visibility, isAbstract, isStatic, name, args);
    if isAbstract then
      assert sig != "{" && sig != "}" by { assert |sig| >= 2; }
      [sig]
    else
      var r := [sig, "{"] + body + ["}"];
      assert r[2..|r| - 1] == body;
      r
  }

  class Method {
    /** The case-conversion collaborator for the name and the argument keys. */
    const naming: Naming
    var name: string
    var isStatic: bool
    var visibility: string
    var arguments: Entries<Arg>
    var body: seq<string>
    var isAbstract: bool
    /** The default number of spaces before a body line. */
    var indention: int

    /** Visibility is always one of the three keywords and argument keys
        are distinct. */
    ghost predicate Valid()
      reads this
    {
      IsVisibility(visibility) && DistinctKeys(arguments)
    }

    /** Under the invariant the signature lists each argument name once,
        with the default and type hint last given for it. */
    lemma ArgumentsOncePerName()
      requires Valid()
      ensures |ArgTexts(arguments)| == |ToMap(arguments)|
      ensures forall j :: 0 <= j < |arguments| ==>
                arguments[j].0 in ToMap(arguments)
                && ArgTexts(arguments)[j] == ArgText(arguments[j].0, ToMap(arguments)[arguments[j].0])
    {
      EntryCount(arguments);
      ToMapValues(arguments);
      ArgTextsAt(arguments);
    }

    /** `new Method($name, $static)`: public, not abstract, no arguments,
        empty body, indentation 0. */
    constructor (naming: Naming, name: string, isStatic: bool)
      ensures Valid()
      ensures this.naming == naming && this.name == name && this.isStatic == isStatic
      ensures visibility == "public" && !isAbstract && arguments == [] && body == [] && indention == 0
    {
      this.naming := naming;
      this.name := name;
      this.isStatic := isStatic;
      visibility := "public";
      arguments := [];
      body := [];
      isAbstract := false;
      indention := 0;
    }

    /** The default indentation is given in levels of four spaces. */
    method SetIndention(n: int)
      modifies this`indention
      ensures indention == 4 * n
    {
      indention := n * 4;
    }

    method SetAsStatic()
      modifies this`isStatic
      ensures isStatic
    {
      isStatic := true;
    }

    method SetAsAbstract()
      modifies this`isAbstract
      ensures isAbstract
    {
      isAbstract := true;
    }

    /** Accepts public, private or protected in any letter case and stores
        it in lower case; any other string leaves the visibility as it was. */
    method SetVisibility(v: string)
      requires Valid()
      modifies this`visibility
      ensures Valid()
      ensures IsVisibility(Lower(v)) ==> visibility == Lower(v)
      ensures !IsVisibility(Lower(v)) ==> visibility == old(visibility)
    {
      var lowered := Lower(v);
      if IsVisibility(lowered) {
        visibility := lowered;
      }
    }

    method SetPublic()
      requires Valid()
      modifies this`visibility
      ensures Valid() && visibility == "public"
    {
      VisibilityKeywordsLower("public");
      SetVisibility("public");
    }

    method SetPrivate()
      requires Valid()
      modifies this`visibility
      ensures Valid() && visibility == "private"
    {
      VisibilityKeywordsLower("private");
      SetVisibility("private");
    }

    method SetProtected()
      requires Valid()
      modifies this`visibility
      ensures Valid() && visibility == "protected"
    {
      VisibilityKeywordsLower("protected");
      SetVisibility("protected");
    }

    /** Stores the argument under its snake_case key: a new key goes last,
        an existing key keeps its place and takes the new default and type. */
    method AddParam(name: string, default: Literal, dataType: Option<string>)
      requires Valid()
      modifies this`arguments
      ensures Valid()
      ensures arguments == Put(old(arguments), naming.snake(name), Arg(default, dataType))
    {
      PutDistinct(arguments, naming.snake(name), Arg(default, dataType));
      arguments := Put(arguments, naming.snake(name), Arg(default, dataType));
    }

    method AddStringParam(name: string, default: Option<string>)
      requires Valid()
      modifies this`arguments
      ensures Valid()
      ensures arguments == Put(old(arguments), naming.snake(name),
                               Arg(if default.Some? then Str(default.value) else Null, Some("string")))
    {
      AddParam(name, if default.Some? then Str(default.value) else Null, Some("string"));
    }

    method AddIntegerParam(name: string, default: Option<int>)
      requires Valid()
      modifies this`arguments
      ensures Valid()
      ensures arguments == Put(old(arguments), naming.snake(name),
                               Arg(if default.Some? then Int(default.value) else Null, Some("int")))
    {
      AddParam(name, if default.Some? then Int(default.value) else Null, Some("int"));
    }

    method AddBoolParam(name: string, default: Option<bool>)
      requires Valid()
      modifies this`arguments
      ensures Valid()
      ensures arguments == Put(old(arguments), naming.snake(name),
                               Arg(if default.Some? then Bool(default.value) else Null, Some("bool")))
    {
      AddParam(name, if default.Some? then Bool(default.value) else Null, Some("bool"));
    }

    /** An array default is given by its JSON text. */
    method AddArrayParam(name: string, default: Option<string>)
      requires Valid()
      modifies this`arguments
      ensures Valid()
      ensures arguments == Put(old(arguments), naming.snake(name),
                               Arg(if default.Some? then Arr(default.value) else Null, Some("array")))
    {
      AddParam(name, if default.Some? then Arr(default.value) else Null, Some("array"));
    }

    /** Appends one body line: `i` spaces, or the default indentation when
        `i` is negative, then the text.  (PHP's str_repeat refuses a negative
        count, hence the requirement.) */
    method Raw(s: string, i: int)
      requires i >= 0 || indention >= 0
      modifies this`body
      ensures body == old(body) + [Spaces(if i < 0 then indention else i) + s]
    {
      var n := i;
      if n < 0 {
        n := indention;
      }
      body := body + [Spaces(n) + s];
    }

    /** The lines templates() produces for the current fields. */
    function Lines(): seq<string>
      reads this
    {
      MethodLines(visibility, isAbstract, isStatic, naming.camel(name), arguments, body)
    }

    /** The first half of Method::templates: the signature, written by
        appending each argument followed by ", " and then cutting the last
        two characters off. */
    method SignatureLine() returns (template: string)
      ensures template == Signature(visibility, isAbstract, isStatic, naming.camel(name), arguments)
    {
      template := visibility + " ";
      if isAbstract {
        template := template + "abstract ";
      }
      template := template + (if isStatic then "static " else "") + "function " + naming.camel(name) + "(";
      assert template == visibility + " " + (if isAbstract then "abstract " else "")
                         + (if isStatic then "static " else "") + "function " + naming.camel(name) + "(";
      template := AppendArguments(template, arguments);
      template := template + ")";
      if isAbstract {
        template := template + ";";
      }
    }

    /** Method::templates: the signature line, then the body block unless
        the method is abstract. */
    method Templates() returns (templates: seq<string>)
      ensures templates == Lines()
    {
      templates := [];
      var template := SignatureLine();
      templates := templates + [template];
      if !isAbstract {
        templates := templates + ["{"];
        var k := 0;
        while k < |body|
          invariant 0 <= k <= |body|
          invariant templates == [template, "{"] + body[..k]
        {
          templates := templates + [body[k]];
          assert body[..k + 1] == body[..k] + [body[k]];
          k := k + 1;
        }
        assert body[..k] == body;
        templates := templates + ["}"];
      }
    }

    /** Method::makePublic. */
    constructor MakePublic(naming: Naming, name: string)
      ensures Valid()
      ensures this.naming == naming && this.name == name && !isStatic && visibility == "public"
      ensures !isAbstract && arguments == [] && body == [] && indention == 0
    {
      this.naming := naming;
      this.name := name;
      isStatic := false;
      visibility := "public";
      arguments := [];
      body := [];
      isAbstract := false;
      indention := 0;
    }

    /** Method::makePublicStatic. */
    constructor MakePublicStatic(naming: Naming, name: string)
      ensures Valid()
      ensures this.naming == naming && this.name == name && isStatic && visibility == "public"
      ensures !isAbstract && arguments == [] && body == [] && indention == 0
    {
      this.naming := naming;
      this.name := name;
      isStatic := true;
      visibility := "public";
      arguments := [];
      body := [];
      isAbstract := false;
      indention := 0;
    }

    /** Method::makePrivate. */
    constructor MakePrivate(naming: Naming, name: string)
      ensures Valid()
      ensures this.naming == naming && this.name == name && !isStatic && visibility == "private"
      ensures !isAbstract && arguments == [] && body == [] && indention == 0
    {
      this.naming := naming;
      this.name := name;
      isStatic := false;
      visibility := "private";
      arguments := [];
      body := [];
      isAbstract := false;
      indention := 0;
    }

    /** Method::makePrivateStatic. */
    constructor MakePrivateStatic(naming: Naming, name: string)
      ensures Valid()
      ensures this.naming == naming && this.name == name && isStatic && visibility == "private"
      ensures !isAbstract && arguments == [] && body == [] && indention == 0
    {
      this.naming := naming;
      this.name := name;
      isStatic := true;
      visibility := "private";
      arguments := [];
      body := [];
      isAbstract := false;
      indention := 0;
    }

    /** Method::makeProtected. */
    constructor MakeProtected(naming: Naming, name: string)
      ensures Valid()
      ensures this.naming == naming && this.name == name && !isStatic && visibility == "protected"
      ensures !isAbstract && arguments == [] && body == [] && indention == 0
    {
      this.naming := naming;
      this.name := name;
      isStatic := false;
      visibility := "protected";
      arguments := [];
      body := [];
      isAbstract := false;
      indention := 0;
    }

    /** Method::makeProtectedStatic. */
    constructor MakeProtectedStatic(naming: Naming, name: string)
      ensures Valid()
      ensures this.naming == naming && this.name == name && isStatic && visibility == "protected"
      ensures !isAbstract && arguments == [] && body == [] && indention == 0
    {
      this.naming := naming;
      this.name := name;
      isStatic := true;
      visibility := "protected";
      arguments := [];
      body := [];
      isAbstract := false;
      indention := 0;
    }

    /** Method::makeConstructor and Method::makePublicConstructor: a public
        method named `__construct`. */
    constructor MakePublicConstructor(naming: Naming)
      ensures Valid()
      ensures this.naming == naming && name == "__construct" && !isStatic && visibility == "public"
      ensures !isAbstract && arguments == [] && body == [] && indention == 0
    {
      this.naming := naming;
      name := "__construct";
      isStatic := false;
      visibility := "public";
      arguments := [];
      body := [];
      isAbstract := false;
      indention := 0;
    }

    /** Method::makePrivateConstructor: a private method named `__construct`. */
    constructor MakePrivateConstructor(naming: Naming)
      ensures Valid()
      ensures this.naming == naming && name == "__construct" && !isStatic && visibility == "private"
      ensures !isAbstract && arguments == [] && body == [] && indention == 0
    {
      this.naming := naming;
      name := "__construct";
      isStatic := false;
      visibility := "private";
      arguments := [];
      body := [];
      isAbstract := false;
      indention := 0;
    }
  }
}
