/** The doc-block assembler of src/Comment.php: a `/** ... */` block for a
    property (`@var`) or for a method (`@param` lines and `@return`). */
module Comments {
  import opened PhpText
  import opened NameConversion
  import opened OrderedMap

  /** One documented parameter: its type string and trimmed description. */
  datatype ParamDoc = ParamDoc(dataType: string, description: string)

  /** Comment::forMethod on the kind string given to the constructor, which
      getType lower-cases. */
  predicate IsMethodKind(kind: string) { Lower(kind) == "method" }

  /** Comment::forVariable on the kind string given to the constructor. */
  predicate IsVarKind(kind: string) { Lower(kind) == "var" }

  /** The two kind tests compare the lower-cased kind, so they ignore case,
      and no kind is both. */
  lemma KindIgnoresCase(k1: string, k2: string)
    requires Lower(k1) == Lower(k2)
    ensures IsMethodKind(k1) == IsMethodKind(k2) && IsVarKind(k1) == IsVarKind(k2)
    ensures !(IsMethodKind(k1) && IsVarKind(k1))
  {
  }

  function ParamLine(key: string, p: ParamDoc): string {
    " * @param  " + p.dataType + " $" + key + " " + p.description
  }

  /** A parameter line: the tag and two spaces, the type, the variable, a
      space and the description, which reads back from the end. */
  lemma ParamLineParts(key: string, p: ParamDoc)
    ensures var r := ParamLine(key, p);
      StartsWith(r, " * @param  " + p.dataType + " $" + key)
      && EndsWith(r, " " + p.description)
      && |r| == 11 + |p.dataType| + 2 + |key| + 1 + |p.description|
  {
    var head := " * @param  " + p.dataType + " $";
    ConcatEnds(head, key, " " + p.description);
    assert ParamLine(key, p) == head + key + (" " + p.description);
  }

  function ParamLines(params: Entries<ParamDoc>): (r: seq<string>)
    ensures |r| == |params|
    ensures forall j :: 0 <= j < |params| ==> r[j] == ParamLine(params[j].0, params[j].1)
  {
    seq(|params|, j requires 0 <= j < |params| => ParamLine(params[j].0, params[j].1))
  }

  /** A line of the block that carries the given tag. */
  predicate IsTagLine(line: string, tag: string) {
    StartsWith(line, " * " + tag)
  }

  lemma ParamLineTags(key: string, p: ParamDoc)
    ensures IsTagLine(ParamLine(key, p), "@param")
    ensures !IsTagLine(ParamLine(key, p), "@return") && !IsTagLine(ParamLine(key, p), "@var")
  {
    var l := ParamLine(key, p);
    assert l[..11] == " * @param  ";
    assert l[..9] == " * @param";
    assert l[4] == 'p';
    assert (" * @return")[4] == 'r' && (" * @var")[4] == 'v';
  }

  lemma FixedLineTags(s: string)
    ensures !IsTagLine(" * @return " + s, "@param") && !IsTagLine(" * @return " + s, "@var")
    ensures !IsTagLine(" * @var " + s, "@param") && !IsTagLine(" * @var " + s, "@return")
    ensures IsTagLine(" * @return " + s, "@return") && IsTagLine(" * @var " + s, "@var")
  {
    var r, v := " * @return " + s, " * @var " + s;
    assert r[4] == 'r' && v[4] == 'v';
    assert r[..10] == " * @return" && v[..7] == " * @var";
  }

  /** Comment::templates as a function of the comment's fields.  Every block
      opens with `/**`, the description line and an empty ` * ` line and
      closes with ` */`.  A method block has one `@param` line per parameter,
      in insertion order, then exactly one `@return` line: 5 + |params| lines.
      Any other kind has exactly 5 lines with the `@var` line and no
      `@param` or `@return` line.  (Line 1 holds the caller's description,
      which may itself start with a tag, so it is exempt.) */
  function DocLines(kind: string, varType: string, description: string,
                    params: Entries<ParamDoc>, returnType: string): (r: seq<string>)
    ensures |r| >= 5 && r[0] == "/**" && r[1] == " * " + description && r[2] == " * " && r[|r| - 1] == " */"
    ensures IsMethodKind(kind) ==> |r| == 5 + |params|
    ensures IsMethodKind(kind) ==> forall j :: 0 <= j < |params| ==> r[3 + j] == ParamLine(params[j].0, params[j].1)
    ensures IsMethodKind(kind) ==> r[3 + |params|] == " * @return " + returnType
    ensures IsMethodKind(kind) ==> forall j :: 0 <= j < |r| && j != 1 ==> (IsTagLine(r[j], "@return") <==> j == 3 + |params|)
    ensures IsMethodKind(kind) ==> forall j :: 0 <= j < |r| && j != 1 ==> !IsTagLine(r[j], "@var")
    ensures !IsMethodKind(kind) ==> |r| == 5 && r[3] == " * @var " + varType
    ensures !IsMethodKind(kind) ==> forall j :: 0 <= j < |r| && j != 1 ==> !IsTagLine(r[j], "@param") && !IsTagLine(r[j], "@return")
  {
    var head := ["/**", " * " + description, " * "];
    assert !IsTagLine("/**", "@param") && !IsTagLine("/**", "@return") && !IsTagLine("/**", "@var");
    assert !IsTagLine(" * ", "@param") && !IsTagLine(" * ", "@return") && !IsTagLine(" * ", "@var");
    assert !IsTagLine(" */", "@param") && !IsTagLine(" */", "@return") && !IsTagLine(" */", "@var");
    FixedLineTags(returnType);
    FixedLineTags(varType);
    forall j | 0 <= j < |params|
      ensures !IsTagLine(ParamLine(params[j].0, params[j].1), "@return")
      ensures !IsTagLine(ParamLine(params[j].0, params[j].1), "@var")
    {
      ParamLineTags(params[j].0, params[j].1);
    }
    if IsMethodKind(kind) then
      head + ParamLines(params) + [" * @return " + returnType, " */"]
    else
      head + [" * @var " + varType, " */"]
  }

  /** How addParam stores a description: trimmed, and empty when it is
      omitted (trim of null is the empty string). */
  function StoredDescription(desc: Option<string>): (r: string)
    ensures Trimmed(r)
    ensures desc.None? ==> r == ""
    ensures desc.Some? ==> r == Trim(desc.value)
  {
    if desc.Some? then Trim(desc.value) else ""
  }

  class Comment {
    /** The case-conversion collaborator that normalises parameter keys. */
    const naming: Naming
    /** `$type`: the kind string, "var" or "method" in practice. */
    var kind: string
    var varType: string
    var description: string
    var params: Entries<ParamDoc>
    var returnType: string

    /** Parameter keys are distinct and the description is trimmed. */
    ghost predicate Valid()
      reads this
    {
      DistinctKeys(params) && Trimmed(description)
    }

    /** `new Comment($type)`; the description starts out null, which prints
        as the empty string. */
    constructor (naming: Naming, kind: string)
      ensures Valid()
      ensures this.naming == naming && this.kind == kind
      ensures varType == "mixed" && description == "" && params == [] && returnType == "void"
    {
      this.naming := naming;
      this.kind := kind;
      varType := "mixed";
      description := "";
      params := [];
      returnType := "void";
    }

    /** Comment::forVariable. */
    predicate ForVariable()
      reads this
      ensures ForVariable() ==> !IsMethodKind(kind)
    {
      IsVarKind(kind)
    }

    /** Comment::forMethod. */
    predicate ForMethod()
      reads this
      ensures ForMethod() ==> !IsVarKind(kind)
    {
      IsMethodKind(kind)
    }

    method SetVarType(t: string)
      modifies this`varType
      ensures varType == t
    {
      varType := t;
    }

    /** Stores the trimmed description; storing the same input twice leaves
        the same description as storing it once. */
    method SetDescription(d: string)
      requires Valid()
      modifies this`description
      ensures Valid()
      ensures description == Trim(d)
      ensures Trim(description) == description
    {
      description := Trim(d);
    }

    /** Documents a parameter under its snake_case key: a new key goes last,
        an existing key keeps its place and takes the new entry.  A missing
        description is stored as the empty string. */
    method AddParam(name: string, dataType: string, desc: Option<string>)
      requires Valid()
      modifies this`params
      ensures Valid()
      ensures params == Put(old(params), naming.snake(name), ParamDoc(dataType, StoredDescription(desc)))
    {
      PutDistinct(params, naming.snake(name), ParamDoc(dataType, StoredDescription(desc)));
      params := Put(params, naming.snake(name), ParamDoc(dataType, StoredDescription(desc)));
    }

    method AddMixedParam(name: string, desc: string)
      requires Valid()
      modifies this`params
      ensures Valid()
      ensures params == Put(old(params), naming.snake(name), ParamDoc("mixed", Trim(desc)))
    {
      AddParam(name, "mixed", Some(desc));
    }

    method AddStringParam(name: string, desc: Option<string>)
      requires Valid()
      modifies this`params
      ensures Valid()
      ensures params == Put(old(params), naming.snake(name), ParamDoc("string", StoredDescription(desc)))
    {
      AddParam(name, "string", desc);
    }

    method AddIntegerParam(name: string, desc: Option<string>)
      requires Valid()
      modifies this`params
      ensures Valid()
      ensures params == Put(old(params), naming.snake(name), ParamDoc("int", StoredDescription(desc)))
    {
      AddParam(name, "int", desc);
    }

    method AddBoolParam(name: string, desc: Option<string>)
      requires Valid()
      modifies this`params
      ensures Valid()
      ensures params == Put(old(params), naming.snake(name), ParamDoc("bool", StoredDescription(desc)))
    {
      AddParam(name, "bool", desc);
    }

    method AddArrayParam(name: string, desc: Option<string>)
      requires Valid()
      modifies this`params
      ensures Valid()
      ensures params == Put(old(params), naming.snake(name), ParamDoc("array", StoredDescription(desc)))
    {
      AddParam(name, "array", desc);
    }

    method AddFloatParam(name: string, desc: Option<string>)
      requires Valid()
      modifies this`params
      ensures Valid()
      ensures params == Put(old(params), naming.snake(name), ParamDoc("float", StoredDescription(desc)))
    {
      AddParam(name, "float", desc);
    }

    method SetReturnType(t: string)
      modifies this`returnType
      ensures returnType == t
    {
      returnType := t;
    }

    method ReturnVoid()
      modifies this`returnType
      ensures returnType == "void"
    {
      SetReturnType("void");
    }

    method ReturnMixed()
      modifies this`returnType
      ensures returnType == "mixed"
    {
      SetReturnType("mixed");
    }

    method ReturnString()
      modifies this`returnType
      ensures returnType == "string"
    {
      SetReturnType("string");
    }

    method ReturnInt()
      modifies this`returnType
      ensures returnType == "int"
    {
      SetReturnType("int");
    }

    method ReturnBool()
      modifies this`returnType
      ensures returnType == "bool"
    {
      SetReturnType("bool");
    }

    method ReturnArray()
      modifies this`returnType
      ensures returnType == "array"
    {
      SetReturnType("array");
    }

    method ReturnFloat()
      modifies this`returnType
      ensures returnType == "float"
    {
      SetReturnType("float");
    }

    /** The lines templates() produces for the current fields. */
    function Lines(): seq<string>
      reads this
    {
      DocLines(kind, varType, description, params, returnType)
    }

    /** Under the invariant the block shows a description that trimming
        leaves unchanged, and a method block has one `@param` line per
        distinct key, each with the type and description last given for it. */
    lemma LinesOncePerKey()
      requires Valid()
      ensures Lines()[1] == " * " + description && Trim(description) == description
      ensures ForMethod() ==> |Lines()| == 5 + |ToMap(params)|
      ensures ForMethod() ==> forall j :: 0 <= j < |params| ==>
                params[j].0 in ToMap(params)
                && Lines()[3 + j] == ParamLine(params[j].0, ToMap(params)[params[j].0])
    {
      EntryCount(params);
      ToMapValues(params);
    }

    /** Comment::templates: builds the block line by line. */
    method Templates() returns (segments: seq<string>)
      ensures segments == Lines()
    {
      segments := [];
      segments := segments + ["/**"];
      segments := segments + [" * " + description];
      segments := segments + [" * "];
      if ForMethod() {
        var i := 0;
        while i < |params|
          invariant 0 <= i <= |params|
          invariant segments == ["/**", " * " + description, " * "] + ParamLines(params[..i])
        {
          var (key, param) := params[i];
          segments := segments + [" * @param  " + param.dataType + " $" + key + " " + param.description];
          assert params[..i + 1] == params[..i] + [params[i]];
          i := i + 1;
        }
        assert params[..i] == params;
        segments := segments + [" * @return " + returnType];
      } else {
        segments := segments + [" * @var " + varType];
      }
      segments := segments + [" */"];
    }

    /** Comment::makeVar: a property comment of the given type. */
    constructor MakeVar(naming: Naming, t: string, d: string)
      ensures Valid()
      ensures this.naming == naming && kind == "var" && varType == t && description == Trim(d)
      ensures params == [] && returnType == "void"
    {
      this.naming := naming;
      kind := "var";
      varType := t;
      description := Trim(d);
      params := [];
      returnType := "void";
    }

    constructor MakeMixedVar(naming: Naming, d: string)
      ensures Valid()
      ensures this.naming == naming && kind == "var" && varType == "mixed" && description == Trim(d)
      ensures params == [] && returnType == "void"
    {
      this.naming := naming;
      kind := "var";
      varType := "mixed";
      description := Trim(d);
      params := [];
      returnType := "void";
    }

    constructor MakeStringVar(naming: Naming, d: string)
      ensures Valid()
      ensures this.naming == naming && kind == "var" && varType == "string" && description == Trim(d)
      ensures params == [] && returnType == "void"
    {
      this.naming := naming;
      kind := "var";
      varType := "string";
      description := Trim(d);
      params := [];
      returnType := "void";
    }

    constructor MakeIntVar(naming: Naming, d: string)
      ensures Valid()
      ensures this.naming == naming && kind == "var" && varType == "int" && description == Trim(d)
      ensures params == [] && returnType == "void"
    {
      this.naming := naming;
      kind := "var";
      varType := "int";
      description := Trim(d);
      params := [];
      returnType := "void";
    }

    constructor MakeBoolVar(naming: Naming, d: string)
      ensures Valid()
      ensures this.naming == naming && kind == "var" && varType == "bool" && description == Trim(d)
      ensures params == [] && returnType == "void"
    {
      this.naming := naming;
      kind := "var";
      varType := "bool";
      description := Trim(d);
      params := [];
      returnType := "void";
    }

    constructor MakeArrayVar(naming: Naming, d: string)
      ensures Valid()
      ensures this.naming == naming && kind == "var" && varType == "array" && description == Trim(d)
      ensures params == [] && returnType == "void"
    {
      this.naming := naming;
      kind := "var";
      varType := "array";
      description := Trim(d);
      params := [];
      returnType := "void";
    }

    /** Comment::makeFloatval (sic): a property comment of type float. */
    constructor MakeFloatVar(naming: Naming, d: string)
      ensures Valid()
      ensures this.naming == naming && kind == "var" && varType == "float" && description == Trim(d)
      ensures params == [] && returnType == "void"
    {
      this.naming := naming;
      kind := "var";
      varType := "float";
      description := Trim(d);
      params := [];
      returnType := "void";
    }

    /** Comment::makeMethod: a method comment, returning void until told
        otherwise. */
    constructor MakeMethod(naming: Naming, d: string)
      ensures Valid()
      ensures this.naming == naming && kind == "method" && varType == "mixed" && description == Trim(d)
      ensures params == [] && returnType == "void"
    {
      this.naming := naming;
      kind := "method";
      varType := "mixed";
      description := Trim(d);
      params := [];
      returnType := "void";
    }
  }
}
