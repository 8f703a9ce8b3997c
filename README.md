# Stencil: a PHP class generator, modelled in Dafny

Stencil is a small fluent library that writes the source text of a PHP class.
Three builders hold state and turn it into lines of text:

- `Stencil` assembles one class file. It holds a namespace, `use` imports, an abstract flag, a class name, a parent, interfaces and a flat buffer of body lines. `template()` joins these into the file text.
- `Method` assembles one method. It holds visibility, the static and abstract flags, an ordered argument map and body lines. `templates()` yields the signature line and, unless the method is abstract, a `{ … }` block.
- `Comment` assembles one `/** … */` doc block, for a property or for a method.

Each builder is a Dafny `class` with the same fields. Every setter, `add…` and `raw` method is a `method` whose `modifies` clause names only the field it changes, and whose `ensures` gives the new value of that field. The text each builder produces is specified by pure functions of its fields:

- `Stencils.FileSegments` and `Stencils.ClassLine` for the file, with the layout of the segments proved in `FileSegmentsHeader`, `FileSegmentsImports` and `FileSegmentsClass`;
- `Methods.MethodLines` and `Methods.Signature` for a method;
- `Comments.DocLines` for a doc block.

These functions and lemmas carry the layout facts: exact line counts, line positions, ordering, and which tags can appear. The builders' `Templates`/`Template` methods build their output with loops, as the PHP code does, and are proved to return exactly those functions' values.

Shared pieces:
- `PhpText` restates the PHP string built-ins the builders use over `seq<char>`: strtolower, strtoupper, ucfirst, trim, addslashes, str_replace of `/`, implode, str_repeat and integer-to-string. It proves that stripslashes undoes addslashes and that decimal text reads back as the integer.
- `Literals` holds the one literal rule (booleans as keywords, strings quoted through addslashes, arrays as their JSON text, integers in decimal). It also holds addConstant's looser variant of that rule.
- `OrderedMap` models PHP's string-keyed array as an association list. `Put` is `$m[$k] = $v`: an existing key keeps its position and takes the new value; a new key is appended. It is proved to be a last-write-wins map update.

Parameters stand in for the things that are not part of the builders:
- `Naming` (module `NameConversion`) stands for the helpers str_to_pascal, str_to_camel and str_to_snake. It is a datatype of three string functions, handed to each constructor.
- `eol` stands for PHP_EOL.
- A `map<string, string>` of paths to contents stands for the file system `generate()` writes to.

In two places the model follows the code:
- An explicit indentation argument is a raw count of spaces. Only `setIndention(n)` multiplies by four (src/Stencil.php:95-100 and 227-237; src/Method.php:74-79 and 265-275).
- The `Stencil` constructor only ucfirst-s the class name, while `setClassname` converts it to PascalCase (src/Stencil.php:83-87 and 143-148).

`addConstant` formats only booleans and strings and lets PHP's string conversion handle the rest. So an array constant is written as the word `Array` and a null constant as nothing (src/Stencil.php:247-264). The model writes exactly that.

## Model

| member | source | states |
|---|---|---|
| PhpText.Lower | src/Stencil.php:283 | strtolower keeps the length, maps each character by ASCII lower-casing and leaves no capital |
| PhpText.Upper | src/Stencil.php:263 | strtoupper keeps the length, maps each character by ASCII upper-casing and leaves no small letter |
| PhpText.LowerIdempotent | src/Method.php:121-131 | lower-casing an already lower-cased visibility changes nothing |
| PhpText.VisibilityKeywordsLower | src/Method.php:121-131 | each of `public`, `private` and `protected` is its own lower-case form, so it passes the visibility check as written |
| PhpText.Ucfirst | src/Stencil.php:86 | ucfirst keeps the length, upper-cases the first character only and keeps the rest |
| PhpText.LeadingBlanks | src/Comment.php:111-116 | the count of characters trim strips in front: all of them are blanks and the next character is not |
| PhpText.TrailingBlanks | src/Comment.php:111-116 | the count trim strips at the back after a given start: all of them are blanks and the character before them is not |
| PhpText.Trim | src/Comment.php:111-116 | trim yields the slice of the input between its leading and its trailing run of blanks; the result has no blank at either end, is unchanged when the input is already trimmed and is empty when the input is all blanks |
| PhpText.TrimmedSlice | src/Comment.php:111-116 | the slice between a leading and a trailing run of blanks that cannot be extended is trimmed; both runs are empty for a trimmed input and cover an all-blank input |
| PhpText.Escape | src/Stencil.php:302-305 | addslashes puts a backslash before exactly a quote, a double quote, a backslash and NUL (written `\0`) and keeps every other character as it is |
| PhpText.StripSlashes | src/Stencil.php:302-305 | stripslashes never lengthens a string and leaves one without backslashes unchanged |
| PhpText.Implode | src/Stencil.php:617 | implode of no parts is empty and of one part is that part |
| PhpText.Spaces | src/Stencil.php:234 | str_repeat(' ', n) is n spaces |
| PhpText.Decimal | src/Method.php:307-324 | an integer's text is non-empty, starts with `-` exactly for a negative integer, is decimal digits otherwise, and has no leading zero except in `0` itself |
| PhpText.AddSlashes | src/Stencil.php:260 | addslashes at least keeps and at most doubles the length |
| PhpText.StripAddSlashes | src/Stencil.php:302-305 | stripslashes undoes addslashes on every string |
| PhpText.AddSlashesQuoted | src/Stencil.php:302-305 | in plain text around a quoted word, exactly the two double quotes get a backslash |
| PhpText.ReplaceSlashes | src/Stencil.php:110 | every `/` becomes `\`, every other character is kept, and no `/` remains |
| PhpText.ImplodeSnoc | src/Stencil.php:617 | joining one more part adds exactly one separator and that part |
| PhpText.ImplodeEnds | src/Stencil.php:634 | the joined text starts with the first part and ends with the last |
| PhpText.TerminatedIsImplode | src/Method.php:296-330 | writing each part followed by ", " and cutting the last two characters gives implode(", ") |
| PhpText.DecimalRoundTrip | src/Method.php:307-324 | the decimal text of an integer default reads back as that integer |
| Literals.Formatted | src/Stencil.php:296-311 | booleans print as true/false; a string prints between double quotes; an array prints as its JSON text |
| Literals.FormattedStrRoundTrip | src/Stencil.php:302-305 | the inside of a printed string reads back, through stripslashes, as the string |
| Literals.FormattedIntRoundTrip | src/Method.php:307-324 | a printed integer default reads back from its decimal text as the integer |
| Literals.DefaultSuffix | src/Method.php:307-324 | the ` = value` part is empty exactly for null, and otherwise prefixes the formatted value |
| Literals.ConstantText | src/Stencil.php:254-263 | addConstant formats booleans, strings and integers like properties, prints an array as `Array` and null as nothing |
| Literals.FormattedQuotedWord | src/Stencil.php:302-305 | a string containing a quoted word prints with both inner quotes escaped |
| OrderedMap.Put | src/Method.php:191-196 | entries under other keys stay where they were; at most one entry is added, at the end; every entry is the new one or the one that stood there |
| OrderedMap.PutPresent | src/Method.php:191-196 | a present key keeps its position: the length and the key order are unchanged |
| OrderedMap.PutAbsent | src/Method.php:191-196 | an absent key is appended at the end |
| OrderedMap.PutDistinct | src/Comment.php:135-143 | keys stay distinct, and the key then holds the new value |
| OrderedMap.ToMapKeys | src/Comment.php:135-143 | the map the entries stand for has exactly the entries' keys |
| OrderedMap.ToMapValues | src/Comment.php:135-143 | with distinct keys, each key maps to its entry's value |
| OrderedMap.PutIsMapUpdate | src/Method.php:191-196 | putting an entry is a map update at that key: the last write wins |
| OrderedMap.EntryCount | src/Method.php:191-196 | the number of entries equals the number of distinct keys |
| OrderedMap.ReAddKeepsFirstPosition | src/Comment.php:135-143 | re-adding a key keeps it in its first position with the latest value |
| Comments.KindIgnoresCase | src/Comment.php:57-80 | forMethod and forVariable depend only on the lower-cased kind, and no kind is both |
| Comments.ParamLineParts | src/Comment.php:317 | a parameter line is ` * @param  `, the type, ` $` and the key, then a space and the description, with nothing else in between |
| Comments.ParamLines | src/Comment.php:313-318 | one parameter line per parameter, in insertion order |
| Comments.Comment.ForVariable | src/Comment.php:67-70 | a comment for a variable is never one for a method |
| Comments.Comment.ForMethod | src/Comment.php:77-80 | a comment for a method is never one for a variable |
| Comments.ParamLineTags | src/Comment.php:317 | a parameter line is an `@param` line and never an `@return` or `@var` line |
| Comments.FixedLineTags | src/Comment.php:320-325 | the `@return` and `@var` lines carry their own tag and no other |
| Comments.DocLines | src/Comment.php:305-330 | `/**`, the description, ` * `, then for a method one `@param` line per parameter in order and `@return` (5 + parameter count lines, `@return` exactly once and no `@var`); for any other kind exactly 5 lines with `@var` and no `@param` or `@return`; ` */` last |
| Comments.StoredDescription | src/Comment.php:135-143 | a stored parameter description is trimmed, and empty when omitted |
| Comments.Comment.constructor | src/Comment.php:19-50 | a new comment has the kind, var type `mixed`, empty description, no parameters and return type `void` |
| Comments.Comment.SetVarType | src/Comment.php:88-93 | sets the var type and nothing else |
| Comments.Comment.SetDescription | src/Comment.php:111-116 | stores the trimmed description, which trimming again leaves unchanged |
| Comments.Comment.AddParam | src/Comment.php:135-143 | stores type and trimmed description (empty when omitted) under the snake_case key, last write wins in the first position |
| Comments.Comment.AddMixedParam | src/Comment.php:152-155 | adds a `mixed` parameter |
| Comments.Comment.AddStringParam | src/Comment.php:164-167 | adds a `string` parameter |
| Comments.Comment.AddIntegerParam | src/Comment.php:176-179 | adds an `int` parameter |
| Comments.Comment.AddBoolParam | src/Comment.php:188-191 | adds a `bool` parameter |
| Comments.Comment.AddArrayParam | src/Comment.php:200-203 | adds an `array` parameter |
| Comments.Comment.AddFloatParam | src/Comment.php:212-215 | adds a `float` parameter |
| Comments.Comment.SetReturnType | src/Comment.php:223-228 | sets the return type and nothing else |
| Comments.Comment.ReturnVoid | src/Comment.php:235-238 | sets the return type to `void` |
| Comments.Comment.ReturnMixed | src/Comment.php:245-248 | sets the return type to `mixed` |
| Comments.Comment.ReturnString | src/Comment.php:255-258 | sets the return type to `string` |
| Comments.Comment.ReturnInt | src/Comment.php:265-268 | sets the return type to `int` |
| Comments.Comment.ReturnBool | src/Comment.php:275-278 | sets the return type to `bool` |
| Comments.Comment.ReturnArray | src/Comment.php:285-288 | sets the return type to `array` |
| Comments.Comment.ReturnFloat | src/Comment.php:295-298 | sets the return type to `float` |
| Comments.Comment.LinesOncePerKey | src/Comment.php:305-330 | for a valid comment the description line holds the trimmed description; a method comment has one `@param` line per distinct key, in insertion order, each with the last type and description stored under that key |
| Comments.Comment.Templates | src/Comment.php:305-330 | the lines built in the loop are exactly DocLines of the fields |
| Comments.Comment.MakeVar | src/Comment.php:339-342 | a `var` comment with the given type and the trimmed description |
| Comments.Comment.MakeMixedVar | src/Comment.php:350-353 | a `var` comment of type `mixed` |
| Comments.Comment.MakeStringVar | src/Comment.php:361-364 | a `var` comment of type `string` |
| Comments.Comment.MakeIntVar | src/Comment.php:372-375 | a `var` comment of type `int` |
| Comments.Comment.MakeBoolVar | src/Comment.php:383-386 | a `var` comment of type `bool` |
| Comments.Comment.MakeArrayVar | src/Comment.php:394-397 | a `var` comment of type `array` |
| Comments.Comment.MakeFloatVar | src/Comment.php:405-408 | a `var` comment of type `float` (makeFloatval) |
| Comments.Comment.MakeMethod | src/Comment.php:416-419 | a `method` comment with the trimmed description |
| Methods.ArgTextParts | src/Method.php:298-324 | an argument's text is the type hint and a space when there is one, then `$key`, then ` = value` unless the default is null, and nothing else |
| Methods.ArgTexts | src/Method.php:296-327 | one text per argument |
| Methods.ArgTextAt | src/Method.php:296-327 | the j-th argument text is the text of the j-th argument in insertion order |
| Methods.ArgTextsAt | src/Method.php:296-327 | every argument text is the text of the argument at the same position |
| Methods.ReAddedArgumentKeepsPlace | src/Method.php:191-196 | adding a, b and a again renders the new a, then b |
| Methods.Method.ArgumentsOncePerName | src/Method.php:191-196 | under the invariant, the signature lists each argument name once, with the default and type last given for it |
| Methods.AppendArgument | src/Method.php:298-326 | one argument round appends `[type ]$key[ = value]` and ", " |
| Methods.AppendArgumentStep | src/Method.php:296-327 | each round extends the run of argument texts by the next argument, in insertion order |
| Methods.AppendArguments | src/Method.php:294-330 | the argument loop and the final cut leave the argument texts joined by ", " |
| Methods.Signature | src/Method.php:286-339 | visibility, `abstract `, `static `, `function`, the camelCase name and `(` in that order; ends in `);` when abstract and `)` otherwise; between them exactly the argument texts in insertion order joined by `, `; `()` for no arguments |
| Methods.MethodLines | src/Method.php:282-359 | an abstract method is one line ending `);` with no brace line; otherwise 3 + body lines: signature, `{`, the body in order, `}` |
| Methods.Method.constructor | src/Method.php:12-66 | a new method is public, not abstract, with no arguments, no body and indentation 0 |
| Methods.Method.SetIndention | src/Method.php:74-79 | the default indentation becomes four spaces per level |
| Methods.Method.SetAsStatic | src/Method.php:96-101 | sets the static flag only |
| Methods.Method.SetAsAbstract | src/Method.php:108-113 | sets the abstract flag only |
| Methods.Method.SetVisibility | src/Method.php:121-131 | the lower-cased visibility is stored exactly when it is public, private or protected; otherwise nothing changes |
| Methods.Method.SetPublic | src/Method.php:148-151 | visibility becomes `public` |
| Methods.Method.SetPrivate | src/Method.php:158-161 | visibility becomes `private` |
| Methods.Method.SetProtected | src/Method.php:168-171 | visibility becomes `protected` |
| Methods.Method.AddParam | src/Method.php:191-196 | stores default and type under the snake_case key with last-write-wins, first-position semantics |
| Methods.Method.AddStringParam | src/Method.php:205-208 | adds a `string` argument with an optional string default |
| Methods.Method.AddIntegerParam | src/Method.php:217-220 | adds an `int` argument with an optional integer default |
| Methods.Method.AddBoolParam | src/Method.php:229-232 | adds a `bool` argument with an optional boolean default |
| Methods.Method.AddArrayParam | src/Method.php:241-244 | adds an `array` argument with an optional array default |
| Methods.Method.Raw | src/Method.php:265-275 | appends exactly one body line: the given number of spaces, or the default when negative, then the text |
| Methods.Method.SignatureLine | src/Method.php:285-339 | the signature built piece by piece is exactly Signature of the fields |
| Methods.Method.Templates | src/Method.php:282-359 | the lines built are exactly MethodLines of the fields |
| Methods.Method.MakePublic | src/Method.php:367-370 | a public, non-static method |
| Methods.Method.MakePublicStatic | src/Method.php:378-381 | a public static method |
| Methods.Method.MakePrivate | src/Method.php:389-392 | a private, non-static method |
| Methods.Method.MakePrivateStatic | src/Method.php:400-403 | a private static method |
| Methods.Method.MakeProtected | src/Method.php:411-414 | a protected, non-static method |
| Methods.Method.MakeProtectedStatic | src/Method.php:422-425 | a protected static method |
| Methods.Method.MakePublicConstructor | src/Method.php:432-445 | a public method named `__construct` (makeConstructor and makePublicConstructor) |
| Methods.Method.MakePrivateConstructor | src/Method.php:452-455 | a private method named `__construct` |
| Stencils.UseLine | src/Stencil.php:583-592 | exactly `use C;` without an alias, and exactly `use C as Alias;` with the alias ucfirst-ed |
| Stencils.ClassLine | src/Stencil.php:598-620 | starts with `abstract ` exactly when abstract; `extends P` exactly when a parent is set, before `implements I1, …`, which appears exactly when interfaces are listed; the exact text for each of the four combinations |
| Stencils.UseLines | src/Stencil.php:579-595 | one `use` line per import, in insertion order |
| Stencils.HeaderPart | src/Stencil.php:567-576 | the PHP tag, then the namespace line exactly when a namespace is set |
| Stencils.ImportPart | src/Stencil.php:578-596 | the `use` lines in order and one empty segment, exactly when there are imports |
| Stencils.ClassPart | src/Stencil.php:620-632 | the class line, `{`, the body lines in order and `}`: 3 + body lines |
| Stencils.FileSegments | src/Stencil.php:565-634 | the file has 4 segments plus one for the namespace when set, one per import plus one empty segment when there are imports, and one per body line |
| Stencils.FileSegmentsHeader | src/Stencil.php:565-576 | the file has 4 + (1 if a namespace is set) + (imports + 1 if there are imports) + body-line segments, opening with the PHP tag and then the namespace line exactly when set |
| Stencils.FileSegmentsImports | src/Stencil.php:578-596 | after the header come the `use` lines in insertion order, then exactly one empty segment when there are imports |
| Stencils.FileSegmentsClass | src/Stencil.php:598-634 | the file ends with the class line, `{`, every body line in insertion order and `}` |
| Stencils.FileTextEnds | src/Stencil.php:565-634 | the file text starts with the PHP tag and ends with `}` |
| Stencils.ConstantLine | src/Stencil.php:247-264 | `const `, the upper-cased name, ` = ` and the constant text, closed by `;` |
| Stencils.PropertyHeadParts | src/Stencil.php:286-293 | a property head starts with the visibility, has ` static` right after it for a static property, and ends with ` $` and the key |
| Stencils.DeclarationLineParts | src/Stencil.php:286-314 | a declaration is the head, then ` = value` unless the value is null, then `;`; the value part reads back from the line |
| Stencils.Indented | src/Stencil.php:522-535 | every line gets the same n-space prefix, and the count and order of lines are kept |
| Stencils.Blanks | src/Stencil.php:493-501 | n empty lines |
| Stencils.Declaration | src/Stencil.php:263 | a declaration's head and value part read back from the line |
| Stencils.KeywordVariableLine | src/Stencil.php:331-485 | the wrappers' lower-case keywords always pass the visibility check and give the declaration line |
| Stencils.VariableLine | src/Stencil.php:276-320 | a line exists exactly when the lower-cased visibility is valid; it starts `vis[ static] $snake_name`, has no ` = ` part for null and ends ` = value;` otherwise |
| Stencils.WriteIfAbsent | src/Stencil.php:643-653 | an existing file is kept; a missing one is created with the text; no other path changes |
| Stencils.WriteIfAbsentOnce | src/Stencil.php:643-653 | generating a second time changes nothing |
| Stencils.Stencil.constructor | src/Stencil.php:83-87 | file name in PascalCase, class name ucfirst-ed, everything else empty |
| Stencils.Stencil.Indent | src/Stencil.php:227-237 | an explicit non-negative count is used as it is and a negative one is replaced by the default; the result is non-negative exactly when one of these is |
| Stencils.Stencil.SetIndention | src/Stencil.php:95-100 | the default indentation becomes four spaces per level |
| Stencils.Stencil.SetNamespace | src/Stencil.php:108-113 | the namespace is set with every `/` turned into `\` |
| Stencils.Stencil.SetAsAbstract | src/Stencil.php:130-135 | sets the abstract flag only |
| Stencils.Stencil.SetClassname | src/Stencil.php:143-148 | the class name becomes the PascalCase name |
| Stencils.Stencil.Extends | src/Stencil.php:166-171 | the parent is ucfirst-ed and has every `/` turned into `\` |
| Stencils.Stencil.Use | src/Stencil.php:190-198 | appends one import, without removing duplicates |
| Stencils.Stencil.Implement | src/Stencil.php:206-218 | a name is appended ucfirst-ed, a list is appended unchanged in order, anything else changes nothing |
| Stencils.Stencil.Raw | src/Stencil.php:227-237 | appends exactly one line: the given number of spaces, or the default when negative, then the text; earlier lines unchanged |
| Stencils.Stencil.AddConstant | src/Stencil.php:247-264 | appends exactly one constant line |
| Stencils.Stencil.DeclarationText | src/Stencil.php:287-314 | the property text built piece by piece is the declaration line |
| Stencils.Stencil.AddVariable | src/Stencil.php:276-320 | with an invalid visibility the lines are unchanged, whatever the indentation; otherwise exactly one declaration line is appended |
| Stencils.Stencil.AddPublicVariable | src/Stencil.php:331-339 | appends one `public` declaration |
| Stencils.Stencil.AddPublicStaticVariable | src/Stencil.php:349-357 | appends one `public static` declaration |
| Stencils.Stencil.AddNullPublicVariable | src/Stencil.php:367-375 | appends one `public` declaration without a value |
| Stencils.Stencil.AddPrivateVariable | src/Stencil.php:386-394 | appends one `private` declaration |
| Stencils.Stencil.AddPrivateStaticVariable | src/Stencil.php:404-412 | appends one `private static` declaration |
| Stencils.Stencil.AddNullPrivateVariable | src/Stencil.php:422-430 | appends one `private` declaration without a value |
| Stencils.Stencil.AddProtectedVariable | src/Stencil.php:441-449 | appends one `protected` declaration |
| Stencils.Stencil.AddProtectedStaticVariable | src/Stencil.php:459-467 | appends one `protected static` declaration |
| Stencils.Stencil.AddNullProtectedVariable | src/Stencil.php:477-485 | appends one `protected` declaration without a value |
| Stencils.Stencil.LineBreak | src/Stencil.php:493-501 | appends exactly max(n, 0) empty lines |
| Stencils.Stencil.AddLineComment | src/Stencil.php:510-513 | appends one `// ` line with the message ucfirst-ed |
| Stencils.Stencil.AddMethod | src/Stencil.php:522-535 | appends the method's lines in order, each indented the same |
| Stencils.Stencil.AddComment | src/Stencil.php:544-557 | appends the doc block's lines in order, each indented the same |
| Stencils.Stencil.AddAll | src/Stencil.php:529-532 | raw() on each template appends them all, in order, indented |
| Stencils.Stencil.ClassLineText | src/Stencil.php:598-620 | the class line built piece by piece is ClassLine of the fields |
| Stencils.Stencil.HeaderSegments | src/Stencil.php:567-596 | the tag, the namespace line and the import block, built in a loop |
| Stencils.Stencil.Segments | src/Stencil.php:565-634 | the segments of the current fields open with the PHP tag and end with the body lines, then `}` |
| Stencils.Stencil.Template | src/Stencil.php:565-635 | the file text is FileSegments of the fields joined by `eol`, and no field changes |
| Stencils.Stencil.TemplateTwice | src/Stencil.php:565-635 | two calls with no change in between give the same text |
| Stencils.Stencil.TargetPath | src/Stencil.php:645 | the target path is the directory, then the ucfirst-ed file name, then `.php`; the file name reads back from between them |
| Stencils.Stencil.Generate | src/Stencil.php:643-653 | writes the template to the target path exactly when no file is there |

## Left out

- File I/O in generate: `file_exists`, `fopen`, `fwrite` and `fclose` are replaced by a map from paths to contents that `Generate` returns updated.
- The helpers str_to_pascal, str_to_camel and str_to_snake are not part of this model. They are parameters (`Naming`).
- str_equals is not part of this model. It is taken to be string equality.
- json_encode is not part of this model. An array value is given by its encoded text.
- PHP_EOL is the parameter `eol`.
- Floating-point values: Method::addFloatParam and float constants, property values and defaults. PHP's float-to-string conversion is outside the model. Comment::addFloatParam, returnFloat and makeFloatval are modelled, because they only store the word `float`.
- Values of other PHP types (objects, resources) as constants, properties or defaults. Literal covers booleans, strings, integers, arrays and null.
- Integers are unbounded. PHP's 64-bit integer range does not change any text the builders produce.
- The getters and the version string carry no behaviour: getNamespace, getClassname, getExtendedClass, getFileName, version, getName, getVisibility, isStatic, getType, getVarType and getDescription.
- The fluent `return $this` chaining. Calls are made one after another on the same object.
- Stencils.Stencil.Raw requires a non-negative effective indentation. PHP 8's str_repeat throws a ValueError for a negative count, and the model does not include that exception.
- Methods.Method.Raw has the same requirement, for the same reason.
- The same requirement applies to Stencil's AddConstant, the nine AddVariable wrappers, AddLineComment, AddMethod and AddComment. Each of them calls raw().
- Stencils.Stencil.AddVariable needs it only when the visibility passes the check, since only then does it call raw().
- Stencils.Stencil.AddConstant follows PHP's string conversion for arrays (`Array`) but not the warning PHP raises for it.
