/** The default values the builders print after `=`, and the two ways
    src/Stencil.php and src/Method.php turn them into source text. */
module Literals {
  import opened PhpText

  /** A PHP value given as a constant, property or parameter default.  `Arr`
      carries the text json_encode produces for the array: the encoder itself
      is not part of the builders. */
  datatype Literal = Bool(b: bool) | Str(s: string) | Int(i: int) | Arr(json: string) | Null

  /** The literal rule of addVariable and Method::templates, applied to a
      value that is not null: booleans as keywords, strings double-quoted with
      addslashes, arrays as their JSON text, integers in decimal. */
  function Formatted(v: Literal): (r: string)
    requires !v.Null?
    ensures v.Bool? ==> r == if v.b then "true" else "false"
    ensures v.Str? ==> |r| >= 2 && r[0] == '"' && r[|r| - 1] == '"'
    ensures v.Arr? ==> r == v.json
  {
    match v
    case Bool(b) => if b then "true" else "false"
    case Str(s) => "\"" + AddSlashes(s) + "\""
    case Int(i) => Decimal(i)
    case Arr(json) => json
  }

  /** A quoted string reads back, through stripslashes, as the original
      string. */
  lemma FormattedStrRoundTrip(s: string)
    ensures var r := Formatted(Str(s));
            |r| >= 2 && StripSlashes(r[1..|r| - 1]) == s
  {
    var q := Formatted(Str(s));
    assert q[1..|q| - 1] == AddSlashes(s);
    StripAddSlashes(s);
  }

  /** A decimal integer reads back as the original integer. */
  lemma FormattedIntRoundTrip(i: int)
    ensures ParseDecimal(Formatted(Int(i))) == i
  {
    DecimalRoundTrip(i);
  }

  /** The ` = value` part of a declaration: absent for null, which
      is how both builders skip it (`!is_null($value)`). */
  function DefaultSuffix(v: Literal): (r: string)
    ensures v.Null? <==> r == ""
    ensures !v.Null? ==> r == " = " + Formatted(v)
  {
    if v.Null? then "" else " = " + Formatted(v)
  }

  /** The value text of addConstant, which formats only booleans and
      strings and lets PHP's string conversion do the rest: an integer in
      decimal, an array as the word `Array`, null as nothing. */
  function ConstantText(v: Literal): (r: string)
    ensures v.Bool? || v.Str? || v.Int? ==> r == Formatted(v)
    ensures v.Arr? ==> r == "Array"
    ensures v.Null? ==> r == ""
  {
    match v
    case Arr(_) => "Array"
    case Null => ""
    case _ => Formatted(v)
  }

  /** A word in double quotes inside plain text (`he said "hi"`) is printed
      with both inner quotes escaped (`"he said \"hi\""`). */
  lemma FormattedQuotedWord(a: string, b: string)
    requires forall i :: 0 <= i < |a| ==> |Escape(a[i])| == 1
    requires forall i :: 0 <= i < |b| ==> |Escape(b[i])| == 1
    ensures Formatted(Str(a + "\"" + b + "\"")) == "\"" + a + "\\\"" + b + "\\\"" + "\""
  {
    AddSlashesQuoted(a, b);
  }
}
