/** The PHP runtime's string primitives that the three builders rely on,
    restated over `seq<char>`.  Case mapping is ASCII-only, as strtolower,
    strtoupper and ucfirst are from PHP 8.2 on, whatever the locale. */
module PhpText {

  /** A PHP value that may be `null`. */
  datatype Option<T> = None | Some(value: T)

  predicate IsUpperAscii(c: char) { 'A' <= c <= 'Z' }

  predicate IsLowerAscii(c: char) { 'a' <= c <= 'z' }

  function LowerChar(c: char): char {
    if IsUpperAscii(c) then (c as int + 32) as char else c
  }

  function UpperChar(c: char): char {
    if IsLowerAscii(c) then (c as int - 32) as char else c
  }

  predicate StartsWith(s: string, prefix: string) {
    |prefix| <= |s| && s[..|prefix|] == prefix
  }

  predicate EndsWith(s: string, suffix: string) {
    |suffix| <= |s| && s[|s| - |suffix|..] == suffix
  }

  /** strtolower: every ASCII capital is mapped to its small letter. */
  function Lower(s: string): (r: string)
    ensures |r| == |s|
    ensures forall i :: 0 <= i < |s| ==> r[i] == LowerChar(s[i])
    ensures forall i :: 0 <= i < |r| ==> !IsUpperAscii(r[i])
  {
    if s == [] then [] else [LowerChar(s[0])] + Lower(s[1..])
  }

  /** strtoupper: every ASCII small letter is mapped to its capital. */
  function Upper(s: string): (r: string)
    ensures |r| == |s|
    ensures forall i :: 0 <= i < |s| ==> r[i] == UpperChar(s[i])
    ensures forall i :: 0 <= i < |r| ==> !IsLowerAscii(r[i])
  {
    if s == [] then [] else [UpperChar(s[0])] + Upper(s[1..])
  }

  /** A string with no ASCII capital is its own lower-case form. */
  lemma LowerOfLowercase(s: string)
    requires forall i :: 0 <= i < |s| ==> !IsUpperAscii(s[i])
    ensures Lower(s) == s
  {
    assert forall i :: 0 <= i < |s| ==> Lower(s)[i] == s[i];
  }

  /** strtolower is idempotent. */
  lemma LowerIdempotent(s: string)
    ensures Lower(Lower(s)) == Lower(s)
  {
    LowerOfLowercase(Lower(s));
  }

  /** ucfirst: only the first character is mapped to its capital. */
  function Ucfirst(s: string): (r: string)
    ensures |r| == |s|
    ensures s != [] ==> r[0] == UpperChar(s[0]) && r[1..] == s[1..]
  {
    if s == [] then [] else [UpperChar(s[0])] + s[1..]
  }

  /** The access keywords the builders accept, after strtolower. */
  predicate IsVisibility(v: string) {
    v == "public" || v == "private" || v == "protected"
  }

  /** The accepted keywords are already in lower case, so each passes the
      check as written. */
  lemma VisibilityKeywordsLower(v: string)
    requires IsVisibility(v)
    ensures Lower(v) == v
  {
    LowerOfLowercase(v);
  }

  /** The characters trim() strips by default: space, tab, line feed,
      carriage return, NUL and vertical tab. */
  predicate IsTrimChar(c: char) {
    c == ' ' || c == '\t' || c == '\n' || c == '\r' || c == '\0' || c as int == 11
  }

  /** A string that neither starts nor ends with a character trim() strips. */
  predicate Trimmed(s: string) {
    s == [] || (!IsTrimChar(s[0]) && !IsTrimChar(s[|s| - 1]))
  }

  /** How many characters trim() strips from the front: the length of the
      leading run of blanks. */
  function LeadingBlanks(s: string): (n: nat)
    ensures n <= |s|
    ensures forall i :: 0 <= i < n ==> IsTrimChar(s[i])
    ensures n < |s| ==> !IsTrimChar(s[n])
  {
    if s != [] && IsTrimChar(s[0]) then 1 + LeadingBlanks(s[1..]) else 0
  }

  /** How many characters trim() strips from the back once the first `lo`
      are gone: the length of the trailing run of blanks after position lo. */
  function TrailingBlanks(s: string, lo: nat): (n: nat)
    requires lo <= |s|
    ensures lo + n <= |s|
    ensures forall i :: |s| - n <= i < |s| ==> IsTrimChar(s[i])
    ensures lo + n < |s| ==> !IsTrimChar(s[|s| - n - 1])
  {
    if lo < |s| && IsTrimChar(s[|s| - 1]) then 1 + TrailingBlanks(s[..|s| - 1], lo) else 0
  }

  /** trim(): strips the default characters from both ends.  The result is
      the slice of the input that starts after its leading run of such
      characters and ends before its trailing run; it is trimmed, a trimmed
      input comes back unchanged (so trim is idempotent), and an input made
      only of such characters becomes empty. */
  function Trim(s: string): (r: string)
    ensures var a := LeadingBlanks(s);
      a + |r| <= |s| && r == s[a..a + |r|]
      && (forall i :: 0 <= i < a ==> IsTrimChar(s[i]))
      && (forall i :: a + |r| <= i < |s| ==> IsTrimChar(s[i]))
    ensures Trimmed(r)
    ensures |r| <= |s|
    ensures Trimmed(s) ==> r == s
    ensures (forall i :: 0 <= i < |s| ==> IsTrimChar(s[i])) ==> r == []
  {
    var a := LeadingBlanks(s);
    var b := TrailingBlanks(s, a);
    TrimmedSlice(s, a, b);
    s[a..|s| - b]
  }

  /** The slice of s between a leading run of a blanks and a trailing run of
      b blanks, when neither run can be extended, starts and ends with
      something else. */
  lemma TrimmedSlice(s: string, a: nat, b: nat)
    requires a + b <= |s|
    requires forall i :: 0 <= i < a ==> IsTrimChar(s[i])
    requires a < |s| ==> !IsTrimChar(s[a])
    requires forall i :: |s| - b <= i < |s| ==> IsTrimChar(s[i])
    requires a + b < |s| ==> !IsTrimChar(s[|s| - b - 1])
    ensures Trimmed(s[a..|s| - b])
    ensures Trimmed(s) ==> a == 0 && b == 0
    ensures (forall i :: 0 <= i < |s| ==> IsTrimChar(s[i])) ==> a + b == |s|
  {
    if Trimmed(s) && s != [] {
      assert !IsTrimChar(s[0]) && !IsTrimChar(s[|s| - 1]);
    }
  }

  /** The escape addslashes() writes for one character. */
  function Escape(c: char): (r: string)
    ensures |r| == 2 <==> (c == '\'' || c == '"' || c == '\\' || c == '\0')
    ensures |r| == 2 ==> r[0] == '\\' && r[1] == (if c == '\0' then '0' else c)
    ensures !(c == '\'' || c == '"' || c == '\\' || c == '\0') ==> r == [c]
  {
    if c == '\'' || c == '"' || c == '\\' then ['\\', c]
    else if c == '\0' then ['\\', '0']
    else [c]
  }

  /** addslashes(): a backslash before every quote, double quote and
      backslash, and NUL written as backslash-zero. */
  function AddSlashes(s: string): (r: string)
    ensures |s| <= |r| <= 2 * |s|
  {
    if s == [] then [] else Escape(s[0]) + AddSlashes(s[1..])
  }

  /** addslashes works character by character, so it distributes over concatenation. */
  lemma {:induction false} AddSlashesAppend(a: string, b: string)
    ensures AddSlashes(a + b) == AddSlashes(a) + AddSlashes(b)
  {
    if a != [] {
      assert (a + b)[0] == a[0] && (a + b)[1..] == a[1..] + b;
      AddSlashesAppend(a[1..], b);
      assert AddSlashes(a + b) == Escape(a[0]) + AddSlashes(a[1..] + b);
      assert AddSlashes(a) == Escape(a[0]) + AddSlashes(a[1..]);
    } else {
      assert a + b == b;
    }
  }

  /** Text without quotes, backslashes or NUL is left as it is. */
  lemma {:induction false} AddSlashesPlain(s: string)
    requires forall i :: 0 <= i < |s| ==> |Escape(s[i])| == 1
    ensures AddSlashes(s) == s
  {
    if s != [] {
      AddSlashesPlain(s[1..]);
    }
  }

  /** A double-quoted word inside plain text gets each of its two quotes escaped. */
  lemma AddSlashesQuoted(a: string, b: string)
    requires forall i :: 0 <= i < |a| ==> |Escape(a[i])| == 1
    requires forall i :: 0 <= i < |b| ==> |Escape(b[i])| == 1
    ensures AddSlashes(a + "\"" + b + "\"") == a + "\\\"" + b + "\\\""
  {
    var quote := "\"";
    assert AddSlashes(quote) == "\\\"";
    AddSlashesPlain(a);
    AddSlashesPlain(b);
    AddSlashesAppend(a + quote + b, quote);
    AddSlashesAppend(a + quote, b);
    AddSlashesAppend(a, quote);
  }

  /** stripslashes(), the inverse PHP provides: backslash-zero becomes NUL,
      a backslash before any other character is dropped, and a lone trailing
      backslash disappears. */
  function StripSlashes(s: string): (r: string)
    ensures |r| <= |s|
    ensures '\\' !in s ==> r == s
    decreases |s|
  {
    if s == [] then []
    else if s[0] == '\\' && |s| >= 2 then (if s[1] == '0' then ['\0'] else [s[1]]) + StripSlashes(s[2..])
    else if s[0] == '\\' then []
    else [s[0]] + StripSlashes(s[1..])
  }

  lemma StripEscape(c: char, t: string)
    ensures StripSlashes(Escape(c) + t) == [c] + StripSlashes(t)
  {
    var e := Escape(c) + t;
    if |Escape(c)| == 2 {
      assert e[0] == '\\' && e[1] == Escape(c)[1] && e[2..] == t;
    } else {
      assert e[0] == c && e[1..] == t;
    }
  }

  /** The escaping is lossless: stripslashes undoes addslashes. */
  lemma {:induction false} StripAddSlashes(s: string)
    ensures StripSlashes(AddSlashes(s)) == s
  {
    if s != [] {
      StripEscape(s[0], AddSlashes(s[1..]));
      StripAddSlashes(s[1..]);
      assert [s[0]] + s[1..] == s;
    }
  }

  /** str_repeat(' ', n) for a count str_repeat accepts. */
  function Spaces(n: nat): (r: string)
    ensures |r| == n && forall i :: 0 <= i < n ==> r[i] == ' '
  {
    seq(n, _ => ' ')
  }

  /** str_replace('/', '\\', s): every slash becomes a backslash. */
  function ReplaceSlashes(s: string): (r: string)
    ensures |r| == |s|
    ensures forall i :: 0 <= i < |s| ==> r[i] == if s[i] == '/' then '\\' else s[i]
    ensures '/' !in r
  {
    if s == [] then [] else [if s[0] == '/' then '\\' else s[0]] + ReplaceSlashes(s[1..])
  }

  /** A concatenation of three pieces starts with the first one or two and
      ends with the last one or two. */
  lemma ConcatEnds(x: string, y: string, z: string)
    ensures StartsWith(x + y + z, x) && StartsWith(x + y + z, x + y)
    ensures EndsWith(x + y + z, z) && EndsWith(x + y + z, y + z)
  {
    var s := x + y + z;
    assert s[..|x + y|] == x + y;
    assert s[..|x|] == x;
    assert s[|x|..] == y + z;
    assert s[|s| - |z|..] == z;
  }

  lemma EndsWithTrans(s: string, t: string, u: string)
    requires EndsWith(s, t) && EndsWith(t, u)
    ensures EndsWith(s, u)
  {
    assert s[|s| - |u|..] == t[|t| - |u|..];
  }

  /** implode(sep, parts): the parts with sep between neighbours. */
  function Implode(sep: string, parts: seq<string>): (r: string)
    ensures |parts| == 1 ==> r == parts[0]
    ensures parts == [] ==> r == ""
  {
    if parts == [] then ""
    else if |parts| == 1 then parts[0]
    else parts[0] + sep + Implode(sep, parts[1..])
  }

  /** Appending one more part adds one separator and the part. */
  lemma {:induction false} ImplodeSnoc(sep: string, parts: seq<string>, x: string)
    requires parts != []
    ensures Implode(sep, parts + [x]) == Implode(sep, parts) + sep + x
  {
    if |parts| > 1 {
      assert (parts + [x])[1..] == parts[1..] + [x];
      ImplodeSnoc(sep, parts[1..], x);
    }
  }

  /** The imploded text begins with the first part and ends with the last. */
  lemma {:induction false} ImplodeEnds(sep: string, parts: seq<string>)
    requires parts != []
    ensures StartsWith(Implode(sep, parts), parts[0])
    ensures EndsWith(Implode(sep, parts), parts[|parts| - 1])
  {
    if |parts| > 1 {
      ImplodeEnds(sep, parts[1..]);
      var rest := Implode(sep, parts[1..]);
      ConcatEnds(parts[0], sep, rest);
      EndsWithTrans(parts[0] + sep + rest, rest, parts[|parts| - 1]);
    }
  }

  /** Each part followed by sep, as a loop that writes "part, " builds it. */
  function Terminated(sep: string, parts: seq<string>): string {
    if parts == [] then "" else Terminated(sep, parts[..|parts| - 1]) + parts[|parts| - 1] + sep
  }

  lemma TerminatedSnoc(sep: string, parts: seq<string>, x: string)
    ensures Terminated(sep, parts + [x]) == Terminated(sep, parts) + x + sep
  {
    assert (parts + [x])[..|parts|] == parts;
  }

  /** Cutting the final separator off the loop's output gives implode. */
  lemma {:induction false} TerminatedIsImplode(sep: string, parts: seq<string>)
    requires parts != []
    ensures Terminated(sep, parts) == Implode(sep, parts) + sep
  {
    if |parts| > 1 {
      var init := parts[..|parts| - 1];
      TerminatedIsImplode(sep, init);
      ImplodeSnoc(sep, init, parts[|parts| - 1]);
      assert init + [parts[|parts| - 1]] == parts;
    }
  }

  function DigitChar(d: nat): char
    requires d < 10
  {
    ('0' as int + d) as char
  }

  /** The decimal digits of n, most significant first. */
  function NatToDecimal(n: nat): (r: string)
    ensures r != []
    ensures forall i :: 0 <= i < |r| ==> '0' <= r[i] <= '9'
    ensures r[0] == '0' ==> n == 0
  {
    if n < 10 then [DigitChar(n)] else NatToDecimal(n / 10) + [DigitChar(n % 10)]
  }

  /** PHP's conversion of an int to a string: an optional minus sign, then
      the decimal digits of the magnitude, with no leading zero except in
      `0` itself. */
  function Decimal(i: int): (r: string)
    ensures r != [] && (r[0] == '-' <==> i < 0)
    ensures var d := if i < 0 then 1 else 0;
      |r| > d
      && (forall k :: d <= k < |r| ==> '0' <= r[k] <= '9')
      && (r[d] == '0' ==> |r| == d + 1 && i == 0)
  {
    if i < 0 then "-" + NatToDecimal(-i) else NatToDecimal(i)
  }

  /** Reads decimal digits back, most significant first. */
  function ParseNat(s: string): int {
    if s == [] then 0 else 10 * ParseNat(s[..|s| - 1]) + (s[|s| - 1] as int - '0' as int)
  }

  function ParseDecimal(s: string): int {
    if s != [] && s[0] == '-' then -ParseNat(s[1..]) else ParseNat(s)
  }

  lemma {:induction false} ParseNatToDecimal(n: nat)
    ensures ParseNat(NatToDecimal(n)) == n
  {
    if n >= 10 {
      ParseNatToDecimal(n / 10);
      var r := NatToDecimal(n);
      assert r[..|r| - 1] == NatToDecimal(n / 10);
    }
  }

  /** The decimal text of an integer reads back as that integer. */
  lemma DecimalRoundTrip(i: int)
    ensures ParseDecimal(Decimal(i)) == i
  {
    if i < 0 {
      ParseNatToDecimal(-i);
      assert Decimal(i)[1..] == NatToDecimal(-i);
    } else {
      ParseNatToDecimal(i);
    }
  }
}
