/** The few string helpers of Go's standard library that the provider relies
    on: `strings.Join`, `strings.Repeat`, `strconv.Itoa`, `%q` quoting and
    `filepath.Join`. */
module Text {

  /** `strings.Join(parts, sep)`. */
  function Join(parts: seq<string>, sep: string): (r: string)
    ensures parts == [] ==> r == ""
    ensures |parts| == 1 ==> r == parts[0]
  {
    if parts == [] then ""
    else if |parts| == 1 then parts[0]
    else parts[0] + sep + Join(parts[1..], sep)
  }

  /** Joining one more part appends the separator and that part. */
  lemma {:induction false} JoinSnoc(parts: seq<string>, last: string, sep: string)
    requires parts != []
    ensures Join(parts + [last], sep) == Join(parts, sep) + sep + last
  {
    if |parts| > 1 {
      assert (parts + [last])[1..] == parts[1..] + [last];
      JoinSnoc(parts[1..], last, sep);
    }
  }

  /** `strings.Repeat(s, n)` for one character. */
  function Repeat(c: char, n: nat): (r: string)
    ensures |r| == n
    ensures forall i :: 0 <= i < n ==> r[i] == c
  {
    if n == 0 then "" else Repeat(c, n - 1) + [c]
  }

  /** A shorter repetition is a prefix of a longer one. */
  lemma RepeatPrefix(c: char, m: nat, n: nat)
    requires m <= n
    ensures Repeat(c, m) == Repeat(c, n)[..m]
  {
  }

  function Digit(d: nat): (c: char)
    requires d < 10
    ensures '0' <= c <= '9'
  {
    "0123456789"[d]
  }

  /** Decimal digits of a natural number, most significant first. */
  function Digits(n: nat): (s: string)
    ensures |s| > 0
    ensures forall i :: 0 <= i < |s| ==> '0' <= s[i] <= '9'
  {
    if n < 10 then [Digit(n)] else Digits(n / 10) + [Digit(n % 10)]
  }

  /** `strconv.Itoa(n)`. */
  function Itoa(n: int): (s: string)
    ensures |s| > 0
    ensures s[0] == '-' <==> n < 0
  {
    if n < 0 then "-" + Digits(-n) else Digits(n)
  }

  /** Characters that `%q` escapes in the subset of strings this model
      covers: the quote, the backslash and three control characters. */
  predicate NeedsEscape(c: char) {
    c == '"' || c == '\\' || c == '\n' || c == '\r' || c == '\t'
  }

  function Escape(c: char): (r: string)
    ensures |r| == 2 && r[0] == '\\'
  {
    match c
    case '"' => "\\\""
    case '\\' => "\\\\"
    case '\n' => "\\n"
    case '\r' => "\\r"
    case _ => "\\t"
  }

  function EscapeAll(s: string): (r: string)
    ensures |r| >= |s|
  {
    if s == [] then ""
    else (if NeedsEscape(s[0]) then Escape(s[0]) else [s[0]]) + EscapeAll(s[1..])
  }

  /** `fmt.Sprintf("%q", s)`: the string between double quotes, with quotes,
      backslashes, newlines, carriage returns and tabs escaped. */
  function Quote(s: string): (r: string)
    ensures |r| >= |s| + 2 && r[0] == '"' && r[|r| - 1] == '"'
  {
    "\"" + EscapeAll(s) + "\""
  }

  /** No character of `s` needs escaping. */
  predicate Plain(s: string) {
    forall i :: 0 <= i < |s| ==> !NeedsEscape(s[i])
  }

  /** A string with nothing to escape is quoted verbatim. */
  lemma {:induction false} QuotePlain(s: string)
    requires Plain(s)
    ensures Quote(s) == "\"" + s + "\""
  {
    PlainEscapesToItself(s);
  }

  lemma {:induction false} PlainEscapesToItself(s: string)
    requires Plain(s)
    ensures EscapeAll(s) == s
  {
    if s != [] {
      PlainEscapesToItself(s[1..]);
    }
  }

  /** `filepath.Join(dir, name)` for a clean directory and a relative name
      (the lexical cleaning of `..` and duplicate separators is not modelled). */
  function JoinPath(dir: string, name: string): (r: string)
    ensures |r| == |dir| + 1 + |name| && r[|dir|] == '/'
  {
    dir + "/" + name
  }
}
