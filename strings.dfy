/** The few string operations of the Rust standard library the program uses. */
module Strings {

  /** `[..].join(sep)`: the parts in order, with `sep` between neighbours. */
  function Join(parts: seq<string>, sep: string): string
    decreases |parts|
  {
    if |parts| == 0 then ""
    else if |parts| == 1 then parts[0]
    else parts[0] + sep + Join(parts[1..], sep)
  }

  /** Joining a concatenation joins the two halves and puts one separator between them,
      so the parts appear in the result in their original order. */
  lemma {:induction false} JoinConcat(a: seq<string>, b: seq<string>, sep: string)
    requires |a| > 0 && |b| > 0
    ensures Join(a + b, sep) == Join(a, sep) + sep + Join(b, sep)
    decreases |a|
  {
    assert (a + b)[0] == a[0];
    assert (a + b)[1..] == a[1..] + b;
    if |a| > 1 {
      JoinConcat(a[1..], b, sep);
    }
  }

  /** Rust's `{:?}` on a string: the text in double quotes, with quotes, backslashes and
      the common control characters escaped. */
  function Debug(s: string): string
  {
    "\"" + Escaped(s) + "\""
  }

  function Escaped(s: string): string
    decreases |s|
  {
    if |s| == 0 then "" else EscapedChar(s[0]) + Escaped(s[1..])
  }

  function EscapedChar(c: char): string
  {
    match c
    case '"' => "\\\""
    case '\\' => "\\\\"
    case '\n' => "\\n"
    case '\r' => "\\r"
    case '\t' => "\\t"
    case '\0' => "\\0"
    case _ => [c]
  }

  /** `bool::to_string`. */
  function BoolString(b: bool): string
  {
    if b then "true" else "false"
  }
}
