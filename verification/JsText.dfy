/** The JavaScript string operations the models need. */
module JsText {
  /**
   * ASCII lower-casing.  Every use compares the result with ASCII text that contains no 'k', the only
   * letter that a non-ASCII character also lower-cases to.
   */
  function Lower(s: string): (r: string)
    ensures |r| == |s|
  {
    seq(|s|, i requires 0 <= i < |s| => if 'A' <= s[i] <= 'Z' then s[i] - 'A' + 'a' else s[i])
  }

  predicate StartsWith(s: string, prefix: string) {
    prefix <= s
  }

  /** White space and line terminators, as `\s`, `trim` and `String.prototype.trim` define them. */
  predicate IsSpace(c: char) {
    || c in "\t\n\U{000B}\U{000C}\r \U{00A0}\U{1680}\U{2028}\U{2029}\U{202F}\U{205F}\U{3000}\U{FEFF}"
    || '\U{2000}' <= c <= '\U{200A}'
  }

  predicate Blank(s: string) {
    forall i :: 0 <= i < |s| ==> IsSpace(s[i])
  }

  function TrimStart(s: string): string {
    if s != "" && IsSpace(s[0]) then TrimStart(s[1..]) else s
  }

  /** The text before the first `c`, or all of it. */
  function Before(s: string, c: char): string {
    if s == "" || s[0] == c then "" else [s[0]] + Before(s[1..], c)
  }

  /** `s.replace(/\s/g, "")` */
  function StripSpaces(s: string): string {
    if s == "" then "" else (if IsSpace(s[0]) then "" else [s[0]]) + StripSpaces(s[1..])
  }

  /** `s.slice(n)` */
  function Drop(s: string, n: nat): string {
    if n <= |s| then s[n..] else ""
  }

  /** `s.split(c)` for a one-character separator. */
  function Split(s: string, c: char): (parts: seq<string>)
    ensures parts != []
  {
    if s == "" then [""]
    else if s[0] == c then [""] + Split(s[1..], c)
    else
      var rest := Split(s[1..], c);
      [[s[0]] + rest[0]] + rest[1..]
  }
}
