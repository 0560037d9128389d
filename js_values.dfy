/**
 * The few JavaScript value rules the handlers lean on: truthiness of an
 * optional string, the `||` default, how a template literal renders a
 * missing value, and the characters that `\s` and `String.prototype.trim`
 * treat as white space.
 */
module JsValues {
  import opened Wrappers

  /** A string-or-missing value is truthy when it is present and non-empty. */
  predicate Truthy(s: Option<string>) {
    s.Some? && s.value != ""
  }

  /** `s || fallback` for a string-or-missing `s`. */
  function OrElse(s: Option<string>, fallback: string): (r: string)
    ensures Truthy(s) ==> r == s.value
    ensures !Truthy(s) ==> r == fallback
  {
    if Truthy(s) then s.value else fallback
  }

  /** `${s}` where a missing `s` is `undefined` (a destructured JSON field). */
  function ShowUndefined(s: Option<string>): string {
    match s
    case Some(v) => v
    case None => "undefined"
  }

  /** `${s}` where a missing `s` is `null` (the result of `headers.get`). */
  function ShowNull(s: Option<string>): string {
    match s
    case Some(v) => v
    case None => "null"
  }

  /**
   * ECMAScript WhiteSpace and LineTerminator code points: the class `\s`
   * and the characters `trim` removes.
   */
  predicate IsWhitespace(c: char) {
    || c == '\t' || c == '\n' || c == '\U{000B}' || c == '\U{000C}' || c == '\r'
    || c == ' ' || c == '\U{00A0}' || c == '\U{1680}'
    || ('\U{2000}' <= c <= '\U{200A}')
    || c == '\U{2028}' || c == '\U{2029}' || c == '\U{202F}' || c == '\U{205F}'
    || c == '\U{3000}' || c == '\U{FEFF}'
  }

  /** `s.trimStart()`. */
  function TrimStart(s: string): (r: string)
    ensures |r| <= |s| && r == s[|s| - |r|..]
    ensures forall k :: 0 <= k < |s| - |r| ==> IsWhitespace(s[k])
    ensures r == [] || !IsWhitespace(r[0])
  {
    if s != [] && IsWhitespace(s[0]) then TrimStart(s[1..]) else s
  }

  /** `s.trimEnd()`. */
  function TrimEnd(s: string): (r: string)
    ensures |r| <= |s| && r == s[..|r|]
    ensures forall k :: |r| <= k < |s| ==> IsWhitespace(s[k])
    ensures r == [] || !IsWhitespace(r[|r| - 1])
  {
    if s != [] && IsWhitespace(s[|s| - 1]) then TrimEnd(s[..|s| - 1]) else s
  }

  /** `s.trim()`. */
  function Trim(s: string): string {
    TrimEnd(TrimStart(s))
  }

  /** Trailing white space appended to a string that ends in a non-space is exactly what trimEnd removes. */
  lemma {:induction false} TrimEndDropsTrailingSpace(core: string, tail: string)
    requires core != [] && !IsWhitespace(core[|core| - 1])
    requires forall k :: 0 <= k < |tail| ==> IsWhitespace(tail[k])
    ensures TrimEnd(core + tail) == core
  {
    if tail == [] {
      assert core + tail == core;
    } else {
      var shorter := tail[..|tail| - 1];
      assert (core + tail)[..|core + tail| - 1] == core + shorter;
      TrimEndDropsTrailingSpace(core, shorter);
    }
  }
}
