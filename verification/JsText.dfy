/** What JavaScript counts as white space in trim and parseInt. */
module JsText {
  predicate IsJsSpace(c: char) {
    || '\t' <= c <= '\r' || c == ' ' || c == '\U{A0}' || c == '\U{FEFF}' || c == '\U{1680}'
    || '\U{2000}' <= c <= '\U{200A}' || c == '\U{2028}' || c == '\U{2029}' || c == '\U{202F}' || c == '\U{205F}' || c == '\U{3000}'
  }

  /** trim() leaves nothing. */
  predicate IsBlank(s: string) {
    forall k :: 0 <= k < |s| ==> IsJsSpace(s[k])
  }
}
