/** The two string operations the line tokenizer is built from: cutting a
    line at its first `//` (`line.split("//")` keeping the first piece) and
    splitting the rest into whitespace-separated fields (`split_whitespace`). */
module Text {

  /** Rust's `char::is_whitespace`: the Unicode White_Space property. */
  predicate IsWs(c: char) {
    c == ' ' || ('\t' <= c <= '\r') || c == '\U{85}' || c == '\U{A0}' ||
    c == '\U{1680}' || ('\U{2000}' <= c <= '\U{200A}') || c == '\U{2028}' ||
    c == '\U{2029}' || c == '\U{202F}' || c == '\U{205F}' || c == '\U{3000}'
  }

  /** A field as `split_whitespace` yields it: non-empty, no whitespace. */
  predicate IsField(w: string) {
    |w| > 0 && forall k :: 0 <= k < |w| ==> !IsWs(w[k])
  }

  predicate AllWs(s: string) {
    forall k :: 0 <= k < |s| ==> IsWs(s[k])
  }

  /** A comment marker `//` starts at position i of s. */
  predicate MarkerAt(s: string, i: int) {
    0 <= i && i + 1 < |s| && s[i] == '/' && s[i + 1] == '/'
  }

  predicate NoMarker(s: string) {
    forall i :: 0 <= i < |s| ==> !MarkerAt(s, i)
  }

  /** The text before the first `//`, or the whole line if it has none. */
  function CodePart(line: string): (r: string)
    ensures r <= line
    ensures forall i :: 0 <= i < |r| ==> !MarkerAt(line, i)
    ensures r == line || MarkerAt(line, |r|)
    decreases |line|
  {
    if |line| < 2 then line
    else if line[0] == '/' && line[1] == '/' then ""
    else
      var rest := CodePart(line[1..]);
      assert forall i :: 1 <= i < |rest| + 1 ==> (MarkerAt(line, i) <==> MarkerAt(line[1..], i - 1));
      [line[0]] + rest
  }

  /** The characters of s that are not whitespace, in order. */
  function Visible(s: string): string {
    if |s| == 0 then [] else (if IsWs(s[0]) then [] else [s[0]]) + Visible(s[1..])
  }

  /** All fields concatenated. */
  function Concat(fs: seq<string>): string {
    if |fs| == 0 then [] else fs[0] + Concat(fs[1..])
  }

  /** The fields joined with single spaces. */
  function Join(fs: seq<string>): string {
    if |fs| == 0 then []
    else if |fs| == 1 then fs[0]
    else fs[0] + " " + Join(fs[1..])
  }

  /** Where the field starting at position i ends: the next whitespace or
      the end of s. */
  function FieldEnd(s: string, i: nat): (j: nat)
    requires i <= |s|
    ensures i <= j <= |s|
    ensures forall k :: i <= k < j ==> !IsWs(s[k])
    ensures j == |s| || IsWs(s[j])
    decreases |s| - i
  {
    if i == |s| || IsWs(s[i]) then i else FieldEnd(s, i + 1)
  }

  /** `split_whitespace`: the maximal runs of non-whitespace characters. */
  function SplitWs(s: string): (fs: seq<string>)
    ensures forall j :: 0 <= j < |fs| ==> IsField(fs[j])
    decreases |s|
  {
    if |s| == 0 then []
    else if IsWs(s[0]) then SplitWs(s[1..])
    else
      var n := FieldEnd(s, 0);
      [s[..n]] + SplitWs(s[n..])
  }

  /** The fields of a source line: its code part split on whitespace. */
  function Fields(line: string): seq<string> {
    SplitWs(CodePart(line))
  }
}
