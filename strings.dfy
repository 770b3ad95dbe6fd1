/** Small facts about strings used by the renderers' readers and the
    orchestrator's file names. */
module Strings {
  import opened Wrappers

  /** The text strictly between a known head and a known tail, when `text`
      starts with `head` and ends with `tail` (the two may not overlap). */
  function Between(text: string, head: string, tail: string): Option<string> {
    if |head| + |tail| <= |text| && text[..|head|] == head && text[|text| - |tail|..] == tail
    then Some(text[|head|..|text| - |tail|])
    else None
  }

  /** Cutting a fixed head and tail off a text gives back exactly what was
      put between them, whatever that is. */
  lemma BetweenRoundTrip(head: string, body: string, tail: string)
    ensures Between(head + body + tail, head, tail) == Some(body)
  {
    var text := head + body + tail;
    assert text[..|head|] == head;
    assert text[|text| - |tail|..] == tail;
    assert text[|head|..|text| - |tail|] == body;
  }

  /** Whatever Between returns, the text is head, that body, tail. */
  lemma BetweenSound(text: string, head: string, tail: string)
    requires Between(text, head, tail).Some?
    ensures text == head + Between(text, head, tail).value + tail
  {
    var body := text[|head|..|text| - |tail|];
    assert text == text[..|head|] + body + text[|text| - |tail|..];
  }

  /** `a + s == b + s` only when `a == b`. */
  lemma AppendCancel(a: string, b: string, s: string)
    requires a + s == b + s
    ensures a == b
  {
    assert |a| == |b|;
    assert a == (a + s)[..|a|];
    assert b == (b + s)[..|b|];
  }

  /** `p + a == p + b` only when `a == b`. */
  lemma PrependCancel(p: string, a: string, b: string)
    requires p + a == p + b
    ensures a == b
  {
    assert a == (p + a)[|p|..];
    assert b == (p + b)[|p|..];
  }

  /** A body a C# regular string literal takes literally: no quote, no
      backslash and none of C#'s new-line characters (line feed, carriage
      return, next line, line and paragraph separator). */
  predicate Plain(s: string) {
    forall i :: 0 <= i < |s| ==>
      s[i] != '"' && s[i] != '\\' && s[i] != '\n' && s[i] != '\r'
      && s[i] != '\U{0085}' && s[i] != '\U{2028}' && s[i] != '\U{2029}'
  }

  /** A body a JavaScript string literal takes literally: no quote, no
      backslash, no line feed or carriage return. Since ES2019 the line and
      paragraph separators may stand in a string literal. */
  predicate JsPlain(s: string) {
    forall i :: 0 <= i < |s| ==> s[i] != '"' && s[i] != '\\' && s[i] != '\n' && s[i] != '\r'
  }

  /** Every body C# takes literally JavaScript does too. */
  lemma PlainIsJsPlain(s: string)
    requires Plain(s)
    ensures JsPlain(s)
  {
  }

  /** Position of the first `c` in `s`, or `|s|` when there is none. */
  function IndexOf(s: string, c: char): (k: nat)
    ensures k <= |s|
    ensures forall i :: 0 <= i < k ==> s[i] != c
    ensures k < |s| ==> s[k] == c
  {
    if s == [] then 0
    else if s[0] == c then 0
    else 1 + IndexOf(s[1..], c)
  }

  /** The first `c` in `s + [c] + t` is the one after `s` when `s` has none. */
  lemma IndexOfFirst(s: string, c: char, t: string)
    requires c !in s
    ensures IndexOf(s + [c] + t, c) == |s|
  {
    var text := s + [c] + t;
    var k := IndexOf(text, c);
    assert text[|s|] == c;
  }
}
