/** The log sanitiser of the OpenSearch exporter's object model: `String` and
    `URL` remove the control characters line feed and carriage return from a
    value before it is logged, so that a value cannot forge extra log lines
    (CWE-117). Both are two `strings.ReplaceAll` calls with an empty
    replacement: first every `'\n'` goes, then every `'\r'`. */
module ObjModel {
  import opened Strings

  /** `strings.ReplaceAll(s, [c], "")`: `s` with every `c` deleted. */
  function RemoveAll(s: string, c: char): (r: string)
    ensures c !in r
    ensures |r| == |s| - Count(c, s)
    ensures forall d :: d != c ==> Count(d, r) == Count(d, s)
    ensures c !in s ==> r == s
  {
    if |s| == 0 then ""
    else
      var rest := RemoveAll(s[1..], c);
      var r := (if s[0] == c then "" else [s[0]]) + rest;
      assert s[0] != c ==> r[0] == s[0] && r[1..] == rest;
      assert s[0] == c ==> r == rest;
      r
  }

  /** `RemoveAll` on a string with a known first character. */
  lemma RemoveAllCons(x: char, s: string, c: char)
    ensures RemoveAll([x] + s, c) == (if x == c then "" else [x]) + RemoveAll(s, c)
  {
  }

  /** A line break in the sense of the sanitiser. */
  predicate IsLineBreak(ch: char) {
    ch == '\n' || ch == '\r'
  }

  /** Reference definition, independent of the two-pass implementation: the
      characters of `s` that are not line breaks, in their original order,
      taken in one pass. */
  function Clean(s: string): string
  {
    if |s| == 0 then ""
    else (if IsLineBreak(s[0]) then "" else [s[0]]) + Clean(s[1..])
  }

  /** `objmodel.String`: remove every `'\n'`, then every `'\r'`. */
  function String(unsanitized: string): (r: string)
    ensures '\n' !in r
    ensures '\r' !in r
    ensures |r| == |unsanitized| - Count('\n', unsanitized) - Count('\r', unsanitized)
    ensures forall d :: !IsLineBreak(d) ==> Count(d, r) == Count(d, unsanitized)
  {
    var escaped := RemoveAll(unsanitized, '\n');
    var r := RemoveAll(escaped, '\r');
    assert Count('\n', r) == 0;
    r
  }

  /** `String` is the one-pass filter: it keeps exactly the characters that
      are not line breaks, and keeps them in order. */
  lemma {:induction false} StringIsClean(s: string)
    ensures String(s) == Clean(s)
    decreases |s|
  {
    if |s| > 0 {
      var x, tail := s[0], s[1..];
      var rest := RemoveAll(tail, '\n');
      assert s == [x] + tail;
      RemoveAllCons(x, tail, '\n');
      StringIsClean(tail);
      assert String(tail) == RemoveAll(rest, '\r');
      if x == '\n' {
        assert RemoveAll(s, '\n') == rest;
      } else {
        assert RemoveAll(s, '\n') == [x] + rest;
        RemoveAllCons(x, rest, '\r');
        assert String(s) == (if x == '\r' then "" else [x]) + String(tail);
      }
    }
  }

  /** A string without line breaks is left as it is. */
  lemma StringIdentityOnClean(s: string)
    requires '\n' !in s && '\r' !in s
    ensures String(s) == s
  {
  }

  /** Sanitising twice is sanitising once. */
  lemma StringIdempotent(s: string)
    ensures String(String(s)) == String(s)
  {
  }

  /** `objmodel.URL`: `String` applied to the URL's serialised form. How a
      URL value is serialised (`url.URL.String()`) is a parameter. */
  function URL<U>(unsanitized: U, serialize: U -> string): (r: string)
    ensures '\n' !in r && '\r' !in r
    ensures r == Clean(serialize(unsanitized))
  {
    StringIsClean(serialize(unsanitized));
    String(serialize(unsanitized))
  }
}
