/**
 * The part of Go's strings.TrimSpace that the chat server relies on: removing
 * leading and trailing white space from a line read off a connection.
 * Only the six ASCII white-space characters are recognised.
 */
module Strings {

  /** Tab, line feed, vertical tab, form feed, carriage return and space. */
  predicate IsSpace(ch: char) {
    ch == ' ' || ch == '\t' || ch == '\n' || ch == '\U{000B}' || ch == '\U{000C}' || ch == '\r'
  }

  predicate AllSpace(s: string) {
    forall i :: 0 <= i < |s| ==> IsSpace(s[i])
  }

  /** The length of the longest all-white-space prefix of `s`. */
  function LeadingSpaces(s: string): (n: nat)
    ensures n <= |s|
    ensures AllSpace(s[..n])
    ensures n < |s| ==> !IsSpace(s[n])
  {
    if s == [] || !IsSpace(s[0]) then 0
    else
      var k := LeadingSpaces(s[1..]);
      assert s[..k + 1] == [s[0]] + s[1..][..k];
      k + 1
  }

  /** The length of the longest all-white-space suffix of `s`. */
  function TrailingSpaces(s: string): (n: nat)
    ensures n <= |s|
    ensures AllSpace(s[|s| - n..])
    ensures n < |s| ==> !IsSpace(s[|s| - n - 1])
  {
    if s == [] || !IsSpace(s[|s| - 1]) then 0
    else
      var init := s[..|s| - 1];
      var k := TrailingSpaces(init);
      assert s[|s| - (k + 1)..] == init[|init| - k..] + [s[|s| - 1]];
      k + 1
  }

  /** `s` without its leading and trailing white space. */
  function TrimSpace(s: string): string {
    var rest := s[LeadingSpaces(s)..];
    rest[..|rest| - TrailingSpaces(rest)]
  }

  /**
   * What TrimSpace keeps: a contiguous piece of `s` that neither starts nor
   * ends with white space, with only white space cut off on either side.
   */
  lemma TrimSpaceShape(s: string)
    ensures |TrimSpace(s)| <= |s|
    ensures TrimSpace(s) == [] || (!IsSpace(TrimSpace(s)[0]) && !IsSpace(TrimSpace(s)[|TrimSpace(s)| - 1]))
    ensures exists i :: 0 <= i <= |s| - |TrimSpace(s)| && TrimSpace(s) == s[i..i + |TrimSpace(s)|]
                        && AllSpace(s[..i]) && AllSpace(s[i + |TrimSpace(s)|..])
  {
    var lead := LeadingSpaces(s);
    var rest := s[lead..];
    var t := TrailingSpaces(rest);
    var r := rest[..|rest| - t];
    assert r == TrimSpace(s);
    assert r == s[lead..lead + |r|];
    assert s[lead + |r|..] == rest[|rest| - t..];
    assert r != [] ==> r[0] == s[lead] && r[|r| - 1] == rest[|rest| - t - 1];
    assert 0 <= lead <= |s| - |r| && AllSpace(s[..lead]) && AllSpace(s[lead + |r|..]);
  }

  /** A line trims to the empty string exactly when it is all white space. */
  lemma TrimSpaceEmpty(s: string)
    ensures TrimSpace(s) == [] <==> AllSpace(s)
  {
    var lead := LeadingSpaces(s);
    var rest := s[lead..];
    var t := TrailingSpaces(rest);
    if t == |rest| {
      // `rest` is all white space yet cannot start with it, so it is empty.
      assert rest[|rest| - t..] == rest;
      assert lead == |s|;
      assert s[..lead] == s;
    } else {
      assert lead < |s| && !IsSpace(s[lead]);
    }
  }

  /** Trimming twice is trimming once. */
  lemma TrimSpaceIdempotent(s: string)
    ensures TrimSpace(TrimSpace(s)) == TrimSpace(s)
  {
    var r := TrimSpace(s);
    TrimSpaceShape(s);
    if r != [] {
      assert LeadingSpaces(r) == 0;
      assert r[0..] == r;
      assert TrailingSpaces(r) == 0;
    }
  }
}
