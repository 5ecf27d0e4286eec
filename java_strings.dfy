/**
  The two pieces of java.lang that the interception policy and the
  configuration gate rely on: `String.equalsIgnoreCase` and
  `Boolean.parseBoolean`. Case folding is ASCII only.
 */
module JavaStrings {

  /** The lower-case form of one character under ASCII case folding. */
  function LowerAscii(c: char): (r: char)
    ensures 'A' <= c <= 'Z' ==> 'a' <= r <= 'z' && r as int == c as int + 32
    ensures !('A' <= c <= 'Z') ==> r == c
    ensures !('A' <= r <= 'Z')
  {
    if 'A' <= c <= 'Z' then (c as int - 'A' as int + 'a' as int) as char else c
  }

  /** The string with every ASCII upper-case letter folded to lower case. */
  function ToLowerAscii(s: string): (r: string)
    ensures |r| == |s|
    ensures forall i :: 0 <= i < |s| ==> r[i] == LowerAscii(s[i])
  {
    if s == [] then [] else [LowerAscii(s[0])] + ToLowerAscii(s[1..])
  }

  /** `a.equalsIgnoreCase(b)`: equal once both sides are case-folded. Equal
      strings are equal ignoring case, and only strings of one length are. */
  function EqualsIgnoreCase(a: string, b: string): (r: bool)
    ensures a == b ==> r
    ensures r ==> |a| == |b|
  {
    ToLowerAscii(a) == ToLowerAscii(b)
  }

  /** `Boolean.parseBoolean(s)` for a non-null `s`: true exactly for the four
      letters of "true", each in either case. */
  function ParseBoolean(s: string): (r: bool)
    ensures r <==> |s| == 4 && LowerAscii(s[0]) == 't' && LowerAscii(s[1]) == 'r' &&
                   LowerAscii(s[2]) == 'u' && LowerAscii(s[3]) == 'e'
  {
    EqualsIgnoreCaseCharwise(s, "true");
    EqualsIgnoreCase(s, "true")
  }

  /** Two strings are equal ignoring case exactly when they have the same
      length and agree character by character after folding. */
  lemma EqualsIgnoreCaseCharwise(a: string, b: string)
    ensures EqualsIgnoreCase(a, b) <==>
              |a| == |b| && forall i :: 0 <= i < |a| ==> LowerAscii(a[i]) == LowerAscii(b[i])
  {
    if |a| == |b| && forall i :: 0 <= i < |a| ==> LowerAscii(a[i]) == LowerAscii(b[i]) {
      assert forall i :: 0 <= i < |a| ==> ToLowerAscii(a)[i] == ToLowerAscii(b)[i];
    }
  }

  /** A string without ASCII upper-case letters is its own lower-case form. */
  lemma ToLowerAsciiOfLowerCase(s: string)
    requires forall i :: 0 <= i < |s| ==> !('A' <= s[i] <= 'Z')
    ensures ToLowerAscii(s) == s
  {
    assert forall i :: 0 <= i < |s| ==> ToLowerAscii(s)[i] == s[i];
  }

  /** Folding twice is folding once. */
  lemma ToLowerAsciiIdempotent(s: string)
    ensures ToLowerAscii(ToLowerAscii(s)) == ToLowerAscii(s)
  {
    var t := ToLowerAscii(s);
    assert forall i :: 0 <= i < |s| ==> ToLowerAscii(t)[i] == t[i];
  }

  /** A string is equal, ignoring case, to its own lower-case form. */
  lemma EqualsIgnoreCaseOwnLowerCase(s: string)
    ensures EqualsIgnoreCase(s, ToLowerAscii(s))
    ensures EqualsIgnoreCase(ToLowerAscii(s), s)
  {
    ToLowerAsciiIdempotent(s);
  }

  /** Comparing with "*" ignoring case holds only for "*" itself: the star has no other case. */
  lemma EqualsIgnoreCaseStar(s: string)
    ensures EqualsIgnoreCase("*", s) <==> s == "*"
  {
    EqualsIgnoreCaseCharwise("*", s);
    if EqualsIgnoreCase("*", s) {
      assert LowerAscii(s[0]) == '*';
      assert s == [s[0]];
    }
  }

  /** parseBoolean accepts "true" in every spelling of case and nothing else. */
  lemma ParseBooleanSpellings()
    ensures ParseBoolean("true") && ParseBoolean("TRUE") && ParseBoolean("True")
    ensures !ParseBoolean("false") && !ParseBoolean("yes") && !ParseBoolean("1") && !ParseBoolean("")
  {
    assert ToLowerAscii("TRUE") == "true";
    assert ToLowerAscii("True") == "true";
    assert ToLowerAscii("true") == "true";
    assert ToLowerAscii("false") == "false";
    assert ToLowerAscii("yes") == "yes";
    assert ToLowerAscii("1") == "1";
  }
}
