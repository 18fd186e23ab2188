/**
  The few functions of Go's `strings` and `unicode` packages that the schema
  engine relies on, over strings as sequences of characters.
 */
module GoStrings {

  /** unicode.IsSpace: the Latin-1 spaces and the White_Space property. */
  predicate IsSpace(c: char) {
    c == ' ' || c == '\t' || c == '\n' || c == '\r'
    || c as int == 0x0B || c as int == 0x0C || c as int == 0x85 || c as int == 0xA0
    || c as int == 0x1680 || (0x2000 <= c as int <= 0x200A)
    || c as int == 0x2028 || c as int == 0x2029 || c as int == 0x202F
    || c as int == 0x205F || c as int == 0x3000
  }

  predicate NoSpace(s: string) {
    forall i :: 0 <= i < |s| ==> !IsSpace(s[i])
  }

  /** Number of leading white-space characters. */
  function SpacePrefix(s: string): (n: nat)
    ensures n <= |s|
  {
    if s == [] || !IsSpace(s[0]) then 0 else 1 + SpacePrefix(s[1..])
  }

  /** The string holds at least one non-space character. */
  predicate HasToken(s: string) {
    SpacePrefix(s) < |s|
  }

  /** Length of the run of non-space characters that starts the string. */
  function TokenLength(s: string): (n: nat)
    ensures n <= |s|
    ensures forall i :: 0 <= i < n ==> !IsSpace(s[i])
    ensures n < |s| ==> IsSpace(s[n])
  {
    if s == [] || IsSpace(s[0]) then 0 else 1 + TokenLength(s[1..])
  }

  /** strings.Fields: the maximal runs of non-space characters, in order. */
  function Fields(s: string): (r: seq<string>)
    ensures forall i :: 0 <= i < |r| ==> |r[i]| > 0 && NoSpace(r[i])
    decreases |s|
  {
    if s == [] then []
    else if IsSpace(s[0]) then Fields(s[1..])
    else
      var n := TokenLength(s);
      [s[..n]] + Fields(s[n..])
  }

  /** strings.Fields yields a token exactly when the string is not all white space. */
  lemma {:induction false} FieldsNonEmpty(s: string)
    ensures |Fields(s)| > 0 <==> HasToken(s)
    decreases |s|
  {
    if s != [] && IsSpace(s[0]) {
      FieldsNonEmpty(s[1..]);
    }
  }

  /** A token followed by a separator (or nothing) is the first field. */
  lemma {:induction false} FieldsOfToken(token: string, rest: string)
    requires |token| > 0 && NoSpace(token)
    requires rest == [] || IsSpace(rest[0])
    ensures Fields(token + rest) == [token] + Fields(rest)
  {
    var s := token + rest;
    TokenLengthOfToken(token, rest);
    assert s[..|token|] == token;
    assert s[|token|..] == rest;
  }

  lemma {:induction false} TokenLengthOfToken(token: string, rest: string)
    requires NoSpace(token)
    requires rest == [] || IsSpace(rest[0])
    ensures TokenLength(token + rest) == |token|
    decreases |token|
  {
    if token != [] {
      assert (token + rest)[1..] == token[1..] + rest;
      TokenLengthOfToken(token[1..], rest);
    } else {
      assert token + rest == rest;
    }
  }

  lemma NoSpaceConcat(a: string, b: string)
    requires NoSpace(a) && NoSpace(b)
    ensures NoSpace(a + b)
  {
    forall i | 0 <= i < |a + b| ensures !IsSpace((a + b)[i]) {
      if i >= |a| {
        assert (a + b)[i] == b[i - |a|];
      }
    }
  }

  /** A lone token is its only field. */
  lemma FieldsOfSingle(token: string)
    requires |token| > 0 && NoSpace(token)
    ensures Fields(token) == [token]
  {
    FieldsOfToken(token, []);
    assert token + [] == token;
  }

  /** Two tokens separated by one space split into exactly those two fields. */
  lemma FieldsOfTwoTokens(first: string, second: string)
    requires |first| > 0 && NoSpace(first)
    requires |second| > 0 && NoSpace(second)
    ensures Fields(first) == [first]
    ensures Fields(first + " " + second) == [first, second]
  {
    FieldsOfSingle(first);
    FieldsOfSingle(second);
    var rest := " " + second;
    assert rest[1..] == second;
    assert Fields(rest) == Fields(second);
    FieldsOfToken(first, rest);
    assert first + " " + second == first + rest;
  }

  /** strings.TrimPrefix */
  function TrimPrefix(s: string, prefix: string): (r: string)
    ensures prefix <= s ==> prefix + r == s
    ensures !(prefix <= s) ==> r == s
  {
    if prefix <= s then s[|prefix|..] else s
  }

  predicate HasSuffix(s: string, suffix: string) {
    |suffix| <= |s| && s[|s| - |suffix|..] == suffix
  }

  /** strings.TrimSuffix */
  function TrimSuffix(s: string, suffix: string): (r: string)
    ensures HasSuffix(s, suffix) ==> r + suffix == s
    ensures !HasSuffix(s, suffix) ==> r == s
  {
    if HasSuffix(s, suffix) then s[..|s| - |suffix|] else s
  }

  /** strings.LastIndex for a one-character needle: -1 when absent. */
  function LastIndex(s: string, c: char): (r: int)
    ensures -1 <= r < |s|
    ensures r >= 0 ==> s[r] == c
    ensures forall j :: r < j < |s| ==> s[j] != c
  {
    if s == [] then -1
    else if s[|s| - 1] == c then |s| - 1
    else LastIndex(s[..|s| - 1], c)
  }
}
