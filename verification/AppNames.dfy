/** The rule for what an application may be called, shared by the agent and the server. */
module AppNames {

  const MAX_LEN := 32
  const MAX_APPS := 32

  predicate Alnum(c: char) {
    'a' <= c <= 'z' || '0' <= c <= '9'
  }

  predicate NameChar(c: char) {
    Alnum(c) || c == '-'
  }

  predicate Valid(s: string) {
    0 < |s| <= MAX_LEN && Alnum(s[0]) && forall i :: 0 <= i < |s| ==> NameChar(s[i])
  }

  predicate Distinct<T(==)>(s: seq<T>) {
    forall i, j :: 0 <= i < j < |s| ==> s[i] != s[j]
  }
}
