/** Case-insensitive names (ellidri-unicase) and the names the server accepts (src/data/strings.rs). */
module Names {

  /** `to_ascii_lowercase` of one character. */
  function Lower(c: char): char
  {
    if 'A' <= c <= 'Z' then (c as int + 32) as char else c
  }

  /** The text the hasher is fed: every character in lower case. */
  function Canonical(s: string): (r: string)
    ensures |r| == |s|
  {
    seq(|s|, i requires 0 <= i < |s| => Lower(s[i]))
  }

  /** Equality of `UniCase` strings: same length, characters equal pairwise up to case. */
  predicate SameName(a: string, b: string)
  {
    |a| == |b| && forall i :: 0 <= i < |a| ==> Lower(a[i]) == Lower(b[i])
  }

  /** Maps keyed by `UniCase` strings are maps keyed by canonical strings. */
  lemma SameNameIsSameKey(a: string, b: string)
    ensures SameName(a, b) <==> Canonical(a) == Canonical(b)
  {
    if Canonical(a) == Canonical(b) {
      assert |a| == |Canonical(a)|;
      forall i | 0 <= i < |a| ensures Lower(a[i]) == Lower(b[i]) {
        assert Canonical(a)[i] == Lower(a[i]) && Canonical(b)[i] == Lower(b[i]);
      }
    }
  }

  predicate IsNamespace(c: char) { c == '#' || c == '&' }
  predicate IsWildcard(c: char) { c == '?' || c == '*' }
  predicate IsPrefix(c: char) { c == '~' || c == '&' || c == '@' || c == '%' || c == '+' }
  predicate IsValidChar(c: char) { c != ' ' && c != ',' && c != ':' }

  predicate IsValidName(s: string)
  {
    s != "" && !IsPrefix(s[0]) &&
    forall i :: 0 <= i < |s| ==> IsValidChar(s[i]) && !IsNamespace(s[i]) && !IsWildcard(s[i])
  }

  predicate IsRestricted(s: string)
  {
    |s| < 9 && |s| >= 4 && s[|s| - 4..] == "Serv"
  }

  predicate IsNickname(s: string)
  {
    IsValidName(s) && !IsRestricted(s)
  }

  /** The nickname of a client that has not chosen one: no accepted nickname collides with it. */
  const NO_NICK := "*"

  lemma NicknameIsNotPlaceholder(n: string)
    requires IsNickname(n)
    ensures n != NO_NICK && Canonical(n) != Canonical(NO_NICK)
  {
    assert Canonical(NO_NICK)[0] == '*';
    assert Canonical(n)[0] == Lower(n[0]) != '*';
  }
}
