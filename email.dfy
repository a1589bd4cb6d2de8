/** The email pattern of auth/internal/v1/model/auth.go, written out as a
    predicate: a non-empty local part over letters, digits and
    .!#$%&'*+/=?^_ `{|}~- (space and backquote included), one '@', then
    dot-separated labels of 1 to 63 letters, digits and hyphens that begin
    and end with a letter or digit. The pattern is anchored at both ends. */
module Email {
  import opened Errors

  predicate IsAlnum(c: char) {
    'a' <= c <= 'z' || 'A' <= c <= 'Z' || '0' <= c <= '9'
  }

  predicate IsNameChar(c: char) {
    IsAlnum(c) || c in ".!#$%&'*+/=?^_ `{|}~-"
  }

  /** One domain label: `[a-zA-Z0-9](?:[a-zA-Z0-9-]{0,61}[a-zA-Z0-9])?`. */
  predicate IsLabel(l: string) {
    && 1 <= |l| <= 63
    && IsAlnum(l[0]) && IsAlnum(l[|l| - 1])
    && forall i :: 0 <= i < |l| ==> IsAlnum(l[i]) || l[i] == '-'
  }

  /** The position of the first `c` in `s`. */
  function IndexOf(s: string, c: char): (r: Option<nat>)
    ensures r.Some? ==> r.value < |s| && s[r.value] == c && c !in s[..r.value]
    ensures r.None? <==> c !in s
  {
    if s == [] then None
    else if s[0] == c then Some(0)
    else match IndexOf(s[1..], c)
      case None => None
      case Some(i) => assert s[1..][..i] == s[1..i + 1]; Some(i + 1)
  }

  /** `label(\.label)*`: labels hold no dot, so the first dot ends the first label. */
  predicate IsDomain(d: string)
    decreases |d|
  {
    match IndexOf(d, '.')
    case None => IsLabel(d)
    case Some(i) => IsLabel(d[..i]) && IsDomain(d[i + 1..])
  }

  predicate IsLocalPart(name: string) {
    |name| > 0 && forall i :: 0 <= i < |name| ==> IsNameChar(name[i])
  }

  /** `IsValidEmail.MatchString`: neither part may hold '@', so the first '@'
      is the separator. */
  predicate IsValidEmail(s: string) {
    match IndexOf(s, '@')
    case None => false
    case Some(i) => IsLocalPart(s[..i]) && IsDomain(s[i + 1..])
  }

  /** A domain holds no '@'. */
  lemma {:induction false} DomainHasNoAt(d: string)
    requires IsDomain(d)
    ensures '@' !in d
    decreases |d|
  {
    match IndexOf(d, '.')
    case None =>
    case Some(i) =>
      DomainHasNoAt(d[i + 1..]);
      assert d == d[..i] + [d[i]] + d[i + 1..];
  }

  /** A domain neither starts nor ends with a dot. */
  lemma {:induction false} DomainEnds(d: string)
    requires IsDomain(d)
    ensures |d| > 0 && d[0] != '.' && d[|d| - 1] != '.'
    decreases |d|
  {
    match IndexOf(d, '.')
    case None =>
    case Some(i) =>
      DomainEnds(d[i + 1..]);
  }

  /** The first `c` is at `k` when `s[k]` is `c` and no earlier character is. */
  lemma {:induction false} IndexOfAt(s: string, c: char, k: nat)
    requires k < |s| && s[k] == c && c !in s[..k]
    ensures IndexOf(s, c) == Some(k)
  {
    if k > 0 {
      assert s[0] in s[..k];
      assert s[1..][..k - 1] == s[1..k];
      assert forall j :: 0 <= j < k - 1 ==> s[1..k][j] == s[..k][j + 1];
      IndexOfAt(s[1..], c, k - 1);
    }
  }

  /** An accepted address holds exactly one '@'. */
  lemma OneAt(s: string)
    requires IsValidEmail(s)
    ensures '@' in s
    ensures forall i, j :: 0 <= i < |s| && 0 <= j < |s| && s[i] == '@' && s[j] == '@' ==> i == j
  {
    var k := IndexOf(s, '@').value;
    DomainHasNoAt(s[k + 1..]);
    assert forall i :: 0 <= i < k ==> s[..k][i] == s[i];
    assert forall i :: k < i < |s| ==> s[k + 1..][i - k - 1] == s[i];
  }

  /** The pattern splits at the '@': a well-formed local part joined to a
      domain is accepted exactly when the domain is well formed. */
  lemma Compose(name: string, domain: string)
    requires IsLocalPart(name)
    ensures IsValidEmail(name + "@" + domain) <==> IsDomain(domain)
  {
    var s := name + "@" + domain;
    assert s[..|name|] == name && s[|name| + 1..] == domain;
    assert '@' !in name;
    IndexOfAt(s, '@', |name|);
  }
}
