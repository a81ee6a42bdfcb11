/**
 * EMAIL_VALIDATION_REGEX of public/scripts/constants.js, used by getUserByEmail
 * through `regex.test(email)`:
 *
 *   L+(\.L+)*@(label\.)+label    with no anchors and no flags, where
 *   L     = [a-z0-9!#$%&'*+/=?^_`{|}~-]
 *   label = [a-z0-9]([a-z0-9-]*[a-z0-9])?
 *
 * The ghost predicates below give the meaning of the pattern; IsEmail is a
 * hand-coded recogniser, and IsEmailIffRegexTest proves that the two agree.
 */
module EmailShape {

  /** [a-z0-9]: the class is case-sensitive, the pattern has no `i` flag. */
  predicate IsAlnum(c: char)
  {
    ('a' <= c <= 'z') || ('0' <= c <= '9')
  }

  /** [a-z0-9-] */
  predicate IsLabelChar(c: char)
  {
    IsAlnum(c) || c == '-'
  }

  /** [a-z0-9!#$%&'*+/=?^_`{|}~-] */
  predicate IsLocalChar(c: char)
  {
    IsAlnum(c) || c in "!#$%&'*+/=?^_`{|}~-"
  }

  // ---- meaning of the pattern ----

  /** L+ */
  ghost predicate Atom(w: string)
  {
    |w| >= 1 && forall i :: 0 <= i < |w| ==> IsLocalChar(w[i])
  }

  /** L+(\.L+)* */
  ghost predicate LocalPart(w: string)
    decreases |w|
  {
    Atom(w) || exists d :: 0 < d < |w| && w[d] == '.' && Atom(w[..d]) && LocalPart(w[d + 1..])
  }

  /** [a-z0-9]([a-z0-9-]*[a-z0-9])? */
  ghost predicate Label(w: string)
  {
    |w| >= 1 && IsAlnum(w[0]) && IsAlnum(w[|w| - 1]) &&
    forall i :: 0 <= i < |w| ==> IsLabelChar(w[i])
  }

  /** (label\.)+label */
  ghost predicate Domain(w: string)
    decreases |w|
  {
    exists d :: 0 < d < |w| - 1 && w[d] == '.' && Label(w[..d]) &&
      (Label(w[d + 1..]) || Domain(w[d + 1..]))
  }

  /** The whole of w matches the pattern. */
  ghost predicate FullMatch(w: string)
  {
    exists k :: 0 < k < |w| && w[k] == '@' && LocalPart(w[..k]) && Domain(w[k + 1..])
  }

  /** `EMAIL_VALIDATION_REGEX.test(s)`: without anchors, some substring matches. */
  ghost predicate RegexTest(s: string)
  {
    exists i, j :: 0 <= i <= j <= |s| && FullMatch(s[i..j])
  }

  // ---- the recogniser ----

  /** The first index at or after p that does not hold a label character. */
  function LabelEnd(s: string, p: nat): (q: nat)
    requires p <= |s|
    ensures p <= q <= |s|
    ensures forall t :: p <= t < q ==> IsLabelChar(s[t])
    ensures q < |s| ==> !IsLabelChar(s[q])
    decreases |s| - p
  {
    if p < |s| && IsLabelChar(s[p]) then LabelEnd(s, p + 1) else p
  }

  /** From p on, s reads: a label, a dot, and the first character of another label. */
  predicate DomainStartsAt(s: string, p: nat)
    requires p <= |s|
  {
    p < |s| && IsAlnum(s[p]) &&
    var q := LabelEnd(s, p);
    p < q && q + 1 < |s| && s[q] == '.' && IsAlnum(s[q - 1]) && IsAlnum(s[q + 1])
  }

  /** An '@' at k, a local character before it and the start of a domain after it. */
  predicate MatchesAt(s: string, k: nat)
  {
    0 < k < |s| && s[k] == '@' && IsLocalChar(s[k - 1]) && DomainStartsAt(s, k + 1)
  }

  /**
   * The hand-coded email-shape check: an accepted string holds an '@' with a
   * character before it and at least three after it.
   */
  predicate IsEmail(s: string)
    ensures IsEmail(s) ==> exists k | 0 < k < |s| - 3 :: s[k] == '@'
  {
    exists k | 0 <= k < |s| :: MatchesAt(s, k)
  }

  // ---- agreement ----

  lemma {:induction false} LocalPartEnds(w: string)
    requires LocalPart(w)
    ensures |w| >= 1 && IsLocalChar(w[|w| - 1])
    decreases |w|
  {
    if !Atom(w) {
      var d :| 0 < d < |w| && w[d] == '.' && Atom(w[..d]) && LocalPart(w[d + 1..]);
      LocalPartEnds(w[d + 1..]);
      assert w[|w| - 1] == w[d + 1..][|w[d + 1..]| - 1];
    }
  }

  /** LabelEnd stops exactly at the first non-label character. */
  lemma LabelEndAt(s: string, p: nat, q: nat)
    requires p <= q < |s|
    requires forall t :: p <= t < q ==> IsLabelChar(s[t])
    requires !IsLabelChar(s[q])
    ensures LabelEnd(s, p) == q
  {
  }

  /** A domain begins with a label, a dot and the first character of the next label. */
  lemma DomainHead(v: string) returns (d: nat)
    requires Domain(v)
    ensures 0 < d < |v| - 1 && v[d] == '.' && Label(v[..d]) && IsAlnum(v[d + 1])
  {
    d :| 0 < d < |v| - 1 && v[d] == '.' && Label(v[..d]) &&
      (Label(v[d + 1..]) || Domain(v[d + 1..]));
    var u := v[d + 1..];
    assert u[0] == v[d + 1];
    if !Label(u) {
      var e :| 0 < e < |u| - 1 && u[e] == '.' && Label(u[..e]) &&
        (Label(u[e + 1..]) || Domain(u[e + 1..]));
      assert u[..e][0] == u[0];
    }
  }

  /** A label of length d at p, then a dot and an alphanumeric: the recogniser's domain test. */
  lemma DomainStartsAtLabel(s: string, p: nat, d: nat)
    requires 0 < d && p + d + 1 < |s|
    requires Label(s[p..p + d]) && s[p + d] == '.' && IsAlnum(s[p + d + 1])
    ensures DomainStartsAt(s, p)
  {
    var lab := s[p..p + d];
    assert forall t :: p <= t < p + d ==> s[t] == lab[t - p];
    LabelEndAt(s, p, p + d);
    assert s[p] == lab[0];
    assert s[p + d - 1] == lab[d - 1];
  }

  /**
   * A match has an '@' preceded by a local character and followed by a label,
   * a dot and an alphanumeric character.
   */
  lemma MatchParts(w: string) returns (k: nat, d: nat)
    requires FullMatch(w)
    ensures 0 < k && k + 1 + d + 1 < |w| && w[k] == '@' && IsLocalChar(w[k - 1])
    ensures 0 < d && Label(w[k + 1..k + 1 + d]) && w[k + 1 + d] == '.' && IsAlnum(w[k + 1 + d + 1])
  {
    k :| 0 < k < |w| && w[k] == '@' && LocalPart(w[..k]) && Domain(w[k + 1..]);
    LocalPartBefore(w, k);
    d := DomainAfter(w, k);
  }

  lemma LocalPartBefore(w: string, k: nat)
    requires 0 < k <= |w| && LocalPart(w[..k])
    ensures IsLocalChar(w[k - 1])
  {
    LocalPartEnds(w[..k]);
    assert w[..k][k - 1] == w[k - 1];
  }

  lemma DomainAfter(w: string, k: nat) returns (d: nat)
    requires k < |w| && Domain(w[k + 1..])
    ensures 0 < d && k + 1 + d + 1 < |w|
    ensures Label(w[k + 1..k + 1 + d]) && w[k + 1 + d] == '.' && IsAlnum(w[k + 1 + d + 1])
  {
    var v := w[k + 1..];
    d := DomainHead(v);
    assert v[..d] == w[k + 1..k + 1 + d];
    assert v[d] == w[k + 1 + d] && v[d + 1] == w[k + 1 + d + 1];
  }

  /** Parts of a match found in s[i..j] are a position the recogniser accepts. */
  lemma MatchFound(s: string, i: nat, j: nat, k: nat, d: nat)
    requires i <= j <= |s|
    requires 0 < k && k + 1 + d + 1 < j - i
    requires s[i..j][k] == '@' && IsLocalChar(s[i..j][k - 1])
    requires 0 < d && Label(s[i..j][k + 1..k + 1 + d]) && s[i..j][k + 1 + d] == '.'
    requires IsAlnum(s[i..j][k + 1 + d + 1])
    ensures IsEmail(s)
  {
    var w := s[i..j];
    assert w[k] == s[i + k] && w[k - 1] == s[i + k - 1];
    var lab, lab' := w[k + 1..k + 1 + d], s[i + k + 1..i + k + 1 + d];
    assert forall t :: 0 <= t < d ==> lab[t] == lab'[t];
    assert lab == lab';
    assert w[k + 1 + d] == s[i + k + 1 + d] && w[k + 1 + d + 1] == s[i + k + 1 + d + 1];
    DomainStartsAtLabel(s, i + k + 1, d);
    assert MatchesAt(s, i + k);
  }

  /** A position the recogniser accepts is the start of a match of the pattern. */
  lemma MatchAt(s: string, k: nat)
    requires MatchesAt(s, k)
    ensures FullMatch(s[k - 1..LabelEnd(s, k + 1) + 2])
  {
    var q := LabelEnd(s, k + 1);
    var w := s[k - 1..q + 2];
    assert w[1] == '@';
    assert Atom(w[..1]);
    var v := w[2..];
    assert v == s[k + 1..q + 2];
    var d := q - (k + 1);
    assert v[..d] == s[k + 1..q];
    assert Label(v[..d]);
    assert v[d + 1..] == [s[q + 1]];
    assert Label(v[d + 1..]);
    assert Domain(v);
  }

  /**
   * The recogniser accepts a string exactly when the regular expression's
   * `test` does: some substring matches the whole pattern.
   */
  lemma IsEmailIffRegexTest(s: string)
    ensures IsEmail(s) <==> RegexTest(s)
  {
    if IsEmail(s) {
      var k :| 0 <= k < |s| && MatchesAt(s, k);
      MatchAt(s, k);
    }
    if RegexTest(s) {
      var i, j :| 0 <= i <= j <= |s| && FullMatch(s[i..j]);
      var k, d := MatchParts(s[i..j]);
      MatchFound(s, i, j, k, d);
    }
  }

  /** The malformed addresses the getUserByEmail tests expect to be refused. */
  lemma RejectsMalformed()
    ensures !IsEmail("@gmail.com")
    ensures !IsEmail("namegmail.com")
    ensures !IsEmail("name@.com")
    ensures !IsEmail("name@gmailcom")
    ensures !IsEmail("name@gmail.")
  {
  }

  /** The addresses of the test users are accepted. */
  lemma AcceptsTestAddress()
    ensures IsEmail("user@example.com")
  {
    var s := "user@example.com";
    LabelEndAt(s, 5, 12);
    assert MatchesAt(s, 4);
  }

  /** The class is lower case only: an upper-case domain is refused. */
  lemma RejectsUpperCaseDomain()
    ensures !IsEmail("User@Example.com")
  {
  }
}
