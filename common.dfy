/** The C library string primitives the scanners, the artwork search and the
    pipe reader build on (strrchr, strchr, strstr, strcasecmp, strncasecmp,
    isspace, isalnum), the C remainder operator, and an Option type standing
    for a pointer that may be NULL. A C string is modelled as the sequence of
    characters before its terminating NUL. */
module Common {

  datatype Option<T> = None | Some(value: T)

  /** PATH_MAX on the platforms the server targets: buffers of this size hold
      at most PATH_MAX - 1 characters before the NUL. */
  const PATH_MAX: nat := 4096

  /** snprintf(buf, PATH_MAX, "%s%s", prefix, suffix): the output is cut so
      that it fits the buffer together with its NUL. */
  function FitPath(s: string): (r: string)
    ensures |r| < PATH_MAX
    ensures |s| < PATH_MAX ==> r == s
    ensures r == s[..|r|]
  {
    if |s| < PATH_MAX then s else s[..PATH_MAX - 1]
  }

  /** C's `a % 2`, which truncates toward zero (Dafny's `%` is Euclidean):
      the remainder takes the sign of a. */
  function CRem2(a: int): (r: int)
    ensures a >= 0 ==> 0 <= r <= 1
    ensures a < 0 ==> -1 <= r <= 0
    ensures (a - r) % 2 == 0
    ensures r == 0 <==> a % 2 == 0
  {
    if a >= 0 then a % 2 else -((-a) % 2)
  }

  /** isspace() in the "C" locale. */
  predicate IsSpace(c: char)
  {
    c == ' ' || c == '\t' || c == '\n' || c == '\r' || c == 11 as char || c == 12 as char
  }

  /** isalnum() in the "C" locale. */
  predicate IsAlnum(c: char)
  {
    ('a' <= c <= 'z') || ('A' <= c <= 'Z') || ('0' <= c <= '9')
  }

  /** tolower() in the "C" locale: only ASCII upper-case letters change. */
  function ToLower(c: char): (r: char)
    ensures 'A' <= c <= 'Z' ==> 'a' <= r <= 'z'
    ensures !('A' <= c <= 'Z') ==> r == c
  {
    if 'A' <= c <= 'Z' then (c as int + 32) as char else c
  }

  /** strcasecmp(a, b) == 0 */
  predicate EqualsIgnoreCase(a: string, b: string)
  {
    |a| == |b| && forall i :: 0 <= i < |a| ==> ToLower(a[i]) == ToLower(b[i])
  }

  /** strncasecmp(s, p, strlen(p)) == 0: s starts with p, ignoring ASCII case. */
  predicate HasPrefixIgnoreCase(s: string, p: string)
  {
    |p| <= |s| && EqualsIgnoreCase(s[..|p|], p)
  }

  /** strncmp(s, p, strlen(p)) == 0 */
  predicate HasPrefix(s: string, p: string)
  {
    |p| <= |s| && s[..|p|] == p
  }

  /** strchr(s, c): the index of the first occurrence of c, if any. */
  function IndexOf(s: string, c: char): (r: Option<nat>)
    ensures r.None? <==> c !in s
    ensures r.Some? ==> r.value < |s| && s[r.value] == c && c !in s[..r.value]
  {
    if |s| == 0 then None
    else if s[0] == c then Some(0)
    else
      match IndexOf(s[1..], c)
      case None => None
      case Some(i) =>
        assert s[1..][..i] == s[1..i + 1];
        Some(i + 1)
  }

  /** strrchr(s, c): the index of the last occurrence of c, if any. */
  function LastIndexOf(s: string, c: char): (r: Option<nat>)
    ensures r.None? <==> c !in s
    ensures r.Some? ==> r.value < |s| && s[r.value] == c && c !in s[r.value + 1..]
  {
    if |s| == 0 then None
    else if s[|s| - 1] == c then Some(|s| - 1)
    else
      match LastIndexOf(s[..|s| - 1], c)
      case None => None
      case Some(i) =>
        assert s[i + 1..] == s[..|s| - 1][i + 1..] + [s[|s| - 1]];
        Some(i)
  }

  /** Whether pat occurs in s at position k. */
  predicate OccursAt(s: string, pat: string, k: nat)
  {
    k + |pat| <= |s| && s[k..k + |pat|] == pat
  }

  /** strstr(s, pat) / evbuffer_search: the index of the first occurrence. */
  function Find(s: string, pat: string): (r: Option<nat>)
    ensures r.Some? ==> OccursAt(s, pat, r.value)
    ensures r.Some? ==> forall k :: 0 <= k < r.value ==> !OccursAt(s, pat, k)
    ensures r.None? ==> forall k :: 0 <= k <= |s| ==> !OccursAt(s, pat, k)
    decreases |s|
  {
    if |pat| > |s| then None
    else if s[..|pat|] == pat then Some(0)
    else
      match Find(s[1..], pat)
      case None =>
        assert forall k :: 1 <= k <= |s| ==> (OccursAt(s, pat, k) <==> OccursAt(s[1..], pat, k - 1));
        None
      case Some(i) =>
        assert forall k :: 1 <= k <= |s| ==> (OccursAt(s, pat, k) <==> OccursAt(s[1..], pat, k - 1));
        Some(i + 1)
  }

  /** The text before the first occurrence of a pattern holds none. */
  lemma BeforeFirst(s: string, pat: string, d: nat)
    requires |pat| > 0 && d <= |s| && forall k :: 0 <= k < d ==> !OccursAt(s, pat, k)
    ensures forall k :: 0 <= k <= d ==> !OccursAt(s[..d], pat, k)
  {
    forall k | 0 <= k <= d
      ensures !OccursAt(s[..d], pat, k)
    {
      if OccursAt(s[..d], pat, k) {
        assert s[..d][k..k + |pat|] == s[k..k + |pat|];
        assert OccursAt(s, pat, k) && k < d;
      }
    }
  }
}
