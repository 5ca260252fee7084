/** Values shared by the three edge functions: optional JSON fields, JavaScript
    truthiness on them, and the few string operations the handlers use
    (`includes`, `replace` of the first occurrence, `split('@')[0]`). */
module Common {

  datatype Option<+T> = None | Some(value: T)

  /** JavaScript truthiness of an optional string field: `if (x)` holds
      exactly when the field is present and not the empty string. */
  predicate Present(s: Option<string>) {
    s.Some? && |s.value| > 0
  }

  /** The value of an optional string as a condition sees it: an empty
      string counts as absent. */
  function Truthy(s: Option<string>): (r: Option<string>)
    ensures Present(s) ==> r == s
    ensures !Present(s) ==> r == None
  {
    if Present(s) then s else None
  }

  /** JavaScript `a || b` on optional strings. */
  function Or(a: Option<string>, b: Option<string>): Option<string> {
    if Present(a) then a else b
  }

  /** `x || null` leaves nothing or a truthy value unchanged; `Or` read
      through truthiness is the first truthy operand, if any. */
  lemma OrTruthy(a: Option<string>, b: Option<string>)
    ensures Truthy(a) == None || (Present(Truthy(a)) && Truthy(a) == a)
    ensures Present(Or(a, b)) <==> Present(a) || Present(b)
    ensures Present(a) ==> Truthy(Or(a, b)) == a
    ensures !Present(a) ==> Truthy(Or(a, b)) == Truthy(b)
  {
  }

  /** `pat` occurs in `s` at position `i`. */
  predicate OccursAt(s: string, pat: string, i: nat) {
    i + |pat| <= |s| && s[i..i + |pat|] == pat
  }

  /** The first position at or after `from` where `pat` occurs in `s`
      (JavaScript `indexOf(pat, from)`, with "not found" as `None`). */
  function FirstFrom(s: string, pat: string, from: nat): (r: Option<nat>)
    decreases |s| - from
    ensures r.Some? ==> from <= r.value && r.value + |pat| <= |s|
  {
    if from + |pat| > |s| then None
    else if s[from..from + |pat|] == pat then Some(from)
    else FirstFrom(s, pat, from + 1)
  }

  /** `FirstFrom` finds the first occurrence from `from` on, and finds
      nothing only when there is none. */
  lemma {:induction false} FirstFromIsIndexOf(s: string, pat: string, from: nat)
    ensures var r := FirstFrom(s, pat, from);
      && (r.Some? ==> from <= r.value && OccursAt(s, pat, r.value))
      && (r.Some? ==> forall k :: from <= k < r.value ==> !OccursAt(s, pat, k))
      && (r.None? ==> forall k :: from <= k ==> !OccursAt(s, pat, k))
    decreases |s| - from
  {
    if from + |pat| <= |s| && s[from..from + |pat|] != pat {
      FirstFromIsIndexOf(s, pat, from + 1);
    }
  }

  /** JavaScript `s.includes(pat)`. */
  predicate Contains(s: string, pat: string) {
    FirstFrom(s, pat, 0).Some?
  }

  /** JavaScript `s.replace(pat, repl)` with a string pattern: only the first
      occurrence is replaced. */
  function ReplaceFirst(s: string, pat: string, repl: string): string {
    match FirstFrom(s, pat, 0)
    case None => s
    case Some(i) => s[..i] + repl + s[i + |pat|..]
  }

  /** The gateway's user-id domain, removed from ids to obtain a phone number. */
  const JidDomain: string := "@s.whatsapp.net"

  /** `s.replace('@s.whatsapp.net', '')`. */
  function StripJidDomain(s: string): string {
    ReplaceFirst(s, JidDomain, "")
  }

  /** A string without `@` loses nothing to `StripJidDomain`, and the full
      id `p@s.whatsapp.net` becomes `p`. */
  lemma {:induction false} StripJidDomainOfId(p: string)
    requires '@' !in p
    ensures StripJidDomain(p) == p
    ensures StripJidDomain(p + JidDomain) == p
  {
    var s := p + JidDomain;
    forall k | 0 <= k < |p| ensures !OccursAt(s, JidDomain, k) {
      assert s[k] == p[k] != '@';
      if k + |JidDomain| <= |s| {
        assert s[k..k + |JidDomain|][0] == s[k];
      }
    }
    assert OccursAt(s, JidDomain, |p|) by {
      assert s[|p|..|p| + |JidDomain|] == JidDomain;
    }
    FirstFromIsIndexOf(s, JidDomain, 0);
    var r := FirstFrom(s, JidDomain, 0);
    assert r == Some(|p|);
    assert s[..|p|] == p;
    assert s[|p| + |JidDomain|..] == [];
    forall k | 0 <= k ensures !OccursAt(p, JidDomain, k) {
      if k + |JidDomain| <= |p| {
        assert p[k..k + |JidDomain|][0] == p[k] != '@';
      }
    }
    FirstFromIsIndexOf(p, JidDomain, 0);
  }

  /** `s.split(c)[0]`: the prefix of `s` before the first `c` (all of `s`
      when there is none). */
  function BeforeFirst(s: string, c: char): (r: string)
    ensures c !in r
    ensures |r| <= |s| && r == s[..|r|]
    ensures |r| < |s| ==> s[|r|] == c
  {
    if s == [] then []
    else if s[0] == c then []
    else [s[0]] + BeforeFirst(s[1..], c)
  }
}
