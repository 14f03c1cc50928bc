/** Normalisation of the W3C traceparent header and the policy for invalid values. */
module Trace {
  import opened Wrappers
  import opened Strings

  datatype TraceContextPolicy = Reject | Normalize | Ignore

  predicate IsHex(c: char) {
    '0' <= c <= '9' || 'a' <= c <= 'f' || 'A' <= c <= 'F'
  }

  function LowerHex(c: char): char
    requires IsHex(c)
  {
    if 'A' <= c <= 'F' then (c as int + 32) as char else c
  }

  predicate AllHex(s: string) {
    forall i :: 0 <= i < |s| ==> IsHex(s[i])
  }

  function Lower(s: string): (r: string)
    requires AllHex(s)
    ensures |r| == |s| && AllHex(r)
    ensures forall i :: 0 <= i < |s| ==> r[i] == LowerHex(s[i])
  {
    seq(|s|, i requires 0 <= i < |s| => LowerHex(s[i]))
  }

  predicate AllZero(s: string) {
    forall i :: 0 <= i < |s| ==> s[i] == '0'
  }

  /** The regular expression: version 00, 32, 16 and 2 hexadecimal digits. */
  predicate Matches(s: string) {
    && |s| == 55 && s[..3] == "00-" && AllHex(s[3..35]) && s[35] == '-' && AllHex(s[36..52]) && s[52] == '-'
    && AllHex(s[53..])
  }

  function NormalizeTraceparent(value: string): Option<string> {
    NormalizeStripped(Strip(value))
  }

  function NormalizeStripped(stripped: string): Option<string> {
    if !Matches(stripped) then None
    else
      var traceId, parentId, flags := Lower(stripped[3..35]), Lower(stripped[36..52]), Lower(stripped[53..]);
      if AllZero(traceId) || AllZero(parentId) then None
      else Some("00-" + (traceId + ("-" + (parentId + ("-" + flags)))))
  }

  /** None of the outer option is the raised error. */
  function ApplyPolicy(value: string, policy: TraceContextPolicy): Option<Option<string>> {
    if policy.Ignore? then Some(None)
    else
      var normalized := NormalizeTraceparent(value);
      if normalized.Some? then Some(normalized)
      else if policy.Normalize? then Some(None)
      else None
  }

  predicate NoCapitals(s: string) {
    forall i :: 0 <= i < |s| ==> !('A' <= s[i] <= 'F')
  }

  /** What a traceparent inside the platform looks like, said without the normaliser. */
  predicate IsCanonical(s: string) {
    && Matches(s)
    && NoCapitals(s)
    && !AllZero(s[3..35]) && !AllZero(s[36..52])
  }

  lemma {:induction false} LowerOfLowercase(s: string)
    requires AllHex(s) && NoCapitals(s)
    ensures Lower(s) == s
  {
    assert forall i :: 0 <= i < |s| ==> Lower(s)[i] == s[i];
  }

  lemma Reassemble(s: string)
    requires Matches(s)
    ensures s == "00-" + (s[3..35] + ("-" + (s[36..52] + ("-" + s[53..]))))
  {
    assert s[52..] == "-" + s[53..];
    assert s[36..] == s[36..52] + s[52..];
    assert s[35..] == "-" + s[36..];
    assert s[3..] == s[3..35] + s[35..];
    assert s == s[..3] + s[3..];
  }

  lemma CanonicalIsLowered(s: string)
    requires IsCanonical(s)
    ensures NormalizeStripped(s) == Some(s)
  {
    LowerOfLowercase(s[3..35]);
    LowerOfLowercase(s[36..52]);
    LowerOfLowercase(s[53..]);
    Reassemble(s);
  }

  lemma EndsOfMatch(s: string)
    requires Matches(s)
    ensures IsHex(s[0]) && IsHex(s[54])
  {
    assert s[0] == s[..3][0];
    assert s[54] == s[53..][1];
  }

  lemma HexIsNoSpace(c: char)
    requires IsHex(c)
    ensures !IsSpace(c)
  {
  }

  lemma StripOfMatch(s: string)
    requires |s| == 55 && IsHex(s[0]) && IsHex(s[54])
    ensures Strip(s) == s
  {
    HexIsNoSpace(s[0]);
    HexIsNoSpace(s[54]);
    StripIsTrimmed(s);
  }

  lemma CanonicalNormalizes(s: string)
    requires IsCanonical(s)
    ensures NormalizeTraceparent(s) == Some(s)
  {
    EndsOfMatch(s);
    StripOfMatch(s);
    CanonicalIsLowered(s);
  }

  /** Canonical values are exactly the fixed points of the normaliser. */
  lemma CanonicalIsFixed(s: string)
    ensures IsCanonical(s) <==> NormalizeTraceparent(s) == Some(s)
  {
    if IsCanonical(s) {
      CanonicalNormalizes(s);
    } else if NormalizeTraceparent(s) == Some(s) {
      NormalizedIsCanonical(s);
    }
  }

  lemma JoinedIsCanonical(a: string, b: string, c: string)
    requires |a| == 32 && |b| == 16 && |c| == 2 && AllHex(a) && AllHex(b) && AllHex(c)
    requires NoCapitals(a) && NoCapitals(b) && NoCapitals(c) && !AllZero(a) && !AllZero(b)
    ensures IsCanonical("00-" + (a + ("-" + (b + ("-" + c)))))
  {
    var t := b + ("-" + c);
    var r := "00-" + (a + ("-" + t));
    assert r[3..] == a + ("-" + t) && r[36..] == t;
    assert r[3..35] == r[3..][..32] == a;
    assert r[36..52] == t[..16] == b;
    assert r[53..] == t[17..] == c;
    forall i | 0 <= i < |r| ensures !('A' <= r[i] <= 'F') {
      if 3 <= i < 35 {
        assert r[i] == a[i - 3];
      } else if 36 <= i < 52 {
        assert r[i] == b[i - 36];
      } else if 53 <= i {
        assert r[i] == c[i - 53];
      }
    }
  }

  lemma LoweredHasNoCapitals(s: string)
    requires AllHex(s)
    ensures NoCapitals(Lower(s))
  {
  }

  /** Whatever the normaliser lets through is canonical. */
  lemma NormalizedIsCanonical(value: string)
    requires NormalizeTraceparent(value).Some?
    ensures IsCanonical(NormalizeTraceparent(value).value)
  {
    var t := Strip(value);
    LoweredHasNoCapitals(t[3..35]);
    LoweredHasNoCapitals(t[36..52]);
    LoweredHasNoCapitals(t[53..]);
    JoinedIsCanonical(Lower(t[3..35]), Lower(t[36..52]), Lower(t[53..]));
  }

  /** No policy that keeps trace context changes a canonical value. */
  lemma PolicyKeepsCanonical(s: string, policy: TraceContextPolicy)
    requires IsCanonical(s) && !policy.Ignore?
    ensures ApplyPolicy(s, policy) == Some(Some(s))
  {
    CanonicalNormalizes(s);
  }

  /** Two headers equal up to hexadecimal case and outer spaces are accepted alike, with one result. */
  lemma CaseAndPaddingDoNotMatter(v: string, w: string)
    requires Matches(Strip(v)) && Matches(Strip(w))
    requires forall i :: 0 <= i < 55 && i !in {0, 1, 2, 35, 52} ==>
      IsHex(Strip(v)[i]) && IsHex(Strip(w)[i]) && LowerHex(Strip(v)[i]) == LowerHex(Strip(w)[i])
    ensures NormalizeTraceparent(v) == NormalizeTraceparent(w)
  {
    var s, t := Strip(v), Strip(w);
    assert Lower(s[3..35]) == Lower(t[3..35]);
    assert Lower(s[36..52]) == Lower(t[36..52]);
    assert Lower(s[53..]) == Lower(t[53..]);
  }

  /** The policies differ only on invalid values: refuse, drop; and IGNORE drops everything. */
  lemma PolicyOutcome(value: string, policy: TraceContextPolicy)
    ensures ApplyPolicy(value, policy).None? <==> policy.Reject? && NormalizeTraceparent(value).None?
    ensures ApplyPolicy(value, policy).Some? && ApplyPolicy(value, policy).value.Some? ==>
      IsCanonical(ApplyPolicy(value, policy).value.value)
  {
    if NormalizeTraceparent(value).Some? {
      NormalizedIsCanonical(value);
    }
  }
}
