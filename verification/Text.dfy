/** Splitting strings at the first occurrence of a separator. */
module Text {
  import opened Wrappers

  predicate StartsWith(s: string, prefix: string) {
    |prefix| <= |s| && s[..|prefix|] == prefix
  }

  /** The first position at which `sep` occurs in `s`. */
  function Find(s: string, sep: string): (at: Option<nat>)
    ensures at.Some? ==> at.value + |sep| <= |s| && StartsWith(s[at.value..], sep)
    ensures at.Some? ==> forall k :: 0 <= k < at.value ==> !StartsWith(s[k..], sep)
    ensures at.None? ==> forall k :: 0 <= k <= |s| ==> !StartsWith(s[k..], sep)
  {
    if StartsWith(s, sep) then assert s[0..] == s; Some(0)
    else if s == [] then None
    else
      assert forall k :: 1 <= k <= |s| ==> s[k..] == s[1..][k - 1..];
      match Find(s[1..], sep)
      case None => assert s[0..] == s; None
      case Some(at) =>
        assert s[at + 1..] == s[1..][at..];
        Some(at + 1)
  }

  /** Rust's `split_once`. */
  function SplitOnce(s: string, sep: string): (r: Option<(string, string)>)
    ensures r.Some? ==> s == r.value.0 + sep + r.value.1
  {
    match Find(s, sep)
    case None => None
    case Some(at) => Some((s[..at], s[at + |sep|..]))
  }

  /** `sep` cannot begin inside `a` when `sep` follows it. */
  predicate Clear(a: string, sep: string) {
    forall k :: 0 <= k < |a| ==> !StartsWith((a + sep)[k..], sep)
  }

  lemma SplitOnceAt(a: string, sep: string, b: string)
    requires Clear(a, sep)
    ensures SplitOnce(a + sep + b, sep) == Some((a, b))
  {
    var s := a + sep + b;
    assert s[|a|..] == sep + b;
    assert StartsWith(s[|a|..], sep);
    forall k | 0 <= k < |a| ensures !StartsWith(s[k..], sep) {
      assert s[k..][..|sep|] == (a + sep)[k..][..|sep|];
    }
    var at := Find(s, sep);
    assert at == Some(|a|);
    assert s[..|a|] == a && s[|a| + |sep|..] == b;
  }
}
