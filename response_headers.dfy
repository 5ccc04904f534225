/** Copying the upstream response headers onto the proxy's response. */
module ResponseHeaders {

  /** Upstream headers about the upstream's own framing, never copied. */
  const Excluded: set<string> := {"content-encoding", "transfer-encoding", "connection"}

  function LowerChar(c: char): char {
    if 'A' <= c <= 'Z' then (c as int + 32) as char else c
  }

  /** ASCII lower-casing of a header name. */
  function Lower(s: string): (r: string)
    ensures |r| == |s| && forall i :: 0 <= i < |s| ==> r[i] == LowerChar(s[i])
  {
    seq(|s|, i requires 0 <= i < |s| => LowerChar(s[i]))
  }

  lemma LowerIdempotent(s: string)
    ensures Lower(Lower(s)) == Lower(s)
  {
    assert forall i :: 0 <= i < |s| ==> Lower(Lower(s))[i] == Lower(s)[i];
  }

  /** A header is copied unless its lower-cased name is excluded. */
  predicate Kept(name: string) {
    Lower(name) !in Excluded
  }

  /**
   * The headers the response holds after setting the kept upstream headers in
   * order. Node stores header names case-insensitively, so the map is keyed by
   * the lower-cased name and a later header overrides an earlier one.
   */
  function Applied(upstream: seq<(string, string)>): (written: map<string, string>)
    ensures forall k :: k in written ==> k !in Excluded
    ensures upstream != [] && Kept(upstream[|upstream| - 1].0) ==>
              Lower(upstream[|upstream| - 1].0) in written &&
              written[Lower(upstream[|upstream| - 1].0)] == upstream[|upstream| - 1].1
    decreases |upstream|
  {
    if upstream == [] then map[]
    else
      var rest := Applied(upstream[..|upstream| - 1]);
      var last := upstream[|upstream| - 1];
      if Kept(last.0) then rest[Lower(last.0) := last.1] else rest
  }

  /** The forEach loop over the upstream headers, calling ctx.set for each kept one. */
  method CopyHeaders(upstream: seq<(string, string)>) returns (written: map<string, string>)
    ensures written == Applied(upstream)
  {
    written := map[];
    var i := 0;
    while i < |upstream|
      invariant 0 <= i <= |upstream|
      invariant written == Applied(upstream[..i])
    {
      assert upstream[..i + 1][..i] == upstream[..i];
      var name := upstream[i].0;
      if Kept(name) {
        written := written[Lower(name) := upstream[i].1];
      }
      i := i + 1;
    }
    assert upstream[..|upstream|] == upstream;
  }

  /** A name is set exactly when some kept upstream header has it, up to case. */
  lemma {:induction false} AppliedKeys(upstream: seq<(string, string)>, k: string)
    ensures k in Applied(upstream) <==>
              exists i :: 0 <= i < |upstream| && Kept(upstream[i].0) && Lower(upstream[i].0) == k
  {
    if upstream != [] {
      var init := upstream[..|upstream| - 1];
      AppliedKeys(init, k);
      if exists i :: 0 <= i < |init| && Kept(init[i].0) && Lower(init[i].0) == k {
        var i :| 0 <= i < |init| && Kept(init[i].0) && Lower(init[i].0) == k;
        assert upstream[i] == init[i];
      }
      if exists i :: 0 <= i < |upstream| && Kept(upstream[i].0) && Lower(upstream[i].0) == k {
        var i :| 0 <= i < |upstream| && Kept(upstream[i].0) && Lower(upstream[i].0) == k;
        if i < |init| {
          assert init[i] == upstream[i];
        }
      }
    }
  }

  /** A kept header that no later header overrides is sent with its own value. */
  lemma {:induction false} AppliedValue(upstream: seq<(string, string)>, i: nat)
    requires i < |upstream| && Kept(upstream[i].0)
    requires forall j :: i < j < |upstream| ==> Lower(upstream[j].0) != Lower(upstream[i].0)
    ensures Lower(upstream[i].0) in Applied(upstream)
    ensures Applied(upstream)[Lower(upstream[i].0)] == upstream[i].1
  {
    if i < |upstream| - 1 {
      var init := upstream[..|upstream| - 1];
      assert init[i] == upstream[i];
      AppliedValue(init, i);
    }
  }

  /** The response never carries an excluded header, in any spelling. */
  lemma {:induction false} AppliedOmitsExcluded(upstream: seq<(string, string)>)
    ensures forall k :: k in Applied(upstream) ==> Lower(k) == k && k !in Excluded
  {
    forall k | k in Applied(upstream)
      ensures Lower(k) == k && k !in Excluded
    {
      AppliedKeys(upstream, k);
      var i :| 0 <= i < |upstream| && Kept(upstream[i].0) && Lower(upstream[i].0) == k;
      LowerIdempotent(upstream[i].0);
    }
  }
}
