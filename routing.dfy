/** From the inbound path to the upstream URL. */
module Routing {

  predicate Rooted(path: string) {
    |path| > 0 && path[0] == '/'
  }

  /** The inbound path with one leading '/' removed, if it has one. */
  function StripLeadingSlash(path: string): (p: string)
    ensures Rooted(path) ==> "/" + p == path
    ensures !Rooted(path) ==> p == path
  {
    if Rooted(path) then path[1..] else path
  }

  /** The URL the request is forwarded to: the base address, a '/', and the stripped path. */
  function TargetUrl(base: string, path: string): (url: string)
    ensures Rooted(path) ==> url == base + path
    ensures !Rooted(path) ==> url == base + "/" + path
  {
    base + "/" + StripLeadingSlash(path)
  }

  /** Writing the leading '/' or leaving it out gives the same URL, unless the rest starts with '/' again. */
  lemma {:induction false} SlashIsOptional(base: string, p: string)
    ensures TargetUrl(base, "/" + p) == base + "/" + p
    ensures TargetUrl(base, p) == TargetUrl(base, "/" + p) <==> !Rooted(p)
  {
    assert ("/" + p)[1..] == p;
    if Rooted(p) {
      assert |TargetUrl(base, p)| == |base| + |p|;
    }
  }

  /** Distinct rooted paths (every path the router hands over is rooted) go to distinct URLs. */
  lemma {:induction false} TargetUrlInjective(base: string, p1: string, p2: string)
    requires Rooted(p1) && Rooted(p2)
    ensures TargetUrl(base, p1) == TargetUrl(base, p2) <==> p1 == p2
  {
    if TargetUrl(base, p1) == TargetUrl(base, p2) {
      var n := |base| + 1;
      assert TargetUrl(base, p1)[n..] == p1[1..];
      assert TargetUrl(base, p2)[n..] == p2[1..];
      assert p1 == [p1[0]] + p1[1..];
      assert p2 == [p2[0]] + p2[1..];
    }
  }

  /** A URL built from a base address and a path that hold no '?' holds none either. */
  lemma {:induction false} TargetUrlHasNoQueryMark(base: string, path: string)
    requires '?' !in base && '?' !in path
    ensures '?' !in TargetUrl(base, path)
  {
    var p := StripLeadingSlash(path);
    if Rooted(path) {
      assert forall i :: 0 <= i < |p| ==> p[i] == path[i + 1];
    }
    assert '?' !in p;
  }
}
