/** The analytics API's path splitter and wildcard router. */
module Router {

  /** One leading and one trailing slash are dropped. */
  function Strip(path: string): string {
    var s := if |path| > 0 && path[0] == '/' then path[1..] else path;
    if |s| > 0 && s[|s| - 1] == '/' then s[..|s| - 1] else s
  }

  /** Exactly one slash goes on each side, if there is one. */
  lemma StripLaws(s: string)
    ensures Strip("/" + s + "/") == s
    ensures s == "" || s[|s| - 1] != '/' ==> Strip("/" + s) == s
    ensures s == "" || s[0] != '/' ==> Strip(s + "/") == s
    ensures s == "" || (s[0] != '/' && s[|s| - 1] != '/') ==> Strip(s) == s
  {
    assert ("/" + s + "/")[1..] == s + "/" && (s + "/")[..|s|] == s;
    assert ("/" + s)[1..] == s;
  }

  /** The segments of s[..n] that are closed by a slash, and where the open one starts. */
  function ClosedSegments(s: string, n: nat): (seq<string>, nat)
    requires n <= |s|
    ensures ClosedSegments(s, n).1 <= n
  {
    if n == 0 then ([], 0) else
      var (segments, start) := ClosedSegments(s, n - 1);
      if s[n - 1] == '/' then (segments + [s[start..n - 1]], n) else (segments, start)
  }

  function SegmentsOf(path: string): seq<string> {
    var s := Strip(path);
    if s == "" then [] else
      var (segments, start) := ClosedSegments(s, |s|);
      segments + [s[start..]]
  }

  method SplitPath(path: string) returns (result: seq<string>)
    ensures result == SegmentsOf(path)
  {
    var s := path;
    if |s| > 0 && s[0] == '/' {
      s := s[1..];
    }
    if |s| > 0 && s[|s| - 1] == '/' {
      s := s[..|s| - 1];
    }
    if s == "" {
      return [];
    }
    result := [];
    var start := 0;
    for i := 0 to |s|
      invariant (result, start) == ClosedSegments(s, i)
    {
      if s[i] == '/' {
        result := result + [s[start..i]];
        start := i + 1;
      }
    }
    result := result + [s[start..]];
  }

  function Join(segments: seq<string>): string {
    if |segments| == 0 then ""
    else if |segments| == 1 then segments[0]
    else Join(segments[..|segments| - 1]) + "/" + segments[|segments| - 1]
  }

  predicate SlashFree(s: string) {
    '/' !in s
  }

  predicate AllSlashFree(segments: seq<string>) {
    forall i :: 0 <= i < |segments| ==> SlashFree(segments[i])
  }

  lemma {:induction false} ClosedSegmentsAreSlashFree(s: string, n: nat)
    requires n <= |s|
    ensures var (segments, start) := ClosedSegments(s, n); AllSlashFree(segments) && SlashFree(s[start..n])
  {
    if n > 0 {
      ClosedSegmentsAreSlashFree(s, n - 1);
      var (segments, start) := ClosedSegments(s, n - 1);
      if s[n - 1] != '/' {
        assert s[start..n] == s[start..n - 1] + [s[n - 1]];
      }
    }
  }

  function JoinClosed(segments: seq<string>): string {
    if |segments| == 0 then "" else Join(segments) + "/"
  }

  lemma JoinOneMore(segments: seq<string>, last: string)
    ensures Join(segments + [last]) == JoinClosed(segments) + last
  {
    assert (segments + [last])[..|segments|] == segments;
  }

  lemma TakeMore(s: string, start: nat, n: nat)
    requires start < n <= |s|
    ensures s[..n] == s[..start] + s[start..n - 1] + [s[n - 1]]
  {
  }

  lemma {:induction false} ClosedSegmentsRejoin(s: string, n: nat)
    requires n <= |s|
    ensures var (segments, start) := ClosedSegments(s, n); s[..start] == JoinClosed(segments)
  {
    if n > 0 {
      ClosedSegmentsRejoin(s, n - 1);
      var (segments, start) := ClosedSegments(s, n - 1);
      if s[n - 1] == '/' {
        var last := s[start..n - 1];
        JoinOneMore(segments, last);
        TakeMore(s, start, n);
      }
    }
  }

  /** The segments contain no slash and join back to the stripped path. */
  lemma SegmentsRejoin(path: string)
    ensures AllSlashFree(SegmentsOf(path))
    ensures Join(SegmentsOf(path)) == Strip(path)
  {
    var s := Strip(path);
    if s != "" {
      ClosedSegmentsAreSlashFree(s, |s|);
      ClosedSegmentsRejoin(s, |s|);
      var (segments, start) := ClosedSegments(s, |s|);
      JoinOneMore(segments, s[start..]);
      assert s[start..|s|] == s[start..];
      assert s == s[..start] + s[start..];
    }
  }

  lemma OnlySeveralSegmentsHaveSlashes(a: seq<string>)
    requires |a| > 0 && AllSlashFree(a)
    ensures SlashFree(Join(a)) <==> |a| == 1
  {
    if |a| > 1 {
      assert Join(a)[|Join(a[..|a| - 1])|] == '/';
    }
  }

  /** Slash-free segments are determined by their joined path. */
  lemma {:induction false} JoinIsInjective(a: seq<string>, b: seq<string>)
    requires |a| > 0 && |b| > 0 && AllSlashFree(a) && AllSlashFree(b)
    requires Join(a) == Join(b)
    ensures a == b
    decreases |a|
  {
    var m, n := |a| - 1, |b| - 1;
    var s := Join(a);
    OnlySeveralSegmentsHaveSlashes(a);
    OnlySeveralSegmentsHaveSlashes(b);
    assert a == a[..m] + [a[m]] && b == b[..n] + [b[n]];
    if m > 0 {
      var i, k := |Join(a[..m])|, |Join(b[..n])|;
      assert s[i] == '/' && s[i + 1..] == a[m] && s[..i] == Join(a[..m]);
      assert s[k] == '/' && s[k + 1..] == b[n] && s[..k] == Join(b[..n]);
      LastSlash(s, i, k);
      JoinIsInjective(a[..m], b[..n]);
    }
  }

  lemma LastSlash(s: string, i: nat, k: nat)
    requires i < |s| && k < |s| && s[i] == '/' && s[k] == '/'
    requires SlashFree(s[i + 1..]) && SlashFree(s[k + 1..])
    ensures i == k
  {
    assert forall x :: i < x < |s| ==> s[x] == s[i + 1..][x - i - 1] && s[x] != '/';
    assert forall x :: k < x < |s| ==> s[x] == s[k + 1..][x - k - 1] && s[x] != '/';
  }

  /** Splitting undoes joining, for segments without slashes of which the last is not empty. */
  lemma SplitUndoesJoin(segments: seq<string>)
    requires |segments| > 0 && AllSlashFree(segments) && segments[|segments| - 1] != ""
    ensures SegmentsOf("/" + Join(segments)) == segments
  {
    var path := "/" + Join(segments);
    JoinEndsInLast(segments);
    assert path[1..] == Join(segments);
    assert Strip(path) == Join(segments);
    SegmentsRejoin(path);
    JoinIsInjective(SegmentsOf(path), segments);
  }

  lemma JoinEndsInLast(segments: seq<string>)
    requires |segments| > 0 && AllSlashFree(segments) && segments[|segments| - 1] != ""
    ensures var s := Join(segments); s != "" && s[|s| - 1] != '/'
  {
    var last := segments[|segments| - 1];
    var s := Join(segments);
    assert s[|s| - 1] == last[|last| - 1];
  }

  /** A trailing slash makes no difference. */
  lemma TrailingSlashIsIrrelevant(segments: seq<string>)
    requires |segments| > 0 && AllSlashFree(segments) && Join(segments) != ""
    ensures SegmentsOf("/" + Join(segments) + "/") == segments
  {
    var path := "/" + Join(segments) + "/";
    StripLaws(Join(segments));
    SegmentsRejoin(path);
    JoinIsInjective(SegmentsOf(path), segments);
  }

  // ---- matching ----

  predicate Fits(segment: string, pattern: string) {
    pattern == "*" || pattern == segment
  }

  /** Segment by segment equality, where a star stands for any segment. */
  predicate Matches(segments: seq<string>, pattern: seq<string>) {
    |segments| == |pattern| && forall i :: 0 <= i < |pattern| ==> Fits(segments[i], pattern[i])
  }

  /** A star takes any segment, anything else only itself, and the lengths must agree. */
  lemma MatchLaws(segments: seq<string>, pattern: seq<string>, i: nat, x: string)
    requires |segments| == |pattern| && i < |pattern| && Matches(segments, pattern)
    ensures Matches(segments[i := x], pattern) <==> pattern[i] == "*" || x == pattern[i]
    ensures !Matches(segments + [x], pattern) && !Matches(segments[1..], pattern)
    ensures Matches(pattern, pattern)
  {
    assert segments[i := x][i] == x;
  }

  method Match(path: string, pattern: string) returns (matched: bool)
    ensures matched <==> Matches(SegmentsOf(path), SegmentsOf(pattern))
  {
    var parts := SplitPath(path);
    var pParts := SplitPath(pattern);
    if |parts| != |pParts| {
      return false;
    }
    for i := 0 to |pParts|
      invariant forall k :: 0 <= k < i ==> Fits(parts[k], pParts[k])
    {
      if pParts[i] == "*" {
        continue;
      }
      if pParts[i] != parts[i] {
        return false;
      }
    }
    return true;
  }

  predicate Compatible(p: seq<string>, q: seq<string>) {
    |p| == |q| && forall i :: 0 <= i < |p| ==> p[i] == q[i] || p[i] == "*" || q[i] == "*"
  }

  /** Some path is matched by both patterns if and only if they differ only where one has a star. */
  lemma OverlapIffCompatible(p: seq<string>, q: seq<string>)
    ensures Compatible(p, q) <==> exists segments :: Matches(segments, p) && Matches(segments, q)
  {
    if Compatible(p, q) {
      var segments := seq(|p|, i requires 0 <= i < |p| => if p[i] == "*" then q[i] else p[i]);
      assert Matches(segments, p) && Matches(segments, q);
    }
  }

  // ---- the three switches ----

  const ORG_ROUTES: seq<seq<string>> := [
    ["v1", "orgs", "*", "summary"],
    ["v1", "orgs", "*", "customers", "usage"],
    ["v1", "orgs", "*", "models", "usage"],
    ["v1", "orgs", "*", "services", "usage"],
    ["v1", "orgs", "*", "cost"]]

  const CUSTOMER_ROUTES: seq<seq<string>> := [
    ["v1", "customers", "*", "summary"],
    ["v1", "customers", "*", "end-users", "usage"],
    ["v1", "customers", "*", "models", "usage"],
    ["v1", "customers", "*", "cost"]]

  const END_USER_ROUTES: seq<seq<string>> := [
    ["v1", "end-users", "*", "summary"],
    ["v1", "end-users", "*", "daily"]]

  const SWITCHES := [ORG_ROUTES, CUSTOMER_ROUTES, END_USER_ROUTES]

  /** Every route is reached, whatever the id in place of its star, and only by paths of its shape. */
  lemma EveryRouteIsReached(w: nat, i: nat, id: string)
    requires w < |SWITCHES| && i < |SWITCHES[w]| && SlashFree(id)
    ensures |SWITCHES[w][i]| >= 4
    ensures Matches(SegmentsOf("/" + Join(SWITCHES[w][i][2 := id])), SegmentsOf("/" + Join(SWITCHES[w][i])))
  {
    RouteShape(w, i);
    RoutesAreWellFormed(w, i);
    FilledPatternMatches(SWITCHES[w][i], id);
  }

  lemma RouteShape(w: nat, i: nat)
    requires w < |SWITCHES| && i < |SWITCHES[w]|
    ensures |SWITCHES[w][i]| >= 4 && SWITCHES[w][i][2] == "*"
  {
  }

  lemma FilledPatternMatches(pattern: seq<string>, id: string)
    requires |pattern| >= 4 && AllSlashFree(pattern) && pattern[|pattern| - 1] != ""
    requires pattern[2] == "*" && SlashFree(id)
    ensures Matches(SegmentsOf("/" + Join(pattern[2 := id])), SegmentsOf("/" + Join(pattern)))
  {
    SplitUndoesJoin(pattern);
    SplitUndoesJoin(pattern[2 := id]);
  }

  lemma RoutesAreIncompatible(w: nat, i: nat, j: nat)
    requires w < |SWITCHES| && i < j < |SWITCHES[w]|
    ensures !Compatible(SWITCHES[w][i], SWITCHES[w][j])
  {
    var p, q := SWITCHES[w][i], SWITCHES[w][j];
    assert |p| == |q| ==> p[3] != q[3] && p[3] != "*" && q[3] != "*";
  }

  /** At most one pattern of a switch matches any path, so the order of the cases is irrelevant. */
  lemma AtMostOneRouteMatches(w: nat, i: nat, j: nat, path: string)
    requires w < |SWITCHES| && i < j < |SWITCHES[w]|
    ensures !(Matches(SegmentsOf(path), SegmentsOf("/" + Join(SWITCHES[w][i])))
           && Matches(SegmentsOf(path), SegmentsOf("/" + Join(SWITCHES[w][j]))))
  {
    RoutesAreWellFormed(w, i);
    RoutesAreWellFormed(w, j);
    SplitUndoesJoin(SWITCHES[w][i]);
    SplitUndoesJoin(SWITCHES[w][j]);
    RoutesAreIncompatible(w, i, j);
    OverlapIffCompatible(SWITCHES[w][i], SWITCHES[w][j]);
  }

  lemma RoutesAreWellFormed(w: nat, i: nat)
    requires w < |SWITCHES| && i < |SWITCHES[w]|
    ensures var p := SWITCHES[w][i]; |p| > 0 && AllSlashFree(p) && p[|p| - 1] != ""
  {
  }
}
