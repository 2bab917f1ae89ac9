/**
 * The route-file reader of routing.go: the lines of a routes file become revel routes
 * (skipping blank lines, comments, module imports and lines the route pattern does not
 * match, and refusing catch-all actions and wildcards), and the routes are registered in
 * the router's path tree, GET routes a second time for HEAD.
 */
module Routing {
  import opened Wrappers

  /* ---- The string functions of Go's strings package that the reader uses ---- */

  /** unicode.IsSpace: ASCII white space, NEL, NO-BREAK SPACE and the Unicode space
      separators. */
  predicate IsSpace(c: char) {
    c == ' ' || '\t' <= c <= '\r' || c == '\U{0085}' || c == '\U{00A0}' || c == '\U{1680}' ||
    '\U{2000}' <= c <= '\U{200A}' || c == '\U{2028}' || c == '\U{2029}' || c == '\U{202F}' ||
    c == '\U{205F}' || c == '\U{3000}'
  }

  predicate AllSpace(s: string) {
    forall i :: 0 <= i < |s| ==> IsSpace(s[i])
  }

  /** The number of white-space characters at the start of s. */
  function LeadingSpaces(s: string): (a: nat)
    ensures a <= |s| && AllSpace(s[..a]) && (a < |s| ==> !IsSpace(s[a]))
    decreases |s|
  {
    if |s| > 0 && IsSpace(s[0]) then
      var a := LeadingSpaces(s[1..]);
      assert s[..a + 1] == [s[0]] + s[1..][..a];
      a + 1
    else 0
  }

  /** The length of s without its trailing white space. */
  function TrailingStart(s: string): (b: nat)
    ensures b <= |s| && AllSpace(s[b..]) && (b > 0 ==> !IsSpace(s[b - 1]))
    decreases |s|
  {
    if |s| > 0 && IsSpace(s[|s| - 1]) then
      var b := TrailingStart(s[..|s| - 1]);
      assert s[b..] == s[..|s| - 1][b..] + [s[|s| - 1]];
      b
    else |s|
  }

  /** strings.TrimSpace: s without its leading and trailing white space. */
  function TrimSpace(s: string): string {
    var a := LeadingSpaces(s);
    s[a..a + TrailingStart(s[a..])]
  }

  /** TrimSpace removes white space only, and all of it at both ends. */
  lemma TrimSpaceSpec(s: string)
    ensures var r := TrimSpace(s);
      (exists a, b :: 0 <= a <= b <= |s| && r == s[a..b] && AllSpace(s[..a]) && AllSpace(s[b..])) &&
      (|r| > 0 ==> !IsSpace(r[0]) && !IsSpace(r[|r| - 1]))
  {
    var a := LeadingSpaces(s);
    var t := s[a..];
    var e := TrailingStart(t);
    assert t[e..] == s[a + e..] && t[..e] == s[a..a + e];
    assert TrimSpace(s) == s[a..a + e];
    assert AllSpace(s[..a]) && AllSpace(s[a + e..]);
  }

  predicate HasPrefix(s: string, prefix: string) {
    |prefix| <= |s| && s[..|prefix|] == prefix
  }

  predicate HasSuffix(s: string, suffix: string) {
    |suffix| <= |s| && s[|s| - |suffix|..] == suffix
  }

  /** strings.Split(s, "\n"): the pieces between newlines; an empty string is one
      empty piece. */
  function Split(s: string): (r: seq<string>)
    ensures |r| >= 1
    ensures forall k :: 0 <= k < |r| ==> '\n' !in r[k]
    decreases |s|
  {
    if |s| == 0 then [""]
    else
      var rest := Split(s[1..]);
      if s[0] == '\n' then [""] + rest
      else [[s[0]] + rest[0]] + rest[1..]
  }

  /** strings.Join(parts, "\n"). */
  function Join(parts: seq<string>): string
    requires |parts| >= 1
    decreases |parts|
  {
    if |parts| == 1 then parts[0] else parts[0] + "\n" + Join(parts[1..])
  }

  /** Splitting at newlines loses nothing: joining the pieces gives the text back. */
  lemma {:induction false} JoinSplit(s: string)
    ensures Join(Split(s)) == s
    decreases |s|
  {
    if |s| > 0 {
      JoinSplit(s[1..]);
      var rest := Split(s[1..]);
      if s[0] == '\n' {
        assert s == [s[0]] + s[1..];
      } else {
        JoinFirst(rest, s[0]);
        assert s == [s[0]] + s[1..];
      }
    }
  }

  lemma {:induction false} JoinFirst(parts: seq<string>, c: char)
    requires |parts| >= 1
    ensures Join([[c] + parts[0]] + parts[1..]) == [c] + Join(parts)
  {
    var p := [[c] + parts[0]] + parts[1..];
    assert |p| == |parts| && p[0] == [c] + parts[0];
    if |parts| > 1 {
      assert p[1..] == parts[1..];
      var tail := "\n" + Join(parts[1..]);
      assert Join(p) == ([c] + parts[0]) + tail;
      assert Join(parts) == parts[0] + tail;
    }
  }

  /** And the pieces are exactly what was joined, when none holds a newline. */
  lemma {:induction false} SplitJoin(parts: seq<string>)
    requires |parts| >= 1 && forall k :: 0 <= k < |parts| ==> '\n' !in parts[k]
    ensures Split(Join(parts)) == parts
    decreases |parts|, |parts[0]|
  {
    if |parts[0]| > 0 {
      var c := parts[0][0];
      var tail := [parts[0][1..]] + parts[1..];
      assert parts[0] == [c] + parts[0][1..];
      assert tail[0] == parts[0][1..] && tail[1..] == parts[1..];
      assert '\n' !in tail[0] by {
        assert forall i :: 0 <= i < |tail[0]| ==> tail[0][i] == parts[0][i + 1];
      }
      SplitJoin(tail);
      JoinFirst(tail, c);
      assert [[c] + tail[0]] + tail[1..] == parts;
      assert Join(parts) == [c] + Join(tail);
      assert Join(parts)[1..] == Join(tail);
    } else if |parts| > 1 {
      SplitJoin(parts[1..]);
      assert Join(parts) == "\n" + Join(parts[1..]);
      assert Join(parts)[1..] == Join(parts[1..]);
      assert [""] + parts[1..] == parts;
    }
  }

  /* ---- parseRoutes (routing.go:58-105) ---- */

  const ModulePrefix := "module:"
  const CatchallError := "revel-apikit does not yet support catchall (:) actions"
  const WildcardError := "revel-apikit does not yet support wildcard (*) routes"

  /** What parseRouteLine (routing.go:118-126) reports for a line: no match, or the
      verb, path, action and fixed arguments the route pattern captured. */
  datatype RouteMatch = NoMatch | Match(verb: string, path: string, action: string, fixedArgs: string)

  /** A route as revel.NewRoute records it: what was matched, the routes file and the
      line index, and the key it is stored under in the path tree. */
  datatype Route = Route(verb: string, path: string, action: string, fixedArgs: string,
                         routesPath: string, line: nat, treePath: string)

  function NewRoute(m: RouteMatch, routesPath: string, n: nat): (r: Route)
    requires m.Match?
    ensures r.verb == m.verb && r.path == m.path && r.action == m.action && r.fixedArgs == m.fixedArgs
    ensures r.routesPath == routesPath && r.line == n && r.treePath == TreePath(m.verb, m.path)
  {
    Route(m.verb, m.path, m.action, m.fixedArgs, routesPath, n, TreePath(m.verb, m.path))
  }

  /** What one line of a routes file contributes. */
  /** A successful match of the route pattern. */
  type Matched = m: RouteMatch | m.Match? witness Match("", "", "", "")

  datatype LineResult = Skip | Reject(msg: string) | Accept(m: Matched)

  /** The decision routing.go:63-99 takes on one line, `matcher` being parseRouteLine. */
  function LineOutcome(line: string, matcher: string -> RouteMatch): LineResult {
    var t := TrimSpace(line);
    if |t| == 0 || t[0] == '#' then Skip
    else if HasPrefix(t, ModulePrefix) then Skip
    else
      var m := matcher(t);
      if m.NoMatch? then Skip
      else if ':' in m.action then Reject(CatchallError)
      else if '*' in t then Reject(WildcardError)
      else Accept(m)
  }

  /** After trimming, a blank line, a comment, a module import and a line the route
      pattern does not match are skipped; a matched line is refused when its action
      holds ':' (checked first) or the line holds '*'; any other matched line is
      accepted with its match. */
  lemma LineOutcomeCases(line: string, matcher: string -> RouteMatch)
    ensures var t, r := TrimSpace(line), LineOutcome(line, matcher);
      (r.Skip? <==> (|t| == 0 || t[0] == '#' || HasPrefix(t, ModulePrefix) || matcher(t).NoMatch?)) &&
      (r.Reject? <==> (!r.Skip? && (':' in matcher(t).action || '*' in t))) &&
      (r.Reject? ==> r.msg == if ':' in matcher(t).action then CatchallError else WildcardError) &&
      (r.Accept? ==> r.m == matcher(t) && r.m.Match? && ':' !in r.m.action && '*' !in t)
  {
  }

  /** The result of parseRoutes: the routes, or the error of a refused line (the route
      list is then nil). */
  datatype ParseResult = Parsed(routes: seq<Route>) | ParseError(msg: string)

  /** The outcome of every line of a routes file, in order. */
  function Outcomes(lines: seq<string>, matcher: string -> RouteMatch): (r: seq<LineResult>)
    ensures |r| == |lines| && forall i :: 0 <= i < |lines| ==> r[i] == LineOutcome(lines[i], matcher)
  {
    seq(|lines|, i requires 0 <= i < |lines| => LineOutcome(lines[i], matcher))
  }

  /** parseRoutes from line n on, given the outcome of every line: skipped lines give
      nothing, the first refused line ends the parse with its error, and an accepted
      line gives the route of its match, recording its index. */
  function ParseLines(outcomes: seq<LineResult>, n: nat, routesPath: string): (r: ParseResult)
    requires n <= |outcomes|
    ensures r.Parsed? ==> |r.routes| <= |outcomes| - n
    decreases |outcomes| - n
  {
    if n == |outcomes| then Parsed([])
    else match outcomes[n]
      case Skip => ParseLines(outcomes, n + 1, routesPath)
      case Reject(msg) => ParseError(msg)
      case Accept(m) =>
        match ParseLines(outcomes, n + 1, routesPath)
        case Parsed(rest) => Parsed([NewRoute(m, routesPath, n)] + rest)
        case ParseError(msg) => ParseError(msg)
  }

  function Prepend(routes: seq<Route>, r: ParseResult): ParseResult {
    match r
    case Parsed(rest) => Parsed(routes + rest)
    case ParseError(msg) => ParseError(msg)
  }

  /** One step of the loop of parseRoutes: line n's outcome decides how the routes
      found so far and the rest of the parse make up the whole parse. */
  lemma ParseLinesStep(outcomes: seq<LineResult>, n: nat, routes: seq<Route>, routesPath: string)
    requires n < |outcomes|
    requires ParseLines(outcomes, 0, routesPath) == Prepend(routes, ParseLines(outcomes, n, routesPath))
    ensures var all := ParseLines(outcomes, 0, routesPath);
      match outcomes[n]
      case Skip => all == Prepend(routes, ParseLines(outcomes, n + 1, routesPath))
      case Reject(msg) => all == ParseError(msg)
      case Accept(m) =>
        all == Prepend(routes + [NewRoute(m, routesPath, n)], ParseLines(outcomes, n + 1, routesPath))
  {
    match outcomes[n]
    case Skip =>
    case Reject(msg) =>
    case Accept(m) =>
      var rest := ParseLines(outcomes, n + 1, routesPath);
      if rest.Parsed? {
        assert routes + ([NewRoute(m, routesPath, n)] + rest.routes) == (routes + [NewRoute(m, routesPath, n)]) + rest.routes;
      }
  }

  /** What parseRouteLine returns for a line that reaches it; NoMatch for a line skipped
      before. */
  function MatchedRoute(rawLine: string, matcher: string -> RouteMatch): RouteMatch {
    var t := TrimSpace(rawLine);
    if |t| == 0 || t[0] == '#' || HasPrefix(t, ModulePrefix) then NoMatch else matcher(t)
  }

  /** The checks the loop of parseRoutes makes on one line (routing.go:63-99), written
      as the statements of the loop body: the line's outcome, and what parseRouteLine
      returned when it was called. LineOutcome is the same decision as a function, and
      LineOutcomeCases characterizes it case by case. */
  method ClassifyLine(rawLine: string, matcher: string -> RouteMatch) returns (r: LineResult, matched: RouteMatch)
    ensures r == LineOutcome(rawLine, matcher)
    ensures matched == MatchedRoute(rawLine, matcher)
  {
    var line := TrimSpace(rawLine);
    if |line| == 0 || line[0] == '#' {
      return Skip, NoMatch;
    }
    if HasPrefix(line, ModulePrefix) {
      return Skip, NoMatch;
    }
    matched := matcher(line);
    if matched.NoMatch? {
      return Skip, matched;
    }
    if ':' in matched.action {
      return Reject(CatchallError), matched;
    }
    if '*' in line {
      return Reject(WildcardError), matched;
    }
    return Accept(matched), matched;
  }

  /**
   * parseRoutes(routesPath, joinedPath, content) (routing.go:58-105). `matcher` is
   * parseRouteLine. The trimming of a trailing slash from `joinedPath` is kept, though
   * nothing reads the result.
   */
  method ParseRoutes(routesPath: string, joinedPath: string, content: string, matcher: string -> RouteMatch)
    returns (r: ParseResult)
    ensures r == ParseLines(Outcomes(Split(content), matcher), 0, routesPath)
  {
    r := ParseRouteLines(routesPath, joinedPath, Split(content), matcher);
  }

  /** The loop of parseRoutes over the lines of the routes file (routing.go:62-104). */
  method ParseRouteLines(routesPath: string, joinedPath: string, lines: seq<string>, matcher: string -> RouteMatch)
    returns (r: ParseResult)
    ensures r == ParseLines(Outcomes(lines, matcher), 0, routesPath)
  {
    ghost var outcomes := Outcomes(lines, matcher);
    var routes: seq<Route> := [];
    var joined := joinedPath;
    for n := 0 to |lines|
      invariant ParseLines(outcomes, 0, routesPath) == Prepend(routes, ParseLines(outcomes, n, routesPath))
    {
      ParseLinesStep(outcomes, n, routes, routesPath);
      var outcome, matched := ClassifyLine(lines[n], matcher);
      if matched.Match? && HasSuffix(joined, "/") && HasPrefix(matched.path, "/") {
        joined := joined[..|joined| - 1];
      }
      match outcome {
        case Skip =>
        case Reject(msg) =>
          return ParseError(msg);
        case Accept(m) =>
          var route := NewRoute(m, routesPath, n);
          routes := routes + [route];
      }
    }
    return Parsed(routes);
  }

  /** The parse fails exactly when some line is refused. */
  lemma {:induction false} ParseFailsIffSomeLineRejected(outcomes: seq<LineResult>, n: nat, routesPath: string)
    requires n <= |outcomes|
    ensures ParseLines(outcomes, n, routesPath).ParseError? <==>
      exists k :: n <= k < |outcomes| && outcomes[k].Reject?
    decreases |outcomes| - n
  {
    if n < |outcomes| {
      ParseFailsIffSomeLineRejected(outcomes, n + 1, routesPath);
    }
  }

  /** The error a failed parse reports is that of the first refused line. */
  lemma {:induction false} ParseErrorIsFirstReject(outcomes: seq<LineResult>, n: nat, routesPath: string)
    requires n <= |outcomes|
    requires ParseLines(outcomes, n, routesPath).ParseError?
    ensures exists k :: (n <= k < |outcomes| && outcomes[k] == Reject(ParseLines(outcomes, n, routesPath).msg) &&
      NoRejectBetween(outcomes, n, k))
    decreases |outcomes| - n
  {
    if outcomes[n].Reject? {
      assert NoRejectBetween(outcomes, n, n);
    } else {
      ParseErrorIsFirstReject(outcomes, n + 1, routesPath);
      var k :| n + 1 <= k < |outcomes| && outcomes[k] == Reject(ParseLines(outcomes, n + 1, routesPath).msg) &&
        NoRejectBetween(outcomes, n + 1, k);
      assert NoRejectBetween(outcomes, n, k);
    }
  }

  /** No line from index n up to (not including) k is refused. */
  ghost predicate NoRejectBetween(outcomes: seq<LineResult>, n: nat, k: nat)
    requires k <= |outcomes|
  {
    forall k' :: n <= k' < k ==> !outcomes[k'].Reject?
  }

  /** Each route of a successful parse is made from an accepted line's match and records
      that line's index; skipped lines give no route. */
  lemma {:induction false} ParsedRoutesFromAcceptedLines(outcomes: seq<LineResult>, n: nat, routesPath: string)
    requires n <= |outcomes|
    requires ParseLines(outcomes, n, routesPath).Parsed?
    ensures var rs := ParseLines(outcomes, n, routesPath).routes;
      forall k :: 0 <= k < |rs| ==> AcceptedRoute(outcomes, n, rs[k], routesPath)
    decreases |outcomes| - n
  {
    if n < |outcomes| {
      ParsedRoutesFromAcceptedLines(outcomes, n + 1, routesPath);
    }
  }

  ghost predicate AcceptedRoute(outcomes: seq<LineResult>, n: nat, route: Route, routesPath: string) {
    n <= route.line < |outcomes| && outcomes[route.line].Accept? &&
    route == NewRoute(outcomes[route.line].m, routesPath, route.line)
  }

  /** The routes of a successful parse are in input order. */
  lemma {:induction false} ParsedRoutesInOrder(outcomes: seq<LineResult>, n: nat, routesPath: string)
    requires n <= |outcomes|
    requires ParseLines(outcomes, n, routesPath).Parsed?
    ensures var rs := ParseLines(outcomes, n, routesPath).routes;
      forall k, k' :: 0 <= k < k' < |rs| ==> rs[k].line < rs[k'].line
    decreases |outcomes| - n
  {
    if n < |outcomes| {
      ParsedRoutesInOrder(outcomes, n + 1, routesPath);
      ParsedRoutesFromAcceptedLines(outcomes, n + 1, routesPath);
    }
  }

  /** Every accepted line gives a route. */
  lemma {:induction false} AcceptedLinesParsed(outcomes: seq<LineResult>, n: nat, routesPath: string)
    requires n <= |outcomes|
    requires ParseLines(outcomes, n, routesPath).Parsed?
    ensures var rs := ParseLines(outcomes, n, routesPath).routes;
      forall i :: n <= i < |outcomes| && outcomes[i].Accept? ==> exists k :: 0 <= k < |rs| && rs[k].line == i
    decreases |outcomes| - n
  {
    if n < |outcomes| {
      AcceptedLinesParsed(outcomes, n + 1, routesPath);
      var rs := ParseLines(outcomes, n, routesPath).routes;
      var rest := ParseLines(outcomes, n + 1, routesPath).routes;
      if outcomes[n].Accept? {
        assert rs == [rs[0]] + rest;
        forall i | n <= i < |outcomes| && outcomes[i].Accept?
          ensures exists k :: 0 <= k < |rs| && rs[k].line == i
        {
          if i == n {
            assert rs[0].line == i;
          } else {
            var k :| 0 <= k < |rest| && rest[k].line == i;
            assert rs[k + 1].line == i;
          }
        }
      }
    }
  }

  /** A line whose route has method `*`, the wildcard the pattern admits, is refused,
      unless its action already was: the method is the start of the line. */
  lemma WildcardMethodRejected(line: string, matcher: string -> RouteMatch)
    requires var m := matcher(TrimSpace(line)); m.Match? && m.verb == "*" && HasPrefix(TrimSpace(line), m.verb)
    requires TrimSpace(line)[0] != '#' && !HasPrefix(TrimSpace(line), ModulePrefix)
    ensures LineOutcome(line, matcher).Reject?
  {
    assert TrimSpace(line)[0] == '*';
  }

  /* ---- treePath and updateTree (routing.go:128-151) ---- */

  /** treePath (routing.go:146-151): the path-tree key of a route. */
  function TreePath(verb: string, path: string): (r: string)
    ensures verb == "*" ==> r == "/:METHOD" + path
    ensures verb != "*" ==> r == "/" + verb + path
  {
    "/" + (if verb == "*" then ":METHOD" else verb) + path
  }

  /** Two routes of one method share a key exactly when they share a path. */
  lemma TreePathInjective(verb: string, p: string, q: string)
    ensures TreePath(verb, p) == TreePath(verb, q) <==> p == q
  {
    var prefix := "/" + (if verb == "*" then ":METHOD" else verb);
    assert TreePath(verb, p) == prefix + p && TreePath(verb, q) == prefix + q;
    if TreePath(verb, p) == TreePath(verb, q) {
      assert p == (prefix + p)[|prefix|..];
      assert q == (prefix + q)[|prefix|..];
    }
  }

  /** The keys updateTree adds for one route: its tree path, and for GET also HEAD's. */
  function RouteKeys(route: Route): (r: seq<(string, Route)>)
    ensures |r| == (if route.verb == "GET" then 2 else 1) && r[0] == (route.treePath, route)
    ensures forall k :: 0 <= k < |r| ==> r[k].1 == route
  {
    [(route.treePath, route)] + if route.verb == "GET" then [(TreePath("HEAD", route.path), route)] else []
  }

  /** The keys of all routes, in order. */
  function Registrations(routes: seq<Route>): (r: seq<(string, Route)>)
    ensures |routes| <= |r| <= 2 * |routes|
    ensures forall k :: 0 <= k < |r| ==> r[k].1 in routes
    decreases |routes|
  {
    if |routes| == 0 then [] else RouteKeys(routes[0]) + Registrations(routes[1..])
  }

  /** pathtree's Add, as a function of what the tree holds and the new key: the error it
      reports, if any (a conflict). On success the key is added. */
  type AddFunction = (seq<(string, Route)>, string) -> Option<string>

  /** updateTree from route i on, the tree holding `tree`: the final tree and the error
      that stopped the loop, if any. */
  function TreeFrom(tree: seq<(string, Route)>, routes: seq<Route>, i: nat, add: AddFunction): (r: (seq<(string, Route)>, Option<string>))
    requires i <= |routes|
    ensures tree <= r.0 && |r.0| <= |tree| + 2 * (|routes| - i)
    decreases |routes| - i
  {
    if i == |routes| then (tree, None)
    else
      var route := routes[i];
      var err := add(tree, route.treePath);
      if err.Some? then (tree, err)
      else
        var tree' := tree + [(route.treePath, route)];
        if route.verb == "GET" then
          var err' := add(tree', TreePath("HEAD", route.path));
          if err'.Some? then (tree', err')
          else TreeFrom(tree' + [(TreePath("HEAD", route.path), route)], routes, i + 1, add)
        else TreeFrom(tree', routes, i + 1, add)
  }

  lemma RegistrationsFrom(routes: seq<Route>, i: nat)
    requires i < |routes|
    ensures Registrations(routes[i..]) == RouteKeys(routes[i]) + Registrations(routes[i + 1..])
  {
    assert routes[i..][1..] == routes[i + 1..];
  }

  /** Adding keys one by one, stopping at the first error. */
  function AddAll(tree: seq<(string, Route)>, keys: seq<(string, Route)>, add: AddFunction): (r: (seq<(string, Route)>, Option<string>))
    ensures tree <= r.0 && |r.0| <= |tree| + |keys|
    decreases |keys|
  {
    if |keys| == 0 then (tree, None)
    else
      var err := add(tree, keys[0].0);
      if err.Some? then (tree, err) else AddAll(tree + [keys[0]], keys[1..], add)
  }

  lemma {:induction false} AddAllAppend(tree: seq<(string, Route)>, a: seq<(string, Route)>, b: seq<(string, Route)>, add: AddFunction)
    ensures AddAll(tree, a + b, add) ==
      if AddAll(tree, a, add).1.Some? then AddAll(tree, a, add) else AddAll(AddAll(tree, a, add).0, b, add)
    decreases |a|
  {
    if |a| > 0 {
      assert (a + b)[0] == a[0] && (a + b)[1..] == a[1..] + b;
      AddAllAppend(tree + [a[0]], a[1..], b, add);
    } else {
      assert a + b == b;
    }
  }

  /** The loop of updateTree adds the keys of the routes, in order, stopping at the
      first error. */
  lemma {:induction false} TreeFromAddsRegistrations(tree: seq<(string, Route)>, routes: seq<Route>, i: nat, add: AddFunction)
    requires i <= |routes|
    ensures TreeFrom(tree, routes, i, add) == AddAll(tree, Registrations(routes[i..]), add)
    decreases |routes| - i
  {
    if i < |routes| {
      var route := routes[i];
      RegistrationsFrom(routes, i);
      AddAllAppend(tree, RouteKeys(route), Registrations(routes[i + 1..]), add);
      var tree' := tree + [(route.treePath, route)];
      if route.verb == "GET" {
        TreeFromAddsRegistrations(tree' + [(TreePath("HEAD", route.path), route)], routes, i + 1, add);
      } else {
        TreeFromAddsRegistrations(tree', routes, i + 1, add);
      }
    } else {
      assert routes[i..] == [];
    }
  }

  /** Without an error, every key was added, in order. */
  lemma {:induction false} AddAllComplete(tree: seq<(string, Route)>, keys: seq<(string, Route)>, add: AddFunction)
    requires AddAll(tree, keys, add).1.None?
    ensures AddAll(tree, keys, add).0 == tree + keys
    decreases |keys|
  {
    if |keys| > 0 {
      AddAllComplete(tree + [keys[0]], keys[1..], add);
      assert tree + [keys[0]] + keys[1..] == tree + keys;
    }
  }

  /** On an error, the keys before the first key Add refused were added, and the error
      is Add's answer for that key. */
  lemma AddAllStops(tree: seq<(string, Route)>, keys: seq<(string, Route)>, add: AddFunction)
    requires AddAll(tree, keys, add).1.Some?
    ensures exists m :: (0 <= m < |keys| && AddAll(tree, keys, add).0 == tree + keys[..m] &&
      AddAll(tree, keys, add).1 == add(tree + keys[..m], keys[m].0) && AddsSucceed(tree, keys, m, add))
  {
    var m := FirstRefusal(tree, keys, add);
  }

  /** The position of the key Add refused. */
  lemma {:induction false} FirstRefusal(tree: seq<(string, Route)>, keys: seq<(string, Route)>, add: AddFunction)
    returns (m: nat)
    requires AddAll(tree, keys, add).1.Some?
    ensures m < |keys| && AddAll(tree, keys, add) == (tree + keys[..m], add(tree + keys[..m], keys[m].0))
    ensures AddsSucceed(tree, keys, m, add)
    decreases |keys|
  {
    if add(tree, keys[0].0).Some? {
      m := 0;
      assert tree + keys[..0] == tree;
    } else {
      var next := tree + [keys[0]];
      var rest := FirstRefusal(next, keys[1..], add);
      m := rest + 1;
      assert next + keys[1..][..rest] == tree + keys[..m];
      forall k | 0 <= k < m
        ensures add(tree + keys[..k], keys[k].0).None?
      {
        if k > 0 {
          assert tree + keys[..k] == next + keys[1..][..k - 1];
        } else {
          assert tree + keys[..k] == tree;
        }
      }
    }
  }

  /** The first m keys were each added without an error. */
  ghost predicate AddsSucceed(tree: seq<(string, Route)>, keys: seq<(string, Route)>, m: nat, add: AddFunction)
    requires m <= |keys|
  {
    forall m' :: 0 <= m' < m ==> add(tree + keys[..m'], keys[m'].0).None?
  }

  /** Without an error, every route is in the tree under its tree path, and every GET
      route also under HEAD's tree path, in route order. */
  lemma TreeHoldsAllKeys(routes: seq<Route>, add: AddFunction)
    requires TreeFrom([], routes, 0, add).1.None?
    ensures TreeFrom([], routes, 0, add).0 == Registrations(routes)
  {
    TreeFromAddsRegistrations([], routes, 0, add);
    assert routes[0..] == routes;
    AddAllComplete([], Registrations(routes), add);
  }

  /** On an error, the tree holds the keys before the first one Add refused, and the
      error is what Add reported for it. */
  lemma TreeStopsAtFirstError(routes: seq<Route>, add: AddFunction)
    requires TreeFrom([], routes, 0, add).1.Some?
    ensures var keys := Registrations(routes);
      exists m :: (0 <= m < |keys| && TreeFrom([], routes, 0, add).0 == keys[..m] &&
        TreeFrom([], routes, 0, add).1 == add(keys[..m], keys[m].0) && AddsSucceed([], keys, m, add))
  {
    TreeFromAddsRegistrations([], routes, 0, add);
    assert routes[0..] == routes;
    var keys := Registrations(routes);
    var m := FirstRefusal([], keys, add);
    assert [] + keys[..m] == keys[..m];
  }

  /** Each route's key, and for a GET route HEAD's key too, is among the registrations. */
  lemma {:induction false} RegistrationsCoverRoutes(routes: seq<Route>, i: nat)
    requires i < |routes|
    ensures (routes[i].treePath, routes[i]) in Registrations(routes)
    ensures routes[i].verb == "GET" ==> (TreePath("HEAD", routes[i].path), routes[i]) in Registrations(routes)
    decreases i
  {
    if i > 0 {
      RegistrationsCoverRoutes(routes[1..], i - 1);
    }
  }

  /** revel's Router, reduced to what updateTree touches: the route list and the path
      tree, the latter as the keys added to it, in order. */
  class Router {
    var routes: seq<Route>
    var tree: seq<(string, Route)>

    constructor (routes: seq<Route>)
      ensures this.routes == routes && tree == []
    {
      this.routes := routes;
      tree := [];
    }

    /** updateTree (routing.go:128-144): a new tree, then every route added in order,
        GET routes also under HEAD, stopping at the first error. */
    method UpdateTree(add: AddFunction) returns (err: Option<string>)
      modifies this
      ensures routes == old(routes)
      ensures (tree, err) == TreeFrom([], routes, 0, add)
    {
      tree := [];
      for i := 0 to |routes|
        invariant routes == old(routes)
        invariant TreeFrom([], routes, 0, add) == TreeFrom(tree, routes, i, add)
      {
        var route := routes[i];
        err := add(tree, route.treePath);
        if err.None? {
          tree := tree + [(route.treePath, route)];
          if route.verb == "GET" {
            var headPath := TreePath("HEAD", route.path);
            err := add(tree, headPath);
            if err.None? {
              tree := tree + [(headPath, route)];
            }
          }
        }
        if err.Some? {
          return err;
        }
      }
      return None;
    }
  }
}
