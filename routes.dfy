/**
 * The route parser of the audit engine, as pure functions over the derived
 * route fields. Each step function takes the route fields before the call and
 * the path's segments, and gives the fields after it together with the error
 * the Go method returns; the class methods in module Messages are proved to
 * update the record exactly as these functions say.
 */
module Routes {
  import opened Wrappers
  import opened GoStrings

  /** The path-derived fields of a record; "" and 0 stand for "not set". */
  datatype Route = Route(
    apiVersion: string,
    api: string,
    apiId: string,
    concept: string,
    conceptId: int,
    action: string)

  /** The route fields of a freshly created record. */
  const Unset := Route("", "", "", "", 0, "")

  datatype RouteError =
    | PathTooShort(path: string)
    | BadV2Route(count: nat, segments: seq<string>)
    | BadV1Route(count: nat, segments: seq<string>)
    | BadGenericRoute(count: nat, segments: seq<string>)

  /** Route fields after a parse step, and the error it returned (None for nil). */
  datatype Step = Step(route: Route, error: Option<RouteError>)

  /** strings.Split(path, "/"). */
  function Segments(path: string): seq<string>
  {
    Split(path, '/')
  }

  /** A segment that strconv.Atoi accepts. */
  predicate IsNumeric(segment: string)
  {
    Atoi(segment).Some?
  }

  /** parseV2Path: v2/<api>/<apiId>/<concept>/<conceptId or action>/<action>. */
  function V2Step(r: Route, s: seq<string>): (st: Step)
    ensures st.error.Some? <==> |s| >= 7
    ensures st.error.Some? ==> st.error == Some(BadV2Route(|s|, s))
    ensures st.route.apiVersion == r.apiVersion
    ensures |s| >= 2 ==> st.route.api == s[1]
    ensures |s| >= 4 ==> st.route.apiId == s[2] && st.route.concept == s[3]
  {
    var n := |s|;
    var r1 := if n >= 2 then r.(api := s[1]) else r;
    var r2 := if n >= 3 then r1.(apiId := s[2]) else r1;
    var r3 := if n >= 4 then r2.(concept := s[3]) else r2;
    if n < 5 then Step(r3, None)
    else if n == 5 then
      match Atoi(s[4])
      case Some(i) => Step(r3.(conceptId := i), None)
      case None => Step(r3.(action := s[4]), None)
    else if n == 6 then
      var r4 := match Atoi(s[4]) case Some(i) => r3.(conceptId := i) case None => r3;
      Step(r4.(action := s[5]), None)
    else Step(r3, Some(BadV2Route(n, s)))
  }

  /** parseV1Path: 1/<api>/<apiId>/<concept>/... with two hard-coded 7-segment shapes. */
  function V1Step(r: Route, s: seq<string>): (st: Step)
    ensures st.error.Some? <==>
      !(|s| <= 6 || (|s| == 7 && ((s[3] == "favorites" && s[5] == "actions") || (s[3] == "rooms" && s[5] == "hotspots"))))
    ensures st.error.Some? ==> st.error == Some(BadV1Route(|s|, s))
    ensures st.route.apiVersion == r.apiVersion
    ensures |s| < 3 ==> st.route == r
    ensures |s| >= 3 ==> st.route.api == s[1] && st.route.apiId == s[2]
  {
    var n := |s|;
    var r1 := if n >= 3 then r.(api := s[1], apiId := s[2]) else r;
    if n < 4 then Step(r1, None)
    else if n == 4 then Step(r1.(concept := s[3]), None)
    else if n == 5 then
      var r2 := r1.(concept := s[3]);
      match Atoi(s[4])
      case Some(i) => Step(r2.(conceptId := i), None)
      case None => Step(r2.(action := s[4]), None)
    else if n == 6 then
      var r2 := r1.(concept := s[3]);
      var r3 := match Atoi(s[4]) case Some(i) => r2.(conceptId := i) case None => r2;
      Step(r3.(action := s[5]), None)
    else if n == 7 then
      if s[3] == "favorites" && s[5] == "actions" then
        var r2 := r1.(concept := "favorite_actions");
        Step(match Atoi(s[6]) case Some(i) => r2.(conceptId := i) case None => r2, None)
      else if s[3] == "rooms" && s[5] == "hotspots" then
        var r2 := r1.(concept := "room_hotspots");
        Step(match Atoi(s[6]) case Some(i) => r2.(conceptId := i) case None => r2, None)
      else Step(r1, Some(BadV1Route(n, s)))
    else Step(r1, Some(BadV1Route(n, s)))
  }

  /** parseGenericPath: only users/<action> is understood. */
  function GenericStep(r: Route, s: seq<string>): (st: Step)
    requires |s| >= 2
    ensures st.route.api == s[0]
    ensures st.error.None? <==> s[0] == "users"
    ensures st.error.Some? ==> st.error == Some(BadGenericRoute(|s|, s)) && st.route == r.(api := s[0])
    ensures st.error.None? ==> st.route == r.(api := "users", action := s[1])
  {
    var r1 := r.(api := s[0]);
    if r1.api == "users" then Step(r1.(action := s[1]), None)
    else Step(r1, Some(BadGenericRoute(|s|, s)))
  }

  /** parsePath: rejects paths without a '/', then dispatches on the first segment. */
  function PathStep(r: Route, path: string): (st: Step)
    ensures st.error == Some(PathTooShort(path)) <==> |Segments(path)| < 2
    ensures |Segments(path)| < 2 ==> st.route == r
    ensures |Segments(path)| >= 2 ==> st.route.apiVersion == Segments(path)[0]
    ensures st.error.Some? && |Segments(path)| >= 2 ==>
      !st.error.value.PathTooShort? && st.error.value.count == |Segments(path)| && st.error.value.segments == Segments(path)
  {
    var s := Segments(path);
    if |s| < 2 then Step(r, Some(PathTooShort(path)))
    else
      var r0 := r.(apiVersion := s[0]);
      if s[0] == "v2" then V2Step(r0, s)
      else if s[0] == "1" then V1Step(r0, s)
      else GenericStep(r0, s)
  }

  /** The segment lists some dialect accepts. */
  predicate WellShaped(s: seq<string>)
  {
    && |s| >= 2
    && (s[0] == "v2" ==> |s| <= 6)
    && (s[0] == "1" ==>
          |s| <= 6
          || (|s| == 7 && ((s[3] == "favorites" && s[5] == "actions") || (s[3] == "rooms" && s[5] == "hotspots"))))
    && (s[0] != "v2" && s[0] != "1" ==> s[0] == "users")
  }

  /** The route parsed from a path into a freshly created record. */
  function ParseRoute(path: string): (res: Result<Route, RouteError>)
    ensures res.Failure? <==> !WellShaped(Segments(path))
    ensures '/' !in path ==> res == Failure(PathTooShort(path))
    ensures res.Success? ==> res.value.apiVersion == Segments(path)[0]
    ensures res.Failure? && |Segments(path)| >= 2 ==>
      !res.error.PathTooShort? && res.error.count == |Segments(path)| && res.error.segments == Segments(path)
  {
    CountAbsent(path, '/');
    var st := PathStep(Unset, path);
    match st.error
    case Some(e) => Failure(e)
    case None => Success(st.route)
  }

  lemma {:induction false} CountAbsent(s: string, c: char)
    ensures c !in s ==> Count(s, c) == 0
  {
    if |s| > 0 && c !in s {
      CountAbsent(s[1..], c);
    }
  }

  /** A path holding a '/' splits into at least two segments. */
  lemma {:induction false} SlashSplits(path: string)
    requires '/' in path
    ensures |Segments(path)| >= 2
  {
    CountPresent(path, '/');
  }

  lemma {:induction false} CountPresent(s: string, c: char)
    requires c in s
    ensures Count(s, c) >= 1
  {
    if s[0] != c {
      CountPresent(s[1..], c);
    }
  }
  predicate NoSlash(segments: seq<string>)
  {
    forall k | 0 <= k < |segments| :: '/' !in segments[k]
  }

  /** Paths of fewer than two segments, the empty path among them, never parse. */
  lemma EmptyPathRejected()
    ensures ParseRoute("") == Failure(PathTooShort(""))
  {
  }

  /** Generic dialect: users/<action> parses, every other first segment is an error. */
  lemma {:induction false} GenericRoutes(s: seq<string>)
    requires NoSlash(s) && |s| >= 2 && s[0] != "v2" && s[0] != "1"
    ensures ParseRoute(Join(s, '/')) ==
      if s[0] == "users" then Success(Route("users", "users", "", "", 0, s[1]))
      else Failure(BadGenericRoute(|s|, s))
  {
    SplitJoin(s, '/');
  }

  /** V2 dialect, by number of segments. */
  lemma {:induction false} V2Routes(s: seq<string>)
    requires NoSlash(s) && |s| >= 2 && s[0] == "v2"
    ensures var res := ParseRoute(Join(s, '/'));
      && (|s| <= 6 <==> res.Success?)
      && (|s| >= 7 ==> res == Failure(BadV2Route(|s|, s)))
      && (|s| <= 4 ==> res == Success(Route("v2", s[1], if |s| >= 3 then s[2] else "",
                                             if |s| == 4 then s[3] else "", 0, "")))
      && (|s| == 5 ==> res == Success(
            if IsNumeric(s[4]) then Route("v2", s[1], s[2], s[3], Atoi(s[4]).value, "")
            else Route("v2", s[1], s[2], s[3], 0, s[4])))
      && (|s| == 6 ==> res == Success(
            Route("v2", s[1], s[2], s[3], if IsNumeric(s[4]) then Atoi(s[4]).value else 0, s[5])))
  {
    SplitJoin(s, '/');
  }

  /** V1 dialect, by number of segments, with the two recognised 7-segment shapes. */
  lemma {:induction false} V1Routes(s: seq<string>)
    requires NoSlash(s) && |s| >= 2 && s[0] == "1"
    ensures var res := ParseRoute(Join(s, '/'));
      && (|s| == 2 ==> res == Success(Route("1", "", "", "", 0, "")))
      && (|s| == 3 ==> res == Success(Route("1", s[1], s[2], "", 0, "")))
      && (|s| == 4 ==> res == Success(Route("1", s[1], s[2], s[3], 0, "")))
      && (|s| == 5 ==> res == Success(
            if IsNumeric(s[4]) then Route("1", s[1], s[2], s[3], Atoi(s[4]).value, "")
            else Route("1", s[1], s[2], s[3], 0, s[4])))
      && (|s| == 6 ==> res == Success(
            Route("1", s[1], s[2], s[3], if IsNumeric(s[4]) then Atoi(s[4]).value else 0, s[5])))
      && (|s| == 7 && s[3] == "favorites" && s[5] == "actions" ==> res == Success(
            Route("1", s[1], s[2], "favorite_actions", if IsNumeric(s[6]) then Atoi(s[6]).value else 0, "")))
      && (|s| == 7 && !(s[3] == "favorites" && s[5] == "actions") && s[3] == "rooms" && s[5] == "hotspots" ==>
            res == Success(
              Route("1", s[1], s[2], "room_hotspots", if IsNumeric(s[6]) then Atoi(s[6]).value else 0, "")))
      && (|s| == 7 && !(s[3] == "favorites" && s[5] == "actions") && !(s[3] == "rooms" && s[5] == "hotspots") ==>
            res == Failure(BadV1Route(7, s)))
      && (|s| > 7 ==> res == Failure(BadV1Route(|s|, s)))
  {
    SplitJoin(s, '/');
  }

  /**
   * Every field of a parsed route comes from the path: the names are segments
   * (or one of the two compound concept names) and a non-zero concept id is the
   * value of a numeric segment after the concept.
   */
  lemma RouteProvenance(path: string)
    requires ParseRoute(path).Success?
    ensures var r := ParseRoute(path).value; var s := Segments(path);
      && (r.api != "" ==> r.api in s)
      && (r.apiId != "" ==> r.apiId in s)
      && (r.concept != "" ==> r.concept in s || r.concept in {"favorite_actions", "room_hotspots"})
      && (r.action != "" ==> exists k | 1 <= k < |s| :: s[k] == r.action)
      && (r.conceptId != 0 ==> exists k | 4 <= k < |s| :: Atoi(s[k]) == Some(r.conceptId))
  {
    var r := ParseRoute(path).value;
    var s := Segments(path);
    var n := |s|;
    if r.conceptId != 0 {
      var k := if n == 7 then 6 else 4;
      assert Atoi(s[k]) == Some(r.conceptId);
    }
    if r.action != "" {
      var k := if s[0] != "v2" && s[0] != "1" then 1 else if n == 5 then 4 else 5;
      assert s[k] == r.action;
    }
  }
}
