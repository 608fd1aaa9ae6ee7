/**
 * The record object both front ends build (AgentMessage in the agent,
 * LogMessage in the log parser) and the methods that fill in its derived
 * fields in place. Every method is proved to change the record exactly as the
 * matching function of modules Routes, AuthToken and Engine says.
 */
module Messages {
  import opened Wrappers
  import opened GoStrings
  import opened Routes
  import opened AuthToken
  import opened Filters
  import opened Engine

  class Message {
    var uniqueId: string
    var ipAddress: string
    var time: string
    var host: string
    var path: string
    var query: string
    var httpMethod: string
    var status: int

    // Derived fields from the path.
    var pathApiVersion: string
    var pathApi: string
    var pathApiId: string
    var pathConcept: string
    var pathConceptId: int
    var pathAction: string

    // Derived field from the query.
    var queryAuthToken: string

    function RouteOf(): Route
      reads this
    {
      Route(pathApiVersion, pathApi, pathApiId, pathConcept, pathConceptId, pathAction)
    }

    /** The record this object holds. */
    function Value(): Record
      reads this
    {
      Record(uniqueId, ipAddress, time, host, path, query, httpMethod, status, RouteOf(), queryAuthToken)
    }

    constructor ()
      ensures Value() == Empty
    {
      uniqueId, ipAddress, time, host, path, query, httpMethod, status := "", "", "", "", "", "", "", 0;
      pathApiVersion, pathApi, pathApiId, pathConcept, pathConceptId, pathAction := "", "", "", "", 0, "";
      queryAuthToken := "";
    }

    /** The record holds a version-1 route. */
    predicate IsV1()
      reads this
      ensures IsV1() <==> Value().route.apiVersion == "1"
      ensures IsV1() ==> !IsV2()
    {
      pathApiVersion == "1"
    }

    /** The record holds a version-2 route. */
    predicate IsV2()
      reads this
      ensures IsV2() <==> Value().route.apiVersion == "v2"
    {
      pathApiVersion == "v2"
    }

    /** parse: the pipeline, stopping at the first error. */
    method Parse() returns (err: Option<AuditError>)
      modifies this
      ensures Processed(Value(), err) == Process(old(Value()))
    {
      if !ShouldParse(status, host, httpMethod) {
        return Some(ShouldntParse);
      }
      var routeErr := ParsePath();
      if routeErr.Some? {
        return Some(RouteFailed(routeErr.value));
      }
      ParseQuery();
      if !ShouldAudit(queryAuthToken, RouteOf()) {
        return Some(NotAuditable(status, httpMethod, host, path));
      }
      return None;
    }

    /** parseQuery: each match of auth_token=([^&]{20}) overwrites the token. */
    method ParseQuery()
      modifies this
      ensures Value() == old(Value()).(authToken := ScanToken(old(query), 0, old(queryAuthToken)))
    {
      var i: nat := 0;
      while i + MatchLength <= |query|
        invariant ScanToken(query, i, queryAuthToken) == ScanToken(old(query), 0, old(queryAuthToken))
        invariant Value() == old(Value()).(authToken := queryAuthToken)
        decreases |query| - i
      {
        if IsMatchAt(query, i) {
          queryAuthToken := Capture(query, i);
          i := i + MatchLength;
        } else {
          i := i + 1;
        }
      }
    }

    /** parsePath: needs at least two segments, then picks the dialect from the first. */
    method ParsePath() returns (err: Option<RouteError>)
      modifies this
      ensures var st := PathStep(old(RouteOf()), old(path));
        Value() == old(Value()).(route := st.route) && err == st.error
    {
      var s := Split(path, '/');
      if |s| < 2 {
        return Some(PathTooShort(path));
      }
      pathApiVersion := s[0];
      if pathApiVersion == "v2" {
        err := ParseV2Path();
      } else if pathApiVersion == "1" {
        err := ParseV1Path();
      } else {
        err := ParseGenericPath();
      }
    }

    method ParseV2Path() returns (err: Option<RouteError>)
      modifies this
      ensures var st := V2Step(old(RouteOf()), Segments(old(path)));
        Value() == old(Value()).(route := st.route) && err == st.error
    {
      var s := Split(path, '/');
      var n := |s|;
      if n >= 2 {
        pathApi := s[1];
      }
      if n >= 3 {
        pathApiId := s[2];
      }
      if n >= 4 {
        pathConcept := s[3];
      }
      if n < 5 {
        return None;
      }
      if n == 5 {
        var id := Atoi(s[4]);
        if id.Some? {
          pathConceptId := id.value;
        } else {
          pathAction := s[4];
        }
      } else if n == 6 {
        var id := Atoi(s[4]);
        if id.Some? {
          pathConceptId := id.value;
        }
        pathAction := s[5];
      } else {
        return Some(BadV2Route(n, s));
      }
      return None;
    }

    method ParseV1Path() returns (err: Option<RouteError>)
      modifies this
      ensures var st := V1Step(old(RouteOf()), Segments(old(path)));
        Value() == old(Value()).(route := st.route) && err == st.error
    {
      var s := Split(path, '/');
      var n := |s|;
      ghost var st := V1Step(RouteOf(), s);
      if n >= 3 {
        pathApi := s[1];
        pathApiId := s[2];
      }
      if n < 4 {
        return None;
      }
      if n == 4 {
        pathConcept := s[3];
      } else if n == 5 {
        pathConcept := s[3];
        var id := Atoi(s[4]);
        if id.Some? {
          pathConceptId := id.value;
        } else {
          pathAction := s[4];
        }
      } else if n == 6 {
        pathConcept := s[3];
        var id := Atoi(s[4]);
        if id.Some? {
          pathConceptId := id.value;
        }
        pathAction := s[5];
      } else if n == 7 {
        if s[3] == "favorites" && s[5] == "actions" {
          SetCompoundConcept("favorite_actions", s[6]);
        } else if s[3] == "rooms" && s[5] == "hotspots" {
          SetCompoundConcept("room_hotspots", s[6]);
        } else {
          assert st.error == Some(BadV1Route(n, s));
          return Some(BadV1Route(n, s));
        }
      } else {
        assert st.error == Some(BadV1Route(n, s));
        return Some(BadV1Route(n, s));
      }
      assert RouteOf() == st.route;
      return None;
    }

    /** One of the two 7-segment v1 shapes: a fixed concept and an optional numeric id. */
    method SetCompoundConcept(concept: string, idSegment: string)
      modifies this
      ensures Value() == old(Value()).(route := old(RouteOf()).(
        concept := concept,
        conceptId := match Atoi(idSegment) case Some(i) => i case None => old(pathConceptId)))
    {
      pathConcept := concept;
      var id := Atoi(idSegment);
      if id.Some? {
        pathConceptId := id.value;
      }
    }

    method ParseGenericPath() returns (err: Option<RouteError>)
      requires |Segments(path)| >= 2
      modifies this
      ensures var st := GenericStep(old(RouteOf()), Segments(old(path)));
        Value() == old(Value()).(route := st.route) && err == st.error
    {
      var s := Split(path, '/');
      var n := |s|;
      pathApi := s[0];
      if pathApi == "users" {
        pathAction := s[1];
      } else {
        return Some(BadGenericRoute(n, s));
      }
      return None;
    }
  }
}
