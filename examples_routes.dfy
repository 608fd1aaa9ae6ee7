/**
 * Worked routes: the paths the route parser is documented against, each given
 * as the '/'-joined list of its segments.
 */
module RouteExamples {
  import opened Wrappers
  import opened GoStrings
  import opened Routes

  /** v2/panels/568969/zone_informations: api, id and concept, no concept id, no action. */
  lemma ZoneInformations()
    ensures ParseRoute(Join(["v2", "panels", "568969", "zone_informations"], '/'))
      == Success(Route("v2", "panels", "568969", "zone_informations", 0, ""))
  {
    assert NoSlash(["v2", "panels", "568969", "zone_informations"]);
    V2Routes(["v2", "panels", "568969", "zone_informations"]);
  }

  /**
   * 1/panels/4-8489/favorites/44974/actions/<n>, for instance with n = 195666:
   * the favorites...actions shape, with the last segment as the concept id.
   */
  lemma FavoriteActions(n: int)
    requires InInt64(n)
    ensures ParseRoute(Join(["1", "panels", "4-8489", "favorites", "44974", "actions", Itoa(n)], '/'))
      == Success(Route("1", "panels", "4-8489", "favorite_actions", n, ""))
  {
    var s := ["1", "panels", "4-8489", "favorites", "44974", "actions", Itoa(n)];
    AtoiItoa(n);
    assert '/' !in Itoa(n);
    assert NoSlash(s);
    FavoritesShape(s, n);
  }

  /** Any favorites...actions path with a numeric last segment. */
  lemma FavoritesShape(s: seq<string>, id: int)
    requires NoSlash(s) && |s| == 7 && s[0] == "1" && s[3] == "favorites" && s[5] == "actions"
    requires Atoi(s[6]) == Some(id)
    ensures ParseRoute(Join(s, '/')) == Success(Route("1", s[1], s[2], "favorite_actions", id, ""))
  {
    V1Routes(s);
  }

  /** 1/panels/4-8489/rooms/12/hotspots/99: the rooms...hotspots shape. */
  lemma RoomHotspots()
    ensures ParseRoute(Join(["1", "panels", "4-8489", "rooms", "12", "hotspots", "99"], '/'))
      == Success(Route("1", "panels", "4-8489", "room_hotspots", 99, ""))
  {
    assert NoSlash(["1", "panels", "4-8489", "rooms", "12", "hotspots", "99"]);
    assert Itoa(99) == "99";
    AtoiItoa(99);
    V1Routes(["1", "panels", "4-8489", "rooms", "12", "hotspots", "99"]);
  }

  /** A 7-segment v1 path of neither recognised shape is an error. */
  lemma UnknownSevenSegmentShape()
    ensures ParseRoute(Join(["1", "panels", "4-8489", "zones", "12", "hotspots", "99"], '/')).Failure?
  {
    assert NoSlash(["1", "panels", "4-8489", "zones", "12", "hotspots", "99"]);
    V1Routes(["1", "panels", "4-8489", "zones", "12", "hotspots", "99"]);
  }
}
