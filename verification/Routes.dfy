/** The dashboard's URLs (web/src/routes.ts): what a path and query select, and how a route prints. */
module Routes {
  import opened Values
  import opened Text
  import opened Splitting
  import opened Decimals
  import opened Percent
  import opened Queries

  datatype Area = Tenants | Users | Status

  datatype Route = Route(area: Area, selected: string, creating: bool, q: string, tenant: string,
                         enabled: string, offset: nat, sessionOffset: nat)

  function DefaultRoute(area: Area): Route {
    Route(area, "", false, "", "", "", 0, 0)
  }

  function AreaName(area: Area): string {
    match area
    case Tenants => "tenants"
    case Users => "users"
    case Status => "status"
  }

  function AreaOf(name: string): Option<Area> {
    if name == "tenants" then Some(Tenants)
    else if name == "users" then Some(Users)
    else if name == "status" then Some(Status)
    else None
  }

  const ROOT := "/admin"
  const LIMIT := 1000000

  // ---- reading -------------------------------------------------------------

  function NonEmpty(parts: seq<string>): seq<string> {
    if parts == [] then [] else (if parts[0] == "" then [] else [parts[0]]) + NonEmpty(parts[1..])
  }

  /** Empty segments are skipped, and only those. */
  lemma {:induction false} NonEmptyByOne(parts: seq<string>, part: string)
    ensures NonEmpty(parts + [part]) == NonEmpty(parts) + if part == "" then [] else [part]
  {
    if parts == [] {
      assert [] + [part] == [part];
      assert NonEmpty([part]) == (if part == "" then [] else [part]) + NonEmpty([]);
    } else {
      assert (parts + [part])[1..] == parts[1..] + [part];
      NonEmptyByOne(parts[1..], part);
    }
  }

  predicate InAdmin(pathname: string) {
    pathname == ROOT || ROOT + "/" <= pathname
  }

  function Segments(pathname: string): seq<string>
    requires InAdmin(pathname)
  {
    NonEmpty(Split(pathname[|ROOT|..], '/'))
  }

  /** The area and selection of a path; None is "not found". */
  function ReadPath(pathname: string): Option<(Area, string)> {
    if !InAdmin(pathname) then None
    else
      var segments := Segments(pathname);
      if |segments| > 2 || (|segments| > 0 && AreaOf(segments[0]).None?) then None
      else
        var area := if |segments| > 0 then AreaOf(segments[0]).value else Tenants;
        match DecodePath(if |segments| > 1 then segments[1] else "")
        case None => None
        case Some(selected) =>
          if '/' in selected || (area.Status? && selected != "") then None else Some((area, selected))
  }

  function Value(params: Params, name: string): string {
    match Get(params, name)
    case Some(value) => value
    case None => ""
  }

  function PageOffset(params: Params, name: string): nat {
    match Get(params, name)
    case Some(text) => if Digits(text) && ValueOf(text) <= LIMIT then ValueOf(text) else 0
    case None => 0
  }

  function EnabledFilter(params: Params): string {
    if Value(params, "enabled") == "true" || Value(params, "enabled") == "false" then Value(params, "enabled") else ""
  }

  function TenantFilter(params: Params): string {
    Lower(Trim(Value(params, "tenant"), WHITESPACE))
  }

  function RouteOf(area: Area, selected: string, params: Params): Route {
    if area.Status? then DefaultRoute(area).(selected := selected)
    else Route(area, selected,
               selected == "" && Get(params, "action") == Some("create"),
               Trim(Value(params, "q"), WHITESPACE),
               if area.Users? then TenantFilter(params) else "",
               EnabledFilter(params),
               PageOffset(params, "offset"),
               if area.Users? && selected != "" then PageOffset(params, "session_offset") else 0)
  }

  /** None is a route marked notFound. */
  function Read(pathname: string, search: string): Option<Route> {
    match ReadPath(pathname)
    case None => None
    case Some(path) => Some(RouteOf(path.0, path.1, ParseQuery(search)))
  }

  /** A path selects something exactly when it is under /admin and has at most an area the dashboard has
      and a selection that decodes to one segment, with none for status. */
  lemma PathSelects(pathname: string)
    ensures !(pathname == "/admin" || "/admin/" <= pathname) ==> ReadPath(pathname) == None
    ensures pathname == "/admin" || "/admin/" <= pathname ==>
              var segments := NonEmpty(Split(pathname[6..], '/'));
              var area := if |segments| > 0 then segments[0] else "tenants";
              var selected := DecodePath(if |segments| > 1 then segments[1] else "");
              (ReadPath(pathname).Some? <==>
               && |segments| <= 2 && area in {"tenants", "users", "status"}
               && selected.Some? && '/' !in selected.value && (area == "status" ==> selected.value == "")) &&
              (ReadPath(pathname).Some? ==> ReadPath(pathname).value.1 == selected.value && AreaName(ReadPath(pathname).value.0) == area)
  {
    assert DecodePath("") == Some("");
  }

  /** What each field of a route is read from. */
  lemma FieldsRead(area: Area, selected: string, params: Params)
    ensures var route := RouteOf(area, selected, params);
            && route.area == area && route.selected == selected
            && (area.Status? ==> route == Route(Status, selected, false, "", "", "", 0, 0))
    ensures !area.Status? ==>
              var route := RouteOf(area, selected, params);
              && route.q == (match Get(params, "q") case Some(v) => Trim(v, WHITESPACE) case None => "")
              && route.tenant == (match Get(params, "tenant")
                                  case Some(v) => if area.Users? then Lower(Trim(v, WHITESPACE)) else ""
                                  case None => "")
              && route.enabled == (if Get(params, "enabled") == Some("true") then "true"
                                   else if Get(params, "enabled") == Some("false") then "false" else "")
              && (route.creating <==> selected == "" && Get(params, "action") == Some("create"))
    ensures !area.Status? ==>
              var route := RouteOf(area, selected, params);
              && route.offset == (match Get(params, "offset")
                                  case Some(v) => if Digits(v) && ValueOf(v) <= 1000000 then ValueOf(v) else 0
                                  case None => 0)
              && route.sessionOffset == (match Get(params, "session_offset")
                                         case Some(v) =>
                                           if area.Users? && selected != "" && Digits(v) && ValueOf(v) <= 1000000 then ValueOf(v) else 0
                                         case None => 0)
  {
    assert Trim("", WHITESPACE) == "" && Lower("") == "";
  }

  method ReadRoute(pathname: string, search: string) returns (found: Option<Route>)
    ensures found == Read(pathname, search)
  {
    if pathname != ROOT && !(ROOT + "/" <= pathname) {
      return None;
    }
    var segments := Segments(pathname);
    if |segments| > 2 || (|segments| > 0 && AreaOf(segments[0]).None?) {
      return None;
    }
    var route := DefaultRoute(if |segments| > 0 then AreaOf(segments[0]).value else Tenants);
    var decoded := DecodePath(if |segments| > 1 then segments[1] else "");
    if decoded.None? {
      return None;
    }
    route := route.(selected := decoded.value);
    if '/' in route.selected || (route.area.Status? && route.selected != "") {
      return None;
    }
    if route.area.Status? {
      return Some(route);
    }
    var query := ParseQuery(search);
    route := route.(q := Trim(Value(query, "q"), WHITESPACE));
    route := route.(tenant := if route.area.Users? then TenantFilter(query) else "");
    var enabled := Get(query, "enabled");
    if enabled == Some("true") || enabled == Some("false") {
      route := route.(enabled := enabled.value);
    }
    route := route.(offset := PageOffset(query, "offset"));
    route := route.(creating := route.selected == "" && Get(query, "action") == Some("create"));
    if route.area.Users? && route.selected != "" {
      route := route.(sessionOffset := PageOffset(query, "session_offset"));
    }
    return Some(route);
  }

  // ---- printing ------------------------------------------------------------

  function Param(given: bool, name: string, value: string): Params {
    if given then [(name, value)] else []
  }

  function SessionParam(route: Route): Params {
    Param(route.area.Users? && route.selected != "" && route.sessionOffset != 0, "session_offset", Decimal(route.sessionOffset))
  }

  function RouteParams(route: Route): Params {
    Param(route.q != "", "q", route.q) +
    Param(route.area.Users? && route.tenant != "", "tenant", route.tenant) +
    Param(route.enabled != "", "enabled", route.enabled) +
    Param(route.offset != 0, "offset", Decimal(route.offset)) +
    SessionParam(route) +
    Param(route.creating && route.selected == "", "action", "create")
  }

  predicate Printable(route: Route) {
    Bytes(route.selected) && ParamsBytes(RouteParams(route))
  }

  function Pathname(route: Route): string
    requires Bytes(route.selected)
  {
    ROOT + "/" + AreaName(route.area) + if route.selected != "" then "/" + EncodePath(route.selected) else ""
  }

  function Search(route: Route): string
    requires Printable(route)
  {
    var query := if route.area.Status? then "" else PrintQuery(RouteParams(route));
    if query == "" then "" else "?" + query
  }

  /** The URL of a route, part by part. */
  lemma UrlParts(route: Route)
    requires Printable(route)
    ensures Pathname(route) == "/admin/" + AreaName(route.area) + if route.selected == "" then "" else "/" + EncodePath(route.selected)
    ensures Search(route) == if route.area.Status? || RouteParams(route) == [] then "" else "?" + PrintQuery(RouteParams(route))
  {
    assert ROOT + "/" == "/admin/";
    if RouteParams(route) != [] {
      PrintedStart(RouteParams(route));
    }
  }

  method SetIf(params: Params, given: bool, name: string, value: string) returns (more: Params)
    ensures more == params + Param(given, name, value)
  {
    more := params;
    if given {
      more := more + [(name, value)];
    }
  }

  method SetParams(route: Route) returns (params: Params)
    ensures params == RouteParams(route)
  {
    params := Param(route.q != "", "q", route.q);
    params := SetIf(params, route.area.Users? && route.tenant != "", "tenant", route.tenant);
    params := SetIf(params, route.enabled != "", "enabled", route.enabled);
    params := SetIf(params, route.offset != 0, "offset", Decimal(route.offset));
    params := SetIf(params, route.area.Users? && route.selected != "" && route.sessionOffset != 0,
                    "session_offset", Decimal(route.sessionOffset));
    params := SetIf(params, route.creating && route.selected == "", "action", "create");
  }

  method RouteURL(route: Route) returns (url: string)
    requires Printable(route)
    ensures url == Pathname(route) + Search(route)
  {
    var params := SetParams(route);
    var query := if !route.area.Status? then PrintQuery(params) else "";
    url := ROOT + "/" + AreaName(route.area) +
           (if route.selected != "" then "/" + EncodePath(route.selected) else "") +
           (if query != "" then "?" + query else "");
  }

  // ---- the routes there are --------------------------------------------------

  /** What reading can yield. */
  predicate Normal(route: Route) {
    && '/' !in route.selected
    && Trimmed(route.q, WHITESPACE)
    && Trimmed(route.tenant, WHITESPACE) && Lower(route.tenant) == route.tenant
    && (route.area.Users? || route.tenant == "")
    && (route.enabled == "" || route.enabled == "true" || route.enabled == "false")
    && route.offset <= LIMIT && route.sessionOffset <= LIMIT
    && (route.creating ==> route.selected == "")
    && (route.sessionOffset != 0 ==> route.area.Users? && route.selected != "")
    && (route.area.Status? ==> route == DefaultRoute(Status))
  }

  // ---- the path ------------------------------------------------------------

  lemma AreaRead(area: Area)
    ensures AreaOf(AreaName(area)) == Some(area) && '/' !in AreaName(area) && AreaName(area) != "" && '?' !in AreaName(area)
  {
  }

  lemma JoinTwo(a: string, b: string)
    ensures Join(["", a], '/') == "/" + a
    ensures Join(["", a, b], '/') == "/" + a + "/" + b
  {
    assert ["", a][1..] == [a];
    assert ["", a, b][1..] == [a, b];
    assert [a, b][1..] == [b];
    assert Join([a, b], '/') == a + ['/'] + b;
  }

  /** The segments of a printed path are the area and the encoded selection. */
  lemma SegmentsOfPathname(route: Route)
    requires Bytes(route.selected)
    ensures InAdmin(Pathname(route))
    ensures Segments(Pathname(route)) ==
            [AreaName(route.area)] + if route.selected != "" then [EncodePath(route.selected)] else []
  {
    AreaRead(route.area);
    EncodedPathIsPlain(route.selected, '/');
    if route.selected == "" {
      PathSplits(AreaName(route.area), Pathname(route));
    } else {
      SelectionSplits(AreaName(route.area), EncodePath(route.selected), Pathname(route));
    }
  }

  lemma PathSplits(area: string, path: string)
    requires area != "" && '/' !in area && path == ROOT + "/" + area
    ensures InAdmin(path) && Segments(path) == [area]
  {
    JoinTwo(area, "");
    assert path[|ROOT|..] == Join(["", area], '/');
    SplitJoin(["", area], '/');
    SegmentsKept(area, "");
  }

  lemma SelectionSplits(area: string, selected: string, path: string)
    requires area != "" && '/' !in area && selected != "" && '/' !in selected
    requires path == ROOT + "/" + area + ("/" + selected)
    ensures InAdmin(path) && Segments(path) == [area, selected]
  {
    JoinTwo(area, selected);
    assert path[|ROOT|..] == Join(["", area, selected], '/');
    SplitJoin(["", area, selected], '/');
    SegmentsKept(area, selected);
  }

  lemma EncodedPathIsPlain(s: string, c: char)
    requires Bytes(s) && !SafeInPath(c) && c != '%'
    ensures c !in EncodePath(s)
    ensures s != "" ==> EncodePath(s) != ""
  {
  }

  lemma SegmentsKept(area: string, selected: string)
    requires area != ""
    ensures NonEmpty(["", area]) == [area]
    ensures selected != "" ==> NonEmpty(["", area, selected]) == [area, selected]
  {
    assert ["", area][1..] == [area];
    assert NonEmpty([area]) == [area] + NonEmpty([]);
    assert ["", area, selected][1..] == [area, selected];
    assert [area, selected][1..] == [selected];
    assert NonEmpty([selected]) == (if selected == "" then [] else [selected]) + NonEmpty([]);
  }

  lemma ReadPathname(route: Route)
    requires Bytes(route.selected) && '/' !in route.selected && (route.area.Status? ==> route.selected == "")
    ensures ReadPath(Pathname(route)) == Some((route.area, route.selected))
  {
    SegmentsOfPathname(route);
    AreaRead(route.area);
    DecodeEncodePath(route.selected);
    assert DecodePath("") == Some("");
  }

  // ---- the query -----------------------------------------------------------

  function ParamAt(given: bool, value: string): Option<string> {
    if given then Some(value) else None
  }

  lemma GetParam(given: bool, name: string, value: string, asked: string)
    ensures Get(Param(given, name, value), asked) == ParamAt(given && name == asked, value)
  {
  }

  function Either(a: Option<string>, b: Option<string>): Option<string> {
    if a.Some? then a else b
  }

  lemma GetOfSix(a: Params, b: Params, c: Params, d: Params, e: Params, f: Params, asked: string)
    ensures Get(a + b + c + d + e + f, asked) ==
            Either(Either(Either(Either(Either(Get(a, asked), Get(b, asked)), Get(c, asked)), Get(d, asked)), Get(e, asked)), Get(f, asked))
  {
    GetOfThree(a, b, c, asked);
    GetOfThree(a + b + c, d, e, asked);
    GetOfConcat(a + b + c + d + e, f, asked);
  }

  lemma GetOfThree(a: Params, b: Params, c: Params, asked: string)
    ensures Get(a + b + c, asked) == Either(Either(Get(a, asked), Get(b, asked)), Get(c, asked))
  {
    GetOfConcat(a, b, asked);
    GetOfConcat(a + b, c, asked);
  }

  /** The value printed under a name, if any: the names are distinct, so at most one case applies. */
  lemma GetOfRoute(route: Route, asked: string)
    ensures Get(RouteParams(route), asked) ==
            Either(Either(Either(Either(Either(
              ParamAt(route.q != "" && "q" == asked, route.q),
              ParamAt(route.area.Users? && route.tenant != "" && "tenant" == asked, route.tenant)),
              ParamAt(route.enabled != "" && "enabled" == asked, route.enabled)),
              ParamAt(route.offset != 0 && "offset" == asked, Decimal(route.offset))),
              ParamAt(route.area.Users? && route.selected != "" && route.sessionOffset != 0 && "session_offset" == asked,
                      Decimal(route.sessionOffset))),
              ParamAt(route.creating && route.selected == "" && "action" == asked, "create"))
  {
    var q := Param(route.q != "", "q", route.q);
    var tenant := Param(route.area.Users? && route.tenant != "", "tenant", route.tenant);
    var enabled := Param(route.enabled != "", "enabled", route.enabled);
    var offset := Param(route.offset != 0, "offset", Decimal(route.offset));
    var action := Param(route.creating && route.selected == "", "action", "create");
    GetOfSix(q, tenant, enabled, offset, SessionParam(route), action, asked);
    GetParam(route.q != "", "q", route.q, asked);
    GetParam(route.area.Users? && route.tenant != "", "tenant", route.tenant, asked);
    GetParam(route.enabled != "", "enabled", route.enabled, asked);
    GetParam(route.offset != 0, "offset", Decimal(route.offset), asked);
    GetParam(route.area.Users? && route.selected != "" && route.sessionOffset != 0, "session_offset", Decimal(route.sessionOffset), asked);
    GetParam(route.creating && route.selected == "", "action", "create", asked);
  }

  lemma PageRead(route: Route)
    requires Normal(route)
    ensures PageOffset(RouteParams(route), "offset") == route.offset
    ensures PageOffset(RouteParams(route), "session_offset") == route.sessionOffset
  {
    GetOfRoute(route, "offset");
    GetOfRoute(route, "session_offset");
    ValueOfDecimal(route.offset);
    ValueOfDecimal(route.sessionOffset);
  }

  lemma ReadParams(route: Route)
    requires Normal(route) && !route.area.Status?
    ensures RouteOf(route.area, route.selected, RouteParams(route)) == route
  {
    GetOfRoute(route, "q");
    GetOfRoute(route, "tenant");
    GetOfRoute(route, "enabled");
    GetOfRoute(route, "action");
    PageRead(route);
    TrimmedStays(route.q, WHITESPACE);
    TrimmedStays(route.tenant, WHITESPACE);
    assert Trim("", WHITESPACE) == "" && Lower("") == "";
  }

  /** Print and read back: every normal route survives its URL. */
  lemma ReadPrinted(route: Route)
    requires Normal(route) && Printable(route)
    ensures Read(Pathname(route), Search(route)) == Some(route)
  {
    ReadPathname(route);
    if !route.area.Status? {
      var params := RouteParams(route);
      ParsePrintQuery(params);
      ReadParams(route);
    }
  }

  /** The URL splits into that path and that query at its first question mark. */
  lemma UrlSplits(route: Route)
    requires Printable(route)
    ensures '?' !in Pathname(route)
    ensures Search(route) == "" || Search(route)[0] == '?'
  {
    AreaRead(route.area);
    EncodedPathIsPlain(route.selected, '?');
  }

  // ---- reading yields normal, printable routes --------------------------------

  lemma LowerTrims(s: string)
    requires Trimmed(s, WHITESPACE)
    ensures Trimmed(Lower(s), WHITESPACE)
  {
  }

  lemma LowerBytes(s: string)
    requires Bytes(s)
    ensures Bytes(Lower(s))
  {
  }

  lemma {:induction false} TrimLeftBytes(s: string)
    requires Bytes(s)
    ensures Bytes(TrimLeft(s, WHITESPACE))
  {
    if s != "" && s[0] in WHITESPACE {
      TrimLeftBytes(s[1..]);
    }
  }

  lemma TrimBytes(s: string)
    requires Bytes(s)
    ensures Bytes(Trim(s, WHITESPACE))
  {
    TrimLeftBytes(s);
    TrimRightEnds(TrimLeft(s, WHITESPACE), WHITESPACE);
  }

  lemma DecimalBytes(n: nat)
    ensures Bytes(Decimal(n))
  {
  }

  lemma SelectedBytes(pathname: string)
    requires Bytes(pathname) && ReadPath(pathname).Some?
    ensures Bytes(ReadPath(pathname).value.1)
  {
    var parts := Split(pathname[|ROOT|..], '/');
    PiecesBytes(pathname[|ROOT|..], '/');
    NonEmptyBytes(parts);
    var segments := Segments(pathname);
    if |segments| > 1 {
      DecodePathBytes(segments[1]);
    }
  }

  lemma {:induction false} NonEmptyBytes(parts: seq<string>)
    requires forall i :: 0 <= i < |parts| ==> Bytes(parts[i])
    ensures forall i :: 0 <= i < |NonEmpty(parts)| ==> Bytes(NonEmpty(parts)[i])
  {
    if parts != [] {
      NonEmptyBytes(parts[1..]);
    }
  }

  lemma ReadIsNormal(pathname: string, search: string)
    requires Read(pathname, search).Some?
    ensures Normal(Read(pathname, search).value)
  {
    var params := ParseQuery(search);
    TrimIsTrimmed(Value(params, "q"), WHITESPACE);
    TrimIsTrimmed(Value(params, "tenant"), WHITESPACE);
    LowerTrims(Trim(Value(params, "tenant"), WHITESPACE));
    LowerStays(Trim(Value(params, "tenant"), WHITESPACE));
  }

  lemma ConcatBytes(a: Params, b: Params)
    requires ParamsBytes(a) && ParamsBytes(b)
    ensures ParamsBytes(a + b)
  {
  }

  lemma RouteParamsBytes(route: Route)
    requires Bytes(route.q) && Bytes(route.tenant) && Bytes(route.enabled)
    ensures ParamsBytes(RouteParams(route))
  {
    var q := Param(route.q != "", "q", route.q);
    var tenant := Param(route.area.Users? && route.tenant != "", "tenant", route.tenant);
    var enabled := Param(route.enabled != "", "enabled", route.enabled);
    DecimalBytes(route.offset);
    DecimalBytes(route.sessionOffset);
    var offset := Param(route.offset != 0, "offset", Decimal(route.offset));
    var action := Param(route.creating && route.selected == "", "action", "create");
    ConcatBytes(q, tenant);
    ConcatBytes(q + tenant, enabled);
    ConcatBytes(q + tenant + enabled, offset);
    ConcatBytes(q + tenant + enabled + offset, SessionParam(route));
    ConcatBytes(q + tenant + enabled + offset + SessionParam(route), action);
  }

  lemma ValueBytes(search: string, name: string)
    requires Bytes(search)
    ensures var value := Value(ParseQuery(search), name);
            Bytes(value) && Bytes(Trim(value, WHITESPACE)) && Bytes(Lower(Trim(value, WHITESPACE)))
  {
    ParsedBytes(search, name);
    TrimBytes(Value(ParseQuery(search), name));
    LowerBytes(Trim(Value(ParseQuery(search), name), WHITESPACE));
  }

  lemma RouteOfBytes(area: Area, selected: string, search: string)
    requires Bytes(search)
    ensures var route := RouteOf(area, selected, ParseQuery(search));
            Bytes(route.q) && Bytes(route.tenant) && Bytes(route.enabled) && route.selected == selected
  {
    ValueBytes(search, "q");
    ValueBytes(search, "tenant");
    ValueBytes(search, "enabled");
  }

  lemma ReadIsPrintable(pathname: string, search: string)
    requires Bytes(pathname) && Bytes(search) && Read(pathname, search).Some?
    ensures Printable(Read(pathname, search).value)
  {
    SelectedBytes(pathname);
    var path := ReadPath(pathname).value;
    RouteOfBytes(path.0, path.1, search);
    RouteParamsBytes(Read(pathname, search).value);
  }

  /** Reading, printing and reading again gives the same route, for every path and query that select one. */
  lemma ReadPrintRead(pathname: string, search: string)
    requires Bytes(pathname) && Bytes(search) && Read(pathname, search).Some?
    ensures var route := Read(pathname, search).value;
            Printable(route) && Read(Pathname(route), Search(route)) == Some(route)
  {
    ReadIsNormal(pathname, search);
    ReadIsPrintable(pathname, search);
    ReadPrinted(Read(pathname, search).value);
  }

  /** The routes that some URL selects are exactly the normal ones. */
  lemma ReadableIsNormal(route: Route)
    requires Printable(route)
    ensures Normal(route) <==> exists pathname, search :: Read(pathname, search) == Some(route)
  {
    if Normal(route) {
      ReadPrinted(route);
    }
    if exists pathname, search :: Read(pathname, search) == Some(route) {
      var pathname, search :| Read(pathname, search) == Some(route);
      ReadIsNormal(pathname, search);
    }
  }
}
