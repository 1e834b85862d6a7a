/**
 * Row-level access control: a user's profile (an admin flag and an ordered
 * list of location names) and the resolution of the locations a report
 * request asks for into the list the report actually filters by.
 */
module Access {
  import opened Seqs

  /** The `UserProfile` record; reports only read it. */
  datatype UserProfile = UserProfile(isAdmin: bool, allowedLocations: seq<string>)

  /** `UserProfile.can_access_location`. */
  function CanAccessLocation(p: UserProfile, location: string): (r: bool)
    ensures p.isAdmin ==> r
    ensures !p.isAdmin ==> (r <==> location in p.allowedLocations)
  {
    if p.isAdmin then true else location in p.allowedLocations
  }

  /** `UserProfile.get_allowed_locations`: an admin gets `[]`, which means "all locations". */
  function GetAllowedLocations(p: UserProfile): (r: seq<string>)
    ensures p.isAdmin ==> r == []
    ensures !p.isAdmin ==> r == p.allowedLocations
  {
    if p.isAdmin then [] else p.allowedLocations
  }

  /** For a non-admin the two profile methods agree on every location. */
  lemma CanAccessIffAllowed(p: UserProfile, location: string)
    requires !p.isAdmin
    ensures CanAccessLocation(p, location) <==> location in GetAllowedLocations(p)
  {
  }

  /**
   * For an admin the empty allowed list is the "unrestricted" marker: every
   * location is accessible although none is listed.
   */
  lemma AdminEmptyMeansAll(p: UserProfile, location: string)
    requires p.isAdmin
    ensures GetAllowedLocations(p) == [] && location !in GetAllowedLocations(p)
    ensures CanAccessLocation(p, location)
  {
  }

  /** The sentinel the location selector sends for "every location". */
  const AllSentinel: string := "all"

  /** What the report header shows (`selected_un`). */
  datatype Display = AllLocations | Single(name: string) | Multiple

  datatype Resolution =
    | Forbidden
    | Resolved(locations: seq<string>, denied: set<string>, display: Display)

  function InAllowed(allowed: seq<string>): string -> bool {
    loc => loc in allowed
  }

  /**
   * The location-resolution block shared by the dashboard, the location
   * export, employee analytics and insights.  `denied` is the set named in
   * the advisory warning (empty when no warning is issued).  An empty
   * `locations` in a `Resolved` answer means "no location filter".
   */
  function ResolveLocations(p: UserProfile, requested: seq<string>): (r: Resolution)
    ensures p.isAdmin ==> r.Resolved? && r.denied == {}
    ensures r.Resolved? ==> (r.display == AllLocations <==> r.locations == [])
    ensures r.Resolved? && |r.locations| == 1 ==> r.display == Single(r.locations[0])
    ensures r.Resolved? ==> (r.display == Multiple <==> |r.locations| > 1)
  {
    var allowed := GetAllowedLocations(p);
    var (selected, denied) :=
      if p.isAdmin then (requested, {})
      else if requested == [] || AllSentinel in requested then (allowed, {})
      else
        var unauthorized := set l | l in requested && l !in allowed;
        var kept := if unauthorized != {} then Filter(requested, InAllowed(allowed)) else requested;
        (if kept == [] then allowed else kept, unauthorized);
    if selected == [] && !p.isAdmin then Forbidden
    else if p.isAdmin && (selected == [] || AllSentinel in requested) then
      Resolved([], denied, AllLocations)
    else
      Resolved(selected, denied, if |selected| == 1 then Single(selected[0]) else Multiple)
  }

  /** A non-admin is refused exactly when their allowed list is empty, whatever they ask for. */
  lemma ForbiddenIffNoAllowedLocations(p: UserProfile, requested: seq<string>)
    ensures ResolveLocations(p, requested).Forbidden? <==> !p.isAdmin && p.allowedLocations == []
  {
    if !p.isAdmin && requested != [] && AllSentinel !in requested {
      var allowed := p.allowedLocations;
      var unauthorized := set l | l in requested && l !in allowed;
      if allowed == [] {
        assert requested[0] in unauthorized;
      }
      var kept := Filter(requested, InAllowed(allowed));
      if kept != [] {
        assert kept[0] in kept;
      }
    }
  }

  /** A non-admin's resolved list is never empty and never leaves their allowed list. */
  lemma NonAdminStaysWithinAllowed(p: UserProfile, requested: seq<string>)
    requires !p.isAdmin
    ensures ResolveLocations(p, requested).Resolved? ==>
      ResolveLocations(p, requested).locations != [] &&
      forall l :: l in ResolveLocations(p, requested).locations ==> l in p.allowedLocations
  {
    var allowed := p.allowedLocations;
    var unauthorized := set l | l in requested && l !in allowed;
    if unauthorized == {} {
      EveryRequestedAllowed(requested, allowed);
    }
  }

  lemma EveryRequestedAllowed(requested: seq<string>, allowed: seq<string>)
    requires (set l | l in requested && l !in allowed) == {}
    ensures forall l :: l in requested ==> l in allowed
  {
    var unauthorized := set x | x in requested && x !in allowed;
    forall l | l in requested ensures l in allowed {
      assert l !in unauthorized;
    }
  }

  /** An empty request or one containing "all" gives a non-admin their whole allowed list. */
  lemma NonAdminAllGivesAllowed(p: UserProfile, requested: seq<string>)
    requires !p.isAdmin && p.allowedLocations != []
    requires requested == [] || AllSentinel in requested
    ensures ResolveLocations(p, requested) ==
      Resolved(p.allowedLocations, {},
        if |p.allowedLocations| == 1 then Single(p.allowedLocations[0]) else Multiple)
  {
  }

  /**
   * A specific non-admin request: unauthorised names are dropped (order and
   * repeats of the rest kept) and named in the warning; when nothing
   * authorised survives the whole allowed list is used instead, and the
   * request is not refused.
   */
  lemma NonAdminSpecificRequest(p: UserProfile, requested: seq<string>)
    requires !p.isAdmin && p.allowedLocations != []
    requires requested != [] && AllSentinel !in requested
    ensures var r := ResolveLocations(p, requested);
      var kept := Filter(requested, InAllowed(p.allowedLocations));
      r.Resolved? &&
      r.denied == (set l | l in requested && l !in p.allowedLocations) &&
      r.locations == (if kept == [] then p.allowedLocations else kept)
  {
    var allowed := p.allowedLocations;
    var unauthorized := set l | l in requested && l !in allowed;
    if unauthorized == {} {
      EveryRequestedAllowed(requested, allowed);
      KeepAllWhenAllAllowed(requested, allowed);
    }
  }

  lemma {:induction false} KeepAllWhenAllAllowed(s: seq<string>, allowed: seq<string>)
    requires forall l :: l in s ==> l in allowed
    ensures Filter(s, InAllowed(allowed)) == s
  {
    if s != [] {
      KeepAllWhenAllAllowed(s[1..], allowed);
      assert s == [s[0]] + s[1..];
    }
  }

  /** An admin's request is kept verbatim unless it is empty or mentions "all" anywhere. */
  lemma AdminResolution(p: UserProfile, requested: seq<string>)
    requires p.isAdmin
    ensures var r := ResolveLocations(p, requested);
      r.Resolved? && r.denied == {} &&
      (r.locations == if requested == [] || AllSentinel in requested then [] else requested)
  {
  }

  // ------------------------------------------------ single-location variant

  datatype GeoResolution = GeoForbidden | Geo(location: string, warned: bool)

  /**
   * The plan page's single-location resolution, as written: a non-admin who
   * names a location outside an EMPTY allowed list falls through to `'all'`,
   * i.e. no location filter at all.
   */
  function ResolveGeoAsWritten(p: UserProfile, selected: string): (r: GeoResolution)
    ensures p.isAdmin ==> r == Geo(selected, false)
  {
    var allowed := GetAllowedLocations(p);
    if p.isAdmin then Geo(selected, false)
    else if selected == AllSentinel then
      (if allowed != [] then Geo(allowed[0], false) else GeoForbidden)
    else if selected !in allowed then
      Geo(if allowed != [] then allowed[0] else AllSentinel, true)
    else Geo(selected, false)
  }

  /** The as-written resolution hands a user with no locations the unrestricted view. */
  lemma GeoAsWrittenLeaksAll()
    ensures ResolveGeoAsWritten(UserProfile(false, []), "X") == Geo(AllSentinel, true)
  {
  }

  /** The evidently intended resolution: no allowed location means no access. */
  function ResolveGeo(p: UserProfile, selected: string): (r: GeoResolution)
    ensures p.isAdmin ==> r == Geo(selected, false)
    ensures r.Geo? && r.warned ==> selected !in p.allowedLocations
    ensures !p.isAdmin && selected != AllSentinel && selected in p.allowedLocations ==> r == Geo(selected, false)
  {
    var allowed := GetAllowedLocations(p);
    if p.isAdmin then Geo(selected, false)
    else if allowed == [] then GeoForbidden
    else if selected == AllSentinel then Geo(allowed[0], false)
    else if selected !in allowed then Geo(allowed[0], true)
    else Geo(selected, false)
  }

  /**
   * A non-admin is refused iff they have no location, and is otherwise always
   * shown one of their own locations; it differs from the as-written version
   * only for users with no allowed location.
   */
  lemma ResolveGeoSound(p: UserProfile, selected: string)
    ensures !p.isAdmin ==>
      (ResolveGeo(p, selected).GeoForbidden? <==> p.allowedLocations == []) &&
      (ResolveGeo(p, selected).Geo? ==> ResolveGeo(p, selected).location in p.allowedLocations)
    ensures p.isAdmin || p.allowedLocations != [] ==>
      ResolveGeo(p, selected) == ResolveGeoAsWritten(p, selected)
  {
  }
}
