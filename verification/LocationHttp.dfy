/**
 The phone's location requests (internal/linkcore/location_http.go): which of them reach the location
 session, and what their replies say about it. The contexts and the device answer as parameters.
 */
module LocationHttp {
  import opened Common
  import opened LocationModel
  import opened LocationSessions

  datatype Verb = GET | PUT | DELETE | OtherVerb

  /** A body that is no single JSON object of known fields, or the coordinates it names. */
  datatype Body = Undecodable | Coordinates(latitude: Option<Float>, longitude: Option<Float>)

  datatype Call = Call(
    authorization: string,
    path: string,
    query: string,
    verb: Verb,
    contentLength: int,
    body: Body)

  datatype LocationState = LocationState(phase: Phase, target: Option<Coord>, tunnelActive: bool, notice: Notice)

  datatype Reply = Reply(status: nat, state: Option<LocationState>)

  /** The coordinate a body asks for, if it may be simulated. */
  function Requested(body: Body): Option<Coord> {
    if body.Coordinates? && body.latitude.Some? && body.longitude.Some?
       && ValidLocation(Coord(body.latitude.value, body.longitude.value))
    then Some(Coord(body.latitude.value, body.longitude.value))
    else None
  }

  /** Two numbers, a latitude and a longitude in degrees. */
  predicate NamesPlace(body: Body) {
    match body
    case Coordinates(Some(Finite(lat)), Some(Finite(lon))) => -90.0 <= lat <= 90.0 && -180.0 <= lon <= 180.0
    case _ => false
  }

  /** The request carries the credential, names the one resource and reaches a live host. */
  predicate Admitted(token: string, ownerDone: bool, c: Call) {
    && c.authorization == "Bearer " + token
    && c.path == "/v1/location" && c.query == ""
    && !c.verb.OtherVerb?
    && !ownerDone
  }

  /** The mutation that is accepted on the host's behalf. */
  predicate AcceptsSet(token: string, ownerDone: bool, c: Call) {
    Admitted(token, ownerDone, c) && c.verb.PUT? && Requested(c.body).Some?
  }

  predicate AcceptsClear(token: string, ownerDone: bool, c: Call) {
    Admitted(token, ownerDone, c) && c.verb.DELETE? && c.contentLength == 0
  }

  /** The refusals in the order in which they win. */
  function RefusedStatus(token: string, ownerDone: bool, c: Call): Option<nat> {
    if c.authorization != "Bearer " + token then Some(401)
    else if c.path != "/v1/location" || c.query != "" then Some(404)
    else if c.verb.OtherVerb? then Some(405)
    else if ownerDone then Some(503)
    else if (c.verb.PUT? && Requested(c.body).None?) || (c.verb.DELETE? && c.contentLength != 0) then Some(400)
    else None
  }

  /** The refused requests are those that are neither an accepted mutation nor an admitted read. */
  lemma RefusedOrAccepted(token: string, ownerDone: bool, c: Call)
    ensures RefusedStatus(token, ownerDone, c).None? <==>
            || AcceptsSet(token, ownerDone, c)
            || AcceptsClear(token, ownerDone, c)
            || (Admitted(token, ownerDone, c) && c.verb.GET?)
  {
  }

  /** The session's state as a reply shows it. */
  method Snapshot(session: LocationSession, active: bool) returns (state: LocationState)
    ensures state == LocationState(session.phase, session.target, active, session.notice)
  {
    state := LocationState(session.phase, session.target, active, session.notice);
  }

  /** locationHandler's work for one request that nobody comes between; Replies says what holds when others do. */
  method Handle(token: string, ownerDone: bool, c: Call, session: LocationSession, active: bool,
                open: OpenAnswer, outcome: Outcome) returns (reply: Reply)
    requires session.Valid() && Fresh(session.View(), open)
    modifies session
    ensures session.Valid()
    // only an accepted mutation reaches the session
    ensures session.View() ==
            var l := old(session.View());
            if AcceptsSet(token, ownerDone, c) then SetEffect(l, Requested(c.body).value, open, outcome)
            else if AcceptsClear(token, ownerDone, c) then ClearEffect(l, open, outcome)
            else l
    // the refusals, in the order in which they win
    ensures RefusedStatus(token, ownerDone, c).Some? <==> reply.state.None?
    ensures var known := c.authorization == "Bearer " + token;
            var here := known && c.path == "/v1/location" && c.query == "";
            && (reply.status == 401 <==> !known)
            && (reply.status == 404 <==> known && !here)
            && (reply.status == 405 <==> here && c.verb.OtherVerb?)
            && (reply.status == 503 <==> here && !c.verb.OtherVerb? && ownerDone)
            && (reply.status == 400 <==>
                  here && !ownerDone
                  && ((c.verb.PUT? && !NamesPlace(c.body)) || (c.verb.DELETE? && c.contentLength != 0)))
            && (reply.status == 200 || reply.status == 502 <==>
                  here && !ownerDone
                  && (c.verb.GET? || (c.verb.PUT? && NamesPlace(c.body)) || (c.verb.DELETE? && c.contentLength == 0)))
            && (c.verb.GET? ==> reply.status != 502)
    // with no other request between, the reply shows the session as this one has left it
    ensures reply.state.Some? ==>
              && reply.state.value == LocationState(session.phase, session.target, active, session.notice)
              && !reply.state.value.phase.Applying?
    // a mutation is confirmed exactly when the device acknowledged it
    ensures AcceptsSet(token, ownerDone, c) ==>
              && (reply.status == 200 <==>
                    session.phase.Live?
                    && session.target == Some(Coord(c.body.latitude.value, c.body.longitude.value)))
              && (reply.status == 502 <==> session.phase.Lost? && session.driver.None?)
              && (reply.status == 200 || reply.status == 502)
    ensures AcceptsClear(token, ownerDone, c) ==>
              && (reply.status == 200 <==> session.phase.Idle? && session.target.None?)
              && (reply.status == 502 <==> session.phase.Lost? && session.target == old(session.target))
              && (reply.status == 200 || reply.status == 502)
  {
    if c.authorization != "Bearer " + token {
      return Reply(401, None);
    }
    if c.path != "/v1/location" || c.query != "" {
      return Reply(404, None);
    }
    if !c.verb.GET? && !c.verb.PUT? && !c.verb.DELETE? {
      return Reply(405, None);
    }
    if ownerDone {
      return Reply(503, None);
    }
    var ok := true;
    if c.verb.PUT? {
      if c.body.Undecodable? || c.body.latitude.None? || c.body.longitude.None?
         || !ValidLocation(Coord(c.body.latitude.value, c.body.longitude.value)) {
        return Reply(400, None);
      }
      ok := session.Set(Coord(c.body.latitude.value, c.body.longitude.value), open, outcome);
    } else if c.verb.DELETE? {
      if c.contentLength != 0 {
        return Reply(400, None);
      }
      ok := session.Clear(open, outcome);
    }
    var state := Snapshot(session, active);
    reply := Reply(if ok then 200 else 502, Some(state));
  }
}
