/**
 * The score server's in-memory state and its endpoints: the table of match
 * records, the live timer loops, the sockets subscribed to each match, the
 * per-match graphics settings, and the messages the server has pushed.
 */
module Server {
  import opened Wrappers
  import opened MatchModel
  import opened Settings

  /** A subscribed WebSocket; only its identity matters. */
  datatype Socket = Socket(id: nat)

  /** The `changed` detail attached to an event. */
  datatype Change =
    | SetupChange
    | ScoreChange(team: Team, delta: int)
    | MatchScoreChange(matchTeam: Team, matchDelta: int)
    | ResetChange
    | TimerChange(seconds: int)
    | PeriodChange(period: int)

  datatype Message =
    | Event(kind: string, state: MatchState, changed: Option<Change>)
    | GfxSettingsMessage(settings: Json)

  /** One push: the message and the sockets whose send succeeded. */
  datatype Outgoing = Outgoing(deliveredTo: set<Socket>, message: Message)

  /** An endpoint's answer: the record after the change, or the fields that failed validation. */
  datatype Response = Ok(state: MatchState) | Unprocessable(errors: seq<string>)

  // ---------------------------------------------------------------------------
  // Subscriber sets
  // ---------------------------------------------------------------------------

  type Connections = map<string, set<Socket>>

  /** The subscribers of `id`; a missing entry reads as empty. */
  function Subscribers(c: Connections, id: string): set<Socket>
  {
    if id in c then c[id] else {}
  }

  /** Accepting a socket adds it to the match's set, creating the entry if needed. */
  function Connected(c: Connections, id: string, ws: Socket): (r: Connections)
    ensures r.Keys == c.Keys + {id}
    ensures r[id] == Subscribers(c, id) + {ws}
    ensures forall other | other in c && other != id :: r[other] == c[other]
  {
    c[id := Subscribers(c, id) + {ws}]
  }

  /** The cleanup when a socket goes away: the socket leaves the set and an emptied entry is deleted. */
  function Disconnected(c: Connections, id: string, ws: Socket): (r: Connections)
    ensures ws !in Subscribers(r, id)
    ensures Subscribers(r, id) == Subscribers(c, id) - {ws}
    ensures id in r <==> Subscribers(c, id) - {ws} != {}
    ensures forall other | other != id :: (other in r <==> other in c)
    ensures forall other | other in c && other != id :: r[other] == c[other]
  {
    var rest := Subscribers(c, id) - {ws};
    if rest == {} then c - {id} else c[id := rest]
  }

  /**
   * The cleanup after a broadcast: the sockets whose send failed leave the
   * set. A broadcast to a match with no entry changes nothing, and an entry
   * emptied here is kept.
   */
  function AfterBroadcast(c: Connections, id: string, failed: set<Socket>): (r: Connections)
    ensures r.Keys == c.Keys
    ensures id in c ==> r[id] == c[id] - failed
    ensures forall other | other in c && other != id :: r[other] == c[other]
  {
    if id in c then c[id := c[id] - failed] else c
  }

  /** What a broadcast pushes: nothing when the match has no entry. */
  function Delivery(c: Connections, id: string, failed: set<Socket>, m: Message): (out: seq<Outgoing>)
    ensures |out| <= 1
    ensures out != [] <==> id in c
    ensures out != [] ==> out[0].message == m && out[0].deliveredTo !! failed
  {
    if id in c then [Outgoing(c[id] - failed, m)] else []
  }

  /** A socket that connects and then disconnects leaves the subscriber table as it found it. */
  lemma ConnectThenDisconnect(c: Connections, id: string, ws: Socket)
    requires ws !in Subscribers(c, id)
    requires id in c ==> c[id] != {}
    ensures Disconnected(Connected(c, id, ws), id, ws) == c
  {
    var r := Disconnected(Connected(c, id, ws), id, ws);
    assert Subscribers(c, id) + {ws} - {ws} == Subscribers(c, id);
    if id in c {
      assert r == c[id := c[id]];
    } else {
      assert r == c;
    }
  }

  // ---------------------------------------------------------------------------
  // Background upload
  // ---------------------------------------------------------------------------

  const BackgroundKeys: seq<string> := ["type", "imageUrl", "imageSize", "imageOpacity", "imagePositionX", "imagePositionY"]

  /** The content type of the upload, `image/png` when absent or empty. */
  function MimeOrDefault(contentType: Option<string>): (m: string)
    ensures m != []
    ensures contentType.Some? && contentType.value != [] ==> m == contentType.value
  {
    if contentType.Some? && contentType.value != [] then contentType.value else "image/png"
  }

  /** The data URL stored for an upload; the base64 text is taken as given. */
  function DataUrl(contentType: Option<string>, base64: string): string
  {
    "data:" + MimeOrDefault(contentType) + ";base64," + base64
  }

  /** An object under `key` in `j`: the existing value, or a fresh empty object when the key is missing. */
  function Child(j: Json, key: string): Json
    requires j.JObj?
  {
    if key in j.fields then j.fields[key] else JObj(map[])
  }

  /** The value the upload writes under each of the six keys. */
  function BackgroundValue(key: string, url: string): Json
  {
    if key == "type" then JStr("image")
    else if key == "imageUrl" then JStr(url)
    else if key == "imageSize" then JStr("cover")
    else if key == "imageOpacity" then JInt(100)
    else JStr("center")
  }

  /**
   * The settings after an upload: `backgrounds` and `backgrounds.container`
   * are created when missing and the six image keys are written into the
   * container. `None` when either of the two already holds something that is
   * not an object, which makes the request fail.
   */
  function UploadedSettings(entry: Json, url: string): (r: Option<Json>)
    requires entry.JObj?
    ensures r.Some? <==> Child(entry, "backgrounds").JObj? && Child(Child(entry, "backgrounds"), "container").JObj?
    ensures r.Some? ==> r.value.JObj? && "backgrounds" in r.value.fields
    ensures r.Some? ==> forall k | k != "backgrounds" :: (k in r.value.fields <==> k in entry.fields)
    ensures r.Some? ==> forall k | k != "backgrounds" && k in entry.fields :: r.value.fields[k] == entry.fields[k]
  {
    var bg := Child(entry, "backgrounds");
    if !bg.JObj? then None
    else
      var c := Child(bg, "container");
      if !c.JObj? then None
      else
        var written := c.fields["type" := BackgroundValue("type", url)]["imageUrl" := BackgroundValue("imageUrl", url)]
                         ["imageSize" := BackgroundValue("imageSize", url)]["imageOpacity" := BackgroundValue("imageOpacity", url)]
                         ["imagePositionX" := BackgroundValue("imagePositionX", url)]["imagePositionY" := BackgroundValue("imagePositionY", url)];
        Some(JObj(entry.fields["backgrounds" := JObj(bg.fields["container" := JObj(written)])]))
  }

  /** Following a three-key path is three single steps. */
  lemma LookupThree(j: Json, a: string, b: string, c: string)
    ensures Lookup(j, [a, b, c]) ==
      if j.JObj? && a in j.fields then Lookup(j.fields[a], [b, c]) else None
    ensures Lookup(j, [b, c]) ==
      if j.JObj? && b in j.fields then Lookup(j.fields[b], [c]) else None
    ensures Lookup(j, [c]) == if j.JObj? && c in j.fields then Some(j.fields[c]) else None
  {
    assert [a, b, c][1..] == [b, c];
    assert [b, c][1..] == [c];
    assert [c][1..] == [];
  }

  /** After an upload each of the six image keys of `backgrounds.container` holds its new value. */
  lemma UploadWritesImage(entry: Json, url: string, key: string)
    requires entry.JObj? && UploadedSettings(entry, url).Some? && key in BackgroundKeys
    ensures Lookup(UploadedSettings(entry, url).value, ["backgrounds", "container", key]) == Some(BackgroundValue(key, url))
  {
    var r := UploadedSettings(entry, url).value;
    LookupThree(r, "backgrounds", "container", key);
    LookupThree(r.fields["backgrounds"], "container", key, key);
    LookupThree(r.fields["backgrounds"].fields["container"], key, key, key);
  }

  /** An upload keeps every other key under `backgrounds` and every other key of the container. */
  lemma UploadKeepsNeighbours(entry: Json, url: string, k: string)
    requires entry.JObj? && UploadedSettings(entry, url).Some?
    ensures k != "container" ==>
      Lookup(UploadedSettings(entry, url).value, ["backgrounds", k]) == Lookup(entry, ["backgrounds", k])
    ensures k !in BackgroundKeys ==>
      Lookup(UploadedSettings(entry, url).value, ["backgrounds", "container", k]) == Lookup(entry, ["backgrounds", "container", k])
  {
    var r := UploadedSettings(entry, url).value;
    LookupThree(r, "backgrounds", "container", k);
    LookupThree(entry, "backgrounds", "container", k);
    LookupThree(r, "backgrounds", k, k);
    LookupThree(entry, "backgrounds", k, k);
    var bg := Child(entry, "backgrounds");
    var rbg := r.fields["backgrounds"];
    LookupThree(rbg, "container", k, k);
    LookupThree(bg, "container", k, k);
    LookupThree(rbg, k, k, k);
    LookupThree(bg, k, k, k);
    var c := Child(bg, "container");
    LookupThree(rbg.fields["container"], k, k, k);
    LookupThree(c, k, k, k);
  }

  // ---------------------------------------------------------------------------
  // The server
  // ---------------------------------------------------------------------------

  class ScoreServer {
    var matches: map<string, MatchState>
    /** The match ids whose timer loop is alive (a task that has not finished or been cancelled). */
    var timerTasks: set<string>
    var connections: Connections
    var gfxSettings: map<string, Json>
    /** Every message pushed so far, oldest first. */
    var sent: seq<Outgoing>

    /**
     * Every record is filed under its own id and valid, a running timer has
     * a live loop, loops exist only for known matches, and stored graphics
     * settings are objects.
     */
    ghost predicate Valid()
      reads this`matches, this`timerTasks, this`gfxSettings
    {
      && (forall id | id in matches :: matches[id].matchId == id && ValidState(matches[id]))
      && (forall id | id in matches && matches[id].timerRunning :: id in timerTasks)
      && timerTasks <= matches.Keys
      && (forall id | id in gfxSettings :: gfxSettings[id].JObj?)
    }

    constructor ()
      ensures Valid()
      ensures matches == map[] && timerTasks == {} && connections == map[] && gfxSettings == map[] && sent == []
    {
      matches := map[];
      timerTasks := {};
      connections := map[];
      gfxSettings := map[];
      sent := [];
    }

    /** `get_or_create_match`, also the `state` endpoint: a known record is returned as is, an unknown id gets a fresh one. */
    method GetOrCreateMatch(id: string) returns (s: MatchState)
      requires Valid()
      modifies this`matches
      ensures Valid()
      ensures s == Stored(old(matches), id) && matches == old(matches)[id := s]
      ensures ValidState(s) && s.matchId == id
    {
      if id !in matches {
        matches := matches[id := NewMatch(id)];
      }
      s := matches[id];
      assert matches == matches[id := s];
    }

    /** Files an updated record back into the table. */
    method Store(id: string, r: MatchState)
      requires Valid() && ValidState(r) && r.matchId == id && (r.timerRunning ==> id in timerTasks)
      modifies this`matches
      ensures Valid() && matches == old(matches)[id := r]
    {
      matches := matches[id := r];
    }

    /**
     * The send loop of a broadcast: each subscriber is sent the message in
     * turn; the ones in `failed` raise and are collected for removal.
     */
    method SendAll(subs: set<Socket>, failed: set<Socket>) returns (delivered: set<Socket>, disconnected: set<Socket>)
      ensures delivered == subs - failed && disconnected == subs * failed
    {
      var pending := subs;
      disconnected, delivered := {}, {};
      while pending != {}
        invariant pending <= subs
        invariant disconnected == (subs - pending) * failed
        invariant delivered == (subs - pending) - failed
        decreases |pending|
      {
        var ws :| ws in pending;
        if ws in failed {
          disconnected := disconnected + {ws};
        } else {
          delivered := delivered + {ws};
        }
        pending := pending - {ws};
      }
    }

    /**
     * `broadcast_event`, and the same loop in the two graphics-settings
     * endpoints: `message` is sent to every subscriber of `id`, the sockets
     * in `failed` fail their send and are dropped afterwards.
     */
    method Broadcast(id: string, message: Message, failed: set<Socket>)
      requires Valid()
      modifies this`connections, this`sent
      ensures Valid()
      ensures connections == AfterBroadcast(old(connections), id, failed)
      ensures sent == old(sent) + Delivery(old(connections), id, failed, message)
    {
      if id !in connections {
        return;
      }
      var delivered, disconnected := SendAll(connections[id], failed);
      assert connections[id] - disconnected == connections[id] - failed;
      sent := sent + [Outgoing(delivered, message)];
      connections := connections[id := connections[id] - disconnected];
    }

    /** `setup`: validated first, so a rejected body creates no record. */
    method PostSetup(id: string, body: SetupBody, failed: set<Socket>) returns (resp: Response)
      requires Valid()
      modifies this
      ensures Valid()
      ensures timerTasks == old(timerTasks) && gfxSettings == old(gfxSettings)
      ensures ValidateSetup(body).Failure? ==>
        resp == Unprocessable(ValidateSetup(body).error)
        && matches == old(matches) && connections == old(connections) && sent == old(sent)
      ensures ValidateSetup(body).Success? ==>
        var r := Setup(Stored(old(matches), id), ValidateSetup(body).value);
        && resp == Ok(r) && matches == old(matches)[id := r]
        && connections == AfterBroadcast(old(connections), id, failed)
        && sent == old(sent) + Delivery(old(connections), id, failed, Event("setup", r, Some(SetupChange)))
    {
      var v := ValidateSetup(body);
      if v.Failure? {
        return Unprocessable(v.error);
      }
      var state := Setup(Stored(matches, id), v.value);
      Store(id, state);
      Broadcast(id, Event("setup", state, Some(SetupChange)), failed);
      resp := Ok(state);
    }

    /** `score`: the chosen team's score moves by `delta`, clamped at 0. */
    method PostScore(id: string, body: ScoreBody, failed: set<Socket>) returns (resp: Response)
      requires Valid()
      modifies this
      ensures Valid()
      ensures timerTasks == old(timerTasks) && gfxSettings == old(gfxSettings)
      ensures ValidateScore(body).Failure? ==>
        resp == Unprocessable(ValidateScore(body).error)
        && matches == old(matches) && connections == old(connections) && sent == old(sent)
      ensures ValidateScore(body).Success? ==>
        var req := ValidateScore(body).value;
        var r := ScoreUpdated(Stored(old(matches), id), req.team, req.delta);
        && resp == Ok(r) && matches == old(matches)[id := r]
        && connections == AfterBroadcast(old(connections), id, failed)
        && sent == old(sent) + Delivery(old(connections), id, failed,
                                        Event("score_changed", r, Some(ScoreChange(req.team, req.delta))))
    {
      var v := ValidateScore(body);
      if v.Failure? {
        return Unprocessable(v.error);
      }
      var req := v.value;
      var state := ScoreUpdated(Stored(matches, id), req.team, req.delta);
      Store(id, state);
      Broadcast(id, Event("score_changed", state, Some(ScoreChange(req.team, req.delta))), failed);
      resp := Ok(state);
    }

    /** `reset`: scores, games, period and timer back to their start values; the timer loop is cancelled. */
    method PostReset(id: string, failed: set<Socket>) returns (resp: Response)
      requires Valid()
      modifies this
      ensures Valid()
      ensures gfxSettings == old(gfxSettings) && timerTasks == old(timerTasks) - {id}
      ensures var r := Reset(Stored(old(matches), id));
        && resp == Ok(r) && matches == old(matches)[id := r]
        && connections == AfterBroadcast(old(connections), id, failed)
        && sent == old(sent) + Delivery(old(connections), id, failed, Event("reset", r, Some(ResetChange)))
    {
      var state := Reset(Stored(matches, id));
      Store(id, state);
      timerTasks := timerTasks - {id};
      Broadcast(id, Event("reset", state, Some(ResetChange)), failed);
      resp := Ok(state);
    }

    /** `match-score`: the chosen team's games count moves by `delta`, clamped at 0. */
    method PostMatchScore(id: string, body: ScoreBody, failed: set<Socket>) returns (resp: Response)
      requires Valid()
      modifies this
      ensures Valid()
      ensures timerTasks == old(timerTasks) && gfxSettings == old(gfxSettings)
      ensures ValidateScore(body).Failure? ==>
        resp == Unprocessable(ValidateScore(body).error)
        && matches == old(matches) && connections == old(connections) && sent == old(sent)
      ensures ValidateScore(body).Success? ==>
        var req := ValidateScore(body).value;
        var r := MatchScoreUpdated(Stored(old(matches), id), req.team, req.delta);
        && resp == Ok(r) && matches == old(matches)[id := r]
        && connections == AfterBroadcast(old(connections), id, failed)
        && sent == old(sent) + Delivery(old(connections), id, failed,
                                        Event("match_score_changed", r, Some(MatchScoreChange(req.team, req.delta))))
    {
      var v := ValidateScore(body);
      if v.Failure? {
        return Unprocessable(v.error);
      }
      var req := v.value;
      var state := MatchScoreUpdated(Stored(matches, id), req.team, req.delta);
      Store(id, state);
      Broadcast(id, Event("match_score_changed", state, Some(MatchScoreChange(req.team, req.delta))), failed);
      resp := Ok(state);
    }

    /**
     * `timer/start`: a stopped timer starts and gets a live loop (the old
     * one is reused if it is still alive); a running one only has its state
     * re-sent.
     */
    method PostTimerStart(id: string, failed: set<Socket>) returns (resp: Response)
      requires Valid()
      modifies this
      ensures Valid()
      ensures gfxSettings == old(gfxSettings)
      ensures var s := Stored(old(matches), id);
        var r := TimerStarted(s);
        && resp == Ok(r) && matches == old(matches)[id := r] && r.timerRunning && id in timerTasks
        && timerTasks == (if s.timerRunning then old(timerTasks) else old(timerTasks) + {id})
        && connections == AfterBroadcast(old(connections), id, failed)
        && sent == old(sent) + Delivery(old(connections), id, failed,
                                        Event(if s.timerRunning then "state" else "timer_started", r, None))
    {
      var state := Stored(matches, id);
      assert ValidState(state) && state.matchId == id;
      if !state.timerRunning {
        state := TimerStarted(state);
        matches := matches[id := state];
        timerTasks := timerTasks + {id};
        Broadcast(id, Event("timer_started", state, None), failed);
      } else {
        assert matches == matches[id := state];
        Broadcast(id, Event("state", state, None), failed);
      }
      resp := Ok(state);
    }

    /** `timer/stop`: a running timer stops and its loop is cancelled; a stopped one is left alone and nothing is sent. */
    method PostTimerStop(id: string, failed: set<Socket>) returns (resp: Response)
      requires Valid()
      modifies this
      ensures Valid()
      ensures gfxSettings == old(gfxSettings)
      ensures var s := Stored(old(matches), id);
        var r := TimerStopped(s);
        && resp == Ok(r) && matches == old(matches)[id := r] && !r.timerRunning
        && (s.timerRunning ==>
              && timerTasks == old(timerTasks) - {id}
              && connections == AfterBroadcast(old(connections), id, failed)
              && sent == old(sent) + Delivery(old(connections), id, failed, Event("timer_stopped", r, None)))
        && (!s.timerRunning ==>
              timerTasks == old(timerTasks) && connections == old(connections) && sent == old(sent))
    {
      var state := Stored(matches, id);
      assert ValidState(state) && state.matchId == id;
      if state.timerRunning {
        state := TimerStopped(state);
        Store(id, state);
        timerTasks := timerTasks - {id};
        Broadcast(id, Event("timer_stopped", state, None), failed);
      } else {
        Store(id, state);
      }
      resp := Ok(state);
    }

    /** `timer/set`: stores the seconds, stops the timer and cancels its loop. */
    method PostTimerSet(id: string, body: TimerSetBody, failed: set<Socket>) returns (resp: Response)
      requires Valid()
      modifies this
      ensures Valid()
      ensures gfxSettings == old(gfxSettings)
      ensures ValidateTimerSet(body).Failure? ==>
        resp == Unprocessable(ValidateTimerSet(body).error) && matches == old(matches)
        && timerTasks == old(timerTasks) && connections == old(connections) && sent == old(sent)
      ensures ValidateTimerSet(body).Success? ==>
        var seconds := ValidateTimerSet(body).value;
        var r := TimerSet(Stored(old(matches), id), seconds);
        && resp == Ok(r) && matches == old(matches)[id := r] && timerTasks == old(timerTasks) - {id}
        && connections == AfterBroadcast(old(connections), id, failed)
        && sent == old(sent) + Delivery(old(connections), id, failed, Event("state", r, Some(TimerChange(seconds))))
    {
      var v := ValidateTimerSet(body);
      if v.Failure? {
        return Unprocessable(v.error);
      }
      var state := TimerSet(Stored(matches, id), v.value);
      Store(id, state);
      timerTasks := timerTasks - {id};
      Broadcast(id, Event("state", state, Some(TimerChange(v.value))), failed);
      resp := Ok(state);
    }

    /** `period/set`. */
    method PostPeriodSet(id: string, body: PeriodSetBody, failed: set<Socket>) returns (resp: Response)
      requires Valid()
      modifies this
      ensures Valid()
      ensures timerTasks == old(timerTasks) && gfxSettings == old(gfxSettings)
      ensures ValidatePeriodSet(body).Failure? ==>
        resp == Unprocessable(ValidatePeriodSet(body).error)
        && matches == old(matches) && connections == old(connections) && sent == old(sent)
      ensures ValidatePeriodSet(body).Success? ==>
        var p := ValidatePeriodSet(body).value;
        var r := PeriodSet(Stored(old(matches), id), p);
        && resp == Ok(r) && matches == old(matches)[id := r]
        && connections == AfterBroadcast(old(connections), id, failed)
        && sent == old(sent) + Delivery(old(connections), id, failed, Event("period_changed", r, Some(PeriodChange(p))))
    {
      var v := ValidatePeriodSet(body);
      if v.Failure? {
        return Unprocessable(v.error);
      }
      var state := PeriodSet(Stored(matches, id), v.value);
      Store(id, state);
      Broadcast(id, Event("period_changed", state, Some(PeriodChange(v.value))), failed);
      resp := Ok(state);
    }

    /**
     * One pass of the timer loop of `id`, after its sleep. Returns whether
     * the loop goes on; when it ends, the loop is no longer live.
     */
    method TimerTick(id: string, failed: set<Socket>) returns (continues: bool)
      requires Valid() && id in timerTasks
      modifies this
      ensures Valid()
      ensures gfxSettings == old(gfxSettings)
      ensures var s := old(matches)[id];
        && matches == old(matches)[id := Tick(s)]
        && continues == (TickKind(s) != Expired)
        && timerTasks == (if continues then old(timerTasks) else old(timerTasks) - {id})
        && (TickKind(s) == Idle ==> connections == old(connections) && sent == old(sent))
        && (TickKind(s) != Idle ==>
              && connections == AfterBroadcast(old(connections), id, failed)
              && sent == old(sent) + Delivery(old(connections), id, failed,
                   Event(if continues then "state" else "timer_stopped", Tick(s), None)))
    {
      var state := matches[id];
      match TickKind(state)
      case Idle =>
        assert matches == matches[id := Tick(state)];
        continues := true;
      case Counted =>
        state := Tick(state);
        Store(id, state);
        Broadcast(id, Event("state", state, None), failed);
        continues := true;
      case Expired =>
        state := Tick(state);
        Store(id, state);
        Broadcast(id, Event("timer_stopped", state, None), failed);
        timerTasks := timerTasks - {id};
        continues := false;
    }

    /**
     * A WebSocket is accepted: it joins the subscribers and is sent the
     * current record. When that first send fails the socket stays
     * subscribed, because the cleanup only guards the receive loop.
     */
    method Connect(id: string, ws: Socket, initialSendFails: bool) returns (s: MatchState)
      requires Valid()
      modifies this
      ensures Valid()
      ensures timerTasks == old(timerTasks) && gfxSettings == old(gfxSettings)
      ensures s == Stored(old(matches), id) && matches == old(matches)[id := s]
      ensures connections == Connected(old(connections), id, ws)
      ensures sent == old(sent) + [Outgoing(if initialSendFails then {} else {ws}, Event("state", s, None))]
    {
      connections := connections[id := Subscribers(connections, id) + {ws}];
      s := GetOrCreateMatch(id);
      sent := sent + [Outgoing(if initialSendFails then {} else {ws}, Event("state", s, None))];
    }

    /** The `finally` block of the receive loop: the socket leaves and an emptied entry is deleted. */
    method Disconnect(id: string, ws: Socket)
      modifies this`connections
      ensures connections == Disconnected(old(connections), id, ws)
    {
      if id !in connections {
        connections := connections[id := {}];
      }
      connections := connections[id := connections[id] - {ws}];
      if connections[id] == {} {
        connections := connections - {id};
      }
    }

    /** `GET gfx-settings`: the stored settings, or an empty object. */
    method GetGfxSettings(id: string) returns (j: Json)
      requires Valid()
      ensures j.JObj?
      ensures id in gfxSettings ==> j == gfxSettings[id]
      ensures id !in gfxSettings ==> j == JObj(map[])
    {
      j := if id in gfxSettings then gfxSettings[id] else JObj(map[]);
    }

    /** `POST gfx-settings`: the whole settings object is replaced and pushed to the subscribers. */
    method SetGfxSettings(id: string, settings: map<string, Json>, failed: set<Socket>)
      requires Valid()
      modifies this
      ensures Valid()
      ensures matches == old(matches) && timerTasks == old(timerTasks)
      ensures gfxSettings == old(gfxSettings)[id := JObj(settings)]
      ensures connections == AfterBroadcast(old(connections), id, failed)
      ensures sent == old(sent) + Delivery(old(connections), id, failed, GfxSettingsMessage(JObj(settings)))
    {
      gfxSettings := gfxSettings[id := JObj(settings)];
      Broadcast(id, GfxSettingsMessage(JObj(settings)), failed);
    }

    /**
     * `background-upload`: the image, already base64-encoded, is stored as a
     * data URL in `backgrounds.container`. Returns false, changing nothing,
     * when the existing settings make the nested write fail.
     */
    method UploadBackground(id: string, contentType: Option<string>, base64: string, failed: set<Socket>)
      returns (ok: bool)
      requires Valid()
      modifies this
      ensures Valid()
      ensures matches == old(matches) && timerTasks == old(timerTasks)
      ensures var entry := if id in old(gfxSettings) then old(gfxSettings)[id] else JObj(map[]);
        var u := UploadedSettings(entry, DataUrl(contentType, base64));
        && ok == u.Some?
        && (!ok ==> gfxSettings == old(gfxSettings) && connections == old(connections) && sent == old(sent))
        && (ok ==>
              && gfxSettings == old(gfxSettings)[id := u.value]
              && connections == AfterBroadcast(old(connections), id, failed)
              && sent == old(sent) + Delivery(old(connections), id, failed, GfxSettingsMessage(u.value)))
    {
      var url := DataUrl(contentType, base64);
      var entry := if id in gfxSettings then gfxSettings[id] else JObj(map[]);
      var u := UploadedSettings(entry, url);
      if u.None? {
        return false;
      }
      gfxSettings := gfxSettings[id := u.value];
      Broadcast(id, GfxSettingsMessage(u.value), failed);
      ok := true;
    }
  }
}
