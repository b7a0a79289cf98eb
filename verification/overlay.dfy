/**
 * The broadcast overlay page: which match it follows, what it shows for a
 * match record, when it animates a score, and its WebSocket reconnect
 * state. Unlike the control panel it has no connection indicator, and a
 * normal close (code 1000) does not bring it back.
 */
module Overlay {
  import opened Wrappers
  import opened MatchModel
  import opened TimerFormat
  import opened Reconnect

  const DefaultMatchId := "1"
  const NormalClosure := 1000

  /** The first value given for `key` in a query string, as `URLSearchParams.get` returns it. */
  function FirstValue(params: seq<(string, string)>, key: string): Option<string>
  {
    if params == [] then None
    else if params[0].0 == key then Some(params[0].1)
    else FirstValue(params[1..], key)
  }

  /**
   * `FirstValue` finds nothing exactly when no parameter has that key, and
   * otherwise gives the value of the earliest parameter with that key.
   */
  lemma {:induction false} FirstValueIsEarliest(params: seq<(string, string)>, key: string)
    ensures FirstValue(params, key).None? <==> forall i :: 0 <= i < |params| ==> params[i].0 != key
    ensures FirstValue(params, key).Some? ==>
      exists i :: 0 <= i < |params| && params[i] == (key, FirstValue(params, key).value)
                  && forall j :: 0 <= j < i ==> params[j].0 != key
  {
    if params != [] && params[0].0 != key {
      var rest := params[1..];
      FirstValueIsEarliest(rest, key);
      forall i | 0 < i < |params| ensures params[i] == rest[i - 1] { }
      if FirstValue(rest, key).Some? {
        var i :| 0 <= i < |rest| && rest[i] == (key, FirstValue(rest, key).value)
                 && forall j :: 0 <= j < i ==> rest[j].0 != key;
        assert params[i + 1] == rest[i];
      }
    } else if params != [] {
      assert params[0] == (key, params[0].1);
    }
  }

  /** The match the overlay follows: the `matchId` parameter, or "1" when it is absent or empty. */
  function MatchIdOf(params: seq<(string, string)>): (id: string)
    ensures id != []
    ensures FirstValue(params, "matchId").Some? && FirstValue(params, "matchId").value != [] ==>
      id == FirstValue(params, "matchId").value
    ensures FirstValue(params, "matchId").None? || FirstValue(params, "matchId").value == [] ==>
      id == DefaultMatchId
  {
    var v := FirstValue(params, "matchId");
    if v.Some? && v.value != [] then v.value else DefaultMatchId
  }

  /** What the overlay writes into its elements for one record. */
  datatype Scoreboard = Scoreboard(homeName: string, awayName: string, homeScore: int, awayScore: int,
                                   period: int, timer: string)

  /**
   * The text of each element: an empty name shows the default player name,
   * a period of 0 shows 1, and the timer is formatted as on the control page.
   */
  function Render(s: MatchState): (b: Scoreboard)
    requires s.timerSecondsRemaining >= 0
    ensures b.homeScore == s.homeScore && b.awayScore == s.awayScore
    ensures b.homeName != [] && b.awayName != [] && b.period != 0
    ensures s.homeName != [] ==> b.homeName == s.homeName
    ensures s.awayName != [] ==> b.awayName == s.awayName
    ensures s.period != 0 ==> b.period == s.period
    ensures s.homeName == [] ==> b.homeName == "Player 1"
    ensures s.awayName == [] ==> b.awayName == "Player 2"
    ensures s.period == 0 ==> b.period == 1
    ensures b.timer == FormatTimer(s.timerSecondsRemaining)
  {
    Scoreboard(if s.homeName == [] then "Player 1" else s.homeName,
               if s.awayName == [] then "Player 2" else s.awayName,
               s.homeScore, s.awayScore,
               if s.period == 0 then 1 else s.period,
               FormatTimer(s.timerSecondsRemaining))
  }

  /** The timer the overlay shows reads back, on the control page, as the seconds remaining. */
  lemma RenderedTimerReadsBack(s: MatchState)
    requires ValidState(s)
    ensures ParseTimer(Render(s).timer) == Some(s.timerSecondsRemaining)
  {
    ParseFormatRoundTrip(s.timerSecondsRemaining);
  }

  /** The overlay page's globals. */
  class OverlayClient {
    var reconnectDelay: int
    /** The base delay of the armed reconnect timeout, if one is armed. */
    var pendingReconnect: Option<int>
    var socketOpen: bool
    var currentState: Option<MatchState>

    ghost predicate Valid()
      reads this
    {
      OnLadder(reconnectDelay) && (pendingReconnect.Some? ==> OnLadder(pendingReconnect.value))
    }

    constructor ()
      ensures Valid() && reconnectDelay == InitialDelay && pendingReconnect == None
      ensures !socketOpen && currentState == None
    {
      reconnectDelay := InitialDelay;
      pendingReconnect := None;
      socketOpen := false;
      currentState := None;
    }

    /**
     * `updateUI`: a missing record changes nothing; otherwise the record
     * replaces the cached one, and a team's score is animated exactly when
     * there was a cached record whose score for that team differs.
     */
    method UpdateUI(state: Option<MatchState>) returns (homeAnimated: bool, awayAnimated: bool)
      modifies this`currentState
      ensures state.None? ==> currentState == old(currentState) && !homeAnimated && !awayAnimated
      ensures state.Some? ==> currentState == state
      ensures homeAnimated <==> state.Some? && old(currentState).Some?
                                && old(currentState).value.homeScore != state.value.homeScore
      ensures awayAnimated <==> state.Some? && old(currentState).Some?
                                && old(currentState).value.awayScore != state.value.awayScore
    {
      if state.None? {
        return false, false;
      }
      var prevState := currentState;
      currentState := state;
      homeAnimated := prevState.Some? && prevState.value.homeScore != state.value.homeScore;
      awayAnimated := prevState.Some? && prevState.value.awayScore != state.value.awayScore;
    }

    /**
     * A pushed message: its record goes through `UpdateUI`, and a
     * `score_changed` event naming a team animates that team's score even
     * when the record shows no difference.
     */
    method OnMessage(kind: string, state: Option<MatchState>, changedTeam: Option<string>)
      returns (homeAnimated: bool, awayAnimated: bool)
      modifies this`currentState
      ensures currentState == if state.Some? then state else old(currentState)
      ensures homeAnimated <==> (state.Some? &&
        ((old(currentState).Some? && old(currentState).value.homeScore != state.value.homeScore)
         || (kind == "score_changed" && changedTeam == Some("home"))))
      ensures awayAnimated <==> (state.Some? &&
        ((old(currentState).Some? && old(currentState).value.awayScore != state.value.awayScore)
         || (kind == "score_changed" && changedTeam == Some("away"))))
    {
      homeAnimated, awayAnimated := false, false;
      if state.Some? {
        homeAnimated, awayAnimated := UpdateUI(state);
        if kind == "score_changed" && changedTeam.Some? {
          if changedTeam.value == "home" {
            homeAnimated := true;
          } else if changedTeam.value == "away" {
            awayAnimated := true;
          }
        }
      }
    }

    /**
     * `onopen`: the back-off starts again from one second and the record
     * fetched over HTTP, if the fetch succeeded, is shown.
     */
    method OnOpen(fetched: Option<MatchState>)
      requires Valid()
      modifies this
      ensures Valid() && socketOpen && reconnectDelay == InitialDelay
      ensures pendingReconnect == old(pendingReconnect)
      ensures currentState == if fetched.Some? then fetched else old(currentState)
    {
      socketOpen := true;
      reconnectDelay := InitialDelay;
      var _, _ := UpdateUI(fetched);
    }

    /** Arms the reconnect timeout with the current base delay, replacing any armed one. */
    method ScheduleReconnect()
      requires Valid()
      modifies this`pendingReconnect
      ensures Valid() && pendingReconnect == Some(reconnectDelay)
    {
      pendingReconnect := Some(reconnectDelay);
    }

    /** `onclose`: a reconnect is armed unless the close was a normal closure. */
    method OnClose(code: int)
      requires Valid()
      modifies this
      ensures Valid() && !socketOpen
      ensures reconnectDelay == old(reconnectDelay) && currentState == old(currentState)
      ensures pendingReconnect == if code != NormalClosure then Some(old(reconnectDelay)) else old(pendingReconnect)
    {
      socketOpen := false;
      if code != NormalClosure {
        ScheduleReconnect();
      }
    }

    /** `connectWebSocket`: nothing when open; a reconnect is armed when creating the socket throws. */
    method ConnectWebSocket(createThrows: bool)
      requires Valid()
      modifies this
      ensures Valid() && reconnectDelay == old(reconnectDelay) && currentState == old(currentState)
      ensures socketOpen == old(socketOpen)
      ensures pendingReconnect ==
        if !old(socketOpen) && createThrows then Some(old(reconnectDelay)) else old(pendingReconnect)
    {
      if socketOpen {
        return;
      }
      if createThrows {
        ScheduleReconnect();
      }
    }

    /** The armed timeout fires: a connection attempt, then the base delay doubles up to the cap. */
    method ReconnectFired(createThrows: bool)
      requires Valid() && pendingReconnect.Some?
      modifies this
      ensures Valid()
      ensures reconnectDelay == NextDelay(old(reconnectDelay)) && reconnectDelay >= old(reconnectDelay)
      ensures currentState == old(currentState) && socketOpen == old(socketOpen)
      ensures pendingReconnect == if !old(socketOpen) && createThrows then Some(old(reconnectDelay)) else None
    {
      pendingReconnect := None;
      ConnectWebSocket(createThrows);
      NextDelayOnLadder(reconnectDelay);
      reconnectDelay := NextDelay(reconnectDelay);
    }
  }

  /** The first record the overlay receives never animates a score. */
  method FirstRecordNeverAnimates(s: MatchState) returns (homeAnimated: bool, awayAnimated: bool)
    ensures !homeAnimated && !awayAnimated
  {
    var client := new OverlayClient();
    homeAnimated, awayAnimated := client.UpdateUI(Some(s));
  }
}
