/**
 * The operator's control page: the requests its buttons build from what the
 * operator typed and from the last record the server pushed, and the state
 * of its WebSocket connection with the reconnect back-off.
 */
module ControlPanel {
  import opened Wrappers
  import opened Text
  import opened MatchModel
  import opened Reconnect

  const DefaultHomePlayer := "Player 1"
  const DefaultAwayPlayer := "Player 2"

  /** JavaScript `n || d` on the result of `parseInt`: `NaN` and 0 both give `d`. */
  function OrIfFalsy(n: Option<int>, d: int): (r: int)
    ensures n.Some? && n.value != 0 ==> r == n.value
    ensures n.None? || n.value == 0 ==> r == d
  {
    if n.None? || n.value == 0 then d else n.value
  }

  /** A name field: trimmed, and the default player name when nothing is left. */
  function NameField(text: string, default: string): string
  {
    var t := Trim(text);
    if t == [] then default else t
  }

  /** Minutes and seconds fields as a number of seconds; an unreadable field counts as 0. */
  function TotalSeconds(minutesText: string, secondsText: string): int
  {
    OrIfFalsy(ParseInt(minutesText), 0) * 60 + OrIfFalsy(ParseInt(secondsText), 0)
  }

  /** The body the setup button posts. */
  function SetupPayload(homeText: string, awayText: string, periodText: string,
                        minutesText: string, secondsText: string): (b: SetupBody)
    ensures b.homeName.Some? && b.awayName.Some? && b.period.Some? && b.timerSeconds.Some?
    ensures b.homeName.value != [] && b.awayName.value != [] && b.period.value != 0
    ensures Trim(homeText) != [] ==> b.homeName.value == Trim(homeText)
    ensures Trim(homeText) == [] ==> b.homeName.value == DefaultHomePlayer
    ensures Trim(awayText) != [] ==> b.awayName.value == Trim(awayText)
    ensures Trim(awayText) == [] ==> b.awayName.value == DefaultAwayPlayer
    ensures b.period.value == OrIfFalsy(ParseInt(periodText), 1)
    ensures b.timerSeconds.value == TotalSeconds(minutesText, secondsText)
  {
    SetupBody(Some(NameField(homeText, DefaultHomePlayer)), Some(NameField(awayText, DefaultAwayPlayer)),
              Some(OrIfFalsy(ParseInt(periodText), 1)), Some(TotalSeconds(minutesText, secondsText)))
  }

  /**
   * The server accepts the setup the panel sends exactly when both trimmed
   * names fit in 50 characters, the period read from its field lies in
   * 1..20 and the minutes and seconds do not add up to a negative time.
   * Empty names never cause a rejection.
   */
  lemma SetupPayloadAccepted(homeText: string, awayText: string, periodText: string,
                             minutesText: string, secondsText: string)
    ensures var b := SetupPayload(homeText, awayText, periodText, minutesText, secondsText);
      ValidateSetup(b).Success? <==>
        && |NameField(homeText, DefaultHomePlayer)| <= MaxNameLength
        && |NameField(awayText, DefaultAwayPlayer)| <= MaxNameLength
        && ValidPeriod(OrIfFalsy(ParseInt(periodText), 1))
        && TotalSeconds(minutesText, secondsText) >= 0
  {
  }

  /** With plain digits typed into the minutes and seconds fields the timer is `minutes * 60 + seconds`. */
  lemma TimerFieldsFromDigits(minutesText: string, secondsText: string)
    requires minutesText != [] && AllDigits(minutesText)
    requires secondsText != [] && AllDigits(secondsText)
    ensures TotalSeconds(minutesText, secondsText) == DigitsValue(minutesText) * 60 + DigitsValue(secondsText)
    ensures TotalSeconds(minutesText, secondsText) >= 0
  {
  }

  /** The body the timer-set button posts. */
  function TimerSetPayload(minutesText: string, secondsText: string): (b: TimerSetBody)
    ensures b.seconds == Some(TotalSeconds(minutesText, secondsText))
    ensures ValidateTimerSet(b).Success? <==> TotalSeconds(minutesText, secondsText) >= 0
  {
    TimerSetBody(Some(TotalSeconds(minutesText, secondsText)))
  }

  // ---------------------------------------------------------------------------
  // Button guards, read against the last record the server pushed
  // ---------------------------------------------------------------------------

  /** `currentState?.homeScore || 0` and its siblings: a missing record reads as 0. */
  function CachedScore(cached: Option<MatchState>, t: Team): int
  {
    if cached.Some? then Score(cached.value, t) else 0
  }

  function CachedGames(cached: Option<MatchState>): int
  {
    if cached.Some? then cached.value.homeMatchScore else 0
  }

  /** `currentState?.period || 1`: a missing record or a period of 0 reads as 1. */
  function CachedPeriod(cached: Option<MatchState>): int
  {
    if cached.Some? && cached.value.period != 0 then cached.value.period else 1
  }

  /** The minus button of a team: a `-1` for that team, sent only while its cached score is above 0. */
  function ScoreMinusRequest(cached: Option<MatchState>, t: Team): (req: Option<ScoreBody>)
    ensures req.Some? <==> CachedScore(cached, t) > 0
    ensures req.Some? ==> ValidateScore(req.value) == Success(ScoreRequest(t, -1))
  {
    if CachedScore(cached, t) > 0 then Some(ScoreBody(Some(TeamName(t)), Some(-1))) else None
  }

  /** The plus buttons: a `+1` for the team, always sent. */
  function ScorePlusRequest(t: Team): (req: ScoreBody)
    ensures ValidateScore(req) == Success(ScoreRequest(t, 1))
  {
    ScoreBody(Some(TeamName(t)), Some(1))
  }

  /** The games-count minus button: a `-1` on the home games count, sent only while it is above 0. */
  function GamesMinusRequest(cached: Option<MatchState>): (req: Option<ScoreBody>)
    ensures req.Some? <==> CachedGames(cached) > 0
    ensures req.Some? ==> ValidateScore(req.value) == Success(ScoreRequest(Home, -1))
  {
    if CachedGames(cached) > 0 then Some(ScoreBody(Some("home"), Some(-1))) else None
  }

  /** The period plus button: the cached period plus one, always sent. */
  function PeriodPlusRequest(cached: Option<MatchState>): (req: PeriodSetBody)
    ensures req.period == Some(CachedPeriod(cached) + 1)
    ensures ValidatePeriodSet(req).Success? <==> 0 <= CachedPeriod(cached) < MaxPeriod
  {
    PeriodSetBody(Some(CachedPeriod(cached) + 1))
  }

  /** The period minus button: the cached period minus one, sent only while the period is above 1. */
  function PeriodMinusRequest(cached: Option<MatchState>): (req: Option<PeriodSetBody>)
    ensures req.Some? <==> CachedPeriod(cached) > 1
    ensures req.Some? ==> req.value.period == Some(CachedPeriod(cached) - 1)
    ensures req.Some? ==> (ValidatePeriodSet(req.value).Success? <==> CachedPeriod(cached) <= MaxPeriod + 1)
  {
    if CachedPeriod(cached) > 1 then Some(PeriodSetBody(Some(CachedPeriod(cached) - 1))) else None
  }

  /**
   * When the cache holds the server's current record, a guarded decrement
   * lowers the score by exactly one: the server's clamp at 0 never acts on
   * a request the panel sends.
   */
  lemma GuardedMinusNeverClamps(s: MatchState, t: Team)
    requires ScoreMinusRequest(Some(s), t).Some?
    ensures var req := ValidateScore(ScoreMinusRequest(Some(s), t).value).value;
      Score(ScoreUpdated(s, req.team, req.delta), t) == Score(s, t) - 1
  {
  }

  /** At the last period the plus button still sends a request, and the server rejects it. */
  lemma PeriodPlusAtLastPeriodRejected(s: MatchState)
    requires s.period == MaxPeriod
    ensures ValidatePeriodSet(PeriodPlusRequest(Some(s))) == Failure(["period"])
  {
  }

  // ---------------------------------------------------------------------------
  // Connection state
  // ---------------------------------------------------------------------------

  /** The page's connection globals and its copy of the match record. */
  class Panel {
    var reconnectDelay: int
    /** The delay of the armed reconnect timeout, if one is armed. */
    var pendingReconnect: Option<int>
    var socketOpen: bool
    /** What the connection indicator shows. */
    var statusConnected: bool
    var currentState: Option<MatchState>

    ghost predicate Valid()
      reads this
    {
      OnLadder(reconnectDelay) && (pendingReconnect.Some? ==> OnLadder(pendingReconnect.value))
    }

    constructor ()
      ensures Valid()
      ensures reconnectDelay == InitialDelay && pendingReconnect == None
      ensures !socketOpen && !statusConnected && currentState == None
    {
      reconnectDelay := InitialDelay;
      pendingReconnect := None;
      socketOpen := false;
      statusConnected := false;
      currentState := None;
    }

    /** The indicator follows `connected`; showing connected also resets the back-off. */
    method UpdateConnectionStatus(connected: bool)
      requires Valid()
      modifies this`statusConnected, this`reconnectDelay
      ensures Valid() && statusConnected == connected
      ensures reconnectDelay == if connected then InitialDelay else old(reconnectDelay)
    {
      statusConnected := connected;
      if connected {
        reconnectDelay := InitialDelay;
      }
    }

    /** `onopen`: connected, and the back-off starts again from one second. */
    method OnOpen()
      requires Valid()
      modifies this
      ensures Valid() && socketOpen && statusConnected && reconnectDelay == InitialDelay
      ensures pendingReconnect == old(pendingReconnect) && currentState == old(currentState)
    {
      socketOpen := true;
      UpdateConnectionStatus(true);
      reconnectDelay := InitialDelay;
    }

    /** `onerror`: the indicator shows disconnected; the socket's close event does the rest. */
    method OnError()
      requires Valid()
      modifies this
      ensures Valid() && !statusConnected
      ensures reconnectDelay == old(reconnectDelay) && pendingReconnect == old(pendingReconnect)
      ensures socketOpen == old(socketOpen) && currentState == old(currentState)
    {
      UpdateConnectionStatus(false);
    }

    /** Arms the reconnect timeout with the current delay, replacing any armed one. */
    method ScheduleReconnect()
      requires Valid()
      modifies this`pendingReconnect
      ensures Valid() && pendingReconnect == Some(reconnectDelay)
    {
      pendingReconnect := Some(reconnectDelay);
    }

    /** `onclose`: disconnected, and a reconnect is armed. */
    method OnClose()
      requires Valid()
      modifies this
      ensures Valid() && !socketOpen && !statusConnected
      ensures reconnectDelay == old(reconnectDelay) && pendingReconnect == Some(old(reconnectDelay))
      ensures currentState == old(currentState)
    {
      socketOpen := false;
      UpdateConnectionStatus(false);
      ScheduleReconnect();
    }

    /**
     * `connectWebSocket`: nothing when the socket is open; otherwise a new
     * socket is created, and when creating it throws the page shows
     * disconnected and arms a reconnect with the current delay.
     */
    method ConnectWebSocket(createThrows: bool)
      requires Valid()
      modifies this
      ensures Valid() && reconnectDelay == old(reconnectDelay) && currentState == old(currentState)
      ensures socketOpen == old(socketOpen)
      ensures old(socketOpen) || !createThrows ==>
        statusConnected == old(statusConnected) && pendingReconnect == old(pendingReconnect)
      ensures !old(socketOpen) && createThrows ==>
        !statusConnected && pendingReconnect == Some(old(reconnectDelay))
    {
      if socketOpen {
        return;
      }
      if createThrows {
        UpdateConnectionStatus(false);
        ScheduleReconnect();
      }
    }

    /**
     * The armed timeout fires: it tries to connect and then doubles the
     * delay up to the cap. A reconnect armed by a throwing attempt keeps
     * the delay from before the doubling.
     */
    method ReconnectFired(createThrows: bool)
      requires Valid() && pendingReconnect.Some?
      modifies this
      ensures Valid()
      ensures reconnectDelay == NextDelay(old(reconnectDelay)) && reconnectDelay >= old(reconnectDelay)
      ensures currentState == old(currentState) && socketOpen == old(socketOpen)
      ensures pendingReconnect == if !old(socketOpen) && createThrows then Some(old(reconnectDelay)) else None
    {
      pendingReconnect := None;
      ConnectWebSocket(createThrows);
      NextDelayOnLadder(reconnectDelay);
      reconnectDelay := NextDelay(reconnectDelay);
    }

    /** `updateUI`: a missing record is ignored; otherwise it becomes the cached record. */
    method UpdateUI(state: Option<MatchState>)
      modifies this`currentState
      ensures currentState == if state.Some? then state else old(currentState)
    {
      if state.None? {
        return;
      }
      currentState := state;
    }
  }
}
