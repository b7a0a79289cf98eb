/**
 * One match record of the score server, the request bodies its endpoints
 * accept, the validation the request models apply to them, and the change
 * each endpoint makes to the record, as functions of the old record.
 */
module MatchModel {
  import opened Wrappers
  import opened Text

  const DefaultHomeName := "Home"
  const DefaultAwayName := "Away"
  const MaxNameLength := 50
  const MaxPeriod := 20

  datatype Team = Home | Away

  function Opponent(t: Team): Team
  {
    if t == Home then Away else Home
  }

  datatype MatchState = MatchState(
    matchId: string,
    homeName: string,
    awayName: string,
    homeScore: int,
    awayScore: int,
    homeMatchScore: int,
    awayMatchScore: int,
    period: int,
    timerSecondsRemaining: int,
    timerRunning: bool,
    rev: int)

  /** The fields of a record, for saying which ones an operation leaves alone. */
  datatype FieldName =
    | MatchIdField | HomeNameField | AwayNameField | HomeScoreField | AwayScoreField
    | HomeMatchScoreField | AwayMatchScoreField | PeriodField | TimerField | RunningField | RevField

  datatype FieldValue = Text(s: string) | Number(n: int) | Flag(b: bool)

  function Get(s: MatchState, f: FieldName): FieldValue
  {
    match f
    case MatchIdField => Text(s.matchId)
    case HomeNameField => Text(s.homeName)
    case AwayNameField => Text(s.awayName)
    case HomeScoreField => Number(s.homeScore)
    case AwayScoreField => Number(s.awayScore)
    case HomeMatchScoreField => Number(s.homeMatchScore)
    case AwayMatchScoreField => Number(s.awayMatchScore)
    case PeriodField => Number(s.period)
    case TimerField => Number(s.timerSecondsRemaining)
    case RunningField => Flag(s.timerRunning)
    case RevField => Number(s.rev)
  }

  /** `r` agrees with `s` on every field outside `changed`. */
  predicate Agree(s: MatchState, r: MatchState, changed: set<FieldName>)
  {
    forall f :: f !in changed ==> Get(s, f) == Get(r, f)
  }

  function Score(s: MatchState, t: Team): int
  {
    if t == Home then s.homeScore else s.awayScore
  }

  function MatchScore(s: MatchState, t: Team): int
  {
    if t == Home then s.homeMatchScore else s.awayMatchScore
  }

  function ScoreField(t: Team): FieldName
  {
    if t == Home then HomeScoreField else AwayScoreField
  }

  function MatchScoreField(t: Team): FieldName
  {
    if t == Home then HomeMatchScoreField else AwayMatchScoreField
  }

  predicate ValidName(name: string)
  {
    1 <= |name| <= MaxNameLength
  }

  predicate ValidPeriod(p: int)
  {
    1 <= p <= MaxPeriod
  }

  /**
   * What the server keeps true of every record: names of 1 to 50 characters,
   * no negative score, games count or timer, a period in 1..20 and a
   * non-negative revision.
   */
  predicate ValidState(s: MatchState)
  {
    && ValidName(s.homeName) && ValidName(s.awayName)
    && s.homeScore >= 0 && s.awayScore >= 0
    && s.homeMatchScore >= 0 && s.awayMatchScore >= 0
    && ValidPeriod(s.period)
    && s.timerSecondsRemaining >= 0
    && s.rev >= 0
  }

  /** The record created the first time a match id is seen. */
  function NewMatch(id: string): (s: MatchState)
    ensures ValidState(s) && s.matchId == id && s.rev == 0 && !s.timerRunning
  {
    MatchState(id, DefaultHomeName, DefaultAwayName, 0, 0, 0, 0, 1, 0, false, 0)
  }

  /** The record an endpoint works on: the stored one, or a new one. */
  function Stored(matches: map<string, MatchState>, id: string): MatchState
  {
    if id in matches then matches[id] else NewMatch(id)
  }

  // ---------------------------------------------------------------------------
  // Request bodies and their validation
  // ---------------------------------------------------------------------------

  /** A field missing from the request body is `None`. */
  datatype SetupBody = SetupBody(homeName: Option<string>, awayName: Option<string>,
                                 period: Option<int>, timerSeconds: Option<int>)
  datatype ScoreBody = ScoreBody(team: Option<string>, delta: Option<int>)
  datatype TimerSetBody = TimerSetBody(seconds: Option<int>)
  datatype PeriodSetBody = PeriodSetBody(period: Option<int>)

  datatype SetupRequest = SetupRequest(homeName: string, awayName: string, period: int, timerSeconds: int)
  datatype ScoreRequest = ScoreRequest(team: Team, delta: int)

  /** The names of the fields that failed validation, in declaration order. */
  type Errors = seq<string>

  function OrDefault<T>(o: Option<T>, d: T): T
  {
    if o.Some? then o.value else d
  }

  function Check(ok: bool, field: string): Errors
  {
    if ok then [] else [field]
  }

  /** The setup request model: omitted fields take their defaults, then each is range-checked. */
  function ValidateSetup(b: SetupBody): (r: Result<SetupRequest, Errors>)
    ensures r.Success? <==>
      && ValidName(OrDefault(b.homeName, DefaultHomeName))
      && ValidName(OrDefault(b.awayName, DefaultAwayName))
      && ValidPeriod(OrDefault(b.period, 1))
      && OrDefault(b.timerSeconds, 0) >= 0
    ensures r.Success? ==> r.value == SetupRequest(OrDefault(b.homeName, DefaultHomeName),
      OrDefault(b.awayName, DefaultAwayName), OrDefault(b.period, 1), OrDefault(b.timerSeconds, 0))
    ensures r.Failure? ==> r.error != [] && forall i | 0 <= i < |r.error| ::
      r.error[i] in {"homeName", "awayName", "period", "timerSeconds"}
  {
    var req := SetupRequest(OrDefault(b.homeName, DefaultHomeName), OrDefault(b.awayName, DefaultAwayName),
                            OrDefault(b.period, 1), OrDefault(b.timerSeconds, 0));
    var errors := Check(ValidName(req.homeName), "homeName") + Check(ValidName(req.awayName), "awayName")
                  + Check(ValidPeriod(req.period), "period") + Check(req.timerSeconds >= 0, "timerSeconds");
    if errors == [] then Success(req) else Failure(errors)
  }

  /** `validate_team`: 'home' or 'away' in any letter case, normalised to lower case. */
  function ValidateTeam(v: string): (r: Option<Team>)
    ensures r == Some(Home) <==> Lower(v) == "home"
    ensures r == Some(Away) <==> Lower(v) == "away"
  {
    var l := Lower(v);
    if l == "home" then Some(Home) else if l == "away" then Some(Away) else None
  }

  function TeamName(t: Team): string
  {
    if t == Home then "home" else "away"
  }

  /** Both fields are required; the team must pass `ValidateTeam`. */
  function ValidateScore(b: ScoreBody): (r: Result<ScoreRequest, Errors>)
    ensures r.Success? <==> b.team.Some? && ValidateTeam(b.team.value).Some? && b.delta.Some?
    ensures r.Success? ==> TeamName(r.value.team) == Lower(b.team.value) && r.value.delta == b.delta.value
  {
    var team := if b.team.Some? then ValidateTeam(b.team.value) else None;
    var errors := Check(team.Some?, "team") + Check(b.delta.Some?, "delta");
    if errors == [] then Success(ScoreRequest(team.value, b.delta.value)) else Failure(errors)
  }

  function ValidateTimerSet(b: TimerSetBody): (r: Result<int, Errors>)
    ensures r.Success? <==> b.seconds.Some? && b.seconds.value >= 0
    ensures r.Success? ==> r.value == b.seconds.value
  {
    if b.seconds.Some? && b.seconds.value >= 0 then Success(b.seconds.value) else Failure(["seconds"])
  }

  function ValidatePeriodSet(b: PeriodSetBody): (r: Result<int, Errors>)
    ensures r.Success? <==> b.period.Some? && ValidPeriod(b.period.value)
    ensures r.Success? ==> r.value == b.period.value
  {
    if b.period.Some? && ValidPeriod(b.period.value) then Success(b.period.value) else Failure(["period"])
  }

  /** Team validation ignores letter case: an upper-cased team name is accepted as the same team. */
  lemma {:induction false} TeamCaseInsensitive(v: string)
    ensures ValidateTeam(Upper(v)) == ValidateTeam(v)
  {
    assert Lower(Upper(v)) == Lower(v) by {
      forall i | 0 <= i < |v| ensures Lower(Upper(v))[i] == Lower(v)[i] {
        LowerUpperChar(v[i]);
      }
    }
  }

  lemma LowerUpperChar(c: char)
    ensures LowerChar(UpperChar(c)) == LowerChar(c)
  {
  }

  // ---------------------------------------------------------------------------
  // The change each endpoint makes to the record
  // ---------------------------------------------------------------------------

  /** `setup`: names, period and timer from the request, timer stopped; scores are kept. */
  function Setup(s: MatchState, req: SetupRequest): (r: MatchState)
    ensures Agree(s, r, {HomeNameField, AwayNameField, PeriodField, TimerField, RunningField, RevField})
    ensures r.homeName == req.homeName && r.awayName == req.awayName && r.period == req.period
    ensures r.timerSecondsRemaining == req.timerSeconds && !r.timerRunning && r.rev == s.rev + 1
  {
    s.(homeName := req.homeName, awayName := req.awayName, period := req.period,
       timerSecondsRemaining := req.timerSeconds, timerRunning := false, rev := s.rev + 1)
  }

  function SetScore(s: MatchState, t: Team, v: int): MatchState
  {
    if t == Home then s.(homeScore := v) else s.(awayScore := v)
  }

  function SetMatchScore(s: MatchState, t: Team, v: int): MatchState
  {
    if t == Home then s.(homeMatchScore := v) else s.(awayMatchScore := v)
  }

  function Max(a: int, b: int): int
  {
    if a >= b then a else b
  }

  /** `score`: the team's score moves by `delta` but never below 0; `rev` goes up even if the score does not move. */
  function ScoreUpdated(s: MatchState, t: Team, delta: int): (r: MatchState)
    ensures Score(r, t) == Max(0, Score(s, t) + delta) && Score(r, t) >= 0
    ensures Score(r, Opponent(t)) == Score(s, Opponent(t))
    ensures Agree(s, r, {ScoreField(t), RevField}) && r.rev == s.rev + 1
  {
    var r := SetScore(s, t, Max(0, Score(s, t) + delta));
    r.(rev := r.rev + 1)
  }

  /** `match-score`: the same clamp at 0, on the games-won count. */
  function MatchScoreUpdated(s: MatchState, t: Team, delta: int): (r: MatchState)
    ensures MatchScore(r, t) == Max(0, MatchScore(s, t) + delta) && MatchScore(r, t) >= 0
    ensures MatchScore(r, Opponent(t)) == MatchScore(s, Opponent(t))
    ensures Agree(s, r, {MatchScoreField(t), RevField}) && r.rev == s.rev + 1
  {
    var r := SetMatchScore(s, t, Max(0, MatchScore(s, t) + delta));
    r.(rev := r.rev + 1)
  }

  /** `reset`: everything back to the start values except the id and the names. */
  function Reset(s: MatchState): (r: MatchState)
    ensures r == NewMatch(s.matchId).(homeName := s.homeName, awayName := s.awayName, rev := s.rev + 1)
  {
    s.(homeScore := 0, awayScore := 0, homeMatchScore := 0, awayMatchScore := 0, period := 1,
       timerSecondsRemaining := 0, timerRunning := false, rev := s.rev + 1)
  }

  /** `timer/start`: no change at all when already running. */
  function TimerStarted(s: MatchState): (r: MatchState)
    ensures r.timerRunning
    ensures s.timerRunning ==> r == s
    ensures !s.timerRunning ==> Agree(s, r, {RunningField, RevField}) && r.rev == s.rev + 1
  {
    if s.timerRunning then s else s.(timerRunning := true, rev := s.rev + 1)
  }

  /** `timer/stop`: no change at all when already stopped. */
  function TimerStopped(s: MatchState): (r: MatchState)
    ensures !r.timerRunning
    ensures !s.timerRunning ==> r == s
    ensures s.timerRunning ==> Agree(s, r, {RunningField, RevField}) && r.rev == s.rev + 1
  {
    if s.timerRunning then s.(timerRunning := false, rev := s.rev + 1) else s
  }

  /** `timer/set`: stores the seconds and always stops the timer. */
  function TimerSet(s: MatchState, seconds: int): (r: MatchState)
    ensures r.timerSecondsRemaining == seconds && !r.timerRunning && r.rev == s.rev + 1
    ensures Agree(s, r, {TimerField, RunningField, RevField})
  {
    s.(timerSecondsRemaining := seconds, timerRunning := false, rev := s.rev + 1)
  }

  /** `period/set`. */
  function PeriodSet(s: MatchState, p: int): (r: MatchState)
    ensures r.period == p && r.rev == s.rev + 1 && Agree(s, r, {PeriodField, RevField})
  {
    s.(period := p, rev := s.rev + 1)
  }

  /** What one pass of the timer loop does, and whether the loop goes on. */
  datatype TickOutcome = Idle | Counted | Expired

  function TickKind(s: MatchState): TickOutcome
  {
    if !s.timerRunning then Idle
    else if s.timerSecondsRemaining > 0 then Counted
    else Expired
  }

  /**
   * One pass of `timer_loop` after its one-second sleep: a stopped timer is
   * left alone, a running one counts down by one second, and a running one
   * at 0 is stopped and ends the loop.
   */
  function Tick(s: MatchState): (r: MatchState)
    ensures TickKind(s) == Idle ==> r == s
    ensures TickKind(s) == Counted ==>
      r.timerSecondsRemaining == s.timerSecondsRemaining - 1 && r.timerRunning
      && r.rev == s.rev + 1 && Agree(s, r, {TimerField, RevField})
    ensures TickKind(s) == Expired ==>
      !r.timerRunning && r.rev == s.rev + 1 && Agree(s, r, {RunningField, RevField})
  {
    match TickKind(s)
    case Idle => s
    case Counted => s.(timerSecondsRemaining := s.timerSecondsRemaining - 1, rev := s.rev + 1)
    case Expired => s.(timerRunning := false, rev := s.rev + 1)
  }

  /** `n` passes of the timer loop, the loop ending at the first expiry. */
  function RunTicks(s: MatchState, n: nat): MatchState
    decreases n
  {
    if n == 0 then s
    else if TickKind(s) == Expired then Tick(s)
    else RunTicks(Tick(s), n - 1)
  }

  /**
   * A running countdown from `r` seconds is stopped, at 0, after `r + 1`
   * passes of the loop, having bumped the revision once per pass.
   */
  lemma {:induction false} CountdownStops(s: MatchState)
    requires s.timerRunning && s.timerSecondsRemaining >= 0
    ensures var e := RunTicks(s, s.timerSecondsRemaining + 1);
      && !e.timerRunning && e.timerSecondsRemaining == 0
      && e.rev == s.rev + s.timerSecondsRemaining + 1
      && Agree(s, e, {TimerField, RunningField, RevField})
    decreases s.timerSecondsRemaining
  {
    if s.timerSecondsRemaining > 0 {
      CountdownStops(Tick(s));
    }
  }

  /** Raising a score by `k` and then lowering it by `k` restores it. */
  lemma ScoreUpThenDown(s: MatchState, t: Team, k: int)
    requires ValidState(s) && k >= 0
    ensures var r := ScoreUpdated(ScoreUpdated(s, t, k), t, -k);
      Score(r, t) == Score(s, t) && r == s.(rev := s.rev + 2)
  {
    var r := ScoreUpdated(ScoreUpdated(s, t, k), t, -k);
    assert Agree(s, r, {ScoreField(t), RevField});
    assert Get(s, ScoreField(t)) == Get(r, ScoreField(t));
  }

  // ---------------------------------------------------------------------------
  // Sequences of requests
  // ---------------------------------------------------------------------------

  /** A request to one match's endpoints, or one pass of its timer loop. */
  datatype Command =
    | SetupCmd(setup: SetupBody)
    | ScoreCmd(score: ScoreBody)
    | MatchScoreCmd(matchScore: ScoreBody)
    | ResetCmd
    | StartCmd
    | StopCmd
    | TimerSetCmd(timerSet: TimerSetBody)
    | PeriodSetCmd(periodSet: PeriodSetBody)
    | TickCmd

  /** The record after one command; a request that fails validation changes nothing. */
  function Apply(s: MatchState, c: Command): MatchState
  {
    match c
    case SetupCmd(b) =>
      var v := ValidateSetup(b);
      if v.Success? then Setup(s, v.value) else s
    case ScoreCmd(b) =>
      var v := ValidateScore(b);
      if v.Success? then ScoreUpdated(s, v.value.team, v.value.delta) else s
    case MatchScoreCmd(b) =>
      var v := ValidateScore(b);
      if v.Success? then MatchScoreUpdated(s, v.value.team, v.value.delta) else s
    case ResetCmd => Reset(s)
    case StartCmd => TimerStarted(s)
    case StopCmd => TimerStopped(s)
    case TimerSetCmd(b) =>
      var v := ValidateTimerSet(b);
      if v.Success? then TimerSet(s, v.value) else s
    case PeriodSetCmd(b) =>
      var v := ValidatePeriodSet(b);
      if v.Success? then PeriodSet(s, v.value) else s
    case TickCmd => Tick(s)
  }

  function Run(s: MatchState, cs: seq<Command>): MatchState
    decreases |cs|
  {
    if cs == [] then s else Run(Apply(s, cs[0]), cs[1..])
  }

  /** Every command keeps the record valid, keeps its id, and never lowers `rev`. */
  lemma ApplyKeepsValid(s: MatchState, c: Command)
    requires ValidState(s)
    ensures ValidState(Apply(s, c)) && Apply(s, c).matchId == s.matchId && Apply(s, c).rev >= s.rev
  {
    var r := Apply(s, c);
    assert Get(r, MatchIdField) == Get(s, MatchIdField);
  }

  /**
   * Over any sequence of requests and timer passes, scores, games counts and
   * the timer stay non-negative, the period stays in 1..20, and `rev` only
   * grows.
   */
  lemma {:induction false} RunKeepsValid(s: MatchState, cs: seq<Command>)
    requires ValidState(s)
    ensures ValidState(Run(s, cs)) && Run(s, cs).matchId == s.matchId && Run(s, cs).rev >= s.rev
    decreases |cs|
  {
    if cs != [] {
      ApplyKeepsValid(s, cs[0]);
      RunKeepsValid(Apply(s, cs[0]), cs[1..]);
    }
  }
}
