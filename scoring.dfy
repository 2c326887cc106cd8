/** The shipment safety-score heuristic of `POST /api/ai/analyze`: a score that
    starts at 100, loses a fixed penalty for each risk rule that fires (cargo,
    vehicle, route length, weather words, ETA urgency), is nudged by a bounded
    random offset and clamped to [0, 100]; every rule that fires also reports
    an issue and a suggestion. The random draw is a parameter. */
module Scoring {
  import opened Text

  /** The variance `randomizeScore` is called with by the handler. */
  const HandlerVariance: nat := 5
  const InitialScore := 100

  const MissingFieldsError := "cargoType and route are required for analysis"

  /** The fields of the request body the handler reads. */
  datatype AnalyzeRequest = AnalyzeRequest(
    cargoType: Option<string>,
    route: Option<string>,
    additionalData: Option<string>,
    vehicleType: Option<string>,
    etaHours: Option<int>)

  /** The lines a rule reports under `issues`; `IssueText` is the text sent. */
  datatype Issue =
    | FragileCargo | PerishableCargo | HazardousCargo | StandardCargo
    | TruckTransport | ShipTransport | AirTransport | TrainTransport
    | LongRoute | RainOrStorm | SnowDelay | HighUrgency(etaHours: int)

  /** The lines a rule reports under `suggestions`. */
  datatype Suggestion =
    | PadAndAvoidSuddenStops | RefrigerateAndMonitorTime | FollowSafetyRegulations
    | NoSpecialHandling | CheckVehicleAndRoad | MonitorSeaConditions | SecureForFlight
    | MonitorTrackStatus | MonitorUnknownVehicle | PlanRouteCarefully
    | UseWeatherproofPackaging | PlanAlternateRoutes | SpeedUpSafely

  function IssueText(i: Issue): string {
    match i
    case FragileCargo => "Fragile cargo: handle with extra care"
    case PerishableCargo => "Perishable cargo: time-sensitive delivery"
    case HazardousCargo => "Hazardous cargo: high-risk shipment"
    case StandardCargo => "Standard cargo: normal handling"
    case TruckTransport => "Truck transport: moderate road risk"
    case ShipTransport => "Ship transport: possible weather and sea risk"
    case AirTransport => "Air transport: moderate altitude & weather risk"
    case TrainTransport => "Train transport: possible delays and track issues"
    case LongRoute => "Long route with multiple stops: higher risk of delays"
    case RainOrStorm => "Weather risk: rain or storm expected"
    case SnowDelay => "Weather risk: snow may delay transport"
    case HighUrgency(eta) => "High urgency: ETA is " + IntToString(eta) + " hours"
  }

  function SuggestionText(s: Suggestion): string {
    match s
    case PadAndAvoidSuddenStops => "Add padding and avoid sudden stops"
    case RefrigerateAndMonitorTime => "Ensure refrigeration and monitor transit time"
    case FollowSafetyRegulations => "Follow safety regulations and emergency protocols"
    case NoSpecialHandling => "No special handling needed"
    case CheckVehicleAndRoad => "Check vehicle condition and road conditions"
    case MonitorSeaConditions => "Monitor sea conditions and anchor safely"
    case SecureForFlight => "Ensure cargo is secured properly for flight"
    case MonitorTrackStatus => "Monitor track status and train schedules"
    case MonitorUnknownVehicle => "Unknown vehicle type: monitor transport carefully"
    case PlanRouteCarefully => "Plan route carefully and monitor shipment during stops"
    case UseWeatherproofPackaging => "Use weatherproof packaging and allow extra transit time"
    case PlanAlternateRoutes => "Plan alternate routes or delay if possible"
    case SpeedUpSafely => "Speed up handling but maintain safety measures"
  }

  /** The JSON body sent: the 400 error, or the analysis. `vehicleType` is
      the request's or "Not specified"; `etaHours` is absent where the request's
      is falsy (missing or 0) and is then shown as "Not specified". */
  datatype AnalyzeResponse =
    | BadRequest(status: int, error: string)
    | Analyzed(cargoType: string, route: string, vehicleType: string, etaHours: Option<int>,
               safetyScore: int, issues: seq<Issue>, suggestions: seq<Suggestion>,
               analysis: string)

  const NotSpecified := "Not specified"

  /** `field || "Not specified"`. */
  function ShownOrDefault(field: Option<string>): (shown: string)
    ensures Truthy(field) ==> shown == field.value
    ensures !Truthy(field) ==> shown == NotSpecified
  {
    if Truthy(field) then field.value else NotSpecified
  }

  /** `etaHours || "Not specified"`: a zero ETA is falsy and is not shown. */
  function EtaShown(etaHours: Option<int>): (shown: Option<int>)
    ensures shown.None? <==> etaHours.None? || etaHours.value == 0
    ensures shown.Some? ==> shown == etaHours
  {
    if etaHours.Some? && etaHours.value != 0 then etaHours else None
  }

  /** The texts of a list of reported lines, in order. */
  function IssueTexts(issues: seq<Issue>): (texts: seq<string>)
    ensures |texts| == |issues|
    ensures forall k :: 0 <= k < |issues| ==> texts[k] == IssueText(issues[k])
    decreases |issues|
  {
    if issues == [] then [] else [IssueText(issues[0])] + IssueTexts(issues[1..])
  }

  function SuggestionTexts(suggestions: seq<Suggestion>): (texts: seq<string>)
    ensures |texts| == |suggestions|
    ensures forall k :: 0 <= k < |suggestions| ==> texts[k] == SuggestionText(suggestions[k])
    decreases |suggestions|
  {
    if suggestions == [] then [] else [SuggestionText(suggestions[0])] + SuggestionTexts(suggestions[1..])
  }

  const ScorePrefix := "Predicted shipment safety score is "

  /** The `analysis` sentence: the score, the issues joined by ", " and the
      suggestions joined by "; ". */
  function Summary(safetyScore: int, issues: seq<Issue>, suggestions: seq<Suggestion>): (text: string)
    ensures ScorePrefix + IntToString(safetyScore) <= text
  {
    ScorePrefix + IntToString(safetyScore)
      + ". Issues: " + Join(IssueTexts(issues), ", ")
      + ". Suggestions: " + Join(SuggestionTexts(suggestions), "; ")
  }

  /** What one rule contributes: a deduction and the lines it reports. */
  datatype Effect = Effect(penalty: nat, issues: seq<Issue>, suggestions: seq<Suggestion>)

  const Silent := Effect(0, [], [])

  // ------------------------------------------------------------ helpers

  /** `randomizeScore(score, variance)` with `Math.floor(Math.random() * (2 *
      variance + 1))` given as `draw`: the result is always a valid score, and it is
      the score moved by `draw - variance` whenever that stays within range. */
  function RandomizeScore(score: int, variance: nat, draw: nat): (r: int)
    requires draw <= 2 * variance
    ensures 0 <= r <= 100
    ensures 0 <= score + draw - variance <= 100 ==> r == score + draw - variance
    ensures score + draw - variance > 100 ==> r == 100
    ensures score + draw - variance < 0 ==> r == 0
  {
    var change := draw - variance;
    var newScore := score + change;
    if newScore > 100 then 100 else if newScore < 0 then 0 else newScore
  }

  /** The effective change never exceeds the variance when the score was
      already a valid score. */
  lemma RandomizeScoreNear(score: int, variance: nat, draw: nat)
    requires draw <= 2 * variance
    requires 0 <= score <= 100
    ensures -(variance as int) <= RandomizeScore(score, variance, draw) - score <= variance
  {
  }

  /** `calculateUrgencyPenalty`: the bands (-inf, 2], (2, 6], (6, 12], (12, inf). */
  function UrgencyPenalty(etaHours: int): (p: nat)
    ensures p in {0, 5, 10, 15}
    ensures p == 15 <==> etaHours <= 2
    ensures p == 10 <==> 2 < etaHours <= 6
    ensures p == 5 <==> 6 < etaHours <= 12
    ensures p == 0 <==> 12 < etaHours
  {
    if etaHours <= 2 then 15
    else if etaHours <= 6 then 10
    else if etaHours <= 12 then 5
    else 0
  }

  /** A later ETA never costs more. */
  lemma UrgencyPenaltyMonotone(a: int, b: int)
    requires a <= b
    ensures UrgencyPenalty(b) <= UrgencyPenalty(a)
  {
  }

  // ---------------------------------------------------------- classification

  /** The cases of the cargo switch. */
  datatype CargoKind = Fragile | Perishable | Hazardous | OtherCargo

  /** The switch on `cargoType.toLowerCase()`. */
  function CargoKindOf(cargoType: string): CargoKind {
    match ToLower(cargoType)
    case "fragile" => Fragile
    case "perishable" => Perishable
    case "hazardous" => Hazardous
    case _ => OtherCargo
  }

  /** The cases of the vehicle switch. */
  datatype VehicleKind = Truck | Ship | Plane | Train | OtherVehicle

  /** The switch on `vehicleType.toLowerCase()`. */
  function VehicleKindOf(vehicleType: string): VehicleKind {
    match ToLower(vehicleType)
    case "truck" => Truck
    case "ship" => Ship
    case "plane" => Plane
    case "train" => Train
    case _ => OtherVehicle
  }

  /** `route.split("->").length - 1`. */
  function Stops(route: string): int {
    |Split(route, "->")| - 1
  }

  /** The number of stops is the number of `->` separators in the route. */
  lemma StopsAreSeparators(route: string)
    ensures Stops(route) == Occurrences(route, "->")
  {
    SplitLength(route, "->");
  }

  /** Everything the rules look at, read off a request that passed the
      required-field check. The vehicle is absent when `vehicleType` is falsy;
      the weather words are looked for only when `additionalData` is truthy. */
  datatype Features = Features(
    cargo: CargoKind,
    vehicle: Option<VehicleKind>,
    stops: int,
    rainOrStorm: bool,
    snow: bool,
    etaHours: Option<int>)

  function FeaturesOf(req: AnalyzeRequest): Features
    requires Truthy(req.cargoType) && Truthy(req.route)
  {
    var weather := if Truthy(req.additionalData) then ToLower(req.additionalData.value) else "";
    Features(
      CargoKindOf(req.cargoType.value),
      if Truthy(req.vehicleType) then Some(VehicleKindOf(req.vehicleType.value)) else None,
      Stops(req.route.value),
      Truthy(req.additionalData) && (Contains(weather, "rain") || Contains(weather, "storm")),
      Truthy(req.additionalData) && Contains(weather, "snow"),
      req.etaHours)
  }

  // ---------------------------------------------------------------- rules

  /** The cargo rule always reports one issue and one suggestion; only the
      three named kinds cost anything. */
  function CargoEffect(cargo: CargoKind): (e: Effect)
    ensures |e.issues| == 1 && |e.suggestions| == 1
    ensures e.penalty <= 30
    ensures e.penalty == 0 <==> cargo == OtherCargo
  {
    match cargo
    case Fragile => Effect(20, [FragileCargo], [PadAndAvoidSuddenStops])
    case Perishable => Effect(15, [PerishableCargo], [RefrigerateAndMonitorTime])
    case Hazardous => Effect(30, [HazardousCargo], [FollowSafetyRegulations])
    case OtherCargo => Effect(0, [StandardCargo], [NoSpecialHandling])
  }

  /** The vehicle rule is skipped without a vehicle; an unknown vehicle costs
      nothing and reports a suggestion without an issue. */
  function VehicleEffect(vehicle: Option<VehicleKind>): (e: Effect)
    ensures e.penalty <= 10
    ensures vehicle.None? ==> e == Silent
    ensures vehicle == Some(OtherVehicle) ==>
              e.issues == [] && |e.suggestions| == 1 && e.penalty == 0
    ensures vehicle.Some? && vehicle.value != OtherVehicle ==>
              |e.issues| == 1 && |e.suggestions| == 1 && e.penalty > 0
  {
    match vehicle
    case None => Silent
    case Some(Truck) => Effect(5, [TruckTransport], [CheckVehicleAndRoad])
    case Some(Ship) => Effect(10, [ShipTransport], [MonitorSeaConditions])
    case Some(Plane) => Effect(5, [AirTransport], [SecureForFlight])
    case Some(Train) => Effect(7, [TrainTransport], [MonitorTrackStatus])
    case Some(OtherVehicle) => Effect(0, [], [MonitorUnknownVehicle])
  }

  /** The route rule fires on more than two stops. */
  function RouteEffect(stops: int): (e: Effect)
    ensures e.penalty == (if stops > 2 then 10 else 0)
    ensures |e.issues| == |e.suggestions| == (if stops > 2 then 1 else 0)
    ensures e.penalty > 0 <==> stops > 2
  {
    if stops > 2 then Effect(10, [LongRoute], [PlanRouteCarefully]) else Silent
  }

  /** The route penalty of 10 applies exactly when the route has more than two
      `->` separators. */
  lemma RoutePenaltyIff(req: AnalyzeRequest)
    requires Truthy(req.cargoType) && Truthy(req.route)
    ensures RouteEffect(FeaturesOf(req).stops).penalty == 10 <==> Occurrences(req.route.value, "->") > 2
    ensures RouteEffect(FeaturesOf(req).stops).penalty == 0 <==> Occurrences(req.route.value, "->") <= 2
  {
    StopsAreSeparators(req.route.value);
  }

  function StormEffect(rainOrStorm: bool): (e: Effect)
    ensures e.penalty == (if rainOrStorm then 5 else 0)
    ensures |e.issues| == |e.suggestions| == (if rainOrStorm then 1 else 0)
  {
    if rainOrStorm then Effect(5, [RainOrStorm], [UseWeatherproofPackaging]) else Silent
  }

  function SnowEffect(snow: bool): (e: Effect)
    ensures e.penalty == (if snow then 7 else 0)
    ensures |e.issues| == |e.suggestions| == (if snow then 1 else 0)
  {
    if snow then Effect(7, [SnowDelay], [PlanAlternateRoutes]) else Silent
  }

  /** The ETA rule runs whenever an ETA is given (zero included) and fires when
      its penalty is positive, that is, when the ETA is at most 12 hours. */
  function UrgencyEffect(etaHours: Option<int>): (e: Effect)
    ensures etaHours.None? || etaHours.value > 12 <==> e == Silent
    ensures etaHours.Some? ==> e.penalty == UrgencyPenalty(etaHours.value)
    ensures e.penalty <= 15
    ensures |e.issues| == |e.suggestions| == (if etaHours.Some? && etaHours.value <= 12 then 1 else 0)
  {
    if etaHours.Some? && UrgencyPenalty(etaHours.value) > 0 then
      Effect(UrgencyPenalty(etaHours.value), [HighUrgency(etaHours.value)], [SpeedUpSafely])
    else Silent
  }

  /** All rules in the handler's order: the total deduction is at most
      30 + 10 + 10 + 5 + 7 + 15 = 77, the cargo issue comes first, and there is
      one suggestion per issue except for an unknown vehicle's extra one. */
  function Assess(f: Features): (e: Effect)
    ensures e.penalty <= 30 + 10 + 10 + 5 + 7 + 15
    ensures 1 <= |e.issues| <= |e.suggestions|
    ensures |e.suggestions| == |e.issues| + (if f.vehicle == Some(OtherVehicle) then 1 else 0)
    ensures e.issues[0] == CargoEffect(f.cargo).issues[0]
  {
    var cargo := CargoEffect(f.cargo);
    var vehicle := VehicleEffect(f.vehicle);
    var routing := RouteEffect(f.stops);
    var storm := StormEffect(f.rainOrStorm);
    var snow := SnowEffect(f.snow);
    var urgency := UrgencyEffect(f.etaHours);
    Effect(
      cargo.penalty + vehicle.penalty + routing.penalty + storm.penalty + snow.penalty + urgency.penalty,
      cargo.issues + vehicle.issues + routing.issues + storm.issues + snow.issues + urgency.issues,
      cargo.suggestions + vehicle.suggestions + routing.suggestions + storm.suggestions
        + snow.suggestions + urgency.suggestions)
  }

  /** The response of the handler: 400 when cargo type or route is falsy,
      otherwise 100 less all penalties, randomised by `draw`, with the reported
      lines in rule order. */
  function Analysis(req: AnalyzeRequest, draw: nat): (resp: AnalyzeResponse)
    requires draw <= 2 * HandlerVariance
    ensures resp.BadRequest? <==> !Truthy(req.cargoType) || !Truthy(req.route)
    ensures resp.BadRequest? ==> resp == BadRequest(400, MissingFieldsError)
    ensures resp.Analyzed? ==>
              && resp.cargoType == req.cargoType.value
              && resp.route == req.route.value
              && resp.vehicleType == ShownOrDefault(req.vehicleType)
              && resp.etaHours == EtaShown(req.etaHours)
              && 18 <= resp.safetyScore <= 100
              && 1 <= |resp.issues| <= |resp.suggestions|
  {
    if !Truthy(req.cargoType) || !Truthy(req.route) then
      BadRequest(400, MissingFieldsError)
    else
      var e := Assess(FeaturesOf(req));
      var score := RandomizeScore(InitialScore - e.penalty, HandlerVariance, draw);
      ResponseBody(req, score, e.issues, e.suggestions)
  }

  /** The `res.json` body built from the request and the final score and
      lists. */
  function ResponseBody(req: AnalyzeRequest, safetyScore: int, issues: seq<Issue>,
                        suggestions: seq<Suggestion>): AnalyzeResponse
    requires Truthy(req.cargoType) && Truthy(req.route)
  {
    Analyzed(req.cargoType.value, req.route.value,
             ShownOrDefault(req.vehicleType), EtaShown(req.etaHours),
             safetyScore, issues, suggestions, Summary(safetyScore, issues, suggestions))
  }

  /** The score before randomisation lies in [23, 100], and the randomised
      score differs from it by at most the variance. */
  lemma AnalysisScoreNearBase(req: AnalyzeRequest, draw: nat)
    requires draw <= 2 * HandlerVariance
    requires Truthy(req.cargoType) && Truthy(req.route)
    ensures var base := InitialScore - Assess(FeaturesOf(req)).penalty;
            && 23 <= base <= 100
            && -5 <= Analysis(req, draw).safetyScore - base <= 5
  {
    RandomizeScoreNear(InitialScore - Assess(FeaturesOf(req)).penalty, HandlerVariance, draw);
  }

  /** Two optional fields that agree after lower-casing. */
  predicate SameIgnoringCase(a: Option<string>, b: Option<string>) {
    a.None? == b.None? && (a.Some? ==> ToLower(a.value) == ToLower(b.value))
  }

  lemma TruthyIgnoresCase(a: Option<string>, b: Option<string>)
    requires SameIgnoringCase(a, b)
    ensures Truthy(a) == Truthy(b)
  {
    if a.Some? {
      ToLowerEmpty(a.value);
      ToLowerEmpty(b.value);
    }
  }

  /** Cargo type, vehicle type and additional data are compared without regard
      to case: requests that differ only in their case get the same score, the
      same lines and the same summary. */
  lemma AnalysisIgnoresCase(a: AnalyzeRequest, b: AnalyzeRequest, draw: nat)
    requires draw <= 2 * HandlerVariance
    requires SameIgnoringCase(a.cargoType, b.cargoType)
    requires SameIgnoringCase(a.vehicleType, b.vehicleType)
    requires SameIgnoringCase(a.additionalData, b.additionalData)
    requires a.route == b.route && a.etaHours == b.etaHours
    ensures Analysis(a, draw).BadRequest? == Analysis(b, draw).BadRequest?
    ensures Analysis(a, draw).Analyzed? ==>
              && Analysis(a, draw).safetyScore == Analysis(b, draw).safetyScore
              && Analysis(a, draw).issues == Analysis(b, draw).issues
              && Analysis(a, draw).suggestions == Analysis(b, draw).suggestions
              && Analysis(a, draw).analysis == Analysis(b, draw).analysis
  {
    TruthyIgnoresCase(a.cargoType, b.cargoType);
    TruthyIgnoresCase(a.vehicleType, b.vehicleType);
    TruthyIgnoresCase(a.additionalData, b.additionalData);
    if Truthy(a.cargoType) && Truthy(a.route) {
      assert FeaturesOf(a) == FeaturesOf(b);
    }
  }

  lemma FragileInCapitals()
    ensures CargoKindOf("FRAGILE") == CargoKindOf("fragile") == Fragile
  {
    assert ToLower("FRAGILE") == "fragile";
  }

  // ---------------------------------------------------------------- handler

  /* The handler keeps a running score and two growing lists; each risk block
     below takes them as they are and returns them updated. */

  /** The cargo block: deduct and append per the cargo switch. */
  method CargoRisk(cargoType: string, safetyScore: int, issues: seq<Issue>,
                   suggestions: seq<Suggestion>)
    returns (score': int, issues': seq<Issue>, suggestions': seq<Suggestion>)
    ensures var e := CargoEffect(CargoKindOf(cargoType));
            score' == safetyScore - e.penalty && issues' == issues + e.issues
            && suggestions' == suggestions + e.suggestions
  {
    score', issues', suggestions' := safetyScore, issues, suggestions;
    match CargoKindOf(cargoType) {
      case Fragile =>
        score' := score' - 20;
        issues' := issues' + [FragileCargo];
        suggestions' := suggestions' + [PadAndAvoidSuddenStops];
      case Perishable =>
        score' := score' - 15;
        issues' := issues' + [PerishableCargo];
        suggestions' := suggestions' + [RefrigerateAndMonitorTime];
      case Hazardous =>
        score' := score' - 30;
        issues' := issues' + [HazardousCargo];
        suggestions' := suggestions' + [FollowSafetyRegulations];
      case OtherCargo =>
        issues' := issues' + [StandardCargo];
        suggestions' := suggestions' + [NoSpecialHandling];
    }
  }

  /** The vehicle block, entered only for a truthy vehicle type. */
  method VehicleRisk(vehicleType: Option<string>, safetyScore: int, issues: seq<Issue>,
                     suggestions: seq<Suggestion>)
    returns (score': int, issues': seq<Issue>, suggestions': seq<Suggestion>)
    ensures var e := VehicleEffect(if Truthy(vehicleType) then Some(VehicleKindOf(vehicleType.value)) else None);
            score' == safetyScore - e.penalty && issues' == issues + e.issues
            && suggestions' == suggestions + e.suggestions
  {
    score', issues', suggestions' := safetyScore, issues, suggestions;
    if Truthy(vehicleType) {
      match VehicleKindOf(vehicleType.value) {
        case Truck =>
          score' := score' - 5;
          issues' := issues' + [TruckTransport];
          suggestions' := suggestions' + [CheckVehicleAndRoad];
        case Ship =>
          score' := score' - 10;
          issues' := issues' + [ShipTransport];
          suggestions' := suggestions' + [MonitorSeaConditions];
        case Plane =>
          score' := score' - 5;
          issues' := issues' + [AirTransport];
          suggestions' := suggestions' + [SecureForFlight];
        case Train =>
          score' := score' - 7;
          issues' := issues' + [TrainTransport];
          suggestions' := suggestions' + [MonitorTrackStatus];
        case OtherVehicle =>
          suggestions' := suggestions' + [MonitorUnknownVehicle];
      }
    }
  }

  /** The route block: more than two stops costs 10. */
  method RouteRisk(route: string, safetyScore: int, issues: seq<Issue>,
                   suggestions: seq<Suggestion>)
    returns (score': int, issues': seq<Issue>, suggestions': seq<Suggestion>)
    ensures var e := RouteEffect(Stops(route));
            score' == safetyScore - e.penalty && issues' == issues + e.issues
            && suggestions' == suggestions + e.suggestions
  {
    score', issues', suggestions' := safetyScore, issues, suggestions;
    var stops := |Split(route, "->")| - 1;
    if stops > 2 {
      score' := score' - 10;
      issues' := issues' + [LongRoute];
      suggestions' := suggestions' + [PlanRouteCarefully];
    }
  }

  /** The weather block, entered only for truthy additional data: rain or
      storm costs 5, snow costs 7, both may apply. */
  method WeatherRisk(additionalData: Option<string>, safetyScore: int, issues: seq<Issue>,
                     suggestions: seq<Suggestion>)
    returns (score': int, issues': seq<Issue>, suggestions': seq<Suggestion>)
    ensures var data := if Truthy(additionalData) then ToLower(additionalData.value) else "";
            var storm := StormEffect(Truthy(additionalData) && (Contains(data, "rain") || Contains(data, "storm")));
            var snow := SnowEffect(Truthy(additionalData) && Contains(data, "snow"));
            && score' == safetyScore - storm.penalty - snow.penalty
            && issues' == issues + storm.issues + snow.issues
            && suggestions' == suggestions + storm.suggestions + snow.suggestions
  {
    score', issues', suggestions' := safetyScore, issues, suggestions;
    if Truthy(additionalData) {
      var weatherData := ToLower(additionalData.value);
      if Contains(weatherData, "rain") || Contains(weatherData, "storm") {
        score' := score' - 5;
        issues' := issues' + [RainOrStorm];
        suggestions' := suggestions' + [UseWeatherproofPackaging];
      }
      if Contains(weatherData, "snow") {
        score' := score' - 7;
        issues' := issues' + [SnowDelay];
        suggestions' := suggestions' + [PlanAlternateRoutes];
      }
    }
  }

  /** The ETA block, entered whenever an ETA is given. */
  method UrgencyRisk(etaHours: Option<int>, safetyScore: int, issues: seq<Issue>,
                     suggestions: seq<Suggestion>)
    returns (score': int, issues': seq<Issue>, suggestions': seq<Suggestion>)
    ensures var e := UrgencyEffect(etaHours);
            score' == safetyScore - e.penalty && issues' == issues + e.issues
            && suggestions' == suggestions + e.suggestions
  {
    score', issues', suggestions' := safetyScore, issues, suggestions;
    if etaHours.Some? {
      var penalty := UrgencyPenalty(etaHours.value);
      if penalty > 0 {
        score' := score' - penalty;
        issues' := issues' + [HighUrgency(etaHours.value)];
        suggestions' := suggestions' + [SpeedUpSafely];
        return;
      }
    }
  }

  /** Lines 33-118 of the handler: a score starting at 100 and two empty
      lists, run through the risk blocks in order. */
  method RiskBlocks(req: AnalyzeRequest) returns (safetyScore: int, issues: seq<Issue>,
                                                  suggestions: seq<Suggestion>)
    requires Truthy(req.cargoType) && Truthy(req.route)
    ensures var e := Assess(FeaturesOf(req));
            safetyScore == InitialScore - e.penalty && issues == e.issues
            && suggestions == e.suggestions
  {
    safetyScore := InitialScore;
    issues := [];
    suggestions := [];
    ghost var f := FeaturesOf(req);
    safetyScore, issues, suggestions := CargoRisk(req.cargoType.value, safetyScore, issues, suggestions);
    assert issues == CargoEffect(f.cargo).issues && suggestions == CargoEffect(f.cargo).suggestions;
    safetyScore, issues, suggestions := VehicleRisk(req.vehicleType, safetyScore, issues, suggestions);
    safetyScore, issues, suggestions := RouteRisk(req.route.value, safetyScore, issues, suggestions);
    safetyScore, issues, suggestions := WeatherRisk(req.additionalData, safetyScore, issues, suggestions);
    safetyScore, issues, suggestions := UrgencyRisk(req.etaHours, safetyScore, issues, suggestions);
  }

  /** The handler body: the required-field check, the risk blocks, the
      randomisation and the response. */
  method Analyze(req: AnalyzeRequest, draw: nat) returns (resp: AnalyzeResponse)
    requires draw <= 2 * HandlerVariance
    ensures resp == Analysis(req, draw)
  {
    if !Truthy(req.cargoType) || !Truthy(req.route) {
      return BadRequest(400, MissingFieldsError);
    }
    var safetyScore, issues, suggestions := RiskBlocks(req);
    safetyScore := RandomizeScore(safetyScore, HandlerVariance, draw);
    resp := ResponseBody(req, safetyScore, issues, suggestions);
  }
}
