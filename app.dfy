/**
 * The recommendation page of app/app.py without its widgets: the seven slider
 * metrics become one feature row, the row is narrowed to the classifier's own
 * column list, the classifier names a role, and the catalog supplies the first
 * three agents of that role.
 */
module App {
  import opened Wrappers
  import opened Frame
  import opened Catalog

  /** The seven metrics the page collects, in slider order. */
  datatype Metrics = Metrics(
    kills: real,
    deaths: real,
    assists: real,
    acs: real,
    utility: real,
    clutch: real,
    winRate: real)

  /**
   * A trained classifier: the feature names it was fitted on, in order
   * (`feature_names_in_`), and its prediction for a row given in that order
   * (`predict(...)[0]`). Its inner workings are not modelled.
   */
  datatype Classifier = Classifier(featureNames: seq<string>, predict: seq<real> -> string)

  /** A predicted role and the agents recommended for it. */
  datatype Prediction = Prediction(role: string, agents: seq<string>)

  /** Why a recommendation failed; both are KeyErrors in the page. */
  datatype Failure =
    | MissingFeatures(names: set<string>)  // the classifier wants columns the row lacks
    | RoleNotInCatalog(role: string)       // the classifier named a role the catalog lacks

  const MetricColumns: seq<string> := [
    "kills_per_match", "deaths_per_match", "assists_per_match", "acs",
    "utility_usage", "clutch_success_rate", "win_rate"]

  /** Head-shot percentage is not collected; every row carries this default. */
  const HeadshotColumn: string := "headshot_pct"
  const HeadshotDefault: real := 0.25

  /** The one-hot playstyle columns, never collected and always zero. */
  const PlaystyleColumns: seq<string> := [
    "playstyle_Aim-Focused Duelists",
    "playstyle_Low-Impact / Learning Players",
    "playstyle_Utility & Clutch Specialists"]

  /** The record the page turns into `input_df`: the metrics under their names and the head-shot default. */
  function BaseRow(m: Metrics): (r: Row)
    ensures WellFormed(r)
    ensures r.columns == MetricColumns + [HeadshotColumn]
  {
    Row(MetricColumns + [HeadshotColumn], map[
      "kills_per_match" := m.kills,
      "deaths_per_match" := m.deaths,
      "assists_per_match" := m.assists,
      "acs" := m.acs,
      "utility_usage" := m.utility,
      "clutch_success_rate" := m.clutch,
      "win_rate" := m.winRate,
      HeadshotColumn := HeadshotDefault])
  }

  /**
   * Reference for what the page supplies under each column name: a metric under
   * its own name, the head-shot default, zero for a playstyle column, and nothing
   * for any other name.
   */
  function FeatureValue(m: Metrics, c: string): Option<real> {
    if c == "kills_per_match" then Some(m.kills)
    else if c == "deaths_per_match" then Some(m.deaths)
    else if c == "assists_per_match" then Some(m.assists)
    else if c == "acs" then Some(m.acs)
    else if c == "utility_usage" then Some(m.utility)
    else if c == "clutch_success_rate" then Some(m.clutch)
    else if c == "win_rate" then Some(m.winRate)
    else if c == HeadshotColumn then Some(HeadshotDefault)
    else if c in PlaystyleColumns then Some(0.0)
    else None
  }

  /** The base row with the playstyle columns added as zeros: `input_df` just before line 72. */
  function FilledRow(m: Metrics): (r: Row)
    ensures WellFormed(r)
  {
    ZeroFilled(BaseRow(m), PlaystyleColumns)
  }

  /**
   * `input_df[model.feature_names_in_]` on the filled row: one value per schema
   * name, or a failure naming schema columns the row lacks (AssembleFeaturesSpec
   * says exactly which values and which names).
   */
  function AssembleFeatures(m: Metrics, schema: seq<string>): (r: Result<seq<real>, SelectError>)
    ensures r.Ok? ==> |r.value| == |schema|
    ensures r.Err? ==> r.error.names != {} && forall c :: c in r.error.names ==> c in schema
  {
    Select(FilledRow(m), schema)
  }

  /** The base row holds each metric unchanged under its name and 0.25 under headshot_pct, and nothing else. */
  lemma BaseRowCells(m: Metrics)
    ensures forall c :: c in BaseRow(m).cells <==> FeatureValue(m, c).Some? && c !in PlaystyleColumns
    ensures forall c :: c in BaseRow(m).cells ==> BaseRow(m).cells[c] == FeatureValue(m, c).value
  {
    var r := BaseRow(m);
    forall c
      ensures c in r.cells <==> FeatureValue(m, c).Some? && c !in PlaystyleColumns
      ensures c in r.cells ==> r.cells[c] == FeatureValue(m, c).value
    {
      if c in MetricColumns + [HeadshotColumn] {
        assert c !in PlaystyleColumns;
      }
    }
  }

  /** The filled row holds exactly the values FeatureValue describes, under exactly the names it knows. */
  lemma FilledRowCells(m: Metrics)
    ensures forall c :: c in FilledRow(m).cells <==> FeatureValue(m, c).Some?
    ensures forall c :: c in FilledRow(m).cells ==> FilledRow(m).cells[c] == FeatureValue(m, c).value
    ensures BaseRow(m).columns <= FilledRow(m).columns
  {
    BaseRowCells(m);
    ZeroFilledSpec(BaseRow(m), PlaystyleColumns);
  }

  /**
   * Assembly succeeds exactly when every schema name is one the page knows how to
   * fill; it then yields, position by position, the value FeatureValue gives for
   * that name, and otherwise reports exactly the unknown names.
   */
  lemma AssembleFeaturesSpec(m: Metrics, schema: seq<string>)
    ensures AssembleFeatures(m, schema).Ok? <==> forall c :: c in schema ==> FeatureValue(m, c).Some?
    ensures AssembleFeatures(m, schema).Ok? ==>
              && |AssembleFeatures(m, schema).value| == |schema|
              && forall i :: 0 <= i < |schema| ==> AssembleFeatures(m, schema).value[i] == FeatureValue(m, schema[i]).value
    ensures AssembleFeatures(m, schema).Err? ==>
              AssembleFeatures(m, schema).error.names == set c | c in schema && FeatureValue(m, c).None?
  {
    FilledRowCells(m);
  }

  /**
   * The whole button handler: assemble the row for the classifier's schema,
   * predict a role, and recommend the first three agents of that role.
   */
  function Predict(model: Classifier, m: Metrics): (r: Result<Prediction, Failure>)
    ensures AssembleFeatures(m, model.featureNames).Err? ==>
              r == Err(MissingFeatures(AssembleFeatures(m, model.featureNames).error.names))
    ensures r.Ok? <==>
              && AssembleFeatures(m, model.featureNames).Ok?
              && model.predict(AssembleFeatures(m, model.featureNames).value) in RoleToAgents()
    ensures r.Ok? ==>
              && r.value.role == model.predict(AssembleFeatures(m, model.featureNames).value)
              && r.value.agents <= RoleToAgents()[r.value.role]
              && |r.value.agents| == RecommendationSize
    ensures AssembleFeatures(m, model.featureNames).Ok? &&
            model.predict(AssembleFeatures(m, model.featureNames).value) !in RoleToAgents() ==>
              r == Err(RoleNotInCatalog(model.predict(AssembleFeatures(m, model.featureNames).value)))
  {
    match AssembleFeatures(m, model.featureNames)
    case Err(e) => Err(MissingFeatures(e.names))
    case Ok(features) =>
      var role := model.predict(features);
      match Recommend(RoleToAgents(), role)
      case Err(_) => Err(RoleNotInCatalog(role))
      case Ok(agents) =>
        CatalogRoleYieldsThree(role);
        Ok(Prediction(role, agents))
  }

  /**
   * The handler as the page runs it: `input_df` is built, zero-filled in place
   * column by column, narrowed to the classifier's columns, and classified.
   */
  method RecommendAgents(model: Classifier, m: Metrics) returns (r: Result<Prediction, Failure>)
    ensures r == Predict(model, m)
  {
    var inputDf := new DataFrame(BaseRow(m));
    AddZeroColumns(inputDf, PlaystyleColumns);
    var features := Select(inputDf.Value(), model.featureNames);
    if features.Err? {
      return Err(MissingFeatures(features.error.names));
    }
    var predictedRole := model.predict(features.value);
    var recommended := Recommend(RoleToAgents(), predictedRole);
    if recommended.Err? {
      return Err(RoleNotInCatalog(predictedRole));
    }
    r := Ok(Prediction(predictedRole, recommended.value));
  }
}
