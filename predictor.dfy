/**
 * The Predictor object of app.py: its spreadsheet rows and same-day quotes,
 * the banks of fitted models and scalers it updates in place, the training
 * method prepare_and_train and the prediction method predict.
 */
module Prediction {
  import opened Wrappers
  import opened Cities
  import opened Training
  import Records

  /** `scaler.transform` followed by `model.predict` on one distance (sklearn, not modelled). */
  type Estimator = (Regression, Scaler, real) -> real

  /** The dictionary predict returns, with distance and price before rounding. */
  datatype PredictionResult = PredictionResult(
    fromCity: string,
    toCity: string,
    distance: real,
    price: real,
    vehicle: string,
    hasHistory: bool,
    isPrediction: bool)

  datatype PredictError =
    | NoDistance(fromCity: string, toCity: string)  // the message "无法计算 … 的距离"
    | NoModel                                        // the KeyError of `self.models[vehicle_type]`

  /** `for _ in range(3): training_records.append(row)`. */
  method AppendThrice(rows: seq<TrainingRow>, row: TrainingRow) returns (r: seq<TrainingRow>)
    ensures r == rows + [row, row, row]
  {
    r := rows;
    var n := 0;
    while n < 3
      invariant 0 <= n <= 3
      invariant r == rows + [row, row, row][..n]
    {
      r := r + [row];
      n := n + 1;
    }
    assert [row, row, row][..n] == [row, row, row];
  }

  /** `max(predicted, 0)`. */
  function ClampAtZero(x: real): (r: real)
    ensures r >= 0.0 && r >= x
    ensures r == x || r == 0.0
  {
    if x >= 0.0 then x else 0.0
  }

  /**
   * The selection and clamp of predict once the banks are trained: the requested
   * vehicle type if it has a model, otherwise the general one.
   */
  function Quote(
    models: map<string, Regression>, scalers: map<string, Scaler>,
    fromCity: string, toCity: string, distance: real, vehicle: string, estimate: Estimator)
    : (r: Result<PredictionResult, PredictError>)
    ensures r.Success? <==>
      (if vehicle in models then vehicle in scalers else General in models && General in scalers)
    ensures r.Success? ==> r.value.vehicle == (if vehicle in models then vehicle else General)
    ensures r.Success? ==>
      r.value.price == ClampAtZero(estimate(models[r.value.vehicle], scalers[r.value.vehicle], distance))
    ensures r.Success? ==> r.value.price >= 0.0
    ensures r.Success? ==> (r.value.hasHistory <==> toCity in CitiesWithHistory)
    ensures r.Success? ==> r.value.isPrediction == !r.value.hasHistory
    ensures r.Success? ==>
      r.value.fromCity == fromCity && r.value.toCity == toCity && r.value.distance == distance
    ensures r.Failure? ==> r.error == NoModel
  {
    var used := if vehicle in models then vehicle else General;
    if used !in models || used !in scalers then Failure(NoModel)
    else
      var hasHistory := toCity in CitiesWithHistory;
      Success(PredictionResult(fromCity, toCity, distance,
        ClampAtZero(estimate(models[used], scalers[used], distance)), used, hasHistory, !hasHistory))
  }

  /** Requesting a vehicle type without a model gives exactly what requesting the general model gives. */
  lemma FallbackIsGeneral(
    models: map<string, Regression>, scalers: map<string, Scaler>,
    fromCity: string, toCity: string, distance: real, vehicle: string, estimate: Estimator)
    requires vehicle !in models
    ensures Quote(models, scalers, fromCity, toCity, distance, vehicle, estimate) ==
            Quote(models, scalers, fromCity, toCity, distance, General, estimate)
  {
  }

  /**
   * After a training on a non-empty table, starting from banks with the same
   * keys, every vehicle type gets a prediction: the general entry is there.
   */
  lemma TrainedQuoteSucceeds(
    models: map<string, Regression>, scalers: map<string, Scaler>, rows: seq<TrainingRow>,
    fromCity: string, toCity: string, distance: real, vehicle: string, estimate: Estimator)
    requires models.Keys == scalers.Keys && rows != []
    ensures Quote(Retrain(models, rows, FitRegression), Retrain(scalers, rows, FitScaler),
                  fromCity, toCity, distance, vehicle, estimate).Success?
  {
    RetrainSpec(models, rows, FitRegression);
    RetrainSameKeys(models, scalers, rows, FitRegression, FitScaler);
  }

  class Predictor {
    /** CITY_COORDINATES and the geodesic distance of the geometry library. */
    const atlas: Atlas
    /** `self.df`: the spreadsheet rows. */
    const history: seq<HistoryRow>
    /** `self.today_data`: the stored quotes dated today, as loaded. */
    const todayData: seq<Records.Record>

    var models: map<string, Regression>
    var scalers: map<string, Scaler>
    var vehicleTypes: seq<string>

    /** Both banks have the same keys, and a non-empty bank has the general entry. */
    ghost predicate Valid()
      reads this
    {
      models.Keys == scalers.Keys && (models.Keys != {} ==> General in models)
    }

    /** `Predictor(excel_file)` followed by load_data: empty banks, no vehicle types. */
    constructor (atlas: Atlas, history: seq<HistoryRow>, todayData: seq<Records.Record>)
      ensures Valid()
      ensures this.atlas == atlas && this.history == history && this.todayData == todayData
      ensures models == map[] && scalers == map[] && vehicleTypes == []
    {
      this.atlas := atlas;
      this.history := history;
      this.todayData := todayData;
      models := map[];
      scalers := map[];
      vehicleTypes := [];
    }

    /**
     * The first loop of prepare_and_train: every spreadsheet row with a known
     * destination, a price and a truthy distance, once, in sheet order.
     */
    method CollectHistory(fromCity: string) returns (trainingRecords: seq<TrainingRow>)
      ensures trainingRecords == HistoryRows(atlas, fromCity, history)
    {
      trainingRecords := [];
      var i := 0;
      while i < |history|
        invariant 0 <= i <= |history|
        invariant trainingRecords == HistoryRows(atlas, fromCity, history[..i])
      {
        var next := HistoryRowFor(atlas, fromCity, history[i]);
        HistoryRowsStep(atlas, fromCity, history[..i + 1]);
        assert history[..i + 1][..i] == history[..i];
        if next.Some? {
          trainingRecords := trainingRecords + [next.value];
        }
        i := i + 1;
      }
      assert history[..i] == history;
    }

    /**
     * The second loop of prepare_and_train: appends every quote from
     * `fromCity` at a truthy distance three times, in stored order.
     */
    method AppendToday(fromCity: string, before: seq<TrainingRow>) returns (trainingRecords: seq<TrainingRow>)
      ensures trainingRecords == before + TodayRows(atlas, fromCity, todayData)
    {
      trainingRecords := before;
      var j := 0;
      while j < |todayData|
        invariant 0 <= j <= |todayData|
        invariant trainingRecords == before + TodayRows(atlas, fromCity, todayData[..j])
      {
        var next := TodayRowFor(atlas, fromCity, todayData[j]);
        TodayRowsStep(atlas, fromCity, todayData[..j + 1]);
        assert todayData[..j + 1][..j] == todayData[..j];
        if next.Some? {
          var row := next.value;
          trainingRecords := AppendThrice(trainingRecords, row);
          assert before + TodayRows(atlas, fromCity, todayData[..j]) + [row, row, row] ==
                 before + (TodayRows(atlas, fromCity, todayData[..j]) + [row, row, row]);
        }
        j := j + 1;
      }
      assert todayData[..j] == todayData;
    }

    /**
     * The per-vehicle loop of prepare_and_train: for each type, in order, a
     * model and scaler fitted on its rows when it has at least 3.
     */
    method FitPerVehicle(rows: seq<TrainingRow>, types: seq<string>)
      modifies this`models, this`scalers
      ensures models == Refit(old(models), rows, types, FitRegression)
      ensures scalers == Refit(old(scalers), rows, types, FitScaler)
    {
      var t := 0;
      while t < |types|
        invariant 0 <= t <= |types|
        invariant models == Refit(old(models), rows, types[..t], FitRegression)
        invariant scalers == Refit(old(scalers), rows, types[..t], FitScaler)
      {
        var vehicle := types[t];
        var vehicleData := RowsOf(rows, vehicle);
        assert types[..t + 1][..t] == types[..t] && types[..t + 1][t] == vehicle;
        RefitStep(old(models), rows, types[..t + 1], FitRegression);
        RefitStep(old(scalers), rows, types[..t + 1], FitScaler);
        if |vehicleData| >= 3 {
          models := models[vehicle := FitRegression(vehicleData)];
          scalers := scalers[vehicle := FitScaler(vehicleData)];
        }
        t := t + 1;
      }
      assert types[..t] == types;
    }

    /**
     * The fitting half of prepare_and_train on a non-empty table: the sorted
     * vehicle types, a model and scaler per type with at least 3 rows, then the
     * general ones.
     */
    method FitBanks(rows: seq<TrainingRow>)
      requires Valid() && rows != []
      modifies this
      ensures Valid()
      ensures vehicleTypes == SortedVehicles(rows)
      ensures models == Retrain(old(models), rows, FitRegression)
      ensures scalers == Retrain(old(scalers), rows, FitScaler)
    {
      vehicleTypes := SortedVehicles(rows);
      FitPerVehicle(rows, vehicleTypes);
      models := models[General := FitRegression(rows)];
      scalers := scalers[General := FitScaler(rows)];
      RetrainSameKeys(old(models), old(scalers), rows, FitRegression, FitScaler);
      RetrainSpec(old(models), rows, FitRegression);
    }

    /**
     * prepare_and_train: builds the training table for `fromCity` and, unless it
     * is empty, retrains the banks; entries of earlier trainings are never
     * removed.
     */
    method PrepareAndTrain(fromCity: string) returns (ok: bool)
      requires Valid()
      modifies this
      ensures Valid()
      ensures ok <==> TrainingSet(atlas, fromCity, history, todayData) != []
      ensures models == BankAfter(old(models), TrainingSet(atlas, fromCity, history, todayData), FitRegression)
      ensures scalers == BankAfter(old(scalers), TrainingSet(atlas, fromCity, history, todayData), FitScaler)
      ensures vehicleTypes == TypesAfter(old(vehicleTypes), TrainingSet(atlas, fromCity, history, todayData))
    {
      var trainingRecords := CollectHistory(fromCity);
      trainingRecords := AppendToday(fromCity, trainingRecords);
      if trainingRecords == [] {
        return false;
      }
      FitBanks(trainingRecords);
      return true;
    }

    /**
     * predict: fails without retraining when the distance is unknown; otherwise
     * retrains for `fromCity` (keeping the old banks if that finds no rows) and
     * quotes from the trained banks.
     */
    method Predict(fromCity: string, toCity: string, vehicle: string, estimate: Estimator)
      returns (r: Result<PredictionResult, PredictError>)
      requires Valid()
      modifies this
      ensures Valid()
      ensures GetDistance(atlas, fromCity, toCity).None? ==>
        r == Failure(NoDistance(fromCity, toCity)) &&
        models == old(models) && scalers == old(scalers) && vehicleTypes == old(vehicleTypes)
      ensures GetDistance(atlas, fromCity, toCity).Some? ==>
        var rows := TrainingSet(atlas, fromCity, history, todayData);
        models == BankAfter(old(models), rows, FitRegression) &&
        scalers == BankAfter(old(scalers), rows, FitScaler) &&
        vehicleTypes == TypesAfter(old(vehicleTypes), rows) &&
        r == Quote(models, scalers, fromCity, toCity, GetDistance(atlas, fromCity, toCity).value, vehicle, estimate)
    {
      var distance := GetDistance(atlas, fromCity, toCity);
      if distance.None? {
        return Failure(NoDistance(fromCity, toCity));
      }
      var _ := PrepareAndTrain(fromCity);
      r := Quote(models, scalers, fromCity, toCity, distance.value, vehicle, estimate);
    }
  }

  /**
   * A prediction after a successful training of the same predictor never fails
   * for lack of a model, and its price is never negative.
   */
  lemma PredictAfterTraining(
    p: Predictor, fromCity: string, toCity: string, vehicle: string, estimate: Estimator)
    requires p.Valid()
    requires GetDistance(p.atlas, fromCity, toCity).Some?
    requires TrainingSet(p.atlas, fromCity, p.history, p.todayData) != []
    ensures
      var rows := TrainingSet(p.atlas, fromCity, p.history, p.todayData);
      var q := Quote(Retrain(p.models, rows, FitRegression), Retrain(p.scalers, rows, FitScaler),
                     fromCity, toCity, GetDistance(p.atlas, fromCity, toCity).value, vehicle, estimate);
      q.Success? && q.value.price >= 0.0
  {
    var rows := TrainingSet(p.atlas, fromCity, p.history, p.todayData);
    TrainedQuoteSucceeds(p.models, p.scalers, rows, fromCity, toCity,
      GetDistance(p.atlas, fromCity, toCity).value, vehicle, estimate);
  }
}
