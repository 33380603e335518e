/**
 * The training-set builder and the model bank of Predictor.prepare_and_train,
 * as functions: which rows enter the training table, in which order, and which
 * keys of `models` and `scalers` a successful training (re)writes.
 */
module Training {
  import opened Wrappers
  import opened Cities
  import opened StringOrder
  import Records

  /** The key of the model trained on every row regardless of vehicle type. */
  const General: string := "通用"

  /**
   * One spreadsheet row: the destination cell (None when NA), the freight price
   * cell (None when NA) and the vehicle type.
   */
  datatype HistoryRow = HistoryRow(destination: Option<string>, price: Option<real>, vehicle: string)

  /** One entry of `training_records`. */
  datatype TrainingRow = TrainingRow(city: string, distance: real, price: real, vehicle: string)

  /**
   * The row a spreadsheet row contributes: one whose destination names a known
   * city (a truthy, so non-empty, name), whose price is not NA and whose
   * distance from the origin is truthy (`if distance:` drops a zero distance as
   * well as an unknown one).
   */
  function HistoryRowFor(atlas: Atlas, fromCity: string, h: HistoryRow): (r: Option<TrainingRow>)
    ensures r.Some? <==>
      var city := ExtractCity(atlas.table, h.destination);
      city.Some? && city.value != "" && h.price.Some? && Truthy(GetDistance(atlas, fromCity, city.value))
    ensures r.Some? ==>
      r.value.city == ExtractCity(atlas.table, h.destination).value && r.value.price == h.price.value &&
      r.value.vehicle == h.vehicle && r.value.distance > 0.0 && Known(atlas.table, r.value.city)
    ensures r.Some? ==> r.value.distance == GetDistance(atlas, fromCity, r.value.city).value
  {
    var city := ExtractCity(atlas.table, h.destination);
    if city.Some? && city.value != "" && h.price.Some? then
      var d := GetDistance(atlas, fromCity, city.value);
      if Truthy(d) then Some(TrainingRow(city.value, d.value, h.price.value, h.vehicle)) else None
    else None
  }

  /**
   * The row a stored quote contributes: one from the requested origin whose
   * destination is known and at a truthy distance.
   */
  function TodayRowFor(atlas: Atlas, fromCity: string, rec: Records.Record): (r: Option<TrainingRow>)
    ensures r.Some? <==> rec.fromCity == fromCity && Truthy(GetDistance(atlas, fromCity, rec.toCity))
    ensures r.Some? ==>
      r.value.city == rec.toCity && r.value.price == rec.price && r.value.vehicle == rec.vehicle &&
      r.value.distance > 0.0 && Known(atlas.table, r.value.city)
    ensures r.Some? ==> r.value.distance == GetDistance(atlas, fromCity, r.value.city).value
  {
    if rec.fromCity == fromCity then
      var d := GetDistance(atlas, fromCity, rec.toCity);
      if Truthy(d) then Some(TrainingRow(rec.toCity, d.value, rec.price, rec.vehicle)) else None
    else None
  }

  /** Every row has a known city and a positive distance. */
  predicate WellFormed(table: seq<CityEntry>, rows: seq<TrainingRow>) {
    forall i :: 0 <= i < |rows| ==> rows[i].distance > 0.0 && Known(table, rows[i].city)
  }

  /** The rows the spreadsheet contributes, one per qualifying row, in sheet order. */
  function HistoryRows(atlas: Atlas, fromCity: string, history: seq<HistoryRow>): (rows: seq<TrainingRow>)
    ensures WellFormed(atlas.table, rows)
  {
    if history == [] then []
    else
      var init := HistoryRows(atlas, fromCity, history[..|history| - 1]);
      var next := HistoryRowFor(atlas, fromCity, history[|history| - 1]);
      if next.None? then init else init + [next.value]
  }

  /** The rows the stored quotes contribute: each qualifying quote three times in a row, in stored order. */
  function TodayRows(atlas: Atlas, fromCity: string, today: seq<Records.Record>): (rows: seq<TrainingRow>)
    ensures WellFormed(atlas.table, rows)
  {
    if today == [] then []
    else
      var init := TodayRows(atlas, fromCity, today[..|today| - 1]);
      var next := TodayRowFor(atlas, fromCity, today[|today| - 1]);
      if next.None? then init
      else init + [next.value, next.value, next.value]
  }

  /** One step of the spreadsheet loop. */
  lemma HistoryRowsStep(atlas: Atlas, fromCity: string, history: seq<HistoryRow>)
    requires history != []
    ensures
      var next := HistoryRowFor(atlas, fromCity, history[|history| - 1]);
      HistoryRows(atlas, fromCity, history) ==
        HistoryRows(atlas, fromCity, history[..|history| - 1]) + (if next.Some? then [next.value] else [])
  {
  }

  /** One step of the quote loop. */
  lemma TodayRowsStep(atlas: Atlas, fromCity: string, today: seq<Records.Record>)
    requires today != []
    ensures
      var next := TodayRowFor(atlas, fromCity, today[|today| - 1]);
      TodayRows(atlas, fromCity, today) ==
        TodayRows(atlas, fromCity, today[..|today| - 1]) + (if next.Some? then [next.value, next.value, next.value] else [])
  {
  }

  /**
   * A quote saved today, from the origin and at a truthy distance, adds its row
   * three times at the end of the rows the day's quotes contribute; any other
   * saved quote adds nothing.
   */
  lemma SavedQuoteWeighsThree(
    atlas: Atlas, fromCity: string, data: seq<Records.Record>, saved: Records.Record, today: string)
    requires saved.date == today
    ensures
      var next := TodayRowFor(atlas, fromCity, saved);
      TodayRows(atlas, fromCity, Records.OnDate(data + [saved], today)) ==
        TodayRows(atlas, fromCity, Records.OnDate(data, today)) +
        (if next.Some? then [next.value, next.value, next.value] else [])
  {
    Records.SavedIsListed(data, saved, today);
    var listed := Records.OnDate(data, today) + [saved];
    assert listed[..|listed| - 1] == Records.OnDate(data, today);
  }

  /** `training_records`: the spreadsheet rows followed by the weighted quotes. */
  function TrainingSet(atlas: Atlas, fromCity: string, history: seq<HistoryRow>, today: seq<Records.Record>)
    : (rows: seq<TrainingRow>)
    ensures WellFormed(atlas.table, rows)
  {
    HistoryRows(atlas, fromCity, history) + TodayRows(atlas, fromCity, today)
  }

  /** How many elements of `s` satisfy `p`. */
  function CountWhere<T>(s: seq<T>, p: T -> bool): nat {
    if s == [] then 0 else CountWhere(s[..|s| - 1], p) + (if p(s[|s| - 1]) then 1 else 0)
  }

  /**
   * The training table holds one row per qualifying spreadsheet row and three
   * per qualifying quote.
   */
  lemma {:induction false} TrainingSetLength(
    atlas: Atlas, fromCity: string, history: seq<HistoryRow>, today: seq<Records.Record>)
    ensures |TrainingSet(atlas, fromCity, history, today)| ==
      CountWhere(history, h => HistoryRowFor(atlas, fromCity, h).Some?) +
      3 * CountWhere(today, t => TodayRowFor(atlas, fromCity, t).Some?)
  {
    HistoryRowsLength(atlas, fromCity, history);
    TodayRowsLength(atlas, fromCity, today);
  }

  lemma {:induction false} HistoryRowsLength(atlas: Atlas, fromCity: string, history: seq<HistoryRow>)
    ensures |HistoryRows(atlas, fromCity, history)| == CountWhere(history, h => HistoryRowFor(atlas, fromCity, h).Some?)
  {
    if history != [] { HistoryRowsLength(atlas, fromCity, history[..|history| - 1]); }
  }

  lemma {:induction false} TodayRowsLength(atlas: Atlas, fromCity: string, today: seq<Records.Record>)
    ensures |TodayRows(atlas, fromCity, today)| == 3 * CountWhere(today, t => TodayRowFor(atlas, fromCity, t).Some?)
  {
    if today != [] { TodayRowsLength(atlas, fromCity, today[..|today| - 1]); }
  }

  /** Quotes from other origins contribute nothing to the training table. */
  lemma {:induction false} TodayRowsOnlyFromOrigin(atlas: Atlas, fromCity: string, today: seq<Records.Record>)
    requires forall i :: 0 <= i < |today| ==> today[i].fromCity != fromCity
    ensures TodayRows(atlas, fromCity, today) == []
  {
    if today != [] { TodayRowsOnlyFromOrigin(atlas, fromCity, today[..|today| - 1]); }
  }

  /** The vehicle types that occur in the rows. */
  function VehiclesOf(rows: seq<TrainingRow>): set<string> {
    set i | 0 <= i < |rows| :: rows[i].vehicle
  }

  /**
   * `sorted(train_df['vehicle'].unique().tolist())`: the vehicle types of the
   * rows, each once, in increasing order.
   */
  function SortedVehicles(rows: seq<TrainingRow>): (types: seq<string>)
    ensures StrictlySorted(types)
    ensures forall v :: v in types <==> v in VehiclesOf(rows)
  {
    if rows == [] then []
    else
      var init := rows[..|rows| - 1];
      assert VehiclesOf(rows) == VehiclesOf(init) + {rows[|rows| - 1].vehicle} by {
        assert forall i :: 0 <= i < |init| ==> rows[i] == init[i];
      }
      InsertSorted(SortedVehicles(init), rows[|rows| - 1].vehicle)
  }

  /** The row is of this vehicle type. */
  predicate OfType(vehicle: string, x: TrainingRow) {
    x.vehicle == vehicle
  }

  /**
   * `train_df[train_df['vehicle'] == vehicle]`: the rows of one vehicle type,
   * in order, every copy kept; its length (`RowsOfCount`) is what
   * `len(vehicle_data) >= 3` tests.
   */
  function RowsOf(rows: seq<TrainingRow>, vehicle: string): (r: seq<TrainingRow>)
    ensures forall i :: 0 <= i < |r| ==> r[i].vehicle == vehicle
    ensures forall x :: x in r <==> x in rows && x.vehicle == vehicle
    ensures |r| > 0 ==> vehicle in VehiclesOf(rows)
  {
    if rows == [] then []
    else
      var init := RowsOf(rows[..|rows| - 1], vehicle);
      assert rows == rows[..|rows| - 1] + [rows[|rows| - 1]];
      if rows[|rows| - 1].vehicle == vehicle then init + [rows[|rows| - 1]] else init
  }

  /** Every row of the type is kept, copies included: one selected row per row of that type. */
  lemma {:induction false} RowsOfCount(rows: seq<TrainingRow>, vehicle: string)
    ensures |RowsOf(rows, vehicle)| == CountWhere(rows, x => OfType(vehicle, x))
  {
    if rows != [] { RowsOfCount(rows[..|rows| - 1], vehicle); }
  }

  /** Selecting one vehicle type distributes over concatenation, so it keeps row order. */
  lemma {:induction false} RowsOfConcat(a: seq<TrainingRow>, b: seq<TrainingRow>, vehicle: string)
    ensures RowsOf(a + b, vehicle) == RowsOf(a, vehicle) + RowsOf(b, vehicle)
  {
    if b == [] {
      assert a + b == a;
    } else {
      var init := b[..|b| - 1];
      assert (a + b)[..|a + b| - 1] == a + init;
      RowsOfConcat(a, init, vehicle);
    }
  }

  /** StandardScaler fitted on the distances of these rows; the fit itself is not modelled. */
  datatype Scaler = Scaler(distances: seq<real>)

  /** LinearRegression fitted on these (scaled) distances and prices; the fit itself is not modelled. */
  datatype Regression = Regression(distances: seq<real>, prices: seq<real>)

  function Distances(rows: seq<TrainingRow>): seq<real> {
    seq(|rows|, i requires 0 <= i < |rows| => rows[i].distance)
  }

  function Prices(rows: seq<TrainingRow>): seq<real> {
    seq(|rows|, i requires 0 <= i < |rows| => rows[i].price)
  }

  function FitScaler(rows: seq<TrainingRow>): Scaler {
    Scaler(Distances(rows))
  }

  function FitRegression(rows: seq<TrainingRow>): Regression {
    Regression(Distances(rows), Prices(rows))
  }

  /**
   * The per-vehicle loop of prepare_and_train over `types`, in order: every
   * type with at least 3 rows gets an entry fitted on its rows; the bank is
   * never cleared.
   */
  function Refit<T>(bank: map<string, T>, rows: seq<TrainingRow>, types: seq<string>, fit: seq<TrainingRow> -> T)
    : (r: map<string, T>)
    ensures bank.Keys <= r.Keys
    ensures forall v :: v in r && v !in bank ==> v in types && |RowsOf(rows, v)| >= 3
  {
    if types == [] then bank
    else
      var b := Refit(bank, rows, types[..|types| - 1], fit);
      var v := types[|types| - 1];
      if |RowsOf(rows, v)| >= 3 then b[v := fit(RowsOf(rows, v))] else b
  }

  /** One step of the per-vehicle loop. */
  lemma RefitStep<T>(bank: map<string, T>, rows: seq<TrainingRow>, types: seq<string>, fit: seq<TrainingRow> -> T)
    requires types != []
    ensures
      var b := Refit(bank, rows, types[..|types| - 1], fit);
      var v := types[|types| - 1];
      Refit(bank, rows, types, fit) == if |RowsOf(rows, v)| >= 3 then b[v := fit(RowsOf(rows, v))] else b
  {
  }

  lemma {:induction false} RefitSpec<T>(
    bank: map<string, T>, rows: seq<TrainingRow>, types: seq<string>, fit: seq<TrainingRow> -> T)
    ensures forall v :: v in Refit(bank, rows, types, fit) <==> v in bank || (v in types && |RowsOf(rows, v)| >= 3)
    ensures forall v :: v in types && |RowsOf(rows, v)| >= 3 ==> Refit(bank, rows, types, fit)[v] == fit(RowsOf(rows, v))
    ensures forall v :: v in bank && !(v in types && |RowsOf(rows, v)| >= 3) ==> Refit(bank, rows, types, fit)[v] == bank[v]
  {
    if types != [] {
      var init := types[..|types| - 1];
      RefitSpec(bank, rows, init, fit);
      assert forall v :: v in types <==> v in init || v == types[|types| - 1];
    }
  }

  /**
   * The bank after a successful training on `rows`: the per-vehicle entries for
   * every type with at least 3 rows, then the general entry fitted on all rows.
   */
  function Retrain<T>(bank: map<string, T>, rows: seq<TrainingRow>, fit: seq<TrainingRow> -> T): (r: map<string, T>)
    ensures General in r && r[General] == fit(rows)
    ensures bank.Keys <= r.Keys
    ensures forall v :: v in r && v !in bank && v != General ==> v in VehiclesOf(rows) && |RowsOf(rows, v)| >= 3
  {
    Refit(bank, rows, SortedVehicles(rows), fit)[General := fit(rows)]
  }

  /**
   * What a successful training does to a bank: the general entry is fitted on
   * every row; an entry of another type is (re)written exactly when the type has
   * at least 3 rows; every other entry survives untouched.
   */
  lemma RetrainSpec<T>(bank: map<string, T>, rows: seq<TrainingRow>, fit: seq<TrainingRow> -> T)
    ensures General in Retrain(bank, rows, fit) && Retrain(bank, rows, fit)[General] == fit(rows)
    ensures forall v :: v != General ==> (v in Retrain(bank, rows, fit) <==> v in bank || |RowsOf(rows, v)| >= 3)
    ensures forall v :: v != General && |RowsOf(rows, v)| >= 3 ==> Retrain(bank, rows, fit)[v] == fit(RowsOf(rows, v))
    ensures forall v :: v != General && v in bank && |RowsOf(rows, v)| < 3 ==> Retrain(bank, rows, fit)[v] == bank[v]
  {
    RefitSpec(bank, rows, SortedVehicles(rows), fit);
  }

  /** A qualifying quote appended to the day's quotes adds its row three times at the end of the table. */
  lemma TrainingSetAppend(
    atlas: Atlas, fromCity: string, history: seq<HistoryRow>, today: seq<Records.Record>, quote: Records.Record)
    requires TodayRowFor(atlas, fromCity, quote).Some?
    ensures
      var row := TodayRowFor(atlas, fromCity, quote).value;
      TrainingSet(atlas, fromCity, history, today + [quote]) ==
        TrainingSet(atlas, fromCity, history, today) + [row, row, row]
  {
    var all := today + [quote];
    assert all[..|all| - 1] == today;
    TodayRowsStep(atlas, fromCity, all);
  }

  /** Three copies of a row of the selected type are all selected. */
  lemma RowsOfThree(row: TrainingRow)
    ensures RowsOf([row, row, row], row.vehicle) == [row, row, row]
  {
    assert [row][..0] == [];
    assert RowsOf([row], row.vehicle) == [row];
    assert [row, row][..1] == [row];
    assert RowsOf([row, row], row.vehicle) == [row, row];
    assert [row, row, row][..2] == [row, row];
  }

  /**
   * One qualifying quote alone earns its vehicle type a model of its own: its
   * three copies give the type at least 3 rows, so training writes that type's
   * entry, fitted on the type's rows.
   */
  lemma QuoteEarnsOwnModel<T>(
    atlas: Atlas, fromCity: string, history: seq<HistoryRow>, today: seq<Records.Record>,
    quote: Records.Record, bank: map<string, T>, fit: seq<TrainingRow> -> T)
    requires TodayRowFor(atlas, fromCity, quote).Some?
    requires quote.vehicle != General
    ensures
      var rows := TrainingSet(atlas, fromCity, history, today + [quote]);
      |RowsOf(rows, quote.vehicle)| >= 3 &&
      quote.vehicle in Retrain(bank, rows, fit) &&
      Retrain(bank, rows, fit)[quote.vehicle] == fit(RowsOf(rows, quote.vehicle))
  {
    var row := TodayRowFor(atlas, fromCity, quote).value;
    var before := TrainingSet(atlas, fromCity, history, today);
    var rows := TrainingSet(atlas, fromCity, history, today + [quote]);
    TrainingSetAppend(atlas, fromCity, history, today, quote);
    RowsOfConcat(before, [row, row, row], quote.vehicle);
    RowsOfThree(row);
    assert |RowsOf(rows, quote.vehicle)| >= 3;
    RetrainSpec(bank, rows, fit);
  }

  /** Two banks with the same keys still have the same keys after training on the same rows. */
  lemma RetrainSameKeys<S, T>(
    a: map<string, S>, b: map<string, T>, rows: seq<TrainingRow>, fa: seq<TrainingRow> -> S, fb: seq<TrainingRow> -> T)
    requires a.Keys == b.Keys
    ensures Retrain(a, rows, fa).Keys == Retrain(b, rows, fb).Keys
  {
    RetrainSpec(a, rows, fa);
    RetrainSpec(b, rows, fb);
  }

  /** The bank after prepare_and_train: unchanged when the training table is empty. */
  function BankAfter<T>(bank: map<string, T>, rows: seq<TrainingRow>, fit: seq<TrainingRow> -> T): (r: map<string, T>)
    ensures rows == [] ==> r == bank
    ensures rows != [] ==> General in r && r[General] == fit(rows)
    ensures bank.Keys <= r.Keys
  {
    if rows == [] then bank else Retrain(bank, rows, fit)
  }

  /** `vehicle_types` after prepare_and_train: unchanged when the training table is empty. */
  function TypesAfter(types: seq<string>, rows: seq<TrainingRow>): (r: seq<string>)
    ensures rows == [] ==> r == types
    ensures rows != [] ==> StrictlySorted(r) && forall v :: v in r <==> v in VehiclesOf(rows)
  {
    if rows == [] then types else SortedVehicles(rows)
  }
}
