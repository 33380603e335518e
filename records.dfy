/**
 * The store of manually entered same-day quotes (app.py: load_today_data,
 * save_today_record, update_record, delete_record) and the request checks of
 * the add and update routes. The JSON file is the `data` field of a
 * RecordStore; "today" and "now" are parameters.
 */
module Records {
  import opened Wrappers

  /**
   * One stored quote. `id` is optional because the file is read as it is and
   * a record without an id is counted as id 0; `updatedTime` is only present
   * after an update.
   */
  datatype Record = Record(
    id: Option<int>,
    date: string,
    time: string,
    fromCity: string,
    toCity: string,
    vehicle: string,
    price: real,
    updatedTime: Option<string>)

  /** `d.get('id', 0)`. */
  function IdOrZero(r: Record): int {
    if r.id.Some? then r.id.value else 0
  }

  /** `max([d.get('id', 0) for d in data], default=0)`. */
  function MaxId(data: seq<Record>): (m: int)
    ensures forall i :: 0 <= i < |data| ==> IdOrZero(data[i]) <= m
    ensures data == [] ==> m == 0
    ensures data != [] ==> exists i :: 0 <= i < |data| && IdOrZero(data[i]) == m
  {
    if data == [] then 0
    else if |data| == 1 then IdOrZero(data[0])
    else
      var rest := MaxId(data[1..]);
      if IdOrZero(data[0]) >= rest then IdOrZero(data[0])
      else
        assert forall i :: 1 <= i < |data| ==> data[i] == data[1..][i - 1];
        rest
  }

  /**
   * The id save_today_record gives a new record: one more than the largest
   * existing id (missing ids counted as 0), or 1 for an empty store. It is
   * larger than every id currently stored, not every id ever given out: after
   * the newest record is deleted, the next record gets an id no larger than
   * the deleted one, and exactly the deleted id when the id just below it is
   * still stored (`NextIdAfterDelete`).
   */
  function NextId(data: seq<Record>): (id: int)
    ensures forall i :: 0 <= i < |data| ==> IdOrZero(data[i]) < id
    ensures data == [] ==> id == 1
    ensures data != [] ==> exists i :: 0 <= i < |data| && id == IdOrZero(data[i]) + 1
  {
    MaxId(data) + 1
  }

  /** No id occurs twice among the records that carry one. */
  predicate UniqueIds(data: seq<Record>) {
    forall i, j :: 0 <= i < j < |data| && data[i].id.Some? ==> data[i].id != data[j].id
  }

  /** `k` is the first position whose record has id `id` (`record.get('id') == record_id`). */
  predicate FirstWithIdAt(data: seq<Record>, id: int, k: int) {
    0 <= k < |data| && data[k].id == Some(id) &&
    forall j :: 0 <= j < k ==> data[j].id != Some(id)
  }

  /** The position update_record and delete_record act on, or None when no record has the id. */
  function FirstWithId(data: seq<Record>, id: int): (k: Option<nat>)
    ensures k.None? <==> forall j :: 0 <= j < |data| ==> data[j].id != Some(id)
    ensures k.Some? ==> FirstWithIdAt(data, id, k.value)
  {
    if data == [] then None
    else if data[0].id == Some(id) then Some(0)
    else
      var k := FirstWithId(data[1..], id);
      if k.Some? then
        assert forall j :: 1 <= j <= k.value ==> data[j] == data[1..][j - 1];
        Some(k.value + 1)
      else
        assert forall j :: 1 <= j < |data| ==> data[j] == data[1..][j - 1];
        None
  }

  /** The fields an update may change; None means the field is absent from the request. */
  datatype Patch = Patch(
    fromCity: Option<string>,
    toCity: Option<string>,
    vehicle: Option<string>,
    price: Option<real>)

  /**
   * update_record on one record: copies those of from_city, to_city, vehicle
   * and price that the patch has, stamps updated_time, and keeps id, date and
   * creation time.
   */
  function ApplyPatch(r: Record, p: Patch, now: string): (u: Record)
    ensures u.id == r.id && u.date == r.date && u.time == r.time
    ensures u.fromCity == (if p.fromCity.Some? then p.fromCity.value else r.fromCity)
    ensures u.toCity == (if p.toCity.Some? then p.toCity.value else r.toCity)
    ensures u.vehicle == (if p.vehicle.Some? then p.vehicle.value else r.vehicle)
    ensures u.price == (if p.price.Some? then p.price.value else r.price)
    ensures u.updatedTime == Some(now)
  {
    var r1 := if p.fromCity.Some? then r.(fromCity := p.fromCity.value) else r;
    var r2 := if p.toCity.Some? then r1.(toCity := p.toCity.value) else r1;
    var r3 := if p.vehicle.Some? then r2.(vehicle := p.vehicle.value) else r2;
    var r4 := if p.price.Some? then r3.(price := p.price.value) else r3;
    r4.(updatedTime := Some(now))
  }

  /** `data.pop(k)`: the store without position `k`, the others in their order. */
  function Without(data: seq<Record>, k: nat): (r: seq<Record>)
    requires k < |data|
    ensures |r| == |data| - 1
    ensures forall j :: 0 <= j < k ==> r[j] == data[j]
    ensures forall j :: k <= j < |r| ==> r[j] == data[j + 1]
    ensures multiset(r) + multiset{data[k]} == multiset(data)
  {
    assert data == data[..k] + [data[k]] + data[k + 1..];
    data[..k] + data[k + 1..]
  }

  /** load_today_data's filter: the records dated `today`, in stored order. */
  function OnDate(data: seq<Record>, today: string): (r: seq<Record>)
    ensures forall x :: x in r <==> x in data && x.date == today
    ensures |r| <= |data|
  {
    if data == [] then []
    else
      var rest := OnDate(data[..|data| - 1], today);
      assert data == data[..|data| - 1] + [data[|data| - 1]];
      if data[|data| - 1].date == today then rest + [data[|data| - 1]] else rest
  }

  /** The filter distributes over concatenation, so it keeps the stored order. */
  lemma {:induction false} OnDateConcat(a: seq<Record>, b: seq<Record>, today: string)
    ensures OnDate(a + b, today) == OnDate(a, today) + OnDate(b, today)
  {
    if b != [] {
      OnDateConcat(a, b[..|b| - 1], today);
      assert (a + b)[..|a + b| - 1] == a + b[..|b| - 1];
    } else {
      assert a + b == a;
    }
  }

  /** A record saved today is the last of today's records afterwards; the others stay as they were. */
  lemma SavedIsListed(data: seq<Record>, saved: Record, today: string)
    requires saved.date == today
    ensures OnDate(data + [saved], today) == OnDate(data, today) + [saved]
  {
    OnDateConcat(data, [saved], today);
  }

  /** Appending a record with NextId keeps ids unique. */
  lemma SaveKeepsIdsUnique(data: seq<Record>, saved: Record)
    requires UniqueIds(data)
    requires saved.id == Some(NextId(data))
    ensures UniqueIds(data + [saved])
  {
    var d := data + [saved];
    forall i, j | 0 <= i < j < |d| && d[i].id.Some?
      ensures d[i].id != d[j].id
    {
      if j == |data| {
        assert IdOrZero(data[i]) < NextId(data);
      }
    }
  }

  /** An update never changes ids, so it keeps them unique. */
  lemma PatchKeepsIdsUnique(data: seq<Record>, k: nat, p: Patch, now: string)
    requires k < |data| && UniqueIds(data)
    ensures UniqueIds(data[k := ApplyPatch(data[k], p, now)])
  {
  }

  /** A delete removes one record and moves none to another id, so it keeps ids unique. */
  lemma DeleteKeepsIdsUnique(data: seq<Record>, k: nat)
    requires k < |data| && UniqueIds(data)
    ensures UniqueIds(Without(data, k))
  {
  }

  /**
   * Ids can be reused: after the record with the largest id is deleted, the
   * next record saved gets an id no larger than the deleted one, and exactly
   * the deleted one when the id just below it is still stored.
   */
  lemma NextIdAfterDelete(data: seq<Record>, k: nat)
    requires k < |data|
    requires forall i :: 0 <= i < |data| && i != k ==> IdOrZero(data[i]) < IdOrZero(data[k])
    requires IdOrZero(data[k]) >= 1
    ensures NextId(Without(data, k)) <= IdOrZero(data[k])
    ensures (exists i :: 0 <= i < |data| && i != k && IdOrZero(data[i]) == IdOrZero(data[k]) - 1) ==>
              NextId(Without(data, k)) == IdOrZero(data[k])
  {
    var r := Without(data, k);
    forall i | 0 <= i < |r| ensures IdOrZero(r[i]) < IdOrZero(data[k]) {
      if i < k { assert r[i] == data[i]; } else { assert r[i] == data[i + 1]; }
    }
    if r != [] {
      var i :| 0 <= i < |r| && NextId(r) == IdOrZero(r[i]) + 1;
    }
    if exists i :: 0 <= i < |data| && i != k && IdOrZero(data[i]) == IdOrZero(data[k]) - 1 {
      var i :| 0 <= i < |data| && i != k && IdOrZero(data[i]) == IdOrZero(data[k]) - 1;
      if i < k { assert r[i] == data[i]; } else { assert r[i - 1] == data[i]; }
    }
  }

  /**
   * With unique ids, deleting the record with `id` removes it from every later
   * listing of today's records, and leaves every other record of the day listed.
   */
  lemma DeletedIsNotListed(data: seq<Record>, id: int, today: string)
    requires UniqueIds(data)
    requires FirstWithId(data, id).Some?
    ensures forall x :: x in OnDate(Without(data, FirstWithId(data, id).value), today) ==> x.id != Some(id)
    ensures forall x :: x in OnDate(data, today) && x.id != Some(id) ==>
      x in OnDate(Without(data, FirstWithId(data, id).value), today)
  {
    var k := FirstWithId(data, id).value;
    var r := Without(data, k);
    forall x | x in r ensures x.id != Some(id) {
      var j :| 0 <= j < |r| && r[j] == x;
      if j >= k {
        assert data[j + 1] == x;
      }
    }
    forall x | x in data && x.id != Some(id) ensures x in r {
      var j :| 0 <= j < |data| && data[j] == x;
      if j < k {
        assert r[j] == x;
      } else {
        assert j != k;
        assert r[j - 1] == x;
      }
    }
  }

  // ----- request checks of the add and update routes -----

  /** A JSON price: a number, or a string that float() may or may not accept. */
  datatype PriceValue = Number(x: real) | Text(s: string)

  /** Python's float() on a string: None when it raises. */
  type FloatParser = string -> Option<real>

  /** `float(value)`. */
  function ParsePrice(v: PriceValue, parse: FloatParser): Option<real> {
    match v
    case Number(x) => Some(x)
    case Text(s) => parse(s)
  }

  /** `data.get(field)` is truthy for a text field: present and non-empty. */
  predicate Filled(f: Option<string>) {
    f.Some? && f.value != ""
  }

  /** `data.get('price')` is truthy: present, and neither 0 nor the empty string. */
  predicate PriceFilled(f: Option<PriceValue>) {
    match f
    case None => false
    case Some(Number(x)) => x != 0.0
    case Some(Text(s)) => s != ""
  }

  /**
   * The JSON body of an add or update request, restricted to the fields the
   * routes look at; None for a field the request lacks.
   */
  datatype Request = Request(
    fromCity: Option<string>,
    toCity: Option<string>,
    vehicle: Option<string>,
    price: Option<PriceValue>)

  /** The record api_add_record passes on to save_today_record. */
  datatype NewRecord = NewRecord(fromCity: string, toCity: string, vehicle: string, price: real)

  datatype ApiError = MissingField(field: string) | NonPositivePrice | BadPriceFormat | NotFound

  /**
   * api_add_record's checks: every required field, in the order from_city,
   * to_city, vehicle, price, must be truthy; then the price must parse and be
   * greater than zero.
   */
  function ValidateAdd(req: Request, parse: FloatParser): (r: Result<NewRecord, ApiError>)
    ensures !Filled(req.fromCity) ==> r == Failure(MissingField("from_city"))
    ensures Filled(req.fromCity) && !Filled(req.toCity) ==> r == Failure(MissingField("to_city"))
    ensures Filled(req.fromCity) && Filled(req.toCity) && !Filled(req.vehicle) ==>
      r == Failure(MissingField("vehicle"))
    ensures Filled(req.fromCity) && Filled(req.toCity) && Filled(req.vehicle) && !PriceFilled(req.price) ==>
      r == Failure(MissingField("price"))
    ensures (Filled(req.fromCity) && Filled(req.toCity) && Filled(req.vehicle) && PriceFilled(req.price) &&
             ParsePrice(req.price.value, parse).None?) ==>
              r == Failure(BadPriceFormat)
    ensures (Filled(req.fromCity) && Filled(req.toCity) && Filled(req.vehicle) && PriceFilled(req.price) &&
             ParsePrice(req.price.value, parse).Some? && ParsePrice(req.price.value, parse).value <= 0.0) ==>
              r == Failure(NonPositivePrice)
    ensures r.Success? <==>
      Filled(req.fromCity) && Filled(req.toCity) && Filled(req.vehicle) && PriceFilled(req.price) &&
      ParsePrice(req.price.value, parse).Some? && ParsePrice(req.price.value, parse).value > 0.0
    ensures r.Success? ==>
      r.value == NewRecord(req.fromCity.value, req.toCity.value, req.vehicle.value, ParsePrice(req.price.value, parse).value)
    ensures r.Success? ==> r.value.price > 0.0
  {
    if !Filled(req.fromCity) then Failure(MissingField("from_city"))
    else if !Filled(req.toCity) then Failure(MissingField("to_city"))
    else if !Filled(req.vehicle) then Failure(MissingField("vehicle"))
    else if !PriceFilled(req.price) then Failure(MissingField("price"))
    else match ParsePrice(req.price.value, parse)
      case None => Failure(BadPriceFormat)
      case Some(p) =>
        if p <= 0.0 then Failure(NonPositivePrice)
        else Success(NewRecord(req.fromCity.value, req.toCity.value, req.vehicle.value, p))
  }

  /**
   * api_update_record's check: a price present in the request must parse and be
   * greater than zero (no truthiness test here, so 0 is refused as
   * non-positive); the other fields pass through unchecked.
   */
  function ValidateUpdate(req: Request, parse: FloatParser): (r: Result<Patch, ApiError>)
    ensures req.price.None? ==> r == Success(Patch(req.fromCity, req.toCity, req.vehicle, None))
    ensures req.price.Some? && ParsePrice(req.price.value, parse).None? ==> r == Failure(BadPriceFormat)
    ensures req.price.Some? && ParsePrice(req.price.value, parse).Some? ==>
      var p := ParsePrice(req.price.value, parse).value;
      r == if p <= 0.0 then Failure(NonPositivePrice) else Success(Patch(req.fromCity, req.toCity, req.vehicle, Some(p)))
    ensures r.Success? && r.value.price.Some? ==> r.value.price.value > 0.0
  {
    match req.price
    case None => Success(Patch(req.fromCity, req.toCity, req.vehicle, None))
    case Some(v) =>
      match ParsePrice(v, parse)
      case None => Failure(BadPriceFormat)
      case Some(p) =>
        if p <= 0.0 then Failure(NonPositivePrice)
        else Success(Patch(req.fromCity, req.toCity, req.vehicle, Some(p)))
  }

  /** The JSON file of today's quotes, read whole by every operation and written back whole by every successful add, update and delete. */
  class RecordStore {
    var data: seq<Record>

    /** The store as the file holds it (an unreadable file reads as empty). */
    constructor (initial: seq<Record>)
      ensures data == initial
    {
      data := initial;
    }

    /** load_today_data: the records dated `today`, in stored order. */
    function LoadTodayData(today: string): (r: seq<Record>)
      reads this
      ensures r == OnDate(data, today)
    {
      OnDate(data, today)
    }

    /**
     * save_today_record: stamps the record with today's date, the current time
     * and the next id, and appends it.
     */
    method SaveTodayRecord(rec: NewRecord, today: string, now: string) returns (saved: Record)
      modifies this
      ensures saved == Record(Some(NextId(old(data))), today, now, rec.fromCity, rec.toCity, rec.vehicle, rec.price, None)
      ensures data == old(data) + [saved]
    {
      var id := NextId(data);
      saved := Record(Some(id), today, now, rec.fromCity, rec.toCity, rec.vehicle, rec.price, None);
      data := data + [saved];
    }

    /**
     * update_record: patches the first record with the id and returns it, or
     * returns None and leaves the store as it was.
     */
    method UpdateRecord(recordId: int, patch: Patch, now: string) returns (updated: Option<Record>)
      modifies this
      ensures FirstWithId(old(data), recordId).None? ==> updated.None? && data == old(data)
      ensures FirstWithId(old(data), recordId).Some? ==>
        var k := FirstWithId(old(data), recordId).value;
        updated == Some(ApplyPatch(old(data)[k], patch, now)) && data == old(data)[k := updated.value]
    {
      var i := 0;
      while i < |data|
        invariant 0 <= i <= |data|
        invariant data == old(data)
        invariant forall j :: 0 <= j < i ==> data[j].id != Some(recordId)
      {
        if data[i].id == Some(recordId) {
          assert FirstWithIdAt(data, recordId, i);
          var u := ApplyPatch(data[i], patch, now);
          data := data[i := u];
          return Some(u);
        }
        i := i + 1;
      }
      return None;
    }

    /**
     * delete_record: removes the first record with the id and returns it, or
     * returns None and leaves the store as it was.
     */
    method DeleteRecord(recordId: int) returns (deleted: Option<Record>)
      modifies this
      ensures FirstWithId(old(data), recordId).None? ==> deleted.None? && data == old(data)
      ensures FirstWithId(old(data), recordId).Some? ==>
        var k := FirstWithId(old(data), recordId).value;
        deleted == Some(old(data)[k]) && data == Without(old(data), k)
    {
      var i := 0;
      while i < |data|
        invariant 0 <= i <= |data|
        invariant data == old(data)
        invariant forall j :: 0 <= j < i ==> data[j].id != Some(recordId)
      {
        if data[i].id == Some(recordId) {
          assert FirstWithIdAt(data, recordId, i);
          deleted := Some(data[i]);
          data := Without(data, i);
          return;
        }
        i := i + 1;
      }
      return None;
    }

    /** api_add_record: a request that fails the checks leaves the store unchanged. */
    method AddRecord(req: Request, parse: FloatParser, today: string, now: string)
      returns (r: Result<Record, ApiError>)
      modifies this
      ensures ValidateAdd(req, parse).Failure? ==>
        r == Failure(ValidateAdd(req, parse).error) && data == old(data)
      ensures ValidateAdd(req, parse).Success? ==>
        var n := ValidateAdd(req, parse).value;
        r == Success(Record(Some(NextId(old(data))), today, now, n.fromCity, n.toCity, n.vehicle, n.price, None)) &&
        data == old(data) + [r.value]
    {
      var v := ValidateAdd(req, parse);
      if v.Failure? {
        return Failure(v.error);
      }
      var saved := SaveTodayRecord(v.value, today, now);
      return Success(saved);
    }

    /**
     * api_update_record: a request whose price fails the check, or whose id
     * matches no record, leaves the store unchanged.
     */
    method ModifyRecord(recordId: int, req: Request, parse: FloatParser, now: string)
      returns (r: Result<Record, ApiError>)
      modifies this
      ensures ValidateUpdate(req, parse).Failure? ==>
        r == Failure(ValidateUpdate(req, parse).error) && data == old(data)
      ensures ValidateUpdate(req, parse).Success? && FirstWithId(old(data), recordId).None? ==>
        r == Failure(NotFound) && data == old(data)
      ensures ValidateUpdate(req, parse).Success? && FirstWithId(old(data), recordId).Some? ==>
        var k := FirstWithId(old(data), recordId).value;
        r == Success(ApplyPatch(old(data)[k], ValidateUpdate(req, parse).value, now)) &&
        data == old(data)[k := r.value]
    {
      var v := ValidateUpdate(req, parse);
      if v.Failure? {
        return Failure(v.error);
      }
      var updated := UpdateRecord(recordId, v.value, now);
      if updated.None? {
        return Failure(NotFound);
      }
      return Success(updated.value);
    }

    /** api_delete_record: an id that matches no record is reported as not found. */
    method RemoveRecord(recordId: int) returns (r: Result<Record, ApiError>)
      modifies this
      ensures FirstWithId(old(data), recordId).None? ==> r == Failure(NotFound) && data == old(data)
      ensures FirstWithId(old(data), recordId).Some? ==>
        var k := FirstWithId(old(data), recordId).value;
        r == Success(old(data)[k]) && data == Without(old(data), k)
    {
      var deleted := DeleteRecord(recordId);
      if deleted.None? {
        return Failure(NotFound);
      }
      return Success(deleted.value);
    }
  }
}
