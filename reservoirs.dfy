/** Reservoir records from the Water Resources Agency open-data feed, as
    `wraOpenDataApi` reshapes them (server/services/apiService.ts): a lookup
    table of the eighteen major reservoirs, the per-record transformation
    `transformReservoirData`, and the whitelist filter of
    `getMajorReservoirsRealtime`. */
module Reservoirs {
  import opened Wrappers

  /** A field as the feed sends it: its text, and the number parseFloat reads
      from that text (None where parseFloat gives NaN). */
  datatype Reading = Reading(text: string, parsed: Option<real>)

  /** One record of the daily-operation feed; absent fields are None. */
  datatype RawRecord = RawRecord(
    reservoiridentifier: string,
    reservoirname: string,
    capacity: Option<Reading>,
    nwlmax: Option<Reading>,
    inflow: Option<Reading>,
    outflow: Option<Reading>,
    outflowtotal: Option<Reading>,
    basinrainfall: Option<Reading>,
    datetime: Option<string>)

  /** Static facts about a reservoir. */
  datatype ReservoirInfo = ReservoirInfo(
    basin: string, county: string, fullWaterLevel: real, effectiveCapacity: real, lat: real, lng: real)

  datatype Status = Sufficient | Normal | Warning | Critical

  /** A transformed record; numbers are reals (the source renders them with
      toString or toFixed(1)). */
  datatype Reservoir = Reservoir(
    stationId: string,
    name: string,
    basin: string,
    county: string,
    latitude: real,
    longitude: real,
    effectiveCapacity: real,
    fullWaterLevel: real,
    waterLevel: Reading,
    effectiveStorage: real,
    storagePercentage: real,
    inflow: Reading,
    outflow: Reading,
    totalOutflow: Reading,
    basinRainfall: Reading,
    recordTime: Option<string>,
    status: Status)

  /** Basin, county, full water level, effective capacity and position of the
      eighteen reservoirs the transformation knows about. */
  const ReservoirTable: map<string, ReservoirInfo> := map[
    "10201" := ReservoirInfo("大漢溪", "桃園市", 245.0, 20913.0, 24.8167, 121.2333),
    "10205" := ReservoirInfo("北勢溪", "新北市", 170.0, 40600.0, 24.9000, 121.5667),
    "20201" := ReservoirInfo("大甲溪", "台中市", 1400.0, 17300.0, 24.2667, 121.1500),
    "20502" := ReservoirInfo("濁水溪", "南投縣", 748.5, 15400.0, 23.8500, 120.9167),
    "30502" := ReservoirInfo("曾文溪", "嘉義縣", 230.0, 50848.0, 23.2500, 120.5333),
    "30503" := ReservoirInfo("後堀溪", "台南市", 180.0, 15800.0, 23.0833, 120.4833),
    "30501" := ReservoirInfo("曾文溪", "台南市", 58.0, 8000.0, 23.2000, 120.3667),
    "20101" := ReservoirInfo("大安溪", "苗栗縣", 300.0, 12600.0, 24.3167, 120.7500),
    "10501" := ReservoirInfo("中港溪", "苗栗縣", 88.0, 2993.0, 24.5833, 120.9167),
    "10401" := ReservoirInfo("頭前溪", "新竹縣", 141.6, 501.0, 24.7333, 121.0500),
    "10405" := ReservoirInfo("頭前溪", "新竹縣", 145.0, 3380.0, 24.7167, 121.0667),
    "31201" := ReservoirInfo("四重溪", "屏東縣", 141.0, 2622.0, 22.1167, 120.7833),
    "30802" := ReservoirInfo("阿公店溪", "高雄市", 40.0, 1468.0, 22.7833, 120.3500),
    "30301" := ReservoirInfo("八掌溪", "嘉義縣", 75.38, 2459.0, 23.4667, 120.5000),
    "20509" := ReservoirInfo("北港溪", "雲林縣", 211.5, 5041.0, 23.5833, 120.6167),
    "20501" := ReservoirInfo("濁水溪", "南投縣", 1005.0, 2572.0, 24.0333, 121.1333),
    "10601" := ReservoirInfo("後龍溪", "苗栗縣", 85.0, 1242.0, 24.5500, 120.8833),
    "30401" := ReservoirInfo("白水溪", "台南市", 90.0, 1404.0, 23.3500, 120.4833)
  ]

  /** What an identifier outside the table is given. */
  const UnknownInfo: ReservoirInfo := ReservoirInfo("", "", 0.0, 0.0, 0.0, 0.0)

  /** The identifiers `getMajorReservoirsRealtime` keeps. */
  const MajorReservoirIds: seq<string> := [
    "10201", "10205", "20201", "20502", "30502", "30503", "30501", "20101",
    "10501", "10401", "10405", "31201", "30802", "30301", "20509", "20501",
    "10601", "30401"
  ]

  function InfoFor(id: string): (info: ReservoirInfo)
    ensures id in ReservoirTable ==> info == ReservoirTable[id]
    ensures id !in ReservoirTable ==> info == UnknownInfo
  {
    if id in ReservoirTable then ReservoirTable[id] else UnknownInfo
  }

  /** `field || '0'`: a missing or empty field reads as "0". */
  function OrZero(field: Option<Reading>): (r: Reading)
    ensures r.text != ""
    ensures field.Some? && field.value.text != "" ==> r == field.value
    ensures field.None? || field.value.text == "" ==> r == Reading("0", Some(0.0))
  {
    match field
    case Some(x) => if x.text != "" then x else Reading("0", Some(0.0))
    case None => Reading("0", Some(0.0))
  }

  /** `parseFloat(item.capacity) || 0`: a missing or unparsable capacity is 0. */
  function CapacityOf(item: RawRecord): (c: real)
    ensures item.capacity.None? || item.capacity.value.parsed.None? ==> c == 0.0
    ensures item.capacity.Some? && item.capacity.value.parsed.Some? ==> c == item.capacity.value.parsed.value
  {
    match item.capacity
    case None => 0.0
    case Some(r) => r.parsed.GetOr(0.0)
  }

  /** The effective capacity: the table's, else (when the table gives 0, as it
      does for an unknown identifier) the record's own capacity. */
  function EffectiveCapacity(info: ReservoirInfo, capacity: real): (e: real)
    ensures info.effectiveCapacity != 0.0 ==> e == info.effectiveCapacity
    ensures info.effectiveCapacity == 0.0 ==> e == capacity
  {
    if info.effectiveCapacity != 0.0 then info.effectiveCapacity else capacity
  }

  /** Storage as a percentage of effective capacity, 0 when that is not positive. */
  function StoragePercentage(capacity: real, effective: real): (pct: real)
    ensures effective > 0.0 ==> pct * effective == capacity * 100.0
    ensures effective <= 0.0 ==> pct == 0.0
    ensures effective > 0.0 && 0.0 <= capacity <= effective ==> 0.0 <= pct <= 100.0
  {
    if effective > 0.0 then
      var pct := capacity / effective * 100.0;
      assert (capacity / effective) * effective == capacity;
      assert capacity <= effective ==> capacity / effective <= 1.0;
      pct
    else 0.0
  }

  /** The status bands partition the percentages. */
  function StatusOf(pct: real): (s: Status)
    ensures s == Sufficient <==> pct >= 70.0
    ensures s == Normal <==> 40.0 <= pct < 70.0
    ensures s == Warning <==> 20.0 <= pct < 40.0
    ensures s == Critical <==> pct < 20.0
  {
    if pct >= 70.0 then Sufficient
    else if pct >= 40.0 then Normal
    else if pct >= 20.0 then Warning
    else Critical
  }

  /** One record of `transformReservoirData`. */
  function TransformRecord(item: RawRecord): (r: Reservoir)
    ensures r.stationId == item.reservoiridentifier && r.name == item.reservoirname
    ensures r.recordTime == item.datetime
    ensures r.effectiveStorage == CapacityOf(item)
    ensures item.reservoiridentifier in ReservoirTable ==>
      var info := ReservoirTable[item.reservoiridentifier];
      && r.basin == info.basin && r.county == info.county
      && r.effectiveCapacity == info.effectiveCapacity
      && r.fullWaterLevel == info.fullWaterLevel
      && r.latitude == info.lat && r.longitude == info.lng
    ensures item.reservoiridentifier !in ReservoirTable ==>
      && r.basin == "" && r.county == ""
      && r.effectiveCapacity == CapacityOf(item)
      && r.fullWaterLevel == 0.0 && r.latitude == 0.0 && r.longitude == 0.0
    ensures r.effectiveCapacity > 0.0 ==> r.storagePercentage * r.effectiveCapacity == r.effectiveStorage * 100.0
    ensures r.effectiveCapacity <= 0.0 ==> r.storagePercentage == 0.0
    ensures r.status == StatusOf(r.storagePercentage)
    ensures r.waterLevel == OrZero(item.nwlmax) && r.inflow == OrZero(item.inflow)
    ensures r.outflow == OrZero(item.outflow) && r.totalOutflow == OrZero(item.outflowtotal)
    ensures r.basinRainfall == OrZero(item.basinrainfall)
  {
    var info := InfoFor(item.reservoiridentifier);
    var capacity := CapacityOf(item);
    var effective := EffectiveCapacity(info, capacity);
    var pct := StoragePercentage(capacity, effective);
    Reservoir(
      item.reservoiridentifier,
      item.reservoirname,
      info.basin,
      info.county,
      info.lat,
      info.lng,
      effective,
      info.fullWaterLevel,
      OrZero(item.nwlmax),
      capacity,
      pct,
      OrZero(item.inflow),
      OrZero(item.outflow),
      OrZero(item.outflowtotal),
      OrZero(item.basinrainfall),
      item.datetime,
      StatusOf(pct))
  }

  /** `transformReservoirData`: the records transformed one by one, in order. */
  function TransformReservoirData(raw: seq<RawRecord>): (out: seq<Reservoir>)
    ensures |out| == |raw|
    ensures forall i :: 0 <= i < |raw| ==> out[i] == TransformRecord(raw[i])
    ensures forall i :: 0 <= i < |raw| ==> out[i].stationId == raw[i].reservoiridentifier
  {
    if raw == [] then []
    else [TransformRecord(raw[0])] + TransformReservoirData(raw[1..])
  }

  /** `getAllReservoirsRealtime` once the feed has been read: no data stays no data. */
  function GetAllReservoirsRealtime(daily: Option<seq<RawRecord>>): (r: Option<seq<Reservoir>>)
    ensures r.None? <==> daily.None?
    ensures daily.Some? ==> |r.value| == |daily.value|
    ensures daily.Some? ==> r.value == TransformReservoirData(daily.value)
  {
    match daily
    case None => None
    case Some(d) => Some(TransformReservoirData(d))
  }

  predicate IsMajor(item: RawRecord) {
    item.reservoiridentifier in MajorReservoirIds
  }

  /** `a` is `b` with some elements left out, the rest in their order. */
  predicate IsSubsequence<T(==)>(a: seq<T>, b: seq<T>)
    decreases |b|
  {
    || a == []
    || (b != [] && ((a[0] == b[0] && IsSubsequence(a[1..], b[1..])) || IsSubsequence(a, b[1..])))
  }

  /** The records with a whitelisted identifier: exactly those, each as often
      as in the input, and in input order. */
  function FilterMajor(records: seq<RawRecord>): (r: seq<RawRecord>)
    ensures IsSubsequence(r, records)
    ensures forall x :: x in r ==> IsMajor(x)
    ensures forall x :: IsMajor(x) ==> multiset(r)[x] == multiset(records)[x]
  {
    if records == [] then []
    else
      var rest := FilterMajor(records[1..]);
      assert records == [records[0]] + records[1..];
      if IsMajor(records[0]) then
        assert ([records[0]] + rest)[1..] == rest;
        [records[0]] + rest
      else rest
  }

  /** `getMajorReservoirsRealtime` once the feed has been read. */
  function GetMajorReservoirsRealtime(daily: Option<seq<RawRecord>>): (r: Option<seq<Reservoir>>)
    ensures r.None? <==> daily.None?
    ensures daily.Some? ==> r.value == TransformReservoirData(FilterMajor(daily.value))
  {
    match daily
    case None => None
    case Some(d) => Some(TransformReservoirData(FilterMajor(d)))
  }

  // ---------------------------------------------------------------------
  // Properties

  /** A subsequence is never longer than the sequence it came from. */
  lemma {:induction false} SubsequenceLength<T>(a: seq<T>, b: seq<T>)
    requires IsSubsequence(a, b)
    ensures |a| <= |b|
    decreases |b|
  {
    if a != [] {
      if a[0] == b[0] && IsSubsequence(a[1..], b[1..]) {
        SubsequenceLength(a[1..], b[1..]);
      } else {
        SubsequenceLength(a, b[1..]);
      }
    }
  }

  /** The whitelist and the table name the same eighteen reservoirs, every
      one with a basin and a positive effective capacity. */
  lemma MajorIdsAreTableKeys()
    ensures forall id :: id in MajorReservoirIds <==> id in ReservoirTable
    ensures forall id :: id in ReservoirTable ==>
      ReservoirTable[id].basin != "" && ReservoirTable[id].effectiveCapacity > 0.0
  {
    assert ReservoirTable.Keys == set id | id in MajorReservoirIds;
  }

  /** Every reservoir `getMajorReservoirsRealtime` returns is known to the table. */
  lemma MajorReservoirsAreKnown(daily: seq<RawRecord>)
    ensures var out := GetMajorReservoirsRealtime(Some(daily)).value;
      && |out| <= |daily|
      && forall i :: 0 <= i < |out| ==> KnownReservoir(out[i])
  {
    var kept := FilterMajor(daily);
    SubsequenceLength(kept, daily);
    var out := TransformReservoirData(kept);
    forall i | 0 <= i < |out|
      ensures KnownReservoir(out[i])
    {
      assert kept[i] in kept;
      KnownRecord(kept[i]);
    }
  }

  /** A reservoir the table knows: it has a basin, the table's effective
      capacity, and a percentage of that capacity. */
  ghost predicate KnownReservoir(r: Reservoir) {
    && r.stationId in ReservoirTable
    && r.basin != ""
    && r.effectiveCapacity == ReservoirTable[r.stationId].effectiveCapacity > 0.0
    && r.storagePercentage * r.effectiveCapacity == r.effectiveStorage * 100.0
  }

  lemma KnownRecord(item: RawRecord)
    requires IsMajor(item)
    ensures KnownReservoir(TransformRecord(item))
  {
    MajorIdsAreTableKeys();
  }

  /** A positive capacity under an unknown identifier is its own effective
      capacity: it reads as 100% and sufficient, with no basin or county. */
  lemma UnknownIdReadsFull(item: RawRecord)
    requires item.reservoiridentifier !in ReservoirTable
    requires CapacityOf(item) > 0.0
    ensures var r := TransformRecord(item);
      r.basin == "" && r.county == "" && r.storagePercentage == 100.0 && r.status == Sufficient
  {
  }

  /** A record with neither capacity nor a known identifier stores 0 at 0%. */
  lemma MissingCapacityUnknownId(item: RawRecord)
    requires item.reservoiridentifier !in ReservoirTable
    requires item.capacity.None?
    ensures var r := TransformRecord(item);
      r.effectiveStorage == 0.0 && r.storagePercentage == 0.0 && r.status == Critical
  {
  }

  /** A transformed record's optional fields are never empty. */
  lemma DefaultsNeverEmpty(item: RawRecord)
    ensures var r := TransformRecord(item);
      && r.waterLevel.text != "" && r.inflow.text != "" && r.outflow.text != ""
      && r.totalOutflow.text != "" && r.basinRainfall.text != ""
  {
  }

  /** Shihmen reservoir (10201) holding 10456.5 of its 20913 stands at 50%. */
  lemma ShihmenAtHalf()
    ensures var r := TransformRecord(Shihmen("10456.5", 10456.5));
      r.basin == "大漢溪" && r.county == "桃園市" && r.storagePercentage == 50.0 && r.status == Normal
  {
  }

  /** One capacity per band for Shihmen reservoir. */
  lemma ShihmenStatusBands()
    ensures TransformRecord(Shihmen("18000", 18000.0)).status == Sufficient
    ensures TransformRecord(Shihmen("10000", 10000.0)).status == Normal
    ensures TransformRecord(Shihmen("5000", 5000.0)).status == Warning
    ensures TransformRecord(Shihmen("2000", 2000.0)).status == Critical
  {
    ShihmenPercentage("18000", 18000.0);
    ShihmenPercentage("10000", 10000.0);
    ShihmenPercentage("5000", 5000.0);
    ShihmenPercentage("2000", 2000.0);
  }

  lemma ShihmenPercentage(text: string, c: real)
    ensures TransformRecord(Shihmen(text, c)).storagePercentage == c / 20913.0 * 100.0
  {
  }

  /** A Shihmen record with only a capacity. */
  function Shihmen(text: string, capacity: real): RawRecord {
    RawRecord("10201", "石門水庫", Some(Reading(text, Some(capacity))),
              None, None, None, None, None, Some("2024-01-12T10:00:00"))
  }
}
