/** Reconstruction of a record's history from the ledger's per-key log. */
module History {
  import opened Outcomes
  import opened Errors
  import opened Records
  import opened Keys
  import opened Codec
  import opened Iterators

  /** A protobuf timestamp as the history database stores it. */
  datatype ProtoTimestamp = ProtoTimestamp(seconds: int, nanos: int)

  /** One version in a key's log. A deletion has an empty value. */
  datatype KeyModification = KeyModification(
    txId: string,
    value: Bytes,
    timestamp: Option<ProtoTimestamp>,
    isDelete: bool)

  /** The range protobuf timestamps are valid in: from 0001-01-01T00:00:00Z
      up to, not including, 10000-01-01T00:00:00Z, with nanoseconds in
      [0, 10^9). */
  const MinValidSeconds: int := -62135596800
  const MaxValidSeconds: int := 253402300800
  const NanosPerSecond: int := 1000000000

  predicate ValidTimestamp(ts: ProtoTimestamp) {
    MinValidSeconds <= ts.seconds < MaxValidSeconds && 0 <= ts.nanos < NanosPerSecond
  }

  /** Conversion of a stored timestamp to a wall-clock time: it fails on a
      missing or out-of-range timestamp and otherwise keeps the instant. */
  function ToTime(ts: Option<ProtoTimestamp>): (r: Result<Time, Error>)
    ensures r.Ok? <==> ts.Some? && ValidTimestamp(ts.value)
    ensures r.Ok? ==> r.value.unixSeconds == ts.value.seconds && r.value.nanos == ts.value.nanos
    ensures r.Err? ==> r.error == TimestampInvalid
  {
    if ts.Some? && ValidTimestamp(ts.value) then Ok(Time(ts.value.seconds, ts.value.nanos))
    else Err(TimestampInvalid)
  }

  /** The record a version carries: the zero record for an empty value,
      otherwise the decoded value. */
  function Snapshot(m: KeyModification, c: Codec): (r: Result<Aml, Error>)
    ensures |m.value| == 0 ==> r == Ok(DefaultAml)
    ensures |m.value| > 0 ==> (r.Ok? <==> Decode(c, m.value).Some?)
    ensures |m.value| > 0 && r.Ok? ==> r.value == Decode(c, m.value).value
    ensures r.Err? ==> r.error == DecodeFailed
  {
    if |m.value| > 0 then
      match Decode(c, m.value)
      case None => Err(DecodeFailed)
      case Some(a) => Ok(a)
    else Ok(DefaultAml)
  }

  /** One history entry: the value is decoded before the timestamp is
      converted, so a version failing both reports the decoding failure. */
  function ToHistoryResult(m: KeyModification, c: Codec): Result<HistoryQueryResult, Error> {
    var record :- Snapshot(m, c);
    var timestamp :- ToTime(m.timestamp);
    Ok(HistoryQueryResult(record, m.txId, timestamp, m.isDelete))
  }

  /** Whether a version converts into a history entry. */
  predicate Converts(m: KeyModification, c: Codec) {
    (|m.value| == 0 || Decode(c, m.value).Some?) && ToTime(m.timestamp).Ok?
  }

  /** The entry a converting version yields: transaction id and deletion flag
      copied, timestamp converted, record decoded or the zero record. */
  predicate Reflects(h: HistoryQueryResult, m: KeyModification, c: Codec)
    requires Converts(m, c)
  {
    && h.txId == m.txId
    && h.isDelete == m.isDelete
    && h.timestamp == ToTime(m.timestamp).value
    && h.record == (if |m.value| == 0 then DefaultAml else Decode(c, m.value).value)
  }

  /** Replays a key's log into history entries: one entry per version, in log
      order; any failed `Next`, undecodable value or invalid timestamp fails
      the whole history. */
  function ReplayLog(log: seq<Fetch<KeyModification>>, c: Codec): (r: Result<seq<HistoryQueryResult>, Error>)
    ensures r.Ok? <==> forall j :: 0 <= j < |log| ==> log[j].Fetched? && Converts(log[j].item, c)
    ensures r.Ok? ==> |r.value| == |log| && forall j :: 0 <= j < |log| ==> Reflects(r.value[j], log[j].item, c)
    ensures r.Err? ==> exists i :: FirstBadVersion(log, i, c) && r.error == VersionError(log[i], c)
  {
    var f := (m: KeyModification) => ToHistoryResult(m, c);
    var r := Drain(log, f);
    assert forall j :: 0 <= j < |log| ==> (Succeeds(log[j], f) <==> log[j].Fetched? && Converts(log[j].item, c));
    assert forall j :: 0 <= j < |log| && !Succeeds(log[j], f) ==> FailureOf(log[j], f) == VersionError(log[j], c);
    r
  }

  /** `log[i]` is the first entry that fails: its `Next` failed or it does
      not convert, and every earlier entry converts. */
  predicate FirstBadVersion(log: seq<Fetch<KeyModification>>, i: int, c: Codec) {
    && 0 <= i < |log|
    && !(log[i].Fetched? && Converts(log[i].item, c))
    && forall j :: 0 <= j < i ==> log[j].Fetched? && Converts(log[j].item, c)
  }

  /** The error a failing log entry reports: a failed `Next`, else an
      undecodable non-empty value, else (the value being fine) an invalid
      timestamp. */
  function VersionError(x: Fetch<KeyModification>, c: Codec): Error {
    if x.FetchFailed? then NextFailed
    else if |x.item.value| > 0 && Decode(c, x.item.value).None? then DecodeFailed
    else TimestampInvalid
  }

  /** The history of the record a (country, id, owner) triple names, read
      from the log of the key Create, Update and Delete use for that triple.
      The history database maps a key to its log iterator, or to `None` when
      it cannot open one. */
  function GetAssetHistory(
    historyForKey: string -> Option<seq<Fetch<KeyModification>>>,
    country: string, idNumber: string, owner: string, c: Codec): (r: Result<seq<HistoryQueryResult>, Error>)
    ensures var log := historyForKey(MakeKey(country, idNumber, owner));
      && (log.None? ==> r == Err(HistoryFailed(MakeKey(country, idNumber, owner))))
      && (log.Some? ==>
        && (r.Ok? <==> forall j :: 0 <= j < |log.value| ==> log.value[j].Fetched? && Converts(log.value[j].item, c))
        && (r.Ok? ==>
          && |r.value| == |log.value|
          && forall j :: 0 <= j < |log.value| ==> Reflects(r.value[j], log.value[j].item, c))
        && (r.Err? ==> exists i :: FirstBadVersion(log.value, i, c) && r.error == VersionError(log.value[i], c)))
  {
    var key := MakeKey(country, idNumber, owner);
    match historyForKey(key)
    case None => Err(HistoryFailed(key))
    case Some(log) => ReplayLog(log, c)
  }

  /** One committed transaction on a key: `written` is the record it put,
      or `None` for a deletion. */
  datatype Version = Version(txId: string, written: Option<Aml>, at: ProtoTimestamp)

  /** The log the history database keeps for a sequence of committed
      versions: a put stores the marshalled record, a deletion an empty value
      with the deletion flag set. */
  function LogOf(c: Codec, versions: seq<Version>): (log: seq<Fetch<KeyModification>>)
    ensures |log| == |versions|
  {
    seq(|versions|, j requires 0 <= j < |versions| =>
      var v := versions[j];
      Fetched(KeyModification(
        v.txId, if v.written.Some? then Encode(c, v.written.value) else [], Some(v.at), v.written.None?)))
  }

  /** The history entry a committed version should read back as. */
  function Expected(v: Version): HistoryQueryResult {
    HistoryQueryResult(
      if v.written.Some? then v.written.value else DefaultAml,
      v.txId, Time(v.at.seconds, v.at.nanos), v.written.None?)
  }

  /** A log of puts and deletions with valid timestamps replays to exactly
      those versions, in order: each put reads back as the record written,
      each deletion as the zero record flagged deleted. */
  lemma ReplayCommittedVersions(c: Codec, versions: seq<Version>)
    requires Sound(c)
    requires forall j :: 0 <= j < |versions| ==> ValidTimestamp(versions[j].at)
    ensures var r := ReplayLog(LogOf(c, versions), c);
      && r.Ok? && |r.value| == |versions|
      && forall j :: 0 <= j < |versions| ==> r.value[j] == Expected(versions[j])
  {
    var log := LogOf(c, versions);
    forall j | 0 <= j < |versions| ensures log[j].Fetched? && Converts(log[j].item, c) {
      if versions[j].written.Some? {
        DecodeEncode(c, versions[j].written.value);
      }
    }
    var r := ReplayLog(log, c);
    forall j | 0 <= j < |versions| ensures r.value[j] == Expected(versions[j]) {
      assert Reflects(r.value[j], log[j].item, c);
      if versions[j].written.Some? {
        DecodeEncode(c, versions[j].written.value);
      }
    }
  }

  /** A record created, updated and then deleted has a three-entry history
      in that order: the two versions as written, then a deletion carrying
      the zero record. */
  lemma CreateUpdateDeleteHistory(
    c: Codec, created: Aml, updated: Aml, t1: ProtoTimestamp, t2: ProtoTimestamp, t3: ProtoTimestamp)
    requires Sound(c)
    requires ValidTimestamp(t1) && ValidTimestamp(t2) && ValidTimestamp(t3)
    ensures var r := ReplayLog(LogOf(c, [
        Version("tx1", Some(created), t1), Version("tx2", Some(updated), t2), Version("tx3", None, t3)]), c);
      && r.Ok? && |r.value| == 3
      && r.value[0] == HistoryQueryResult(created, "tx1", Time(t1.seconds, t1.nanos), false)
      && r.value[1] == HistoryQueryResult(updated, "tx2", Time(t2.seconds, t2.nanos), false)
      && r.value[2] == HistoryQueryResult(DefaultAml, "tx3", Time(t3.seconds, t3.nanos), true)
  {
    var versions := [Version("tx1", Some(created), t1), Version("tx2", Some(updated), t2), Version("tx3", None, t3)];
    ReplayCommittedVersions(c, versions);
    assert Expected(versions[0]) == HistoryQueryResult(created, "tx1", Time(t1.seconds, t1.nanos), false);
    assert Expected(versions[2]) == HistoryQueryResult(DefaultAml, "tx3", Time(t3.seconds, t3.nanos), true);
  }
}
