/** The record types of the contract: the AML record and one entry of its
    reconstructed history. */
module Records {

  /** One AML record: seven free strings. `country`, `idNumber` and
      `dataOwner` together name the record; `dob` and `riskLevel` are never
      validated. */
  datatype Aml = Aml(
    lastName: string,
    firstName: string,
    dob: string,
    country: string,
    idNumber: string,
    dataOwner: string,
    riskLevel: string)

  /** Go's zero value `Aml{}`: every field empty. */
  const DefaultAml: Aml := Aml("", "", "", "", "", "", "")

  /** The JSON member names of the seven fields, in declaration order. */
  const FieldNames: seq<string> :=
    ["last_name", "first_name", "dob", "country", "id_number", "data_owner", "risk_level"]

  /** A JSON object whose members are all strings. */
  type JsonObject = map<string, string>

  /** The JSON object `json.Marshal` produces for a record. */
  function ToObject(a: Aml): (o: JsonObject)
    ensures |o| == |FieldNames| == 7
    ensures forall name :: name in o <==> name in FieldNames
    ensures FromObject(o) == a
  {
    map["last_name" := a.lastName, "first_name" := a.firstName, "dob" := a.dob,
        "country" := a.country, "id_number" := a.idNumber,
        "data_owner" := a.dataOwner, "risk_level" := a.riskLevel]
  }

  /** The member `name` of `o`, or the empty string Go leaves in a field whose
      member is missing. */
  function Member(o: JsonObject, name: string): string {
    if name in o then o[name] else ""
  }

  /** The field of `a` that the JSON member `name` is tagged onto; `name` is
      one of the seven field names. */
  function FieldNamed(a: Aml, name: string): string
    requires name in FieldNames
  {
    if name == "last_name" then a.lastName
    else if name == "first_name" then a.firstName
    else if name == "dob" then a.dob
    else if name == "country" then a.country
    else if name == "id_number" then a.idNumber
    else if name == "data_owner" then a.dataOwner
    else a.riskLevel
  }

  /** The record `json.Unmarshal` fills into a fresh `Aml` from an object:
      members are matched by their JSON names, missing members leave the
      field empty and unknown members are ignored. */
  function FromObject(o: JsonObject): (a: Aml)
    ensures forall name :: name in FieldNames && name in o ==> FieldNamed(a, name) == o[name]
    ensures forall name :: name in FieldNames && name !in o ==> FieldNamed(a, name) == ""
  {
    Aml(Member(o, "last_name"), Member(o, "first_name"), Member(o, "dob"),
        Member(o, "country"), Member(o, "id_number"),
        Member(o, "data_owner"), Member(o, "risk_level"))
  }

  /** The case folding `encoding/json` applies when it matches a member name
      to a field: ASCII letters fold to upper case, and the Kelvin sign and
      the long s fold with K and S. */
  function FoldChar(c: char): char {
    if 'a' <= c <= 'z' then (c as int - 32) as char
    else if c == '\U{212A}' then 'K'
    else if c == '\U{017F}' then 'S'
    else c
  }

  /** Whether `encoding/json` would match member name `a` to tag `b`. */
  predicate SameFold(a: string, b: string) {
    |a| == |b| && forall i :: 0 <= i < |a| ==> FoldChar(a[i]) == FoldChar(b[i])
  }

  /** Members that no field name matches, even up to case, do not affect
      decoding. */
  lemma FromObjectIgnoresUnknown(o: JsonObject, name: string, v: string)
    requires forall f :: f in FieldNames ==> !SameFold(name, f)
    ensures FromObject(o[name := v]) == FromObject(o)
  {
    forall j | 0 <= j < |FieldNames| ensures name != FieldNames[j] {
      assert !SameFold(name, FieldNames[j]);
    }
  }

  /** A wall-clock instant, as Go's `time.Time` in UTC. */
  datatype Time = Time(unixSeconds: int, nanos: int)

  /** One version of a record in its history. `record` is always present: a
      deletion carries `DefaultAml`. */
  datatype HistoryQueryResult = HistoryQueryResult(
    record: Aml,
    txId: string,
    timestamp: Time,
    isDelete: bool)
}
