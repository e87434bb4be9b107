/** Rich queries. The query engine that selects documents is outside the
    contract; the contract only decodes, in order, what the engine's iterator
    yields. */
module Query {
  import opened Outcomes
  import opened Errors
  import opened Records
  import opened Codec
  import opened Iterators

  /** One document of a query result as a record. */
  function DecodeRecord(c: Codec, b: Bytes): (r: Result<Aml, Error>)
    ensures r.Ok? <==> Decode(c, b).Some?
    ensures r.Ok? ==> r.value == Decode(c, b).value
    ensures r.Err? ==> r.error == DecodeFailed
  {
    match Decode(c, b)
    case None => Err(DecodeFailed)
    case Some(a) => Ok(a)
  }

  /** Decodes every document the iterator yields; one failed `Next` or one
      undecodable document fails the whole query rather than dropping it. */
  function ConstructQueryResponseFromIterator(results: seq<Fetch<Bytes>>, c: Codec): (r: Result<seq<Aml>, Error>)
    ensures r.Ok? <==> forall j :: 0 <= j < |results| ==> results[j].Fetched? && Decode(c, results[j].item).Some?
    ensures r.Ok? ==>
      && |r.value| == |results|
      && forall j :: 0 <= j < |results| ==> Decode(c, results[j].item) == Some(r.value[j])
    ensures r.Err? ==> exists i ::
      && 0 <= i < |results|
      && (forall j :: 0 <= j < i ==> results[j].Fetched? && Decode(c, results[j].item).Some?)
      && (results[i].FetchFailed? ==> r.error == NextFailed)
      && (results[i].Fetched? ==> Decode(c, results[i].item).None? && r.error == DecodeFailed)
  {
    var f := (b: Bytes) => DecodeRecord(c, b);
    var r := Drain(results, f);
    assert forall j :: 0 <= j < |results| ==>
      (Succeeds(results[j], f) <==> results[j].Fetched? && Decode(c, results[j].item).Some?);
    r
  }

  /** Runs a query through the engine and decodes what it returns. The engine
      maps a query string to its result iterator, or to `None` when it
      rejects the query. */
  function GetQueryResultForQueryString(
    engine: string -> Option<seq<Fetch<Bytes>>>, query: string, c: Codec): (r: Result<seq<Aml>, Error>)
    ensures engine(query).None? ==> r == Err(QueryFailed(query))
    ensures var results := engine(query);
      results.Some? ==>
        && (r.Ok? <==> forall j :: 0 <= j < |results.value| ==>
              results.value[j].Fetched? && Decode(c, results.value[j].item).Some?)
        && (r.Ok? ==>
              && |r.value| == |results.value|
              && forall j :: 0 <= j < |results.value| ==> Decode(c, results.value[j].item) == Some(r.value[j]))
        && (r.Err? ==> exists i ::
              && 0 <= i < |results.value|
              && (forall j :: 0 <= j < i ==> results.value[j].Fetched? && Decode(c, results.value[j].item).Some?)
              && (results.value[i].FetchFailed? ==> r.error == NextFailed)
              && (results.value[i].Fetched? ==> Decode(c, results.value[i].item).None? && r.error == DecodeFailed))
  {
    match engine(query)
    case None => Err(QueryFailed(query))
    case Some(results) => ConstructQueryResponseFromIterator(results, c)
  }

  /** The documents the engine yields for stored records, in the same order. */
  function Documents(c: Codec, records: seq<Aml>): (docs: seq<Fetch<Bytes>>)
    ensures |docs| == |records|
    ensures forall j :: 0 <= j < |records| ==> docs[j] == Fetched(Encode(c, records[j]))
  {
    seq(|records|, j requires 0 <= j < |records| => Fetched(Encode(c, records[j])))
  }

  /** Round trip: decoding the documents of stored records gives back exactly
      those records, in order. */
  lemma QueryRoundTrip(c: Codec, records: seq<Aml>)
    requires Sound(c)
    ensures ConstructQueryResponseFromIterator(Documents(c, records), c) == Ok(records)
  {
    var docs := Documents(c, records);
    forall j | 0 <= j < |records| ensures Decode(c, docs[j].item) == Some(records[j]) {
      DecodeEncode(c, records[j]);
    }
    var r := ConstructQueryResponseFromIterator(docs, c);
    assert r.Ok?;
    assert forall j :: 0 <= j < |records| ==> Some(r.value[j]) == Some(records[j]);
    assert r.value == records;
  }
}
