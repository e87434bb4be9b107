/** The storage-key scheme: a record named by (country, id number, owner) is
    stored under `country + "_" + idNumber + "_" + owner`, with no escaping of
    the separator inside the three fields. */
module Keys {
  import opened Outcomes
  import opened Records

  const Separator: char := '_'

  /** The storage key of a (country, id number, owner) triple. */
  function MakeKey(country: string, idNumber: string, owner: string): (k: string)
    ensures |k| == |country| + |idNumber| + |owner| + 2
    ensures k[..|country|] == country && k[|country|] == Separator
    ensures k[|country| + 1..|k| - |owner| - 1] == idNumber
    ensures k[|k| - |owner| - 1] == Separator && k[|k| - |owner|..] == owner
  {
    country + [Separator] + idNumber + [Separator] + owner
  }

  /** The key a record is stored under when built from its own fields. */
  function KeyOf(a: Aml): string {
    MakeKey(a.country, a.idNumber, a.dataOwner)
  }

  /** The three segments of a key that was built from separator-free fields. */
  datatype KeyParts = KeyParts(country: string, idNumber: string, owner: string)

  /** The position of the first `c` in `s`, if any. */
  function IndexOf(s: string, c: char): (r: Option<nat>)
    ensures r.Some? ==> r.value < |s| && s[r.value] == c && c !in s[..r.value]
    ensures r.None? ==> c !in s
  {
    if s == [] then None
    else if s[0] == c then Some(0)
    else
      match IndexOf(s[1..], c)
      case None => None
      case Some(i) =>
        assert s[1..][..i] == s[1..i + 1];
        Some(i + 1)
  }

  /** Splits a key into exactly three separator-free segments; fails on any key
      with fewer or more than two separators. */
  function ParseKey(k: string): (r: Option<KeyParts>)
    ensures r.Some? ==>
      && MakeKey(r.value.country, r.value.idNumber, r.value.owner) == k
      && Separator !in r.value.country
      && Separator !in r.value.idNumber
      && Separator !in r.value.owner
  {
    match IndexOf(k, Separator)
    case None => None
    case Some(i) =>
      var tail := k[i + 1..];
      match IndexOf(tail, Separator)
      case None => None
      case Some(j) =>
        var owner := tail[j + 1..];
        if Separator in owner then None
        else
          assert k == k[..i] + [Separator] + tail[..j] + [Separator] + owner;
          Some(KeyParts(k[..i], tail[..j], owner))
  }

  /** The first separator of `a + "_" + b` is the one after `a` when `a` has none. */
  lemma IndexOfAfterPlainPrefix(a: string, b: string)
    requires Separator !in a
    ensures IndexOf(a + [Separator] + b, Separator) == Some(|a|)
  {
    var s := a + [Separator] + b;
    assert s[|a|] == Separator;
    assert s[..|a|] == a;
  }

  /** Round trip: a key built from separator-free fields parses back into them. */
  lemma ParseMakeKey(country: string, idNumber: string, owner: string)
    requires Separator !in country && Separator !in idNumber && Separator !in owner
    ensures ParseKey(MakeKey(country, idNumber, owner)) == Some(KeyParts(country, idNumber, owner))
  {
    var k := MakeKey(country, idNumber, owner);
    var rest := idNumber + [Separator] + owner;
    assert k == country + [Separator] + rest;
    IndexOfAfterPlainPrefix(country, rest);
    var tail := k[|country| + 1..];
    assert tail == rest;
    IndexOfAfterPlainPrefix(idNumber, owner);
    assert tail[|idNumber| + 1..] == owner;
    assert k[..|country|] == country;
    assert tail[..|idNumber|] == idNumber;
  }

  /** The key scheme is injective on triples whose fields contain no separator. */
  lemma MakeKeyInjective(c1: string, i1: string, o1: string, c2: string, i2: string, o2: string)
    requires Separator !in c1 && Separator !in i1 && Separator !in o1
    requires Separator !in c2 && Separator !in i2 && Separator !in o2
    requires MakeKey(c1, i1, o1) == MakeKey(c2, i2, o2)
    ensures c1 == c2 && i1 == i2 && o1 == o2
  {
    ParseMakeKey(c1, i1, o1);
    ParseMakeKey(c2, i2, o2);
  }

  /** Without that restriction two different triples share a key: the country
      "TWN_A" with id "1" and the country "TWN" with id "A_1" both give
      "TWN_A_1_org0MSP". */
  lemma MakeKeyCollision()
    ensures MakeKey("TWN_A", "1", "org0MSP") == MakeKey("TWN", "A_1", "org0MSP")
  {
  }

  /** The text after the last separator of `k`: the owner segment. */
  function LastSegment(k: string): (o: string)
    ensures Separator !in o
    ensures |o| <= |k| && k[|k| - |o|..] == o
    ensures |o| < |k| ==> k[|k| - |o| - 1] == Separator
  {
    if k == [] then []
    else if k[|k| - 1] == Separator then []
    else
      var o := LastSegment(k[..|k| - 1]);
      assert k[..|k| - 1][|k| - 1 - |o|..] == o;
      assert k[|k| - |o| - 1..] == o + [k[|k| - 1]];
      o + [k[|k| - 1]]
  }

  /** The owner segment of a key is its owner, whatever the other two fields
      contain, as long as the owner has no separator. */
  lemma {:induction false} LastSegmentOfKey(country: string, idNumber: string, owner: string)
    requires Separator !in owner
    ensures LastSegment(MakeKey(country, idNumber, owner)) == owner
  {
    var k := MakeKey(country, idNumber, owner);
    var o := LastSegment(k);
    assert k[|k| - |owner|..] == owner;
    assert k[|k| - |owner| - 1] == Separator;
  }

  /** Two keys that are equal name the same owner when neither owner contains
      a separator, even if the countries or id numbers do. */
  lemma SameKeySameOwner(c1: string, i1: string, o1: string, c2: string, i2: string, o2: string)
    requires Separator !in o1 && Separator !in o2
    requires MakeKey(c1, i1, o1) == MakeKey(c2, i2, o2)
    ensures o1 == o2
  {
    LastSegmentOfKey(c1, i1, o1);
    LastSegmentOfKey(c2, i2, o2);
  }

  /** An owner whose MSP ID contains the separator can share a key with a
      different owner: org "x" with id "A_y" and org "y_x" with id "A". */
  lemma OwnerCollision()
    ensures MakeKey("TWN", "A_y", "x") == MakeKey("TWN", "A", "y_x")
  {
  }
}
