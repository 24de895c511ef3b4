/**
 * Source catalogs: a schema of named, typed fields and records that carry a
 * value for every field of the schema, plus an optional footprint (given by
 * its number of peaks).
 */
module Tables {
  import opened Wrappers
  import opened Floats

  datatype FieldKind = FlagField | RealField | IntField

  datatype Schema = Schema(fields: map<string, FieldKind>)

  /** `schema[name]` succeeds and yields a key of the given kind. */
  predicate Has(schema: Schema, name: string, kind: FieldKind) {
    name in schema.fields && schema.fields[name] == kind
  }

  datatype Record = Record(
    flags: map<string, bool>,
    reals: map<string, Float>,
    ints: map<string, int>,
    peaks: Option<nat>)  // None: the record has no footprint

  /** A record holds exactly the fields its schema declares. */
  ghost predicate Conforms(schema: Schema, r: Record) {
    && (forall n :: n in r.flags <==> Has(schema, n, FlagField))
    && (forall n :: n in r.reals <==> Has(schema, n, RealField))
    && (forall n :: n in r.ints <==> Has(schema, n, IntField))
  }

  ghost predicate AllConform(schema: Schema, records: seq<Record>) {
    forall r :: r in records ==> Conforms(schema, r)
  }

  datatype Catalog = Catalog(schema: Schema, records: seq<Record>)

  ghost predicate WellFormed(cat: Catalog) {
    AllConform(cat.schema, cat.records)
  }

  /** A named lookup made against a schema. */
  datatype Lookup = Lookup(name: string, kind: FieldKind)

  predicate AllPresent(schema: Schema, lookups: seq<Lookup>) {
    forall i :: 0 <= i < |lookups| ==> Has(schema, lookups[i].name, lookups[i].kind)
  }

  /** The name of the first lookup, in order, that the schema cannot satisfy. */
  function FirstMissing(schema: Schema, lookups: seq<Lookup>): (r: Option<string>)
    ensures r.None? <==> AllPresent(schema, lookups)
    ensures r.Some? ==> exists i :: 0 <= i < |lookups| && lookups[i].name == r.value
                                    && !Has(schema, lookups[i].name, lookups[i].kind)
                                    && AllPresent(schema, lookups[..i])
  {
    if lookups == [] then None
    else if !Has(schema, lookups[0].name, lookups[0].kind) then
      assert AllPresent(schema, lookups[..0]);
      Some(lookups[0].name)
    else
      var rest := FirstMissing(schema, lookups[1..]);
      if rest.Some? then
        var i :| 0 <= i < |lookups[1..]| && lookups[1..][i].name == rest.value
                 && !Has(schema, lookups[1..][i].name, lookups[1..][i].kind)
                 && AllPresent(schema, lookups[1..][..i]);
        assert lookups[..i + 1] == [lookups[0]] + lookups[1..][..i];
        rest
      else
        assert forall i :: 1 <= i < |lookups| ==> lookups[i] == lookups[1..][i - 1];
        rest
  }
}
