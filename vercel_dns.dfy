/** lib/vercel-dns.ts: the team query parameter, the body of a record
    creation, the search of a record listing, and `upsertDnsRecords`, which
    lists the zone once and then creates every required record it does not
    find, sorting the record keys into created, existing and failed. */
module VercelDns {
  import opened Common

  /** A record of a zone listing, reduced to what the helpers compare. */
  datatype DnsRecord = DnsRecord(id: string, name: string, recordType: string, value: string)

  /** `CreateRecordParams`; `ttl` and `priority` are optional numbers. */
  datatype RecordParams = RecordParams(name: string, recordType: string, value: string,
                                       ttl: Option<int>, priority: Option<int>)

  /** `getTeamParam()`, given `VERCEL_TEAM_ID`: a query string naming a
      non-empty team id, and nothing otherwise. */
  function TeamParam(teamId: Option<string>): string
  {
    if Truthy(teamId) then "?teamId=" + teamId.value else ""
  }

  /** The team id a query string carries. */
  function TeamIdOf(param: string): Option<string>
  {
    if StartsWith(param, "?teamId=") then Some(param[8..]) else None
  }

  /** A set team id comes back out of its query string, and an unset or
      empty one adds nothing to the URL. */
  lemma TeamParamRoundTrip(teamId: Option<string>)
    ensures Truthy(teamId) ==> TeamIdOf(TeamParam(teamId)) == teamId
    ensures !Truthy(teamId) ==> TeamParam(teamId) == "" && TeamIdOf(TeamParam(teamId)) == None
  {
  }

  predicate Matches(r: DnsRecord, recordType: string, name: string, value: string)
  {
    r.recordType == recordType && r.name == name && r.value == value
  }

  /** `findMatchingRecord`: the first listed record equal in type, name and
      value, or none when no record is. */
  function FindMatchingRecord(records: seq<DnsRecord>, recordType: string, name: string, value: string)
    : (found: Option<DnsRecord>)
    ensures found.None? <==> forall i :: 0 <= i < |records| ==> !Matches(records[i], recordType, name, value)
    ensures found.Some? ==> exists i :: 0 <= i < |records| && records[i] == found.value &&
                              Matches(records[i], recordType, name, value) &&
                              forall j :: 0 <= j < i ==> !Matches(records[j], recordType, name, value)
    decreases |records|
  {
    if records == [] then None
    else if Matches(records[0], recordType, name, value) then Some(records[0])
    else
      var rest := FindMatchingRecord(records[1..], recordType, name, value);
      assert forall i :: 1 <= i < |records| ==> records[i] == records[1..][i - 1];
      if rest.Some? then
        ghost var k :| 0 <= k < |records[1..]| && records[1..][k] == rest.value &&
                       Matches(records[1..][k], recordType, name, value) &&
                       forall j :: 0 <= j < k ==> !Matches(records[1..][j], recordType, name, value);
        assert records[k + 1] == rest.value;
        assert forall j :: 0 <= j < k + 1 ==> !Matches(records[j], recordType, name, value) by {
          forall j | 0 <= j < k + 1 ensures !Matches(records[j], recordType, name, value) {
            if j > 0 { assert records[j] == records[1..][j - 1]; }
          }
        }
        rest
      else rest
  }

  /** A JSON value of the creation body. */
  datatype BodyValue = Text(text: string) | Number(number: int)

  /** The body of `createDnsRecord`: name, type and value, then `ttl` when
      it is truthy (so a TTL of 0 is left out), then `priority` whenever it
      is defined (0 included). */
  function CreateBody(record: RecordParams): seq<(string, BodyValue)>
  {
    [("name", Text(record.name)), ("type", Text(record.recordType)), ("value", Text(record.value))] +
    OptionalFields(record)
  }

  /** The fields of a creation body that are only sent when given. */
  function OptionalFields(record: RecordParams): seq<(string, BodyValue)>
  {
    (if record.ttl.Some? && record.ttl.value != 0 then [("ttl", Number(record.ttl.value))] else []) +
    (if record.priority.Some? then [("priority", Number(record.priority.value))] else [])
  }

  /** The value a body gives a key. */
  function BodyLookup(body: seq<(string, BodyValue)>, key: string): Option<BodyValue>
  {
    if body == [] then None
    else if body[0].0 == key then Some(body[0].1)
    else BodyLookup(body[1..], key)
  }

  /** What the body of a creation says about the record: its name, type and
      value as given, a TTL exactly when a non-zero one was given, and a
      priority exactly when one was given. */
  lemma CreateBodyFields(record: RecordParams)
    ensures var body := CreateBody(record);
      BodyLookup(body, "name") == Some(Text(record.name)) &&
      BodyLookup(body, "type") == Some(Text(record.recordType)) &&
      BodyLookup(body, "value") == Some(Text(record.value)) &&
      (BodyLookup(body, "ttl").Some? <==> record.ttl.Some? && record.ttl.value != 0) &&
      (BodyLookup(body, "ttl").Some? ==> BodyLookup(body, "ttl") == Some(Number(record.ttl.value))) &&
      (BodyLookup(body, "priority").Some? <==> record.priority.Some?) &&
      (record.priority.Some? ==> BodyLookup(body, "priority") == Some(Number(record.priority.value)))
  {
    var tail := OptionalFields(record);
    assert CreateBody(record) ==
      [("name", Text(record.name))] + ([("type", Text(record.recordType))] + ([("value", Text(record.value))] + tail));
    LookupCons(("name", Text(record.name)), [("type", Text(record.recordType))] + ([("value", Text(record.value))] + tail));
    LookupCons(("type", Text(record.recordType)), [("value", Text(record.value))] + tail);
    LookupCons(("value", Text(record.value)), tail);
    OptionalFieldsLookup(record);
  }

  /** The optional fields give a TTL exactly when a non-zero one was given
      and a priority exactly when one was given, and nothing else. */
  lemma OptionalFieldsLookup(record: RecordParams)
    ensures var tail := OptionalFields(record);
      BodyLookup(tail, "ttl") == (if record.ttl.Some? && record.ttl.value != 0 then Some(Number(record.ttl.value)) else None) &&
      BodyLookup(tail, "priority") == (if record.priority.Some? then Some(Number(record.priority.value)) else None)
  {
    var ttl := if record.ttl.Some? && record.ttl.value != 0 then [("ttl", Number(record.ttl.value))] else [];
    var priority := if record.priority.Some? then [("priority", Number(record.priority.value))] else [];
    if ttl != [] {
      LookupCons(ttl[0], priority);
      assert ttl + priority == [ttl[0]] + priority;
    }
    if priority != [] {
      LookupCons(priority[0], []);
      assert priority == [priority[0]] + [];
    }
  }

  lemma LookupCons(field: (string, BodyValue), rest: seq<(string, BodyValue)>)
    ensures forall key :: BodyLookup([field] + rest, key) ==
              if field.0 == key then Some(field.1) else BodyLookup(rest, key)
  {
    assert ([field] + rest)[1..] == rest;
  }

  /** `${record.type}:${record.name}`. */
  function RecordKey(record: RecordParams): string
  {
    record.recordType + ":" + record.name
  }

  /** Where a required record ends up. */
  datatype Disposition = Created | Existing | Failed

  /** The fate of one required record: existing when the listing taken at
      the start matches it, otherwise created or failed as its creation
      went. */
  function Dispose(snapshot: seq<DnsRecord>, record: RecordParams, createSucceeds: bool): Disposition
  {
    if FindMatchingRecord(snapshot, record.recordType, record.name, record.value).Some? then Existing
    else if createSucceeds then Created
    else Failed
  }

  /** The keys, in the order of the first `n` required records, of those
      with disposition `d`; `createSucceeds[i]` is the outcome the creation
      of record i would have. */
  function KeysWith(required: seq<RecordParams>, snapshot: seq<DnsRecord>, createSucceeds: seq<bool>,
                    d: Disposition, n: nat): seq<string>
    requires n <= |required| == |createSucceeds|
  {
    if n == 0 then []
    else
      KeysWith(required, snapshot, createSucceeds, d, n - 1) +
      (if Dispose(snapshot, required[n - 1], createSucceeds[n - 1]) == d then [RecordKey(required[n - 1])] else [])
  }

  /** The three lists together hold one key per required record. */
  lemma {:induction false} KeysPartition(required: seq<RecordParams>, snapshot: seq<DnsRecord>,
                                         createSucceeds: seq<bool>, n: nat)
    requires n <= |required| == |createSucceeds|
    ensures |KeysWith(required, snapshot, createSucceeds, Created, n)| +
            |KeysWith(required, snapshot, createSucceeds, Existing, n)| +
            |KeysWith(required, snapshot, createSucceeds, Failed, n)| == n
  {
    if n > 0 {
      KeysPartition(required, snapshot, createSucceeds, n - 1);
    }
  }

  /** Every required record's key is in the list of its own disposition,
      and every key of a list belongs to a required record with that
      disposition. */
  lemma {:induction false} KeysComplete(required: seq<RecordParams>, snapshot: seq<DnsRecord>,
                                        createSucceeds: seq<bool>, d: Disposition, n: nat)
    requires n <= |required| == |createSucceeds|
    ensures forall i :: 0 <= i < n && Dispose(snapshot, required[i], createSucceeds[i]) == d ==>
              RecordKey(required[i]) in KeysWith(required, snapshot, createSucceeds, d, n)
    ensures forall key :: key in KeysWith(required, snapshot, createSucceeds, d, n) ==>
              exists i :: 0 <= i < n && key == RecordKey(required[i]) &&
                          Dispose(snapshot, required[i], createSucceeds[i]) == d
  {
    if n > 0 {
      KeysComplete(required, snapshot, createSucceeds, d, n - 1);
    }
  }

  /** A record found in the listing is existing and its creation is never
      attempted, whatever that would have given; a record not found is
      created or failed according to its creation alone. */
  lemma DispositionByListing(snapshot: seq<DnsRecord>, record: RecordParams, ok: bool)
    ensures Dispose(snapshot, record, ok) == Existing <==>
              exists j :: 0 <= j < |snapshot| && Matches(snapshot[j], record.recordType, record.name, record.value)
    ensures Dispose(snapshot, record, ok) == Existing ==> Dispose(snapshot, record, !ok) == Existing
    ensures Dispose(snapshot, record, ok) != Existing ==> (Dispose(snapshot, record, ok) == Created <==> ok)
  {
  }

  /** The listing is not refreshed after a creation: the same record
      required twice and missing from the listing is created twice. */
  lemma ListingNotRefreshed(snapshot: seq<DnsRecord>, record: RecordParams)
    requires FindMatchingRecord(snapshot, record.recordType, record.name, record.value).None?
    ensures KeysWith([record, record], snapshot, [true, true], Created, 2) == [RecordKey(record), RecordKey(record)]
    ensures KeysWith([record, record], snapshot, [true, true], Existing, 2) == []
  {
    assert Dispose(snapshot, record, true) == Created;
    assert KeysWith([record, record], snapshot, [true, true], Created, 1) == [RecordKey(record)];
    assert KeysWith([record, record], snapshot, [true, true], Existing, 1) == [];
  }

  /** What `upsertDnsRecords` resolves to. */
  datatype UpsertResult = UpsertResult(created: seq<string>, existing: seq<string>, failed: seq<string>)

  /** `upsertDnsRecords(domain, requiredRecords)`. `listing` is the result of
      the one `listDnsRecords` call, whose error propagates;
      `createSucceeds[i]` is whether `createDnsRecord` would succeed for
      record i. A failed creation is recorded and the loop goes on. */
  method UpsertDnsRecords(required: seq<RecordParams>, listing: Result<seq<DnsRecord>>, createSucceeds: seq<bool>)
    returns (r: Result<UpsertResult>)
    requires |createSucceeds| == |required|
    ensures listing.Err? ==> r == Err(listing.message)
    ensures listing.Ok? ==> r.Ok?
    ensures listing.Ok? ==>
              r.value.created == KeysWith(required, listing.value, createSucceeds, Created, |required|) &&
              r.value.existing == KeysWith(required, listing.value, createSucceeds, Existing, |required|) &&
              r.value.failed == KeysWith(required, listing.value, createSucceeds, Failed, |required|)
  {
    if listing.Err? {
      return Err(listing.message);
    }
    var existingRecords := listing.value;
    var created, existing, failed := [], [], [];
    var i := 0;
    while i < |required|
      invariant 0 <= i <= |required|
      invariant created == KeysWith(required, existingRecords, createSucceeds, Created, i)
      invariant existing == KeysWith(required, existingRecords, createSucceeds, Existing, i)
      invariant failed == KeysWith(required, existingRecords, createSucceeds, Failed, i)
    {
      var record := required[i];
      var recordKey := record.recordType + ":" + record.name;
      var found := FindMatchingRecord(existingRecords, record.recordType, record.name, record.value);
      if found.Some? {
        existing := existing + [recordKey];
      } else if createSucceeds[i] {
        created := created + [recordKey];
      } else {
        failed := failed + [recordKey];
      }
      i := i + 1;
    }
    r := Ok(UpsertResult(created, existing, failed));
  }
}
