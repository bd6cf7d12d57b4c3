/** The document store the engine writes to: each collection maps a
    document id to a document, and a document maps field names to values.
    `set_document` merges the given fields into the stored document
    (creating it when absent), which is what the engine's partial writes
    rely on. */
module Documents {

  import opened Wrappers

  /** A field value as the engine writes it. Timestamps are instants in
      milliseconds. */
  datatype Value = Str(s: string) | Num(n: real) | Time(ms: int) | Bool(b: bool) | Null

  /** The field names the engine reads and writes; `Other` stands for any
      further field a stored document may hold. */
  datatype Field =
    | Id | Status | CarNumber | Lat | Lng | Timestamp | SessionId
    | AssetId | BleId | DeviceId | LocationId | StationUid | ConnectorId | PartyId | Command
    | StartTimestamp | EndTimestamp | Cost | Count | Kwh | ChargingTimeInSeconds | CdrId
    | Other(name: string)

  type Doc = map<Field, Value>

  type Collection = map<string, Doc>

  /** The stored document `id`, or the empty document when there is none. */
  function Current(coll: Collection, id: string): Doc
  {
    if id in coll then coll[id] else map[]
  }

  /** `set_document(collection, id, fields)`: merge `fields` into document
      `id`. Given fields win; fields not given are kept; no other document
      changes. */
  function Put(coll: Collection, id: string, fields: Doc): (r: Collection)
  {
    coll[id := Current(coll, id) + fields]
  }

  /** The merge: the written document holds the given fields and keeps the
      fields it had that were not given; no other document changes. */
  lemma PutMerges(coll: Collection, id: string, fields: Doc)
    ensures var r := Put(coll, id, fields);
      && r.Keys == coll.Keys + {id}
      && r[id].Keys == Current(coll, id).Keys + fields.Keys
      && (forall k :: k in fields ==> r[id][k] == fields[k])
      && (forall k :: k in Current(coll, id) && k !in fields ==> r[id][k] == Current(coll, id)[k])
      && (forall other :: other in coll && other != id ==> r[other] == coll[other])
  {
  }

  /** Writing the same fields twice has the effect of writing them once. */
  lemma PutIdempotent(coll: Collection, id: string, fields: Doc)
    ensures Put(Put(coll, id, fields), id, fields) == Put(coll, id, fields)
  {
    var once := Put(coll, id, fields);
    assert Current(once, id) + fields == Current(coll, id) + fields;
  }

  /** The string held in field `k`, if the document has one there. */
  function StrField(d: Doc, k: Field): Option<string>
  {
    if k in d && d[k].Str? then Some(d[k].s) else None
  }
}
