/**
 * The context store adapter of src/utils.ts: per-user records kept in an
 * external key-value store under the key "user." + userId.
 */
module Utils {
  import opened Wrappers
  import opened Assistant

  /** A stored record: a JavaScript object, i.e. its own properties. */
  datatype Record = Record(fields: map<string, JsValue>)

  /** Property access `record[name]`: `undefined` when the property is absent. */
  function FieldOf(r: Record, name: string): JsValue {
    if name in r.fields then r.fields[name] else Undefined
  }

  /**
   * The storage backend that the bot controller provides: its entries, and
   * whether its `read` and `write` currently reject (and with what reason).
   */
  class Storage {
    var entries: map<string, Record>
    var readFault: Option<string>
    var writeFault: Option<string>

    constructor (entries: map<string, Record>, readFault: Option<string>, writeFault: Option<string>)
      ensures this.entries == entries && this.readFault == readFault && this.writeFault == writeFault
    {
      this.entries := entries;
      this.readFault := readFault;
      this.writeFault := writeFault;
    }

    /** `read(keys)`: the stored records among `keys`, or the read's rejection. */
    function Read(keys: set<string>): (r: Result<map<string, Record>, string>)
      reads this
      ensures r.Failure? <==> readFault.Some?
      ensures r.Success? ==> r.value.Keys == keys * entries.Keys
      ensures r.Success? ==> forall k :: k in r.value ==> r.value[k] == entries[k]
    {
      if readFault.Some? then Failure(readFault.value)
      else Success(map k | k in keys && k in entries :: entries[k])
    }

    /** `write(changes)`: stores every change, or rejects and stores nothing. */
    method Write(changes: map<string, Record>) returns (r: Outcome<string>)
      modifies this`entries
      ensures r == (if writeFault.Some? then Fail(writeFault.value) else Pass)
      ensures entries == if writeFault.Some? then old(entries) else old(entries) + changes
    {
      if writeFault.Some? {
        return Fail(writeFault.value);
      }
      entries := entries + changes;
      return Pass;
    }
  }

  /** The key namespace of the per-user records. */
  const StoragePrefix: string := "user."

  /** The store key of a user's record. */
  function ItemId(userId: string): string {
    StoragePrefix + userId
  }

  /** Distinct users never share a record. */
  lemma {:induction false} ItemIdInjective(u: string, v: string)
    ensures ItemId(u) == ItemId(v) ==> u == v
  {
    if ItemId(u) == ItemId(v) {
      assert u == ItemId(u)[|StoragePrefix|..];
      assert v == ItemId(v)[|StoragePrefix|..];
    }
  }

  /**
   * What `readContext` makes of the store's answer: the record's `context`
   * when the record exists and its context is truthy; a failed read is absence.
   */
  function Lookup(result: Result<map<string, Record>, string>, itemId: string): Option<JsValue> {
    match result
    case Failure(_) => None
    case Success(found) =>
      if itemId in found && Truthy(FieldOf(found[itemId], "context"))
      then Some(FieldOf(found[itemId], "context"))
      else None
  }

  /** `readContext(userId, storage)`. Being a function, it never changes the store. */
  function ReadContext(userId: string, store: Storage): (r: Option<JsValue>)
    reads store
    ensures r.Some? <==>
              store.readFault.None? && ItemId(userId) in store.entries
              && Truthy(FieldOf(store.entries[ItemId(userId)], "context"))
    ensures r.Some? ==> r.value == FieldOf(store.entries[ItemId(userId)], "context")
  {
    Lookup(store.Read({ItemId(userId)}), ItemId(userId))
  }

  /** The record `updateContext` starts from: the stored one, or `{}` if absent or the read failed. */
  function PriorRecord(result: Result<map<string, Record>, string>, itemId: string): Record {
    if result.Success? && itemId in result.value then result.value[itemId] else Record(map[])
  }

  /** The prior record with `id := userId` and `context := context`. */
  function UpdatedRecord(prior: Record, userId: string, context: JsValue): (r: Record)
    ensures r.fields.Keys == prior.fields.Keys + {"id", "context"}
    ensures FieldOf(r, "id") == Str(userId) && FieldOf(r, "context") == context
    ensures forall f :: f in prior.fields && f != "id" && f != "context" ==> r.fields[f] == prior.fields[f]
  {
    Record(prior.fields["id" := Str(userId)]["context" := context])
  }

  /** The record a call `updateContext(userId, storage, response)` writes, from the store's state before it. */
  function WrittenRecord(userId: string, store: Storage, response: Response): Record
    reads store
  {
    UpdatedRecord(PriorRecord(store.Read({ItemId(userId)}), ItemId(userId)), userId, response.context)
  }

  /** The store's entries after such a call: only the user's key changes, and only if the write succeeds. */
  function EntriesAfterUpdate(userId: string, store: Storage, response: Response): map<string, Record>
    reads store
  {
    if store.writeFault.None? then store.entries[ItemId(userId) := WrittenRecord(userId, store, response)]
    else store.entries
  }

  /**
   * `updateContext(userId, storage, response)`: read the user's record (a failed
   * read counts as no record), set its `id` and `context`, write it back, and
   * return the response. A write failure is passed on.
   */
  method UpdateContext(userId: string, store: Storage, response: Response) returns (r: Result<Response, Error>)
    modifies store`entries
    ensures r == if store.writeFault.None? then Success(response) else Failure(FromStore(store.writeFault.value))
    ensures store.entries == old(EntriesAfterUpdate(userId, store, response))
    ensures r.Success? ==>
              ItemId(userId) in store.entries
              && store.entries[ItemId(userId)] == old(WrittenRecord(userId, store, response))
    ensures forall k :: k != ItemId(userId) ==>
              (k in store.entries <==> k in old(store.entries))
              && (k in store.entries ==> store.entries[k] == old(store.entries[k]))
    ensures r.Success? && store.readFault.None? ==>
              ReadContext(userId, store) == if Truthy(response.context) then Some(response.context) else None
  {
    var itemId := ItemId(userId);
    var userData := Record(map[]);
    var result := store.Read({itemId});
    if result.Success? && itemId in result.value {
      userData := result.value[itemId];
    }
    userData := userData.(fields := userData.fields["id" := Str(userId)]);
    userData := userData.(fields := userData.fields["context" := response.context]);
    var changes := map[itemId := userData];
    var written := store.Write(changes);
    if written.Fail? {
      return Failure(FromStore(written.error));
    }
    return Success(response);
  }

  /** Round trip: reading a user's context back after its record was updated gives the stored context, if truthy. */
  lemma ReadAfterUpdate(entries: map<string, Record>, userId: string, prior: Record, context: JsValue)
    ensures var k := ItemId(userId);
            Lookup(Success(entries[k := UpdatedRecord(prior, userId, context)]), k)
            == if Truthy(context) then Some(context) else None
  {
  }
}
