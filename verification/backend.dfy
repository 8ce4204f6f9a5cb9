/**
 * The keychain itself, which the library reaches only through `SecItemAdd`,
 * `SecItemCopyMatching`, `SecItemUpdate` and `SecItemDelete`. It is modelled as a map from
 * composite keys (a query's identifying attributes) to entries holding a payload and an
 * accessibility attribute, plus a `veto` that stands for every refusal the platform may
 * report regardless of contents (device locked, missing entitlement, ...).
 */
module Backend {
  import opened Types
  import opened Errors

  /** A value of a query dictionary (`[String: Any]`). */
  datatype Value = Text(text: string) | Data(bytes: Bytes) | Flag(flag: bool) | Number(number: int) | Null

  type Attrs = map<string, Value>

  // The string values of the `kSec...` constants the library puts into its queries.
  const KeyClass := "class"
  const KeyAccount := "acct"
  const KeyService := "svce"
  const KeyAccessGroup := "agrp"
  const KeyAccessible := "pdmn"
  const KeyValueData := "v_Data"
  const KeyMatchLimit := "m_Limit"
  const KeyReturnData := "r_Data"
  const GenericPassword := Text("genp")
  const MatchLimitOne := Text("m_LimitOne")

  /** Keys that say what to store or to return rather than which entry is meant. */
  const NonKeyAttributes: set<string> := {KeyAccessible, KeyValueData, KeyMatchLimit, KeyReturnData}

  /** `m[a]` as an optional. */
  function Lookup(m: Attrs, a: string): Option<Value> {
    if a in m then Some(m[a]) else None
  }

  /** The composite key a query addresses: its attributes minus the non-key ones. */
  function CompositeKey(q: Attrs): (k: Attrs)
    ensures k.Keys == q.Keys - NonKeyAttributes
    ensures forall a :: a in k ==> k[a] == q[a]
  {
    q - NonKeyAttributes
  }

  /** An entry's key carries every attribute of the query, with the same value. */
  predicate Matches(key: Attrs, query: Attrs) {
    forall a :: a in query ==> a in key && key[a] == query[a]
  }

  datatype Entry = Entry(payload: Bytes, accessible: Option<Value>)

  type Items = map<Attrs, Entry>

  datatype Operation = ItemAdd | ItemCopyMatching | ItemUpdate | ItemDelete

  /** What the store holds and what the platform will refuse: the state every call reads. */
  datatype Store = Store(items: Items, veto: Operation -> int)

  datatype Reply = Reply(status: int, items: Items)
  datatype Match = Match(status: int, result: Option<Value>)

  /** `SecItemAdd`: fails with duplicate-item when the composite key is taken. */
  function Add(items: Items, refusal: int, q: Attrs): Reply {
    if refusal != Success then Reply(refusal, items)
    else if !(KeyValueData in q && q[KeyValueData].Data?) then Reply(Param, items)
    else if CompositeKey(q) in items then Reply(DuplicateItem, items)
    else Reply(Success, items[CompositeKey(q) := Entry(q[KeyValueData].bytes, Lookup(q, KeyAccessible))])
  }

  /** `SecItemCopyMatching`: returns the payload only when the query asks for data. */
  function CopyMatching(items: Items, refusal: int, q: Attrs): Match {
    if refusal != Success then Match(refusal, None)
    else if CompositeKey(q) !in items then Match(ItemNotFound, None)
    else if Lookup(q, KeyReturnData) == Some(Flag(true)) then
      Match(Success, Some(Data(items[CompositeKey(q)].payload)))
    else Match(Success, None)
  }

  /** `SecItemUpdate`: overwrites the payload and accessibility the change set names. */
  function Update(items: Items, refusal: int, q: Attrs, changes: Attrs): Reply {
    var k := CompositeKey(q);
    if refusal != Success then Reply(refusal, items)
    else if k !in items then Reply(ItemNotFound, items)
    else
      var payload := if KeyValueData in changes && changes[KeyValueData].Data?
                     then changes[KeyValueData].bytes else items[k].payload;
      var accessible := if KeyAccessible in changes then Some(changes[KeyAccessible])
                        else items[k].accessible;
      Reply(Success, items[k := Entry(payload, accessible)])
  }

  /** `SecItemDelete`: removes every entry the query matches; none matching is item-not-found. */
  function Delete(items: Items, refusal: int, q: Attrs): Reply {
    var query := CompositeKey(q);
    if refusal != Success then Reply(refusal, items)
    else if forall k :: k in items ==> !Matches(k, query) then Reply(ItemNotFound, items)
    else Reply(Success, map k | k in items && !Matches(k, query) :: items[k])
  }

  /** The process-wide keychain the `SecItem...` functions act on. */
  class Keychain {
    var items: Items
    var veto: Operation -> int

    constructor (veto: Operation -> int)
      ensures items == map[] && this.veto == veto
    {
      items := map[];
      this.veto := veto;
    }

    function Snapshot(): Store
      reads this
    {
      Store(items, veto)
    }

    method ItemAdd(q: Attrs) returns (status: int)
      modifies this
      ensures veto == old(veto)
      ensures Reply(status, items) == Add(old(items), veto(Operation.ItemAdd), q)
    {
      var r := Add(items, veto(Operation.ItemAdd), q);
      status, items := r.status, r.items;
    }

    method ItemCopyMatching(q: Attrs) returns (status: int, result: Option<Value>)
      ensures Match(status, result) == CopyMatching(items, veto(Operation.ItemCopyMatching), q)
    {
      var m := CopyMatching(items, veto(Operation.ItemCopyMatching), q);
      status, result := m.status, m.result;
    }

    method ItemUpdate(q: Attrs, changes: Attrs) returns (status: int)
      modifies this
      ensures veto == old(veto)
      ensures Reply(status, items) == Update(old(items), veto(Operation.ItemUpdate), q, changes)
    {
      var r := Update(items, veto(Operation.ItemUpdate), q, changes);
      status, items := r.status, r.items;
    }

    method ItemDelete(q: Attrs) returns (status: int)
      modifies this
      ensures veto == old(veto)
      ensures Reply(status, items) == Delete(old(items), veto(Operation.ItemDelete), q)
    {
      var r := Delete(items, veto(Operation.ItemDelete), q);
      status, items := r.status, r.items;
    }
  }
}
