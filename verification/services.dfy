/**
 * `LUKeychainServices`: builds the composite query from its mutable configuration, issues
 * add, fetch, update, delete-one and delete-all against the keychain, and turns every
 * non-success status into an `NSOSStatusErrorDomain` error.
 */
module Services {
  import opened Types
  import Utf8
  import opened Accessibility
  import opened Errors
  import opened Backend

  /** The configuration every query is built from, read at the moment of the call. */
  datatype Config = Config(
    service: Option<string>,
    accessGroup: Option<string>,
    accessibility: Accessibility,
    params: Option<Attrs>,
    simulatorBuild: bool)   // whether the build defines TARGET_IPHONE_SIMULATOR

  function Params(cfg: Config): Attrs {
    cfg.params.GetOr(map[])
  }

  /** The access group enters queries only outside simulator builds. */
  predicate GroupApplies(cfg: Config) {
    cfg.accessGroup.Some? && !cfg.simulatorBuild
  }

  function QueryKeys(cfg: Config): set<string> {
    {KeyClass, KeyAccount}
    + (if cfg.service.Some? then {KeyService} else {})
    + Params(cfg).Keys
    + (if GroupApplies(cfg) then {KeyAccessGroup} else {})
  }

  /**
   * `queryDictionary(for:)`, stated by precedence: an applicable access group beats the
   * additional parameters, which beat the class, account and service entries.
   */
  function Query(cfg: Config, key: string): (q: Attrs)
    ensures q.Keys == QueryKeys(cfg)
    ensures KeyClass !in Params(cfg) ==> q[KeyClass] == GenericPassword
    ensures KeyAccount !in Params(cfg) ==> q[KeyAccount] == Data(Utf8.Encode(key))
    ensures KeyService in q <==> cfg.service.Some? || KeyService in Params(cfg)
    ensures cfg.service.Some? && KeyService !in Params(cfg) ==> q[KeyService] == Text(cfg.service.value)
    ensures forall a :: a in Params(cfg) && !(a == KeyAccessGroup && GroupApplies(cfg)) ==> q[a] == Params(cfg)[a]
    ensures KeyAccessGroup in q <==> GroupApplies(cfg) || KeyAccessGroup in Params(cfg)
    ensures GroupApplies(cfg) ==> q[KeyAccessGroup] == Text(cfg.accessGroup.value)
  {
    var base := map[KeyClass := GenericPassword, KeyAccount := Data(Utf8.Encode(key))];
    var withService := if cfg.service.Some? then base[KeyService := Text(cfg.service.value)] else base;
    var withParams := withService + Params(cfg);
    if GroupApplies(cfg) then withParams[KeyAccessGroup := Text(cfg.accessGroup.value)] else withParams
  }

  /** Swift's `dict[a] = v`: assigning nil removes the key. */
  function Assign(m: Attrs, a: string, v: Option<Value>): (r: Attrs)
    ensures Lookup(r, a) == v
    ensures forall b :: b != a ==> Lookup(r, b) == Lookup(m, b)
  {
    if v.Some? then m[a := v.value] else m - {a}
  }

  /** The accessibility attribute a policy puts into a query, if any. */
  function AccessibleValue(a: Accessibility): (v: Option<Value>)
    ensures v.None? <==> a == Never
    ensures a != Never ==> v == Some(Text(StateAttribute(a).value))
  {
    match StateAttribute(a)
    case Some(s) => Some(Text(s))
    case None => None
  }

  /** The query `add` sends: the payload and the current accessibility on top of the base query. */
  function AddQuery(cfg: Config, key: string, data: Bytes): (q: Attrs)
    ensures Lookup(q, KeyValueData) == Some(Data(data))
    ensures Lookup(q, KeyAccessible) == AccessibleValue(cfg.accessibility)
    ensures CompositeKey(q) == CompositeKey(Query(cfg, key))
  {
    Assign(Query(cfg, key), KeyAccessible, AccessibleValue(cfg.accessibility))[KeyValueData := Data(data)]
  }

  /** The query `data(for:)` sends: at most one match, and return its data. */
  function FetchQuery(cfg: Config, key: string): (q: Attrs)
    ensures Lookup(q, KeyMatchLimit) == Some(MatchLimitOne)
    ensures Lookup(q, KeyReturnData) == Some(Flag(true))
    ensures CompositeKey(q) == CompositeKey(Query(cfg, key))
  {
    Query(cfg, key)[KeyMatchLimit := MatchLimitOne][KeyReturnData := Flag(true)]
  }

  /** The query `update` sends; it carries the payload as well. */
  function UpdateQuery(cfg: Config, key: string, data: Bytes): (q: Attrs)
    ensures CompositeKey(q) == CompositeKey(Query(cfg, key))
  {
    Query(cfg, key)[KeyValueData := Data(data)]
  }

  /**
   * The attributes `update` changes. The dictionary literal keeps the accessibility key even
   * when the policy yields no attribute, with a null value.
   */
  function UpdateChanges(cfg: Config, data: Bytes): (changes: Attrs)
    ensures changes.Keys == {KeyValueData, KeyAccessible} && changes[KeyValueData] == Data(data)
  {
    map[KeyValueData := Data(data), KeyAccessible := AccessibleValue(cfg.accessibility).GetOr(Null)]
  }

  /** The query `deleteAllItems` sends: the class alone. */
  const DeleteAllQuery: Attrs := map[KeyClass := GenericPassword]

  /** The out-pointer error of a call: set exactly when the status is not success. */
  function Failure(status: int): (e: Option<Error>)
    ensures e.None? <==> status == Success
    ensures e.Some? ==> e.value == ErrorFromStatus(status)
  {
    if status == Success then None else Some(ErrorFromStatus(status))
  }

  /** An out-pointer error carrying a failing status in the OSStatus domain. */
  predicate StatusError(e: Option<Error>) {
    e.Some? && e.value.NSError? && e.value.domain == OSStatusErrorDomain && e.value.code != Success
  }

  /** Result, new entries and out-pointer error of a call that writes. */
  datatype Outcome = Outcome(ok: bool, items: Items, error: Option<Error>)

  /** Result and out-pointer error of `data(for:)`. */
  datatype Fetched = Fetched(data: Option<Bytes>, error: Option<Error>)

  /** `add(_:for:error:)`. */
  function AddOutcome(store: Store, cfg: Config, key: string, data: Bytes): (o: Outcome)
    ensures o.ok <==> store.veto(ItemAdd) == Success && CompositeKey(Query(cfg, key)) !in store.items
    ensures o.ok ==> (o.error.None? &&
      o.items == store.items[CompositeKey(Query(cfg, key)) := Entry(data, AccessibleValue(cfg.accessibility))])
    ensures !o.ok ==> o.items == store.items && StatusError(o.error)
    ensures store.veto(ItemAdd) == Success && !o.ok ==> o.error == Some(ErrorFromStatus(DuplicateItem))
    ensures store.veto(ItemAdd) != Success ==> o.error == Some(ErrorFromStatus(store.veto(ItemAdd)))
  {
    var r := Backend.Add(store.items, store.veto(ItemAdd), AddQuery(cfg, key, data));
    Outcome(r.status == Success, r.items, Failure(r.status))
  }

  /** `data(for:error:)`. */
  function DataOutcome(store: Store, cfg: Config, key: string): (f: Fetched)
    ensures f.data.Some? <==> store.veto(ItemCopyMatching) == Success && CompositeKey(Query(cfg, key)) in store.items
    ensures f.data.Some? ==> f.error.None? && f.data.value == store.items[CompositeKey(Query(cfg, key))].payload
    ensures f.data.None? ==> f.error.Some? && f.error.value.NSError? && f.error.value.domain == OSStatusErrorDomain
    ensures store.veto(ItemCopyMatching) == Success && f.data.None? ==> f.error == Some(ErrorFromStatus(ItemNotFound))
    ensures store.veto(ItemCopyMatching) != Success ==> f.error == Some(ErrorFromStatus(store.veto(ItemCopyMatching)))
  {
    var m := CopyMatching(store.items, store.veto(ItemCopyMatching), FetchQuery(cfg, key));
    if m.status == Success && m.result.Some? && m.result.value.Data? then Fetched(Some(m.result.value.bytes), None)
    else Fetched(None, Some(ErrorFromStatus(m.status)))
  }

  /** `update(_:for:error:)`. */
  function UpdateOutcome(store: Store, cfg: Config, key: string, data: Bytes): (o: Outcome)
    ensures o.ok <==> store.veto(ItemUpdate) == Success && CompositeKey(Query(cfg, key)) in store.items
    ensures o.ok ==> (o.error.None? &&
      o.items == store.items[CompositeKey(Query(cfg, key)) := Entry(data, Some(AccessibleValue(cfg.accessibility).GetOr(Null)))])
    ensures !o.ok ==> o.items == store.items && StatusError(o.error)
    ensures store.veto(ItemUpdate) == Success && !o.ok ==> o.error == Some(ErrorFromStatus(ItemNotFound))
    ensures store.veto(ItemUpdate) != Success ==> o.error == Some(ErrorFromStatus(store.veto(ItemUpdate)))
  {
    var r := Backend.Update(store.items, store.veto(ItemUpdate), UpdateQuery(cfg, key, data), UpdateChanges(cfg, data));
    Outcome(r.status == Success, r.items, Failure(r.status))
  }

  /** `deleteItem(for:error:)`. */
  function DeleteItemOutcome(store: Store, cfg: Config, key: string): (o: Outcome)
    ensures o.ok <==> (store.veto(ItemDelete) == Success
      && exists k :: k in store.items && Matches(k, CompositeKey(Query(cfg, key))))
    ensures store.veto(ItemDelete) == Success && !o.ok ==> o.error == Some(ErrorFromStatus(ItemNotFound))
    ensures store.veto(ItemDelete) != Success ==> o.error == Some(ErrorFromStatus(store.veto(ItemDelete)))
    ensures o.ok ==> (o.error.None? &&
      forall k :: k in o.items <==> k in store.items && !Matches(k, CompositeKey(Query(cfg, key))))
    ensures o.ok ==> forall k :: k in o.items ==> o.items[k] == store.items[k]
    ensures !o.ok ==> o.items == store.items && StatusError(o.error)
  {
    var r := Backend.Delete(store.items, store.veto(ItemDelete), Query(cfg, key));
    Outcome(r.status == Success, r.items, Failure(r.status))
  }

  /** `deleteAllItems(error:)`: every generic-password entry, whatever its service, account or group. */
  function DeleteAllOutcome(store: Store): (o: Outcome)
    ensures o.ok <==> (store.veto(ItemDelete) == Success
      && exists k :: k in store.items && Lookup(k, KeyClass) == Some(GenericPassword))
    ensures store.veto(ItemDelete) == Success && !o.ok ==> o.error == Some(ErrorFromStatus(ItemNotFound))
    ensures store.veto(ItemDelete) != Success ==> o.error == Some(ErrorFromStatus(store.veto(ItemDelete)))
    ensures o.ok ==> (o.error.None? &&
      forall k :: k in o.items <==> k in store.items && Lookup(k, KeyClass) != Some(GenericPassword))
    ensures o.ok ==> forall k :: k in o.items ==> o.items[k] == store.items[k]
    ensures !o.ok ==> o.items == store.items && StatusError(o.error)
  {
    var r := Backend.Delete(store.items, store.veto(ItemDelete), DeleteAllQuery);
    assert CompositeKey(DeleteAllQuery) == DeleteAllQuery;
    Outcome(r.status == Success, r.items, Failure(r.status))
  }

  class KeychainServices {
    var service: Option<string>
    var accessGroup: Option<string>
    var accessibilityState: Accessibility
    var additionalQueryParams: Option<Attrs>
    const simulatorBuild: bool
    const keychain: Keychain

    /** A fresh instance: no service, no access group, no extra parameters, `whenUnlocked`. */
    constructor (keychain: Keychain, simulatorBuild: bool)
      ensures Configuration() == Config(None, None, WhenUnlocked, None, simulatorBuild)
      ensures this.keychain == keychain
    {
      service := None;
      accessGroup := None;
      accessibilityState := WhenUnlocked;
      additionalQueryParams := None;
      this.simulatorBuild := simulatorBuild;
      this.keychain := keychain;
    }

    function Configuration(): Config
      reads this
    {
      Config(service, accessGroup, accessibilityState, additionalQueryParams, simulatorBuild)
    }

    /** `queryDictionary(for:)`, filled in step by step. */
    method QueryDictionary(key: string) returns (query: Attrs)
      ensures query == Query(Configuration(), key)
    {
      query := map[KeyClass := GenericPassword, KeyAccount := Data(Utf8.Encode(key))];
      if service.Some? {
        query := query[KeyService := Text(service.value)];
      }
      if additionalQueryParams.Some? {
        query := query + additionalQueryParams.value;
      }
      if accessGroup.Some? {
        if !simulatorBuild {
          query := query[KeyAccessGroup := Text(accessGroup.value)];
        }
      }
    }

    method Add(data: Bytes, key: string) returns (ok: bool, error: Option<Error>)
      modifies keychain
      ensures keychain.veto == old(keychain.veto)
      ensures Outcome(ok, keychain.items, error) == AddOutcome(old(keychain.Snapshot()), Configuration(), key, data)
    {
      var query := QueryDictionary(key);
      query := Assign(query, KeyAccessible, AccessibleValue(accessibilityState));
      query := query[KeyValueData := Data(data)];
      var status := keychain.ItemAdd(query);
      ok, error := status == Success, Failure(status);
    }

    method DataFor(key: string) returns (data: Option<Bytes>, error: Option<Error>)
      ensures Fetched(data, error) == DataOutcome(keychain.Snapshot(), Configuration(), key)
    {
      var query := QueryDictionary(key);
      query := query[KeyMatchLimit := MatchLimitOne];
      query := query[KeyReturnData := Flag(true)];
      var status, result := keychain.ItemCopyMatching(query);
      if status == Success && result.Some? && result.value.Data? {
        data, error := Some(result.value.bytes), None;
      } else {
        data, error := None, Some(ErrorFromStatus(status));
      }
    }

    method DeleteAllItems() returns (ok: bool, error: Option<Error>)
      modifies keychain
      ensures keychain.veto == old(keychain.veto)
      ensures Outcome(ok, keychain.items, error) == DeleteAllOutcome(old(keychain.Snapshot()))
    {
      var status := keychain.ItemDelete(DeleteAllQuery);
      ok, error := status == Success, Failure(status);
    }

    method DeleteItem(key: string) returns (ok: bool, error: Option<Error>)
      modifies keychain
      ensures keychain.veto == old(keychain.veto)
      ensures Outcome(ok, keychain.items, error) == DeleteItemOutcome(old(keychain.Snapshot()), Configuration(), key)
    {
      var query := QueryDictionary(key);
      var status := keychain.ItemDelete(query);
      ok, error := status == Success, Failure(status);
    }

    method Update(data: Bytes, key: string) returns (ok: bool, error: Option<Error>)
      modifies keychain
      ensures keychain.veto == old(keychain.veto)
      ensures Outcome(ok, keychain.items, error) == UpdateOutcome(old(keychain.Snapshot()), Configuration(), key, data)
    {
      var query := QueryDictionary(key);
      query := query[KeyValueData := Data(data)];
      var changes := map[KeyValueData := Data(data), KeyAccessible := AccessibleValue(accessibilityState).GetOr(Null)];
      var status := keychain.ItemUpdate(query, changes);
      ok, error := status == Success, Failure(status);
    }
  }
}
