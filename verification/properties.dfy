/**
 * Properties that relate several facade operations: what a write leaves for a later read,
 * what `register(defaults:)` does and does not overwrite, how far `deleteAll()` reaches,
 * and the two places where the source's code departs from its evident intent.
 */
module Properties {
  import opened Types
  import Utf8
  import opened Errors
  import opened Backend
  import opened Services
  import opened Archiving
  import opened AccessModel

  /** The keychain raises no objection to any call. */
  predicate Cooperative(store: Store) {
    store.veto(ItemAdd) == Success && store.veto(ItemCopyMatching) == Success
    && store.veto(ItemUpdate) == Success && store.veto(ItemDelete) == Success
  }

  function After(store: Store, w: Write): Store {
    Store(w.items, store.veto)
  }

  /** Data written under a key is read back, whether the write added the entry or updated it. */
  lemma DataRoundTrip(store: Store, cfg: Config, key: string, data: Bytes)
    requires Cooperative(store)
    ensures var r := DataRead(After(store, DataWrite(store, cfg, key, Some(data))), cfg, key);
      r.value == Some(data) && r.errs == []
  {
  }

  /** A string written under a key is read back unchanged. */
  lemma StringRoundTrip(store: Store, cfg: Config, key: string, s: string)
    requires Cooperative(store)
    ensures StringRead(After(store, StringWrite(store, cfg, key, s)), cfg, key).value == Some(s)
  {
    DataRoundTrip(store, cfg, key, Utf8.Encode(s));
    Utf8.DecodeEncode(s);
  }

  /**
   * An object written with `set(object:for:)` comes back from `object(for:ofClasses:)`, with
   * nothing reported, when the archiver is faithful and every class in the object's graph is a
   * built-in or one of the classes asked for.
   */
  lemma ObjectRoundTrip(store: Store, env: Env, key: string, o: Object, classes: seq<ClassName>)
    requires Cooperative(store) && Faithful(env.codec) && env.codec.archive(o).Archived?
    requires Permitted(o, BuiltInClasses + set c | c in classes)
    ensures var r := ObjectRead(After(store, ObjectWrite(store, env, key, o)), env, key, classes);
      r.value == Some(o) && r.errs == []
  {
    DataRoundTrip(store, env.cfg, key, env.codec.archive(o).bytes);
  }

  /** A number written as an object comes back from `number(for:)` when the archiver is faithful. */
  lemma NumberRoundTrip(store: Store, env: Env, key: string, n: Number)
    requires Cooperative(store) && Faithful(env.codec) && env.codec.archive(Num(n)).Archived?
    ensures NumberRead(After(store, ObjectWrite(store, env, key, Num(n))), env, key).value == Some(n)
  {
    assert Permitted(Num(n), BuiltInClasses + set c | c in [NSNumber]);
    ObjectRoundTrip(store, env, key, Num(n), [NSNumber]);
  }

  /** `set(integer:for:)` then `integer(for:)` gives back the integer cut to 32 bits, so any `Int32` comes back unchanged. */
  lemma IntegerRoundTrip(store: Store, env: Env, key: string, i: int)
    requires Cooperative(store) && Faithful(env.codec) && env.codec.archive(Num(Integer(i))).Archived?
    ensures IntegerRead(After(store, ObjectWrite(store, env, key, Num(Integer(i)))), env, key).value == Int32Of(i)
    ensures -0x8000_0000 <= i < 0x8000_0000 ==>
      IntegerRead(After(store, ObjectWrite(store, env, key, Num(Integer(i)))), env, key).value == i
  {
    NumberRoundTrip(store, env, key, Integer(i));
  }

  /** `set(double:for:)` then `double(for:)` gives the number back. */
  lemma RealRoundTrip(store: Store, env: Env, key: string, x: real)
    requires Cooperative(store) && Faithful(env.codec) && env.codec.archive(Num(Real(x))).Archived?
    ensures RealRead(After(store, ObjectWrite(store, env, key, Num(Real(x)))), env, key).value == x
  {
    NumberRoundTrip(store, env, key, Real(x));
  }

  /** With the value read, `set(bool:for:)` then `bool(for:)` gives the flag back. */
  lemma BoolRoundTrip(store: Store, env: Env, key: string, b: bool)
    requires Cooperative(store) && Faithful(env.codec) && env.codec.archive(Num(Boolean(b))).Archived?
    ensures BoolRead(After(store, ObjectWrite(store, env, key, Num(Boolean(b)))), env, key).value == b
  {
    NumberRoundTrip(store, env, key, Boolean(b));
  }

  /** As written, `bool(for:)` reads a stored false as true. */
  lemma BoolAsWrittenReadsFalseAsTrue(store: Store, env: Env, key: string)
    requires Cooperative(store) && Faithful(env.codec) && env.codec.archive(Num(Boolean(false))).Archived?
    ensures var after := After(store, ObjectWrite(store, env, key, Num(Boolean(false))));
      BoolReadAsWritten(after, env, key).value && !BoolRead(after, env, key).value
  {
    NumberRoundTrip(store, env, key, Boolean(false));
  }

  /**
   * A key with no entry reads as nil data and string, zero numbers and false, and every one of
   * these reads hands the lookup's error to the handler.
   */
  lemma MissingKeyDefaults(store: Store, env: Env, key: string)
    requires EntryKey(env.cfg, key) !in store.items
    ensures DataRead(store, env.cfg, key).value.None? && DataRead(store, env.cfg, key).errs != []
    ensures StringRead(store, env.cfg, key).value.None? && StringRead(store, env.cfg, key).errs != []
    ensures IntegerRead(store, env, key).value == 0 && IntegerRead(store, env, key).errs != []
    ensures RealRead(store, env, key).value == 0.0 && RealRead(store, env, key).errs != []
    ensures !BoolRead(store, env, key).value && BoolRead(store, env, key).errs != []
    ensures var lookup := DataRead(store, env.cfg, key).errs;
      StringRead(store, env.cfg, key).errs == lookup && IntegerRead(store, env, key).errs == lookup
      && RealRead(store, env, key).errs == lookup && BoolRead(store, env, key).errs == lookup
    ensures store.veto(ItemCopyMatching) == Success ==> DataRead(store, env.cfg, key).errs == [ErrorFromStatus(ItemNotFound)]
  {
  }

  /**
   * When add reports a duplicate, `set(data:for:)` updates the entry yet returns false, and the
   * handler hears of it only if the update fails.
   */
  lemma SetDataOnExistingKey(store: Store, cfg: Config, key: string, data: Bytes)
    requires store.veto(ItemAdd) == Success && EntryKey(cfg, key) in store.items
    ensures var w := DataWrite(store, cfg, key, Some(data));
      !w.ok && (w.errs == [] <==> store.veto(ItemUpdate) == Success)
    ensures store.veto(ItemUpdate) == Success ==>
      DataWrite(store, cfg, key, Some(data)).items[EntryKey(cfg, key)].payload == data
  {
    var add := AddOutcome(store, cfg, key, data);
    assert IsDuplicate(add.error);
  }

  /**
   * `deleteObject(for:)` removes the key: deleting a stored key succeeds with nothing reported,
   * and afterwards `data(for:)` finds nothing and reports item-not-found.
   */
  lemma DeleteRemovesKey(store: Store, cfg: Config, key: string)
    requires Cooperative(store)
    ensures EntryKey(cfg, key) in store.items ==> RemoveObject(store, cfg, key).ok && RemoveObject(store, cfg, key).errs == []
    ensures var r := DataRead(After(store, RemoveObject(store, cfg, key)), cfg, key);
      r.value.None? && r.errs == [ErrorFromStatus(ItemNotFound)]
  {
    var k := EntryKey(cfg, key);
    assert Matches(k, k);
    assert k !in RemoveObject(store, cfg, key).items;
  }

  /** `set(data: nil, for:)` removes the key as `deleteObject(for:)` does, and returns true. */
  lemma SetNilRemovesKey(store: Store, cfg: Config, key: string)
    requires Cooperative(store)
    ensures DataWrite(store, cfg, key, None).ok
    ensures var r := DataRead(After(store, DataWrite(store, cfg, key, None)), cfg, key);
      r.value.None? && r.errs == [ErrorFromStatus(ItemNotFound)]
  {
    DeleteRemovesKey(store, cfg, key);
  }

  /** `deleteAll()` removes every entry a read could find, whatever its service, group or key. */
  lemma DeleteAllReachesEveryKey(store: Store, cfg: Config, key: string)
    requires store.veto(ItemDelete) == Success && KeyClass !in Params(cfg)
    ensures DataRead(After(store, RemoveAll(store)), cfg, key).value.None?
  {
    var k := EntryKey(cfg, key);
    assert Lookup(k, KeyClass) == Some(GenericPassword);
  }

  /** Two keys name different entries: an item stored under one is not matched by a query for the other. */
  lemma AccountSeparates(cfg: Config, key: string, other: string)
    requires key != other && KeyAccount !in Params(cfg)
    ensures !Matches(EntryKey(cfg, other), EntryKey(cfg, key))
  {
    Utf8.DecodeEncode(key);
    Utf8.DecodeEncode(other);
    assert Lookup(EntryKey(cfg, other), KeyAccount) == Some(Data(Utf8.Encode(other)));
    assert Lookup(EntryKey(cfg, key), KeyAccount) == Some(Data(Utf8.Encode(key)));
  }

  /** Deleting one key leaves what every other key reads, unless the parameters pin the account. */
  lemma DeleteOneKeepsOtherKeys(store: Store, cfg: Config, key: string, other: string)
    requires key != other && KeyAccount !in Params(cfg)
    ensures DataRead(After(store, RemoveObject(store, cfg, key)), cfg, other).value == DataRead(store, cfg, other).value
  {
    AccountSeparates(cfg, key, other);
    var k := EntryKey(cfg, other);
    var after := After(store, RemoveObject(store, cfg, key));
    assert k in after.items <==> k in store.items;
    assert k in after.items ==> after.items[k] == store.items[k];
  }

  /** A default whose key has no value is written, and the loop ends with that write's result. */
  lemma RegisterWrites(store: Store, env: Env, defaults: seq<(string, Object)>, i: nat)
    requires i < |defaults| && Missing(store, env, defaults[i].0, defaults[i].1).value
    ensures var w := DefaultWrite(store, env, defaults[i].0, defaults[i].1);
      RegisterFrom(store, env, defaults, i).ok == w.ok && RegisterFrom(store, env, defaults, i).items == w.items
  {
    assert Probes(store, env, defaults)[i] == Missing(store, env, defaults[i].0, defaults[i].1);
    assert Writes(store, env, defaults)[i] == DefaultWrite(store, env, defaults[i].0, defaults[i].1);
  }

  /** Entries whose probe finds a value are passed over: the loop ends as it would from the entry after them. */
  lemma {:induction false} ScanSkips(probes: seq<Read<bool>>, writes: seq<Write>, items: Items, start: nat, end: nat)
    requires |writes| == |probes| && start <= end <= |probes|
    requires forall j :: start <= j < end ==> !probes[j].value
    ensures Scan(probes, writes, items, start).ok == Scan(probes, writes, items, end).ok
    ensures Scan(probes, writes, items, start).items == Scan(probes, writes, items, end).items
    decreases end - start
  {
    if start < end {
      ScanSkips(probes, writes, items, start + 1, end);
    }
  }

  /** Defaults whose keys all have values are passed over: the loop's result is that of the entries after them. */
  lemma RegisterSkipsPresent(store: Store, env: Env, defaults: seq<(string, Object)>, start: nat, end: nat)
    requires start <= end <= |defaults|
    requires forall j :: start <= j < end ==> !Missing(store, env, defaults[j].0, defaults[j].1).value
    ensures RegisterFrom(store, env, defaults, start).ok == RegisterFrom(store, env, defaults, end).ok
    ensures RegisterFrom(store, env, defaults, start).items == RegisterFrom(store, env, defaults, end).items
  {
    var probes := Probes(store, env, defaults);
    forall j | start <= j < end
      ensures !probes[j].value
    {
      assert probes[j] == Missing(store, env, defaults[j].0, defaults[j].1);
    }
    ScanSkips(probes, Writes(store, env, defaults), store.items, start, end);
  }

  /** `register(defaults:)` leaves every key alone, and returns false, when all already have values. */
  lemma RegisterKeepsExistingValues(store: Store, env: Env, defaults: seq<(string, Object)>)
    requires forall i :: 0 <= i < |defaults| ==> !Missing(store, env, defaults[i].0, defaults[i].1).value
    ensures !Register(store, env, defaults).ok && Register(store, env, defaults).items == store.items
  {
    RegisterSkipsPresent(store, env, defaults, 0, |defaults|);
    RegisterExhausted(store, env, defaults, []);
  }

  /**
   * `register(defaults:)` writes exactly the first default whose key has no value and returns
   * that write's result, so no later key is written.
   */
  lemma RegisterWritesFirstMissing(store: Store, env: Env, defaults: seq<(string, Object)>, i: nat)
    requires i < |defaults| && Missing(store, env, defaults[i].0, defaults[i].1).value
    requires forall j :: 0 <= j < i ==> !Missing(store, env, defaults[j].0, defaults[j].1).value
    ensures var w := DefaultWrite(store, env, defaults[i].0, defaults[i].1);
      Register(store, env, defaults).ok == w.ok && Register(store, env, defaults).items == w.items
  {
    RegisterSkipsPresent(store, env, defaults, 0, i);
    RegisterWrites(store, env, defaults, i);
  }

  /**
   * Once a string default is registered for a key without a value, registering any default
   * for the same key again writes nothing and returns false.
   */
  lemma RegisterKeepsFirstDefault(store: Store, env: Env, key: string, s: string, later: Object)
    requires Cooperative(store) && Missing(store, env, key, Str(s)).value
    ensures var first := Register(store, env, [(key, Str(s))]);
      var second := Register(After(store, first), env, [(key, later)]);
      !second.ok && second.items == first.items
  {
    var after := After(store, Register(store, env, [(key, Str(s))]));
    RegisteredStringReadsBack(store, env, key, s);
    RegisterKeepsStoredString(after, env, key, later);
  }

  /** A string default registered for a key without a value is what `string(for:)` then reads. */
  lemma RegisteredStringReadsBack(store: Store, env: Env, key: string, s: string)
    requires Cooperative(store) && Missing(store, env, key, Str(s)).value
    ensures StringRead(After(store, Register(store, env, [(key, Str(s))])), env.cfg, key).value == Some(s)
  {
    RegisterWritesFirstMissing(store, env, [(key, Str(s))], 0);
    StringRoundTrip(store, env.cfg, key, s);
  }

  /** A key that reads as a string is never missing, so registering any default for it writes nothing. */
  lemma RegisterKeepsStoredString(store: Store, env: Env, key: string, value: Object)
    requires StringRead(store, env.cfg, key).value.Some?
    ensures !Register(store, env, [(key, value)]).ok && Register(store, env, [(key, value)]).items == store.items
  {
    assert !Missing(store, env, key, value).value;
    RegisterKeepsExistingValues(store, env, [(key, value)]);
  }

  /**
   * As written, `register(defaults:)` rejects even a plain string default for an empty key:
   * it reports an invalid type and writes nothing, where the evident intent writes it.
   */
  lemma RegisterAsWrittenWritesNothing(store: Store, env: Env, key: string, s: string)
    requires Cooperative(store) && EntryKey(env.cfg, key) !in store.items
    ensures var w := RegisterAsWritten(store, env, [(key, Str(s))]);
      !w.ok && w.items == store.items && w.errs == [AccessError(InvalidType)]
    ensures var w := Register(store, env, [(key, Str(s))]);
      w.ok && StringRead(After(store, w), env.cfg, key).value == Some(s)
  {
    var defaults := [(key, Str(s))];
    assert !DataRead(store, env.cfg, key).value.Some?;
    var chain := Lineage(env, NSString);
    FindObjectFinds(store, env, key, chain);
    forall i | 0 <= i < Probed(chain)
      ensures Try(store, env, key, chain[i]).None?
    {
    }
    assert Missing(store, env, key, Str(s)).value;
    RegisterWritesFirstMissing(store, env, defaults, 0);
    StringRoundTrip(store, env.cfg, key, s);
  }

  /** On a simulator build the access group never enters a query. */
  lemma SimulatorIgnoresAccessGroup(cfg: Config, key: string)
    requires cfg.simulatorBuild
    ensures Query(cfg, key) == Query(cfg.(accessGroup := None), key)
  {
  }

  /** Without overriding parameters, two services keep separate entries for the same key. */
  lemma ServicesAreSeparate(cfg: Config, service1: string, service2: string, key: string)
    requires service1 != service2 && KeyService !in Params(cfg)
    ensures EntryKey(cfg.(service := Some(service1)), key) != EntryKey(cfg.(service := Some(service2)), key)
  {
    assert EntryKey(cfg.(service := Some(service1)), key)[KeyService] == Text(service1);
  }
}
