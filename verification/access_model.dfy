/**
 * What each `LUKeychainAccess` operation does, as functions of the keychain's state, the
 * services configuration and the archive collaborators: the value it returns, the entries
 * it leaves, and the errors it hands to `handle(error:)` in order.
 */
module AccessModel {
  import opened Types
  import Utf8
  import opened Errors
  import opened Backend
  import opened Services
  import opened Archiving

  /** Everything a facade call depends on besides the store. */
  datatype Env = Env(cfg: Config, codec: Codec, superclasses: ClassName -> seq<ClassName>)

  /** A class followed by its superclasses, nearest first. */
  function Lineage(env: Env, c: ClassName): (chain: seq<ClassName>)
    ensures |chain| > 0 && chain[0] == c
  {
    [c] + env.superclasses(c)
  }

  /** A read's result and the errors it hands to `handle(error:)`. */
  datatype Read<T> = Read(value: T, errs: seq<Error>)

  /** A write's result, the entries it leaves and the errors it hands to `handle(error:)`. */
  datatype Write = Write(ok: bool, items: Items, errs: seq<Error>)

  /** The errors `handle(error:)` passes on for an optional error: none for nil, otherwise that one. */
  function Handled(e: Option<Error>): (errs: seq<Error>)
    ensures errs == [] <==> e.None?
    ensures e.Some? ==> errs == [e.value]
  {
    if e.Some? then [e.value] else []
  }

  /** An error reporting the duplicate-item status. */
  predicate IsDuplicate(e: Option<Error>) {
    e.Some? && e.value.NSError? && e.value.code == DuplicateItem
  }

  function EntryKey(cfg: Config, key: string): Attrs {
    CompositeKey(Query(cfg, key))
  }

  /** `data(for:)`: the stored bytes, or nil with the services error handed on. */
  function DataRead(store: Store, cfg: Config, key: string): (r: Read<Option<Bytes>>)
    ensures r.value.Some? <==> store.veto(ItemCopyMatching) == Success && EntryKey(cfg, key) in store.items
    ensures r.value.Some? ==> r.value.value == store.items[EntryKey(cfg, key)].payload && r.errs == []
    ensures r.value.None? ==> |r.errs| == 1 && r.errs[0].NSError? && r.errs[0].domain == OSStatusErrorDomain
    ensures r.value.None? ==> r.errs == [DataOutcome(store, cfg, key).error.value]
    ensures store.veto(ItemCopyMatching) == Success && r.value.None? ==> r.errs == [ErrorFromStatus(ItemNotFound)]
  {
    var f := DataOutcome(store, cfg, key);
    Read(f.data, if f.data.None? then Handled(f.error) else [])
  }

  /** `string(for:)`: the stored bytes read as UTF-8; nil when nothing is stored or they are not UTF-8. */
  function StringRead(store: Store, cfg: Config, key: string): (r: Read<Option<string>>)
    ensures r.errs == DataRead(store, cfg, key).errs
    ensures r.value.Some? ==> DataRead(store, cfg, key).value == Some(Utf8.Encode(r.value.value))
    ensures DataRead(store, cfg, key).value.None? ==> r.value.None?
    ensures DataRead(store, cfg, key).value.Some? && Utf8.Decode(DataRead(store, cfg, key).value.value).Some? ==>
      r.value == Utf8.Decode(DataRead(store, cfg, key).value.value)
  {
    var d := DataRead(store, cfg, key);
    match d.value
    case None => Read(None, d.errs)
    case Some(bytes) =>
      var s := Utf8.Decode(bytes);
      if s.Some? then Utf8.EncodeDecode(bytes); Read(s, d.errs) else Read(None, d.errs)
  }

  /** The error `object(for:ofClasses:)` reports for data that does not unarchive. */
  function UnarchiveFailure(key: string): (e: Error)
    ensures e.NSError? && e.domain == KeychainAccessErrorDomain && e.code == 0
  {
    NSError(KeychainAccessErrorDomain, 0, "Error while calling objectForKey: with key " + key)
  }

  /** `object(for:ofClasses:)`: the stored data unarchived against the built-ins and the given classes. */
  function ObjectRead(store: Store, env: Env, key: string, classes: seq<ClassName>): (r: Read<Option<Object>>)
    ensures r.value.Some? ==> (DataRead(store, env.cfg, key).value.Some?
      && env.codec.decode(DataRead(store, env.cfg, key).value.value) == r.value
      && Permitted(r.value.value, BuiltInClasses + set c | c in classes))
    ensures r.value.Some? ==> r.errs == []
    ensures r.value.None? ==> |r.errs| == 1
    ensures DataRead(store, env.cfg, key).value.None? ==> r.value.None? && r.errs == DataRead(store, env.cfg, key).errs
    ensures DataRead(store, env.cfg, key).value.Some? && r.value.None? ==> r.errs == [UnarchiveFailure(key)]
    ensures DataRead(store, env.cfg, key).value.Some?
      && env.codec.decode(DataRead(store, env.cfg, key).value.value).Some?
      && Permitted(env.codec.decode(DataRead(store, env.cfg, key).value.value).value, BuiltInClasses + set c | c in classes)
      ==> r.value == env.codec.decode(DataRead(store, env.cfg, key).value.value)
  {
    var d := DataRead(store, env.cfg, key);
    match d.value
    case None => Read(None, d.errs)
    case Some(bytes) =>
      AllowedClassesAre(classes);
      var o := Unarchive(env.codec, AllowedClasses(classes), bytes);
      if o.Some? then Read(o, d.errs) else Read(None, d.errs + [UnarchiveFailure(key)])
  }

  /** How many classes of a chain `recursivelyFindObject` tries: up to and including `NSObject`. */
  function Probed(chain: seq<ClassName>): (n: nat)
    ensures n <= |chain| && (|chain| > 0 ==> 1 <= n)
    ensures forall i :: 0 <= i < n - 1 ==> chain[i] != NSObject
    ensures n < |chain| ==> chain[n - 1] == NSObject
  {
    if chain == [] then 0
    else if chain[0] == NSObject then 1
    else 1 + Probed(chain[1..])
  }

  /** `recursivelyFindObject`: try each class of the chain in turn, stopping after `NSObject`. */
  function FindObject(store: Store, env: Env, key: string, chain: seq<ClassName>): (r: Read<Option<Object>>)
    requires |chain| > 0
    ensures Try(store, env, key, chain[0]).Some? ==> r == ObjectRead(store, env, key, [chain[0]])
    ensures r.value.None? ==> |r.errs| == Probed(chain)
    decreases |chain|
  {
    var first := ObjectRead(store, env, key, [chain[0]]);
    if first.value.Some? then first
    else if |chain| > 1 && chain[0] != NSObject then
      var rest := FindObject(store, env, key, chain[1..]);
      Read(rest.value, first.errs + rest.errs)
    else
      first
  }

  /** What unarchiving the key's data as one class gives. */
  function Try(store: Store, env: Env, key: string, c: ClassName): Option<Object> {
    ObjectRead(store, env, key, [c]).value
  }

  /** The classes after the first are the tail's, and the probe tries one more of them. */
  lemma ProbedTail(chain: seq<ClassName>)
    requires |chain| > 1 && chain[0] != NSObject
    ensures Probed(chain) == 1 + Probed(chain[1..])
    ensures forall i :: 1 <= i < Probed(chain) ==> chain[i] == chain[1..][i - 1]
  {
  }

  /** When the first class finds nothing and the chain goes on, the probe's object is the tail's. */
  lemma FindObjectStep(store: Store, env: Env, key: string, chain: seq<ClassName>)
    requires |chain| > 1 && chain[0] != NSObject && Try(store, env, key, chain[0]).None?
    ensures FindObject(store, env, key, chain).value == FindObject(store, env, key, chain[1..]).value
  {
  }

  /** An object the probe finds is what one of the classes it tries unarchives. */
  lemma {:induction false} FindObjectResult(store: Store, env: Env, key: string, chain: seq<ClassName>)
    requires |chain| > 0
    ensures FindObject(store, env, key, chain).value.Some? ==>
      exists i :: 0 <= i < Probed(chain) && FindObject(store, env, key, chain).value == Try(store, env, key, chain[i])
    decreases |chain|
  {
    if Try(store, env, key, chain[0]).None? && |chain| > 1 && chain[0] != NSObject {
      var tail := chain[1..];
      FindObjectResult(store, env, key, tail);
      FindObjectStep(store, env, key, chain);
      ProbedTail(chain);
      if FindObject(store, env, key, tail).value.Some? {
        var j :| 0 <= j < Probed(tail) && FindObject(store, env, key, tail).value == Try(store, env, key, tail[j]);
        assert chain[j + 1] == tail[j];
      }
    }
  }

  /** A class the probe tries that unarchives an object makes the probe find one. */
  lemma {:induction false} FindObjectComplete(store: Store, env: Env, key: string, chain: seq<ClassName>, i: nat)
    requires |chain| > 0 && i < Probed(chain) && Try(store, env, key, chain[i]).Some?
    ensures FindObject(store, env, key, chain).value.Some?
    decreases |chain|
  {
    if Try(store, env, key, chain[0]).None? {
      assert 0 < i && chain[0] != NSObject;
      ProbedTail(chain);
      FindObjectStep(store, env, key, chain);
      FindObjectComplete(store, env, key, chain[1..], i - 1);
    }
  }

  /** The probe finds an object exactly when some class it tries, up to `NSObject`, unarchives one. */
  lemma FindObjectFinds(store: Store, env: Env, key: string, chain: seq<ClassName>)
    requires |chain| > 0
    ensures FindObject(store, env, key, chain).value.Some? <==>
      exists i :: 0 <= i < Probed(chain) && Try(store, env, key, chain[i]).Some?
  {
    if FindObject(store, env, key, chain).value.Some? {
      FindObjectResult(store, env, key, chain);
    } else {
      forall i | 0 <= i < Probed(chain)
        ensures Try(store, env, key, chain[i]).None?
      {
        if Try(store, env, key, chain[i]).Some? {
          FindObjectComplete(store, env, key, chain, i);
        }
      }
    }
  }

  /** `number(for:)`: an object decoded as an `NSNumber`; a thrown error leaves the handler alone. */
  function NumberRead(store: Store, env: Env, key: string): (r: Read<Option<Number>>)
    ensures r.errs == ObjectRead(store, env, key, [NSNumber]).errs
    ensures r.value.Some? <==> ObjectRead(store, env, key, [NSNumber]).value.Some? && ObjectRead(store, env, key, [NSNumber]).value.value.Num?
    ensures r.value.Some? ==> ObjectRead(store, env, key, [NSNumber]).value == Some(Num(r.value.value))
  {
    var o := ObjectRead(store, env, key, [NSNumber]);
    if o.value.Some? && o.value.value.Num? then Read(Some(o.value.value.number), o.errs) else Read(None, o.errs)
  }

  /** The 32-bit two's-complement value with the same low 32 bits as `i`. */
  function Int32Of(i: int): (v: int)
    ensures -0x8000_0000 <= v < 0x8000_0000
    ensures (v - i) % 0x1_0000_0000 == 0
    ensures -0x8000_0000 <= i < 0x8000_0000 ==> v == i
  {
    (i + 0x8000_0000) % 0x1_0000_0000 - 0x8000_0000
  }

  /**
   * `NSNumber.intValue`, an `Int32`: booleans as 0 or 1, integers cut to their low 32 bits,
   * reals truncated toward zero.
   */
  function IntValue(n: Number): (v: int)
    ensures n.Boolean? ==> v as real == RealValue(n)
    ensures n.Integer? ==> -0x8000_0000 <= v < 0x8000_0000 && (v - n.i) % 0x1_0000_0000 == 0
    ensures n.Integer? && -0x8000_0000 <= n.i < 0x8000_0000 ==> v == n.i
    ensures n.Real? && n.r >= 0.0 ==> v as real <= n.r < v as real + 1.0
    ensures n.Real? && n.r < 0.0 ==> v as real - 1.0 < n.r <= v as real
  {
    match n
    case Boolean(b) => if b then 1 else 0
    case Integer(i) => Int32Of(i)
    case Real(r) => if r >= 0.0 then r.Floor else -((-r).Floor)
  }

  /** `NSNumber.doubleValue` and `floatValue`. */
  function RealValue(n: Number): (x: real)
    ensures n.Boolean? ==> (x == 1.0 <==> n.b) && (x == 0.0 <==> !n.b)
    ensures n.Integer? ==> x == n.i as real
    ensures n.Real? ==> x == n.r
  {
    match n
    case Boolean(b) => if b then 1.0 else 0.0
    case Integer(i) => i as real
    case Real(r) => r
  }

  /** `NSNumber.boolValue`: true for any non-zero number. */
  function BoolValue(n: Number): (b: bool)
    ensures b <==> RealValue(n) != 0.0
  {
    match n
    case Boolean(b) => b
    case Integer(i) => i != 0
    case Real(r) => r != 0.0
  }

  /** `integer(for:)`: the stored number, or 0 when none decodes. */
  function IntegerRead(store: Store, env: Env, key: string): (r: Read<int>)
    ensures r.errs == NumberRead(store, env, key).errs
    ensures NumberRead(store, env, key).value.None? ==> r.value == 0
  {
    var n := NumberRead(store, env, key);
    Read(IntValue(n.value.GetOr(Integer(0))), n.errs)
  }

  /** `double(for:)` and `float(for:)`: the stored number, or 0 when none decodes. */
  function RealRead(store: Store, env: Env, key: string): (r: Read<real>)
    ensures r.errs == NumberRead(store, env, key).errs
    ensures NumberRead(store, env, key).value.None? ==> r.value == 0.0
  {
    var n := NumberRead(store, env, key);
    Read(RealValue(n.value.GetOr(Integer(0))), n.errs)
  }

  /** `bool(for:)` as the source writes it: whether a number decodes, whatever its value. */
  function BoolReadAsWritten(store: Store, env: Env, key: string): (r: Read<bool>)
    ensures r.errs == NumberRead(store, env, key).errs
    ensures r.value <==> NumberRead(store, env, key).value.Some?
  {
    var n := NumberRead(store, env, key);
    Read(n.value.Some?, n.errs)
  }

  /** `bool(for:)` as intended: the decoded number's truth value, false when none decodes. */
  function BoolRead(store: Store, env: Env, key: string): (r: Read<bool>)
    ensures r.errs == NumberRead(store, env, key).errs
    ensures r.value <==> NumberRead(store, env, key).value.Some? && BoolValue(NumberRead(store, env, key).value.value)
  {
    var n := NumberRead(store, env, key);
    Read(n.value.Some? && BoolValue(n.value.value), n.errs)
  }

  /** `deleteObject(for:)`: the services delete, its error handed on. */
  function RemoveObject(store: Store, cfg: Config, key: string): (w: Write)
    ensures w.ok <==> (store.veto(ItemDelete) == Success
      && exists k :: k in store.items && Matches(k, EntryKey(cfg, key)))
    ensures w.items == DeleteItemOutcome(store, cfg, key).items
    ensures w.errs == [] <==> w.ok
    ensures !w.ok ==> w.errs == [DeleteItemOutcome(store, cfg, key).error.value]
  {
    var d := DeleteItemOutcome(store, cfg, key);
    Write(d.ok, d.items, if d.ok then [] else Handled(d.error))
  }

  /** `deleteAll()`: the services delete-all, its error handed on. */
  function RemoveAll(store: Store): (w: Write)
    ensures w.ok <==> (store.veto(ItemDelete) == Success
      && exists k :: k in store.items && Lookup(k, KeyClass) == Some(GenericPassword))
    ensures w.ok ==> forall k :: k in w.items <==> k in store.items && Lookup(k, KeyClass) != Some(GenericPassword)
    ensures w.ok ==> forall k :: k in w.items ==> w.items[k] == store.items[k]
    ensures w.items == DeleteAllOutcome(store).items
    ensures !w.ok ==> w.items == store.items && |w.errs| == 1
    ensures !w.ok ==> w.errs == [DeleteAllOutcome(store).error.value]
    ensures w.ok ==> w.errs == []
  {
    var d := DeleteAllOutcome(store);
    Write(d.ok, d.items, if d.ok then [] else Handled(d.error))
  }

  /**
   * `set(data:for:)`: nil deletes the key and succeeds; otherwise add, and on a duplicate fall
   * back to update. Only a first-time add reports success.
   */
  function DataWrite(store: Store, cfg: Config, key: string, data: Option<Bytes>): (w: Write)
    ensures data.None? ==> w.ok && w.items == DeleteItemOutcome(store, cfg, key).items
    ensures data.None? ==> (w.errs == [] <==> DeleteItemOutcome(store, cfg, key).ok)
    ensures data.None? && !DeleteItemOutcome(store, cfg, key).ok ==> w.errs == [DeleteItemOutcome(store, cfg, key).error.value]
    ensures data.Some? && AddOutcome(store, cfg, key, data.value).ok ==>
      w.items == store.items[EntryKey(cfg, key) := Entry(data.value, AccessibleValue(cfg.accessibility))]
    ensures (data.Some? && !AddOutcome(store, cfg, key, data.value).ok && IsDuplicate(AddOutcome(store, cfg, key, data.value).error)
      && UpdateOutcome(store, cfg, key, data.value).ok) ==>
      w.items == store.items[EntryKey(cfg, key) := Entry(data.value, Some(AccessibleValue(cfg.accessibility).GetOr(Null)))]
    ensures (data.Some? && !AddOutcome(store, cfg, key, data.value).ok
      && !(IsDuplicate(AddOutcome(store, cfg, key, data.value).error) && UpdateOutcome(store, cfg, key, data.value).ok)) ==>
      w.items == store.items
    ensures data.Some? ==> (w.ok <==> AddOutcome(store, cfg, key, data.value).ok)
    ensures data.Some? ==> |w.errs| <= 1
    ensures data.Some? ==> (w.errs != [] <==>
      var add := AddOutcome(store, cfg, key, data.value);
      !add.ok && (!IsDuplicate(add.error) || !UpdateOutcome(Store(add.items, store.veto), cfg, key, data.value).ok))
    ensures data.Some? && store.veto(ItemAdd) == Success && store.veto(ItemUpdate) == Success ==>
      EntryKey(cfg, key) in w.items && w.items[EntryKey(cfg, key)].payload == data.value
  {
    match data
    case None =>
      var d := RemoveObject(store, cfg, key);
      Write(true, d.items, d.errs)
    case Some(bytes) =>
      var add := AddOutcome(store, cfg, key, bytes);
      if add.ok then Write(true, add.items, [])
      else if IsDuplicate(add.error) then
        var update := UpdateOutcome(Store(add.items, store.veto), cfg, key, bytes);
        Write(false, update.items, Handled(update.error))
      else Write(false, add.items, Handled(add.error))
  }

  /** `set(string:for:)`: the UTF-8 bytes of the string, written as data. */
  function StringWrite(store: Store, cfg: Config, key: string, s: string): (w: Write)
    ensures w.ok <==> AddOutcome(store, cfg, key, Utf8.Encode(s)).ok
    ensures store.veto(ItemAdd) == Success && store.veto(ItemUpdate) == Success ==>
      EntryKey(cfg, key) in w.items && Utf8.Decode(w.items[EntryKey(cfg, key)].payload) == Some(s)
  {
    Utf8.DecodeEncode(s);
    DataWrite(store, cfg, key, Some(Utf8.Encode(s)))
  }

  /** `set(object:for:)`: the archived object written as data; false when archiving yields nothing. */
  function ObjectWrite(store: Store, env: Env, key: string, o: Object): (w: Write)
    ensures env.codec.archive(o).Archived? ==> w == DataWrite(store, env.cfg, key, Some(env.codec.archive(o).bytes))
    ensures !env.codec.archive(o).Archived? ==> !w.ok && w.items == store.items
    ensures env.codec.archive(o).Threw? ==> w.errs == [env.codec.archive(o).error]
    ensures env.codec.archive(o).NoData? ==> w.errs == []
  {
    match env.codec.archive(o)
    case Archived(bytes) => DataWrite(store, env.cfg, key, Some(bytes))
    case NoData => Write(false, store.items, [])
    case Threw(e) => Write(false, store.items, [e])
  }

  /**
   * The probe `register(defaults:)` makes for one key: the class-chain search, then, only if it
   * finds nothing, the string read. The value is true when both come back empty.
   */
  function Missing(store: Store, env: Env, key: string, value: Object): (r: Read<bool>)
    ensures r.value <==> (FindObject(store, env, key, Lineage(env, ClassOf(value))).value.None?
      && StringRead(store, env.cfg, key).value.None?)
  {
    var found := FindObject(store, env, key, Lineage(env, ClassOf(value)));
    if found.value.Some? then Read(false, found.errs)
    else
      var s := StringRead(store, env.cfg, key);
      Read(s.value.None?, found.errs + s.errs)
  }

  /** The write `register(defaults:)` makes for a default: strings as strings, anything else archived. */
  function DefaultWrite(store: Store, env: Env, key: string, value: Object): (w: Write)
    ensures value.Str? && store.veto(ItemAdd) == Success && store.veto(ItemUpdate) == Success ==>
      EntryKey(env.cfg, key) in w.items && Utf8.Decode(w.items[EntryKey(env.cfg, key)].payload) == Some(value.text)
    ensures !value.Str? ==> w == ObjectWrite(store, env, key, value)
  {
    match value
    case Str(s) => StringWrite(store, env.cfg, key, s)
    case _ => ObjectWrite(store, env, key, value)
  }

  function Prefixed(errs: seq<Error>, w: Write): Write {
    Write(w.ok, w.items, errs + w.errs)
  }

  lemma PrefixedTwice(a: seq<Error>, b: seq<Error>, w: Write)
    ensures Prefixed(a, Prefixed(b, w)) == Prefixed(a + b, w)
  {
    assert a + (b + w.errs) == a + b + w.errs;
  }

  /**
   * `register(defaults:)` with its class guard read as the value's class: visit the defaults in
   * iteration order and write the first one whose key has no value, returning that write's
   * result; false when every key already has a value.
   */
  function Register(store: Store, env: Env, defaults: seq<(string, Object)>): (w: Write)
    ensures (!w.ok && w.items == store.items)
      || exists j :: (0 <= j < |defaults|
        && Missing(store, env, defaults[j].0, defaults[j].1).value
        && w.ok == DefaultWrite(store, env, defaults[j].0, defaults[j].1).ok
        && w.items == DefaultWrite(store, env, defaults[j].0, defaults[j].1).items)
  {
    assert forall j :: 0 <= j < |defaults| ==>
      Probes(store, env, defaults)[j] == Missing(store, env, defaults[j].0, defaults[j].1)
      && Writes(store, env, defaults)[j] == DefaultWrite(store, env, defaults[j].0, defaults[j].1);
    RegisterFrom(store, env, defaults, 0)
  }

  /** The probe `register(defaults:)` makes for each default, in iteration order. */
  function Probes(store: Store, env: Env, defaults: seq<(string, Object)>): seq<Read<bool>> {
    seq(|defaults|, j requires 0 <= j < |defaults| => Missing(store, env, defaults[j].0, defaults[j].1))
  }

  /** The write `register(defaults:)` would make for each default, in iteration order. */
  function Writes(store: Store, env: Env, defaults: seq<(string, Object)>): seq<Write> {
    seq(|defaults|, j requires 0 <= j < |defaults| => DefaultWrite(store, env, defaults[j].0, defaults[j].1))
  }

  /**
   * The loop of `register(defaults:)` from entry `i` on, given the probe and the write of each
   * entry: the first entry whose probe finds no value is written, and the loop stops there.
   */
  function Scan(probes: seq<Read<bool>>, writes: seq<Write>, items: Items, i: nat): (w: Write)
    requires |writes| == |probes| && i <= |probes|
    ensures (!w.ok && w.items == items)
      || exists j :: i <= j < |probes| && probes[j].value && w.ok == writes[j].ok && w.items == writes[j].items
    decreases |probes| - i
  {
    if i == |probes| then Write(false, items, [])
    else if probes[i].value then Prefixed(probes[i].errs, writes[i])
    else Prefixed(probes[i].errs, Scan(probes, writes, items, i + 1))
  }

  /** The loop of `register(defaults:)` from entry `i` on. */
  function RegisterFrom(store: Store, env: Env, defaults: seq<(string, Object)>, i: nat): Write
    requires i <= |defaults|
  {
    Scan(Probes(store, env, defaults), Writes(store, env, defaults), store.items, i)
  }

  /**
   * `register(defaults:)` as the source writes it: the guard casts the default value itself,
   * not its class, to a class, which fails for every value, so the first key reports an
   * invalid type and nothing is written.
   */
  function RegisterAsWritten(store: Store, env: Env, defaults: seq<(string, Object)>): (w: Write)
    ensures !w.ok && w.items == store.items
    ensures w.errs == [] <==> defaults == []
    ensures defaults != [] ==> w.errs == [AccessError(InvalidType)]
  {
    if defaults == [] then Write(false, store.items, [])
    else Write(false, store.items, [AccessError(InvalidType)])
  }

  /** One step of `Register` with the errors delivered so far in front. */
  lemma RegisterUnfold(store: Store, env: Env, defaults: seq<(string, Object)>, i: nat, errs: seq<Error>)
    requires i < |defaults|
    ensures var probe := Missing(store, env, defaults[i].0, defaults[i].1);
      Prefixed(errs, RegisterFrom(store, env, defaults, i)) ==
        if probe.value then Prefixed(errs + probe.errs, DefaultWrite(store, env, defaults[i].0, defaults[i].1))
        else Prefixed(errs + probe.errs, RegisterFrom(store, env, defaults, i + 1))
  {
    var probe := Missing(store, env, defaults[i].0, defaults[i].1);
    assert Probes(store, env, defaults)[i] == probe;
    assert Writes(store, env, defaults)[i] == DefaultWrite(store, env, defaults[i].0, defaults[i].1);
    if probe.value {
      PrefixedTwice(errs, probe.errs, DefaultWrite(store, env, defaults[i].0, defaults[i].1));
    } else {
      PrefixedTwice(errs, probe.errs, RegisterFrom(store, env, defaults, i + 1));
    }
  }

  /** Before the first default nothing has been handed on. */
  lemma RegisterStart(store: Store, env: Env, defaults: seq<(string, Object)>)
    ensures Register(store, env, defaults) == Prefixed([], RegisterFrom(store, env, defaults, 0))
  {
    assert [] + Register(store, env, defaults).errs == Register(store, env, defaults).errs;
  }

  /** Past the last default `Register` has written nothing and reports false. */
  lemma RegisterExhausted(store: Store, env: Env, defaults: seq<(string, Object)>, errs: seq<Error>)
    ensures Prefixed(errs, RegisterFrom(store, env, defaults, |defaults|)) == Write(false, store.items, errs)
  {
    assert errs + [] == errs;
  }
}
