/**
 * The object archive boundary of the facade: objects as a graph of classes, an
 * uninterpreted encoder and decoder, and the unarchive allowlist built from four
 * built-in classes plus the caller's.
 */
module Archiving {
  import opened Types
  import opened Errors

  /** A class, known by its name. */
  type ClassName = string

  const NSObject: ClassName := "NSObject"
  const NSString: ClassName := "NSString"
  const NSDictionary: ClassName := "NSDictionary"
  const NSArray: ClassName := "NSArray"
  const NSNumber: ClassName := "NSNumber"

  /** The value an `NSNumber` boxes; floating point is approximated by `real`. */
  datatype Number = Boolean(b: bool) | Integer(i: int) | Real(r: real)

  /** An archivable object graph: strings, numbers and instances of a class with their members. */
  datatype Object =
    | Str(text: string)
    | Num(number: Number)
    | Instance(cls: ClassName, members: seq<Object>)

  function ClassOf(o: Object): ClassName {
    match o
    case Str(_) => NSString
    case Num(_) => NSNumber
    case Instance(c, _) => c
  }

  /** Every object in the graph belongs to an allowed class. */
  predicate Permitted(o: Object, allowed: set<ClassName>) {
    ClassOf(o) in allowed
    && (o.Instance? ==> forall i :: 0 <= i < |o.members| ==> Permitted(o.members[i], allowed))
  }

  /** What archiving an object yields: data, nothing, or a thrown error. */
  datatype Archived = Archived(bytes: Bytes) | NoData | Threw(error: Error)

  /** The archiver's encoder and decoder, whose byte format is not modelled. */
  datatype Codec = Codec(archive: Object -> Archived, decode: Bytes -> Option<Object>)

  /** Decoding gives back every object that archiving turned into data. */
  ghost predicate Faithful(codec: Codec) {
    forall o :: codec.archive(o).Archived? ==> codec.decode(codec.archive(o).bytes) == Some(o)
  }

  /** The name a class is filed under in the allowlist: the description of its metatype. */
  function TypeKey(c: ClassName): string {
    c + ".Type"
  }

  const BuiltIns: map<string, ClassName> :=
    map[TypeKey(NSString) := NSString, TypeKey(NSDictionary) := NSDictionary,
        TypeKey(NSArray) := NSArray, TypeKey(NSNumber) := NSNumber]

  const BuiltInClasses: set<ClassName> := {NSString, NSDictionary, NSArray, NSNumber}

  /** The merged allowlist: the built-in classes, then the caller's, a caller entry replacing a built-in one. */
  function AllowList(classes: map<string, ClassName>): (m: map<string, ClassName>)
    ensures m.Keys == BuiltIns.Keys + classes.Keys
    ensures forall k :: k in classes ==> m[k] == classes[k]
    ensures forall k :: k in BuiltIns && k !in classes ==> m[k] == BuiltIns[k]
  {
    BuiltIns + classes
  }

  /** Copying one more pending caller entry into a partial merge leaves it pending no longer. */
  lemma MergeStep(start: map<string, ClassName>, classes: map<string, ClassName>, pending: set<string>, k: string)
    requires k in pending && k in classes
    ensures (start + (classes - pending))[k := classes[k]] == start + (classes - (pending - {k}))
  {
    var lhs := (start + (classes - pending))[k := classes[k]];
    var rhs := start + (classes - (pending - {k}));
    assert lhs.Keys == rhs.Keys;
  }

  lemma NoneCopied(start: map<string, ClassName>, classes: map<string, ClassName>)
    ensures start + (classes - classes.Keys) == start
  {
    assert classes - classes.Keys == map[];
  }

  lemma AllCopied(start: map<string, ClassName>, classes: map<string, ClassName>)
    ensures start + (classes - {}) == start + classes
  {
    assert classes - {} == classes;
  }

  /** One `forEach` step: copies one pending caller entry into the partial merge `base`. */
  method CopyEntry(start: map<string, ClassName>, classes: map<string, ClassName>, base: map<string, ClassName>, pending: set<string>)
    returns (base': map<string, ClassName>, pending': set<string>)
    requires pending != {} && pending <= classes.Keys
    requires base == start + (classes - pending)
    ensures pending' <= classes.Keys && |pending'| < |pending|
    ensures base' == start + (classes - pending')
  {
    var k :| k in pending;
    MergeStep(start, classes, pending, k);
    base' := base[k := classes[k]];
    pending' := pending - {k};
  }

  /** Copies the caller's entries into `start` one at a time, as `forEach` does. */
  method AddEntries(start: map<string, ClassName>, classes: map<string, ClassName>) returns (base: map<string, ClassName>)
    ensures base == start + classes
  {
    base := start;
    var pending := classes.Keys;
    NoneCopied(start, classes);
    while pending != {}
      invariant pending <= classes.Keys
      invariant base == start + (classes - pending)
      decreases |pending|
    {
      base, pending := CopyEntry(start, classes, base, pending);
    }
    AllCopied(start, classes);
  }

  /** The allowlist merge of `lu_unarchiveObject(ofClasses:with:)`: the built-ins, then the caller's entries. */
  method MergeAllowList(classes: map<string, ClassName>) returns (base: map<string, ClassName>)
    ensures base == AllowList(classes)
  {
    base := AddEntries(BuiltIns, classes);
  }

  /** Decoding restricted to an allowlist: nil when the data does not decode or holds a class not allowed. */
  function Unarchive(codec: Codec, allowed: set<ClassName>, data: Bytes): (r: Option<Object>)
    ensures r.Some? <==> codec.decode(data).Some? && Permitted(codec.decode(data).value, allowed)
    ensures r.Some? ==> r == codec.decode(data)
  {
    match codec.decode(data)
    case Some(o) => if Permitted(o, allowed) then Some(o) else None
    case None => None
  }

  /** `lu_unarchiveObject(ofClasses:with:)`: decode against the values of the merged allowlist. */
  method UnarchiveObject(codec: Codec, classes: map<string, ClassName>, data: Bytes) returns (r: Option<Object>)
    ensures r == Unarchive(codec, AllowList(classes).Values, data)
  {
    var allowList := MergeAllowList(classes);
    r := Unarchive(codec, allowList.Values, data);
  }

  /** `lu_archiveObject(of:with:)` answers exactly as `lu_unarchiveObject` does. */
  method ArchiveObject(codec: Codec, classes: map<string, ClassName>, data: Bytes) returns (r: Option<Object>)
    ensures r == Unarchive(codec, AllowList(classes).Values, data)
  {
    r := UnarchiveObject(codec, classes, data);
  }

  /** The allowlist entries a list of caller classes contributes, each under its own type key. */
  function Keyed(cs: seq<ClassName>): (m: map<string, ClassName>)
    ensures forall k :: k in m ==> k == TypeKey(m[k])
  {
    if cs == [] then map[] else Keyed(cs[1..])[TypeKey(cs[0]) := cs[0]]
  }

  /** No caller class is lost, even when two entries fall under the same key. */
  lemma {:induction false} KeyedValues(cs: seq<ClassName>)
    ensures forall c :: c in Keyed(cs).Values <==> c in cs
  {
    if cs != [] {
      KeyedValues(cs[1..]);
      var rest := Keyed(cs[1..]);
      var k := TypeKey(cs[0]);
      if k in rest {
        TypeKeyInjective(rest[k], cs[0]);
      }
      forall c | c in rest.Values
        ensures c in Keyed(cs).Values
      {
        var j :| j in rest && rest[j] == c;
        assert Keyed(cs)[j] == c;
      }
      forall c | c in Keyed(cs).Values
        ensures c in cs
      {
        var j :| j in Keyed(cs) && Keyed(cs)[j] == c;
        if j != k {
          assert rest[j] == c && c in rest.Values;
        }
      }
      forall c | c in cs
        ensures c in Keyed(cs).Values
      {
        if c != cs[0] {
          assert c in cs[1..];
        } else {
          assert Keyed(cs)[k] == c;
        }
      }
    }
  }

  /** The classes a decode may meet when the caller asks for `cs`. */
  function AllowedClasses(cs: seq<ClassName>): set<ClassName> {
    AllowList(Keyed(cs)).Values
  }

  lemma TypeKeyInjective(a: ClassName, b: ClassName)
    requires TypeKey(a) == TypeKey(b)
    ensures a == b
  {
    assert |a| == |b|;
    assert a == TypeKey(a)[..|a|];
    assert b == TypeKey(b)[..|b|];
  }

  lemma BuiltInKey(c: ClassName)
    requires c in BuiltInClasses
    ensures TypeKey(c) in BuiltIns && BuiltIns[TypeKey(c)] == c
  {
    // the four keys already differ in their third character
    assert TypeKey(NSString)[2] == 'S' && TypeKey(NSDictionary)[2] == 'D';
    assert TypeKey(NSArray)[2] == 'A' && TypeKey(NSNumber)[2] == 'N';
  }

  /** The four built-in classes are always allowed, next to exactly the caller's. */
  lemma AllowedClassesAre(cs: seq<ClassName>)
    ensures AllowedClasses(cs) == BuiltInClasses + set c | c in cs
  {
    var keyed := Keyed(cs);
    var m := AllowList(keyed);
    KeyedValues(cs);
    forall c | c in m.Values
      ensures c in BuiltInClasses || c in cs
    {
      var k :| k in m && m[k] == c;
      if k in keyed {
        assert keyed[k] in keyed.Values;
      }
    }
    forall c | c in BuiltInClasses
      ensures c in m.Values
    {
      var k := TypeKey(c);
      BuiltInKey(c);
      if k in keyed {
        TypeKeyInjective(keyed[k], c);
      }
      assert m[k] == c;
    }
    KeyedValues(cs);
    forall c | c in cs
      ensures c in m.Values
    {
      assert c in keyed.Values;
      var k :| k in keyed && keyed[k] == c;
      assert m[k] == c;
    }
  }
}
