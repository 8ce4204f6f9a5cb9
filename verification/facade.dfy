/**
 * `LUKeychainAccess`: typed setters and getters over a `KeychainServices` instance, each
 * proved against its counterpart in `AccessModel`, with errors passed to an optional
 * handler.
 */
module Facade {
  import opened Types
  import Utf8
  import opened Accessibility
  import opened Errors
  import opened Backend
  import opened Services
  import opened Archiving
  import opened AccessModel

  /** An error observer that records every error it receives. */
  class ErrorHandler {
    var received: seq<Error>

    constructor ()
      ensures received == []
    {
      received := [];
    }

    /** `keychainAccess(_:received:)`. */
    method Receive(e: Error)
      modifies this
      ensures received == old(received) + [e]
    {
      received := received + [e];
    }
  }

  class KeychainAccess {
    var errorHandler: ErrorHandler?
    const services: KeychainServices
    const codec: Codec
    const superclasses: ClassName -> seq<ClassName>

    constructor (services: KeychainServices, codec: Codec, superclasses: ClassName -> seq<ClassName>)
      ensures errorHandler == null
      ensures this.services == services && this.codec == codec && this.superclasses == superclasses
    {
      errorHandler := null;
      this.services := services;
      this.codec := codec;
      this.superclasses := superclasses;
    }

    function Environment(): Env
      reads services
    {
      Env(services.Configuration(), codec, superclasses)
    }

    function Store(): Store
      reads services.keychain
    {
      services.keychain.Snapshot()
    }

    /** The errors the handler has received so far; none without a handler. */
    function Received(): seq<Error>
      reads this, errorHandler
    {
      if errorHandler == null then [] else errorHandler.received
    }

    /** The errors a handler receives when the facade hands on `errs`. */
    function Delivered(errs: seq<Error>): seq<Error>
      reads this
    {
      if errorHandler == null then [] else errs
    }

    /** Errors handed on in two steps arrive as if handed on at once. */
    lemma DeliveredAppend(before: seq<Error>, a: seq<Error>, b: seq<Error>)
      ensures before + Delivered(a) + Delivered(b) == before + Delivered(a + b)
    {
      if errorHandler != null {
        assert before + a + b == before + (a + b);
      }
    }

    /** `handle(error:)`: nothing for a nil error or a missing handler, otherwise one call. */
    method Handle(error: Option<Error>)
      modifies errorHandler
      ensures Store() == old(Store()) && Environment() == old(Environment())
      ensures Received() == old(Received()) + Delivered(Handled(error))
    {
      if error.Some? && errorHandler != null {
        errorHandler.Receive(error.value);
      }
    }

    // Configuration setters

    method SetAccessGroup(accessGroup: string)
      modifies services
      ensures services.Configuration() == old(services.Configuration()).(accessGroup := Some(accessGroup))
    {
      services.accessGroup := Some(accessGroup);
    }

    method SetAccessibilityState(state: Accessibility)
      modifies services
      ensures services.Configuration() == old(services.Configuration()).(accessibility := state)
    {
      services.accessibilityState := state;
    }

    method SetAdditionalQueryParams(params: Attrs)
      modifies services
      ensures services.Configuration() == old(services.Configuration()).(params := Some(params))
    {
      services.additionalQueryParams := Some(params);
    }

    // Deletes

    method DeleteAll() returns (ok: bool)
      modifies services.keychain, errorHandler
      ensures Environment() == old(Environment())
      ensures Store().veto == old(Store().veto)
      ensures var w := RemoveAll(old(Store()));
        ok == w.ok && Store().items == w.items && Received() == old(Received()) + Delivered(w.errs)
    {
      var error;
      ok, error := services.DeleteAllItems();
      if !ok {
        Handle(error);
      }
    }

    method DeleteObject(key: string)
      modifies services.keychain, errorHandler
      ensures Environment() == old(Environment())
      ensures Store().veto == old(Store().veto)
      ensures var w := RemoveObject(old(Store()), Environment().cfg, key);
        Store().items == w.items && Received() == old(Received()) + Delivered(w.errs)
    {
      var ok, error := services.DeleteItem(key);
      if !ok {
        Handle(error);
      }
    }

    // Setters

    method SetData(data: Option<Bytes>, key: string) returns (ok: bool)
      modifies services.keychain, errorHandler
      ensures Environment() == old(Environment())
      ensures Store().veto == old(Store().veto)
      ensures var w := DataWrite(old(Store()), Environment().cfg, key, data);
        ok == w.ok && Store().items == w.items && Received() == old(Received()) + Delivered(w.errs)
    {
      if data.None? {
        DeleteObject(key);
        return true;
      }
      var success, error := services.Add(data.value, key);
      if !success {
        if IsDuplicate(error) {
          error := None;
          success, error := services.Update(data.value, key);
        }
        Handle(error);
        return false;
      }
      return true;
    }

    method SetString(s: string, key: string) returns (ok: bool)
      modifies services.keychain, errorHandler
      ensures Environment() == old(Environment())
      ensures Store().veto == old(Store().veto)
      ensures var w := StringWrite(old(Store()), Environment().cfg, key, s);
        ok == w.ok && Store().items == w.items && Received() == old(Received()) + Delivered(w.errs)
    {
      ok := SetData(Some(Utf8.Encode(s)), key);
    }

    method SetObject(o: Object, key: string) returns (ok: bool)
      modifies services.keychain, errorHandler
      ensures Environment() == old(Environment())
      ensures Store().veto == old(Store().veto)
      ensures var w := ObjectWrite(old(Store()), Environment(), key, o);
        ok == w.ok && Store().items == w.items && Received() == old(Received()) + Delivered(w.errs)
    {
      match codec.archive(o)
      case Archived(bytes) =>
        ok := SetData(Some(bytes), key);
      case NoData =>
        ok := false;
      case Threw(e) =>
        Handle(Some(e));
        ok := false;
    }

    method SetBool(b: bool, key: string) returns (ok: bool)
      modifies services.keychain, errorHandler
      ensures Environment() == old(Environment())
      ensures Store().veto == old(Store().veto)
      ensures var w := ObjectWrite(old(Store()), Environment(), key, Num(Boolean(b)));
        ok == w.ok && Store().items == w.items && Received() == old(Received()) + Delivered(w.errs)
    {
      ok := SetObject(Num(Boolean(b)), key);
    }

    method SetInteger(i: int, key: string) returns (ok: bool)
      modifies services.keychain, errorHandler
      ensures Environment() == old(Environment())
      ensures Store().veto == old(Store().veto)
      ensures var w := ObjectWrite(old(Store()), Environment(), key, Num(Integer(i)));
        ok == w.ok && Store().items == w.items && Received() == old(Received()) + Delivered(w.errs)
    {
      ok := SetObject(Num(Integer(i)), key);
    }

    /** `set(float:for:)`; single and double precision are both modelled as `real`. */
    method SetFloat(r: real, key: string) returns (ok: bool)
      modifies services.keychain, errorHandler
      ensures Environment() == old(Environment())
      ensures Store().veto == old(Store().veto)
      ensures var w := ObjectWrite(old(Store()), Environment(), key, Num(Real(r)));
        ok == w.ok && Store().items == w.items && Received() == old(Received()) + Delivered(w.errs)
    {
      ok := SetObject(Num(Real(r)), key);
    }

    method SetDouble(r: real, key: string) returns (ok: bool)
      modifies services.keychain, errorHandler
      ensures Environment() == old(Environment())
      ensures Store().veto == old(Store().veto)
      ensures var w := ObjectWrite(old(Store()), Environment(), key, Num(Real(r)));
        ok == w.ok && Store().items == w.items && Received() == old(Received()) + Delivered(w.errs)
    {
      ok := SetObject(Num(Real(r)), key);
    }

    // Getters: none changes the store, each may hand errors to the handler

    method DataFor(key: string) returns (data: Option<Bytes>)
      modifies errorHandler
      ensures Store() == old(Store()) && Environment() == old(Environment())
      ensures var r := DataRead(Store(), Environment().cfg, key);
        data == r.value && Received() == old(Received()) + Delivered(r.errs)
    {
      var error;
      data, error := services.DataFor(key);
      if data.None? {
        Handle(error);
      }
    }

    method StringFor(key: string) returns (s: Option<string>)
      modifies errorHandler
      ensures Store() == old(Store()) && Environment() == old(Environment())
      ensures var r := StringRead(Store(), Environment().cfg, key);
        s == r.value && Received() == old(Received()) + Delivered(r.errs)
    {
      var data := DataFor(key);
      if data.None? {
        return None;
      }
      s := Utf8.Decode(data.value);
    }

    method ObjectForClasses(key: string, classes: seq<ClassName>) returns (o: Option<Object>)
      modifies errorHandler
      ensures Store() == old(Store()) && Environment() == old(Environment())
      ensures var r := ObjectRead(Store(), Environment(), key, classes);
        o == r.value && Received() == old(Received()) + Delivered(r.errs)
    {
      ghost var store, env := Store(), Environment();
      ghost var d := DataRead(store, env.cfg, key);
      var data := DataFor(key);
      if data.None? {
        assert ObjectRead(store, env, key, classes) == Read(None, d.errs);
        return None;
      }
      o := UnarchiveObject(codec, Keyed(classes), data.value);
      assert o == Unarchive(codec, AllowedClasses(classes), data.value);
      if o.None? {
        Handle(Some(UnarchiveFailure(key)));
        DeliveredAppend(old(Received()), d.errs, [UnarchiveFailure(key)]);
        assert ObjectRead(store, env, key, classes) == Read(None, d.errs + [UnarchiveFailure(key)]);
      } else {
        assert ObjectRead(store, env, key, classes) == Read(o, d.errs);
      }
    }

    method ObjectFor(key: string, cls: ClassName) returns (o: Option<Object>)
      modifies errorHandler
      ensures Store() == old(Store()) && Environment() == old(Environment())
      ensures var r := ObjectRead(Store(), Environment(), key, [cls]);
        o == r.value && Received() == old(Received()) + Delivered(r.errs)
    {
      o := ObjectForClasses(key, [cls]);
    }

    /** `recursivelyFindObject(for:from:)`, given the class followed by its superclasses. */
    method RecursivelyFindObject(key: string, lineage: seq<ClassName>) returns (o: Option<Object>)
      requires |lineage| > 0
      modifies errorHandler
      ensures Store() == old(Store()) && Environment() == old(Environment())
      ensures var r := FindObject(Store(), Environment(), key, lineage);
        o == r.value && Received() == old(Received()) + Delivered(r.errs)
      decreases |lineage|
    {
      ghost var store, env := Store(), Environment();
      ghost var first := ObjectRead(store, env, key, [lineage[0]]);
      o := ObjectFor(key, lineage[0]);
      if o.Some? {
        assert FindObject(store, env, key, lineage) == first;
        return;
      }
      if |lineage| > 1 && lineage[0] != NSObject {
        ghost var mid := Received();
        assert mid == old(Received()) + Delivered(first.errs);
        o := RecursivelyFindObject(key, lineage[1..]);
        ghost var rest := FindObject(store, env, key, lineage[1..]);
        assert FindObject(store, env, key, lineage) == Read(rest.value, first.errs + rest.errs);
        assert Received() == mid + Delivered(rest.errs);
        DeliveredAppend(old(Received()), first.errs, rest.errs);
      } else {
        assert FindObject(store, env, key, lineage) == first;
      }
      assert Store() == store && Environment() == env;
    }

    /** `number(for:)`, its thrown errors read as nil. */
    method NumberFor(key: string) returns (n: Option<Number>)
      modifies errorHandler
      ensures Store() == old(Store()) && Environment() == old(Environment())
      ensures var r := NumberRead(Store(), Environment(), key);
        n == r.value && Received() == old(Received()) + Delivered(r.errs)
    {
      var o := ObjectFor(key, NSNumber);
      if o.Some? && o.value.Num? {
        n := Some(o.value.number);
      } else {
        n := None;
      }
    }

    method IntegerFor(key: string) returns (i: int)
      modifies errorHandler
      ensures Store() == old(Store()) && Environment() == old(Environment())
      ensures var r := IntegerRead(Store(), Environment(), key);
        i == r.value && Received() == old(Received()) + Delivered(r.errs)
    {
      var n := NumberFor(key);
      i := IntValue(n.GetOr(Integer(0)));
    }

    method FloatFor(key: string) returns (x: real)
      modifies errorHandler
      ensures Store() == old(Store()) && Environment() == old(Environment())
      ensures var r := RealRead(Store(), Environment(), key);
        x == r.value && Received() == old(Received()) + Delivered(r.errs)
    {
      var n := NumberFor(key);
      x := RealValue(n.GetOr(Integer(0)));
    }

    method DoubleFor(key: string) returns (x: real)
      modifies errorHandler
      ensures Store() == old(Store()) && Environment() == old(Environment())
      ensures var r := RealRead(Store(), Environment(), key);
        x == r.value && Received() == old(Received()) + Delivered(r.errs)
    {
      var n := NumberFor(key);
      x := RealValue(n.GetOr(Integer(0)));
    }

    /** `bool(for:)`, reading the decoded number's value. */
    method BoolFor(key: string) returns (b: bool)
      modifies errorHandler
      ensures Store() == old(Store()) && Environment() == old(Environment())
      ensures var r := BoolRead(Store(), Environment(), key);
        b == r.value && Received() == old(Received()) + Delivered(r.errs)
    {
      var n := NumberFor(key);
      b := n.Some? && BoolValue(n.value);
    }

    /** The probe of `register(defaults:)`: no object of the value's class chain and no string under the key. */
    method ProbeMissing(key: string, value: Object) returns (missing: bool)
      modifies errorHandler
      ensures Store() == old(Store()) && Environment() == old(Environment())
      ensures var probe := Missing(old(Store()), Environment(), key, value);
        missing == probe.value && Received() == old(Received()) + Delivered(probe.errs)
    {
      ghost var store, env := Store(), Environment();
      ghost var findErrs := FindObject(store, env, key, Lineage(env, ClassOf(value))).errs;
      var found := RecursivelyFindObject(key, Lineage(Environment(), ClassOf(value)));
      missing := false;
      if found.Some? {
        return;
      }
      ghost var stringErrs := StringRead(store, env.cfg, key).errs;
      var s := StringFor(key);
      DeliveredAppend(old(Received()), findErrs, stringErrs);
      missing := s.None?;
    }

    /** The write `register(defaults:)` makes: `set(string:for:)` for a string, `set(object:for:)` otherwise. */
    method WriteDefault(key: string, value: Object) returns (ok: bool)
      modifies services.keychain, errorHandler
      ensures Environment() == old(Environment())
      ensures Store().veto == old(Store().veto)
      ensures var w := DefaultWrite(old(Store()), Environment(), key, value);
        ok == w.ok && Store().items == w.items && Received() == old(Received()) + Delivered(w.errs)
    {
      match value {
        case Str(t) =>
          ok := SetString(t, key);
        case _ =>
          ok := SetObject(value, key);
      }
    }

    /**
     * One pass of the `register(defaults:)` loop: probe the key and, if it has no value,
     * write the default. `written` says whether the loop returns here.
     */
    method RegisterEntry(key: string, value: Object) returns (written: bool, ok: bool)
      modifies services.keychain, errorHandler
      ensures Environment() == old(Environment())
      ensures Store().veto == old(Store().veto)
      ensures var probe := Missing(old(Store()), Environment(), key, value);
        written == probe.value
        && (written ==> var w := Prefixed(probe.errs, DefaultWrite(old(Store()), Environment(), key, value));
              ok == w.ok && Store().items == w.items && Received() == old(Received()) + Delivered(w.errs))
        && (!written ==> Store() == old(Store()) && Received() == old(Received()) + Delivered(probe.errs))
    {
      ghost var store, env := Store(), Environment();
      ghost var probe := Missing(store, env, key, value);
      written := ProbeMissing(key, value);
      ok := false;
      if written {
        ghost var w := DefaultWrite(store, env, key, value);
        ok := WriteDefault(key, value);
        DeliveredAppend(old(Received()), probe.errs, w.errs);
      }
    }

    /**
     * Pass `i` of the `register(defaults:)` loop, stated against the whole of `Register`: after
     * the passes before it delivered `errs`, either this pass writes and so ends the loop with
     * `Register`'s result, or it hands on its probe's errors and leaves the rest to pass `i + 1`.
     */
    method RegisterStep(defaults: seq<(string, Object)>, i: nat, ghost store: Store, ghost env: Env,
                        ghost start: seq<Error>, ghost errs: seq<Error>)
      returns (written: bool, ok: bool, ghost errs': seq<Error>)
      requires i < |defaults|
      requires Store() == store && Environment() == env
      requires Received() == start + Delivered(errs)
      requires AccessModel.Register(store, env, defaults) == Prefixed(errs, RegisterFrom(store, env, defaults, i))
      modifies services.keychain, errorHandler
      ensures Store().veto == store.veto && Environment() == env
      ensures written ==> var w := AccessModel.Register(store, env, defaults);
        ok == w.ok && Store().items == w.items && Received() == start + Delivered(w.errs)
      ensures !written ==> (Store() == store && Received() == start + Delivered(errs')
        && AccessModel.Register(store, env, defaults) == Prefixed(errs', RegisterFrom(store, env, defaults, i + 1)))
    {
      var (key, value) := defaults[i];
      RegisterUnfold(store, env, defaults, i, errs);
      ghost var probe := Missing(store, env, key, value);
      written, ok := RegisterEntry(key, value);
      if written {
        DeliveredAppend(start, errs, probe.errs + DefaultWrite(store, env, key, value).errs);
      } else {
        DeliveredAppend(start, errs, probe.errs);
      }
      errs' := errs + probe.errs;
    }

    /** `register(defaults:)`, with the defaults in the dictionary's iteration order. */
    method Register(defaults: seq<(string, Object)>) returns (ok: bool)
      modifies services.keychain, errorHandler
      ensures Environment() == old(Environment())
      ensures Store().veto == old(Store().veto)
      ensures var w := AccessModel.Register(old(Store()), Environment(), defaults);
        ok == w.ok && Store().items == w.items && Received() == old(Received()) + Delivered(w.errs)
    {
      ghost var store, env, start := Store(), Environment(), Received();
      ghost var errs: seq<Error> := [];
      RegisterStart(store, env, defaults);
      var i := 0;
      while i < |defaults|
        invariant 0 <= i <= |defaults|
        invariant Store() == store && Environment() == env
        invariant Received() == start + Delivered(errs)
        invariant AccessModel.Register(store, env, defaults) == Prefixed(errs, RegisterFrom(store, env, defaults, i))
      {
        var written;
        written, ok, errs := RegisterStep(defaults, i, store, env, start, errs);
        if written {
          return;
        }
        i := i + 1;
      }
      RegisterExhausted(store, env, defaults, errs);
      ok := false;
    }
  }
}
