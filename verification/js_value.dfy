/** A JSON-like value tree as JavaScript sees it, and `removeUndefinedKeys`
    (api/src/services/posts/posts.ts), which strips every object key whose
    value is `undefined`, at every depth. */
module JsValue {

  /** `Undef` is JavaScript's `undefined`; `Arr` and `Obj` are the two kinds of
      value for which `typeof` answers `'object'` and that are not `null`. */
  datatype Value =
    | Undef
    | Null
    | Bool(b: bool)
    | Num(n: int)
    | Str(s: string)
    | Arr(elems: seq<Value>)
    | Obj(fields: map<string, Value>)

  /** One step of a property read: `o.name` on an object, `a[i]` on an array. */
  datatype Step = Key(name: string) | Index(i: nat)

  /** Reading `v.p0.p1...` over own data properties only: an object's keys and
      an array's indices. A missing key, an index out of range, and any other
      step (a key on an array or a primitive, or any step from `undefined` or
      `null`) read as `undefined`; built-in properties such as `length` are
      not modelled. */
  function Get(v: Value, path: seq<Step>): Value
    decreases |path|
  {
    if |path| == 0 then v
    else
      match (v, path[0])
      case (Obj(m), Key(k)) => if k in m then Get(m[k], path[1..]) else Undef
      case (Arr(s), Index(i)) => if i < |s| then Get(s[i], path[1..]) else Undef
      case _ => Undef
  }

  /** No object anywhere inside `v` holds a key whose value is `undefined`.
      Array elements may still be `undefined` (a deleted array element is a
      hole, which reads as `undefined`). */
  ghost predicate NoUndefinedKeys(v: Value) {
    match v
    case Obj(m) => forall k :: k in m ==> m[k] != Undef && NoUndefinedKeys(m[k])
    case Arr(s) => forall i :: 0 <= i < |s| ==> NoUndefinedKeys(s[i])
    case _ => true
  }

  /** No value anywhere inside `v`, `v` itself included, is `undefined`. */
  ghost predicate Defined(v: Value) {
    match v
    case Undef => false
    case Obj(m) => forall k :: k in m ==> Defined(m[k])
    case Arr(s) => forall i :: 0 <= i < |s| ==> Defined(s[i])
    case _ => true
  }

  /** `removeUndefinedKeys`: a value that is not an object (or is `null`) comes
      back unchanged; an object loses the keys whose value is `undefined` and
      keeps every other key with its value cleaned recursively; for an array
      the loop over its indices cleans each element, and `delete` on an
      `undefined` element leaves a hole that still reads as `undefined`. */
  function RemoveUndefinedKeys(v: Value): (r: Value)
    ensures NoUndefinedKeys(r)
    ensures r == Undef <==> v == Undef
    ensures v.Obj? ==> r.Obj? && forall k :: k in r.fields <==> k in v.fields && v.fields[k] != Undef
    ensures v.Arr? ==> r.Arr? && |r.elems| == |v.elems|
    ensures !v.Obj? && !v.Arr? ==> r == v
  {
    match v
    case Obj(m) => Obj(map k | k in m && m[k] != Undef :: RemoveUndefinedKeys(m[k]))
    case Arr(s) => Arr(seq(|s|, i requires 0 <= i < |s| => RemoveUndefinedKeys(s[i])))
    case _ => v
  }

  /** Stripping undefined keys commutes with reading: whatever a path reads in
      the cleaned value is the cleaned version of what it read before, since a
      missing key reads as `undefined` anyway. In particular every read that
      ends on `undefined`, `null`, a boolean, a number or a string is
      unchanged. */
  lemma {:induction false} RemoveUndefinedKeysPreservesReads(v: Value, path: seq<Step>)
    ensures Get(RemoveUndefinedKeys(v), path) == RemoveUndefinedKeys(Get(v, path))
    decreases |path|
  {
    if |path| > 0 {
      var r := RemoveUndefinedKeys(v);
      var rest := path[1..];
      match path[0]
      case Key(k) =>
        if v.Obj? && k in v.fields {
          var m := v.fields;
          if m[k] == Undef {
            GetUndef(rest);
          } else {
            assert r.fields[k] == RemoveUndefinedKeys(m[k]);
            RemoveUndefinedKeysPreservesReads(m[k], rest);
          }
        } else {
          assert Get(v, path) == Undef;
        }
      case Index(i) =>
        if v.Arr? && i < |v.elems| {
          assert r.elems[i] == RemoveUndefinedKeys(v.elems[i]);
          RemoveUndefinedKeysPreservesReads(v.elems[i], rest);
        } else {
          assert Get(v, path) == Undef;
        }
    }
  }

  /** Every read below `undefined` is `undefined`. */
  lemma GetUndef(path: seq<Step>)
    ensures Get(Undef, path) == Undef
  {
  }

  /** The values `removeUndefinedKeys` leaves unchanged are exactly those
      without undefined keys. */
  lemma {:induction false} RemoveUndefinedKeysFixedPoints(v: Value)
    ensures RemoveUndefinedKeys(v) == v <==> NoUndefinedKeys(v)
  {
    if NoUndefinedKeys(v) {
      match v
      case Obj(m) =>
        forall k | k in m
          ensures RemoveUndefinedKeys(m[k]) == m[k]
        {
          RemoveUndefinedKeysFixedPoints(m[k]);
        }
        assert RemoveUndefinedKeys(v).fields == m;
      case Arr(s) =>
        forall i | 0 <= i < |s|
          ensures RemoveUndefinedKeys(s[i]) == s[i]
        {
          RemoveUndefinedKeysFixedPoints(s[i]);
        }
        assert RemoveUndefinedKeys(v).elems == s;
      case _ =>
    }
  }

  /** Applying `removeUndefinedKeys` twice is the same as applying it once. */
  lemma RemoveUndefinedKeysIdempotent(v: Value)
    ensures RemoveUndefinedKeys(RemoveUndefinedKeys(v)) == RemoveUndefinedKeys(v)
  {
    RemoveUndefinedKeysFixedPoints(RemoveUndefinedKeys(v));
  }

  /** A fully defined value has no undefined keys. */
  lemma {:induction false} DefinedHasNoUndefinedKeys(v: Value)
    requires Defined(v)
    ensures NoUndefinedKeys(v)
  {
    match v
    case Obj(m) =>
      forall k | k in m ensures m[k] != Undef && NoUndefinedKeys(m[k]) {
        DefinedHasNoUndefinedKeys(m[k]);
      }
    case Arr(s) =>
      forall i | 0 <= i < |s| ensures NoUndefinedKeys(s[i]) {
        DefinedHasNoUndefinedKeys(s[i]);
      }
    case _ =>
  }

  /** A fully defined value is left unchanged. */
  lemma DefinedUnchanged(v: Value)
    requires Defined(v)
    ensures RemoveUndefinedKeys(v) == v
  {
    DefinedHasNoUndefinedKeys(v);
    RemoveUndefinedKeysFixedPoints(v);
  }

  /** The fields an object keeps under `removeUndefinedKeys`: exactly the
      `Obj` branch of `RemoveUndefinedKeys`, so that
      `RemoveUndefinedKeys(Obj(m)).fields == CleanFields(m)` holds by
      unfolding. It exists so that the spread lemma below can reason about the
      map without unfolding the recursive function's contract. */
  function CleanFields(m: map<string, Value>): map<string, Value> {
    map k | k in m && m[k] != Undef :: RemoveUndefinedKeys(m[k])
  }

  lemma {:induction false} CleanFieldsSpread(a: map<string, Value>, b: map<string, Value>)
    requires a.Keys !! b.Keys
    ensures CleanFields(a + b) == CleanFields(a) + CleanFields(b)
  {
    var lhs := CleanFields(a + b);
    var rhs := CleanFields(a) + CleanFields(b);
    forall k | k in lhs ensures k in rhs && lhs[k] == rhs[k] {
      if k in b {
        assert (a + b)[k] == b[k];
      } else {
        assert (a + b)[k] == a[k];
      }
    }
    forall k | k in rhs ensures k in lhs {
      if k in CleanFields(b) {
        assert k in b && b[k] != Undef;
      } else {
        assert k in a && a[k] != Undef && k !in b;
      }
    }
  }

  /** Cleaning a spread `{...a, ...b}` of objects with no key in common is the
      spread of the cleaned parts: the undefined keys can be stripped before or
      after merging. (With a shared key the two differ: `{x: 1}` spread with
      `{x: undefined}` cleans to `{}`, but the cleaned parts spread to
      `{x: 1}`.) */
  lemma RemoveUndefinedKeysSpread(a: map<string, Value>, b: map<string, Value>)
    requires a.Keys !! b.Keys
    ensures RemoveUndefinedKeys(Obj(a + b))
         == Obj(RemoveUndefinedKeys(Obj(a)).fields + RemoveUndefinedKeys(Obj(b)).fields)
  {
    assert RemoveUndefinedKeys(Obj(a + b)).fields == CleanFields(a + b);
    assert RemoveUndefinedKeys(Obj(a)).fields == CleanFields(a);
    assert RemoveUndefinedKeys(Obj(b)).fields == CleanFields(b);
    CleanFieldsSpread(a, b);
  }
}
