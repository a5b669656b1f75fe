/**
 * Values stored in IndexedDB records and the keys extracted from them
 * (sections 2.1 and 2.5 of the W3C Indexed Database API 2.0, restricted to
 * the key and value kinds the application stores).
 */
module Keys {
  import opened Wrappers

  /** A valid key: a number or a string. */
  datatype Key = Num(n: int) | Str(s: string)

  /** A structured-clonable value: the parsed JSON of a feed message, or a demo record. */
  datatype Value =
    | VNum(n: int)
    | VStr(s: string)
    | VBool(b: bool)
    | VUndefined
    | VObj(fields: map<string, Value>)

  /** Lexicographic order of strings, character by character. */
  predicate StrLt(a: string, b: string)
  {
    if |a| == 0 then |b| > 0
    else if |b| == 0 then false
    else if a[0] != b[0] then a[0] < b[0]
    else StrLt(a[1..], b[1..])
  }

  /** Key order: every number sorts before every string (section 2.5). */
  predicate Lt(a: Key, b: Key)
  {
    match (a, b)
    case (Num(x), Num(y)) => x < y
    case (Num(_), Str(_)) => true
    case (Str(_), Num(_)) => false
    case (Str(x), Str(y)) => StrLt(x, y)
  }

  lemma {:induction false} StrLtIrreflexive(a: string)
    ensures !StrLt(a, a)
  {
    if |a| > 0 {
      StrLtIrreflexive(a[1..]);
    }
  }

  lemma {:induction false} StrLtAsymmetric(a: string, b: string)
    requires StrLt(a, b)
    ensures !StrLt(b, a)
  {
    if |a| > 0 && |b| > 0 && a[0] == b[0] {
      StrLtAsymmetric(a[1..], b[1..]);
    }
  }

  lemma {:induction false} StrLtTransitive(a: string, b: string, c: string)
    requires StrLt(a, b) && StrLt(b, c)
    ensures StrLt(a, c)
  {
    if |a| > 0 && a[0] == b[0] && b[0] == c[0] {
      StrLtTransitive(a[1..], b[1..], c[1..]);
    }
  }

  lemma {:induction false} StrLtTotal(a: string, b: string)
    requires a != b
    ensures StrLt(a, b) || StrLt(b, a)
  {
    if |a| > 0 && |b| > 0 && a[0] == b[0] {
      assert a == [a[0]] + a[1..] && b == [b[0]] + b[1..];
      StrLtTotal(a[1..], b[1..]);
    }
  }

  /** Key order is a strict total order: irreflexive, transitive and total. */
  lemma LtIrreflexive(a: Key)
    ensures !Lt(a, a)
  {
    if a.Str? {
      StrLtIrreflexive(a.s);
    }
  }

  lemma LtAsymmetric(a: Key, b: Key)
    requires Lt(a, b)
    ensures !Lt(b, a)
  {
    if a.Str? && b.Str? {
      StrLtAsymmetric(a.s, b.s);
    }
  }

  lemma LtTransitive(a: Key, b: Key, c: Key)
    requires Lt(a, b) && Lt(b, c)
    ensures Lt(a, c)
  {
    if a.Str? && b.Str? && c.Str? {
      StrLtTransitive(a.s, b.s, c.s);
    }
  }

  lemma LtTotal(a: Key, b: Key)
    requires a != b
    ensures Lt(a, b) || Lt(b, a)
  {
    if a.Str? && b.Str? {
      StrLtTotal(a.s, b.s);
    }
  }

  /** Converting a value to a key: numbers and strings are valid keys, nothing else is. */
  function ToKey(v: Value): (r: Option<Key>)
    ensures r.Some? <==> (v.VNum? || v.VStr?)
  {
    match v
    case VNum(n) => Some(Num(n))
    case VStr(s) => Some(Str(s))
    case _ => None
  }

  /** The value a key stands for. */
  function FromKey(k: Key): Value
  {
    match k
    case Num(n) => VNum(n)
    case Str(s) => VStr(s)
  }

  /**
   * Extracting a key from a value with a key path that is a single
   * identifier: the named property of an object, when it holds a valid key.
   */
  function ExtractKey(v: Value, path: string): (r: Option<Key>)
    ensures r.Some? <==> v.VObj? && path in v.fields && ToKey(v.fields[path]).Some?
    ensures r.Some? ==> FromKey(r.value) == v.fields[path]
  {
    if v.VObj? && path in v.fields then ToKey(v.fields[path]) else None
  }

}
