/** The Ruby values that cross the client's boundary: option values a caller
    passes, form data, JSON documents the API answers with, and the few
    ActiveSupport and core-library behaviours the client applies to them
    (`present?`, `try(:join, sep)`, `symbolize_keys`). */
module Values {
  import opened Text

  datatype Option<T> = None | Some(value: T)

  /** A hash key: a Ruby string or a Ruby symbol with the same name are
      different keys. */
  datatype Key = StrKey(name: string) | SymKey(name: string)

  /** A Ruby value a caller may pass as an option: nil, booleans, integers,
      strings, symbols and arrays of such values. */
  datatype Value =
    | Nil
    | Bool(b: bool)
    | Int(i: int)
    | Str(s: string)
    | Sym(name: string)
    | List(items: seq<Value>)

  /** Form data for a POST body: a plain value or a hash of form data. */
  datatype Form = Leaf(value: Value) | Fields(entries: map<Key, Form>)

  /** A JSON document as `JSON.parse` returns it: object keys are strings. */
  datatype Json =
    | JNull
    | JBool(b: bool)
    | JNum(n: int)
    | JStr(s: string)
    | JArray(elems: seq<Json>)
    | JObject(members: map<string, Json>)

  /** A response payload: a hash whose top-level keys were symbolized. */
  type Payload = map<Key, Json>

  /** `h[k]` on a Ruby hash without a default: nil when the key is absent. */
  function Lookup(h: map<Key, Value>, k: Key): Value
  {
    if k in h then h[k] else Nil
  }

  /** `to_s` of a value other than an array. */
  function ScalarString(v: Value): string
    requires !v.List?
  {
    match v
    case Nil => ""
    case Bool(b) => if b then "true" else "false"
    case Int(i) => DecimalString(i)
    case Str(s) => s
    case Sym(name) => name
  }

  /** `Array#join(sep)`: each element as its `to_s`, nested arrays joined
      recursively with the same separator. */
  function Join(items: seq<Value>, sep: string): string
    decreases items
  {
    if items == [] then ""
    else
      var head := Element(items[0], sep);
      if |items| == 1 then head else head + sep + Join(items[1..], sep)
  }

  /** How `Array#join` renders one element. */
  function Element(v: Value, sep: string): string
    decreases v
  {
    match v
    case List(inner) => Join(inner, sep)
    case _ => ScalarString(v)
  }

  /** The strings `Array#join` places between the separators. */
  function Elements(items: seq<Value>, sep: string): (parts: seq<string>)
    ensures |parts| == |items|
    ensures forall i :: 0 <= i < |items| ==> parts[i] == Element(items[i], sep)
  {
    if items == [] then [] else [Element(items[0], sep)] + Elements(items[1..], sep)
  }

  /** `Array#join` is the separator placed between the rendered elements. */
  lemma {:induction false} JoinIsJoinWith(items: seq<Value>, sep: string)
    ensures Join(items, sep) == JoinWith(Elements(items, sep), sep)
  {
    if |items| > 1 {
      JoinIsJoinWith(items[1..], sep);
      assert Elements(items, sep)[1..] == Elements(items[1..], sep);
    }
  }

  /** A comma-joined list of flat elements splits back into their strings,
      provided no element's string holds a comma. The empty list joins to ""
      and so reads back as one empty field. */
  lemma JoinSplitsBack(items: seq<Value>)
    requires forall i :: 0 <= i < |items| ==> !items[i].List? && ',' !in ScalarString(items[i])
    ensures items == [] ==> Join(items, ",") == "" && Split(Join(items, ","), ',') == [""]
    ensures items != [] ==> Split(Join(items, ","), ',') == Elements(items, ",")
  {
    JoinIsJoinWith(items, ",");
    var parts := Elements(items, ",");
    if items != [] {
      forall i | 0 <= i < |parts| ensures ',' !in parts[i] {
        assert parts[i] == ScalarString(items[i]);
      }
      SplitJoin(parts, ',');
    }
  }

  /** ActiveSupport's `try(:join, sep)`: nil for nil and for any value that
      has no `join` method, the joined string for an array. */
  function TryJoin(v: Value, sep: string): (r: Option<string>)
    ensures r.Some? <==> v.List?
    ensures r.Some? ==> r.value == JoinWith(Elements(v.items, sep), sep)
  {
    match v
    case List(items) =>
      JoinIsJoinWith(items, sep);
      Some(Join(items, sep))
    case _ => None
  }

  /** A character Ruby's `[[:space:]]` class matches. */
  predicate IsSpace(c: char)
  {
    || c in {' ', '\t', '\n', '\U{000B}', '\U{000C}', '\r'}
    || c in {'\U{0085}', '\U{00A0}', '\U{1680}', '\U{2028}', '\U{2029}', '\U{202F}', '\U{205F}', '\U{3000}'}
    || '\U{2000}' <= c <= '\U{200A}'
  }

  /** ActiveSupport's `blank?`: nil, false, a whitespace-only string, an empty
      symbol and an empty array are blank; true and every integer are not. */
  predicate Blank(v: Value)
  {
    match v
    case Nil => true
    case Bool(b) => !b
    case Int(_) => false
    case Str(s) => forall i :: 0 <= i < |s| ==> IsSpace(s[i])
    case Sym(name) => name == ""
    case List(items) => items == []
  }

  /** ActiveSupport's `present?`. */
  predicate Present(v: Value)
  {
    !Blank(v)
  }

  /** ActiveSupport's `symbolize_keys` on a parsed JSON object: every
      top-level key becomes the symbol of the same name and every value,
      nested objects included, is kept as it is. */
  function SymbolizeKeys(members: map<string, Json>): (p: Payload)
    ensures forall k :: k in p ==> k.SymKey?
    ensures forall name :: name in members <==> SymKey(name) in p
    ensures forall name :: name in members ==> p[SymKey(name)] == members[name]
  {
    map name | name in members :: SymKey(name) := members[name]
  }

  /** The inverse of SymbolizeKeys: the members named by the symbol keys. */
  function SymbolMembers(p: Payload): map<string, Json>
  {
    map k | k in p && k.SymKey? :: k.name := p[k]
  }

  lemma SymbolizeKeysRoundTrip(members: map<string, Json>)
    ensures SymbolMembers(SymbolizeKeys(members)) == members
  {
  }

  lemma SymbolMembersRoundTrip(p: Payload)
    requires forall k :: k in p ==> k.SymKey?
    ensures SymbolizeKeys(SymbolMembers(p)) == p
  {
    var q := SymbolizeKeys(SymbolMembers(p));
    forall k | k in p ensures k in q && q[k] == p[k] {
      assert k == SymKey(k.name);
    }
  }

  lemma SymbolizeSingleton(name: string, v: Json)
    ensures SymbolizeKeys(map[name := v]) == map[SymKey(name) := v]
  {
    var p := SymbolizeKeys(map[name := v]);
    forall k | k in p ensures k == SymKey(name) {
      assert k == SymKey(k.name);
    }
    assert p.Keys == {SymKey(name)};
  }
}
