/** JavaScript values as the playground's core inspects them, JavaScript's truthiness and
    `typeof` tests, and the foreign built-ins (JSON, String(), LZString) the core calls. */
module Values {

  datatype Option<+T> = None | Some(value: T)

  /** A JavaScript value as it arrives from JSON.parse or through postMessage.
      Numbers are unbounded integers: the core only compares them with small
      integers and uses them as indices. */
  datatype Value =
    | Undefined
    | Null
    | Bool(b: bool)
    | Num(n: int)
    | Str(s: string)
    | Arr(items: seq<Value>)
    | Obj(fields: map<string, Value>)

  /** The property read `v.key` / `v?.key`: only a plain object with that own key yields something.
      (Reading a property of null or undefined throws in JavaScript; every caller in the core
      either guards that case or is inside a handler where the throw leaves the state unchanged.) */
  function Get(v: Value, key: string): (r: Value)
    ensures r != Undefined ==> v.Obj? && key in v.fields && r == v.fields[key]
  {
    if v.Obj? && key in v.fields then v.fields[key] else Undefined
  }

  /** `Boolean(v)` */
  predicate Truthy(v: Value) {
    match v
    case Undefined => false
    case Null => false
    case Bool(b) => b
    case Num(n) => n != 0
    case Str(s) => s != ""
    case Arr(_) => true
    case Obj(_) => true
  }

  /** `typeof v === 'object'` (true for null and for arrays) */
  predicate IsObjectType(v: Value) {
    v.Null? || v.Arr? || v.Obj?
  }

  /** A value JSON can carry: no `undefined` anywhere inside. */
  ghost predicate IsJson(v: Value) {
    match v
    case Undefined => false
    case Arr(items) => forall i :: 0 <= i < |items| ==> IsJson(items[i])
    case Obj(m) => forall k :: k in m ==> IsJson(m[k])
    case _ => true
  }

  /** The characters String.prototype.trim removes: white space and line terminators. */
  predicate IsSpace(c: char) {
    || c in {' ', '\t', '\n', '\r', '\U{000B}', '\U{000C}', '\U{00A0}', '\U{1680}'}
    || ('\U{2000}' <= c <= '\U{200A}')
    || c in {'\U{2028}', '\U{2029}', '\U{202F}', '\U{205F}', '\U{3000}', '\U{FEFF}'}
  }

  /** The foreign functions the core calls, passed in as values. */
  datatype Lib = Lib(
    stringify: Value -> string,            // JSON.stringify(v)
    prettify: Value -> string,             // JSON.stringify(v, null, 2)
    parse: string -> Option<Value>,        // JSON.parse(s); None where it throws
    toString: Value -> string,             // String(v)
    compress: string -> string,            // LZString.compressToEncodedURIComponent(s)
    decompress: string -> Option<string>)  // LZString.decompressFromEncodedURIComponent(s); None for null

  /** What the core relies on from those functions. */
  ghost predicate Lawful(lib: Lib) {
    // JSON text round-trips every JSON value, in both output formats
    && (forall v :: IsJson(v) ==> lib.parse(lib.stringify(v)) == Some(v))
    && (forall v :: IsJson(v) ==> lib.parse(lib.prettify(v)) == Some(v))
    // JSON text is never empty and never begins or ends with white space
    && (forall v :: IsJson(v) ==> lib.stringify(v) != [])
    && (forall v :: IsJson(v) ==> Tidy(lib.prettify(v)))
    // a string of plain characters is printed as itself between double quotes
    && (forall s :: PlainText(s) ==> lib.stringify(Str(s)) == ['"'] + s + ['"'])
    // a backslash in JSON text always starts one of JSON's escapes, and `\/` is not one
    // that JSON.stringify emits, so '<' is never followed by a backslash and then '/'
    && (forall v :: IsJson(v) ==> NoEscapedSlash(lib.stringify(v)) && NoEscapedSlash(lib.prettify(v)))
    // JSON.parse yields JSON values only
    && (forall s :: lib.parse(s).Some? ==> IsJson(lib.parse(s).value))
    // String(s) is s for a string
    && (forall s :: lib.toString(Str(s)) == s)
    // LZString round-trips, never emits '&' (its alphabet is URI-safe) and keeps text non-empty
    && (forall s :: lib.decompress(lib.compress(s)) == Some(s))
    && (forall s :: '&' !in lib.compress(s))
    && (forall s :: s != [] ==> lib.compress(s) != [])
  }

  /** Non-empty text with no white space at either end. */
  predicate Tidy(s: string) {
    s != [] && !IsSpace(s[0]) && !IsSpace(s[|s| - 1])
  }

  /** Characters JSON.stringify copies into a string literal unchanged:
      anything but a double quote, a backslash or a control character. */
  predicate PlainText(s: string) {
    forall i :: 0 <= i < |s| ==> s[i] != '"' && s[i] != '\\' && s[i] >= ' '
  }

  /** No '<' followed by a backslash and a '/'. */
  predicate NoEscapedSlash(s: string) {
    forall i :: 0 <= i < |s| - 2 ==> !(s[i] == '<' && s[i + 1] == '\\' && s[i + 2] == '/')
  }
}
