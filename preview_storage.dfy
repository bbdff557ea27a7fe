/** The editor page's copy of the preview's storage: two scopes of key/value pairs, read
    back from the page's own localStorage when the editor opens, updated by every storage
    message the preview posts, and handed to the next run as its seed. This module holds
    the message router and the update as functions of the messages; the App class in
    module Host applies them in place. */
module PreviewStorage {
  import opened Values
  import opened Bridge

  /** `{ localStorage: Record<string, string>, sessionStorage: Record<string, string> }` */
  datatype Mirror = Mirror(local: map<string, Value>, session: map<string, Value>)

  const EmptyMirror: Mirror := Mirror(map[], map[])

  function ScopeOf(m: Mirror, k: Scope): map<string, Value> {
    match k
    case Local => m.local
    case Session => m.session
  }

  function WithScope(m: Mirror, k: Scope, s: map<string, Value>): (r: Mirror)
    ensures ScopeOf(r, k) == s
    ensures forall j :: j != k ==> ScopeOf(r, j) == ScopeOf(m, j)
  {
    match k
    case Local => m.(local := s)
    case Session => m.(session := s)
  }

  /** Every value held is a JSON value (what JSON.stringify writes back out). */
  ghost predicate JsonMirror(m: Mirror) {
    && (forall key :: key in m.local ==> IsJson(m.local[key]))
    && (forall key :: key in m.session ==> IsJson(m.session[key]))
  }

  /** isRecord: truthy, `typeof 'object'` and not an array. */
  predicate IsRecord(v: Value) {
    Truthy(v) && IsObjectType(v) && !v.Arr?
  }

  /** Of all JavaScript values only a plain object is a record. */
  lemma IsRecordIff(v: Value)
    ensures IsRecord(v) <==> v.Obj?
  {
  }

  /** The value persistPreviewStorage stringifies and each run receives as its seed. */
  function StorageJson(m: Mirror): Value {
    Obj(map["localStorage" := Obj(m.local), "sessionStorage" := Obj(m.session)])
  }

  /** loadPreviewStorage, given the text stored under the preview-storage key (None when absent). */
  function LoadPreviewStorage(raw: Option<string>, lib: Lib): (m: Mirror)
    // nothing stored, unparseable text, or a parsed value that is not an object: two empty scopes
    ensures raw.None? || raw.value == [] || lib.parse(raw.value).None? ==> m == EmptyMirror
    ensures raw.Some? && raw.value != [] && lib.parse(raw.value).Some? ==>
      var p := lib.parse(raw.value).value;
      // each scope is the stored one when that is a record, and empty otherwise
      && (m.local == if Get(p, "localStorage").Obj? then Get(p, "localStorage").fields else map[])
      && (m.session == if Get(p, "sessionStorage").Obj? then Get(p, "sessionStorage").fields else map[])
  {
    if raw.None? || raw.value == [] then EmptyMirror
    else
      match lib.parse(raw.value)
      case None => EmptyMirror
      case Some(parsed) =>
        if !Truthy(parsed) || !IsObjectType(parsed) then EmptyMirror
        else
          var l := Get(parsed, "localStorage");
          var s := Get(parsed, "sessionStorage");
          Mirror(if IsRecord(l) then l.fields else map[], if IsRecord(s) then s.fields else map[])
  }

  /** What is persisted is what is loaded the next time the editor opens. */
  lemma PreviewStorageRoundTrip(m: Mirror, lib: Lib)
    requires Lawful(lib) && JsonMirror(m)
    ensures LoadPreviewStorage(Some(lib.stringify(StorageJson(m))), lib) == m
  {
    var v := StorageJson(m);
    assert IsJson(Obj(m.local)) && IsJson(Obj(m.session));
    assert IsJson(v);
    assert lib.parse(lib.stringify(v)) == Some(v);
  }

  /** The scope a storage message names: only the two exact names are accepted. */
  function KindOf(msg: Value): (r: Option<Scope>)
    ensures r.Some? <==> Get(msg, "kind") in {Str("localStorage"), Str("sessionStorage")}
    ensures r.Some? ==> Get(msg, "kind") == Str(ScopeName(r.value))
  {
    var kind := Get(msg, "kind");
    if kind == Str("sessionStorage") then Some(Session)
    else if kind == Str("localStorage") then Some(Local)
    else None
  }

  /** The mutation a storage message names: only `set`, `remove` and `clear` are accepted. */
  function ActionOf(msg: Value): (r: Option<Action>)
    ensures r.Some? <==> Get(msg, "action") in {Str("set"), Str("remove"), Str("clear")}
    ensures r.Some? ==> Get(msg, "action") == Str(ActionName(r.value))
  {
    var action := Get(msg, "action");
    if action == Str("set") then Some(SetAction)
    else if action == Str("remove") then Some(RemoveAction)
    else if action == Str("clear") then Some(ClearAction)
    else None
  }

  /** The key of a set or remove payload, when it is a string. */
  function KeyOf(msg: Value): Option<string> {
    var key := Get(Get(msg, "payload"), "key");
    if key.Str? then Some(key.s) else None
  }

  /** `typeof value === 'string' ? value : String(value)` */
  function Coerce(v: Value, lib: Lib): (r: string)
    ensures Lawful(lib) ==> r == lib.toString(v)
  {
    if v.Str? then v.s else lib.toString(v)
  }

  /** applyPreviewStorageUpdate as a function: the new mirror, or None when the message
      is dropped (and then nothing is written back either). */
  function Update(m: Mirror, msg: Value, lib: Lib): (r: Option<Mirror>)
    // dropped exactly for an unknown scope, an unknown action, or a set/remove without a string key
    ensures r.None? <==> KindOf(msg).None? || ActionOf(msg).None?
                         || (ActionOf(msg) != Some(ClearAction) && KeyOf(msg).None?)
    // the scope not named is never touched
    ensures r.Some? ==> forall j :: j != KindOf(msg).value ==> ScopeOf(r.value, j) == ScopeOf(m, j)
    // set: the value, String-coerced, is stored under the key in the named scope
    ensures r.Some? && ActionOf(msg) == Some(SetAction) ==>
      ScopeOf(r.value, KindOf(msg).value)
        == ScopeOf(m, KindOf(msg).value)[KeyOf(msg).value := Str(Coerce(Get(Get(msg, "payload"), "value"), lib))]
    // remove: the key is gone from the named scope, whether or not it was there
    ensures r.Some? && ActionOf(msg) == Some(RemoveAction) ==>
      ScopeOf(r.value, KindOf(msg).value) == ScopeOf(m, KindOf(msg).value) - {KeyOf(msg).value}
    // clear: the named scope is empty
    ensures r.Some? && ActionOf(msg) == Some(ClearAction) ==> ScopeOf(r.value, KindOf(msg).value) == map[]
  {
    match KindOf(msg)
    case None => None
    case Some(k) =>
      match ActionOf(msg)
      case None => None
      case Some(action) =>
        var store := ScopeOf(m, k);
        match action
        case SetAction =>
          (match KeyOf(msg)
           case None => None
           case Some(key) =>
             Some(WithScope(m, k, store[key := Str(Coerce(Get(Get(msg, "payload"), "value"), lib))])))
        case RemoveAction =>
          (match KeyOf(msg)
           case None => None
           case Some(key) => Some(WithScope(m, k, store - {key})))
        case ClearAction =>
          Some(WithScope(m, k, map[]))
  }

  /** The storage message of a set, as the preview posts it, stores the string under the key. */
  lemma UpdateSet(m: Mirror, k: Scope, key: string, value: string, lib: Lib)
    ensures Update(m, StorageMessage(k, SetAction, SetPayload(key, value)).fields["payload"], lib)
         == Some(WithScope(m, k, ScopeOf(m, k)[key := Str(value)]))
  {
  }

  /** A remove deletes the key (whether or not it was there). */
  lemma UpdateRemove(m: Mirror, k: Scope, key: string, lib: Lib)
    ensures Update(m, StorageMessage(k, RemoveAction, RemovePayload(key)).fields["payload"], lib)
         == Some(WithScope(m, k, ScopeOf(m, k) - {key}))
  {
  }

  /** A clear empties the named scope. */
  lemma UpdateClear(m: Mirror, k: Scope, lib: Lib)
    ensures Update(m, StorageMessage(k, ClearAction, ClearPayload).fields["payload"], lib)
         == Some(WithScope(m, k, map[]))
  {
  }

  /** An update never brings a non-JSON value into the mirror. */
  lemma UpdateKeepsJson(m: Mirror, msg: Value, lib: Lib)
    requires JsonMirror(m) && Update(m, msg, lib).Some?
    ensures JsonMirror(Update(m, msg, lib).value)
  {
  }

  // ---- the message handler ----

  /** What the editor does with one posted message. */
  datatype Route =
    | Ignore                                   // not ours, or a type it does not handle
    | Append(level: Level, args: seq<Value>)   // one console entry
    | Store(update: Value)                     // a storage update

  /** The level of a console payload: the four named levels pass, anything else is `log`. */
  function LevelOf(payload: Value): (l: Level)
    ensures Get(payload, "level") in {Str("info"), Str("warn"), Str("error"), Str("debug")}
            ==> Str(LevelName(l)) == Get(payload, "level")
    ensures Get(payload, "level") !in {Str("info"), Str("warn"), Str("error"), Str("debug")}
            ==> l == LogLevel
  {
    var level := Get(payload, "level");
    if level == Str("info") then InfoLevel
    else if level == Str("warn") then WarnLevel
    else if level == Str("error") then ErrorLevel
    else if level == Str("debug") then DebugLevel
    else LogLevel
  }

  /** `Array.isArray(payload?.args) ? payload.args : []` */
  function ArgsOf(payload: Value): (args: seq<Value>)
    ensures Get(payload, "args").Arr? ==> args == Get(payload, "args").items
    ensures !Get(payload, "args").Arr? ==> args == []
  {
    match Get(payload, "args")
    case Arr(items) => items
    case _ => []
  }

  /** The envelope test: a truthy object whose `__playcode` is truthy and whose type is a string. */
  predicate IsEnvelope(data: Value) {
    Truthy(data) && IsObjectType(data) && Truthy(Get(data, "__playcode")) && Get(data, "type").Str?
  }

  /** onMessage's decision. */
  function RouteOf(data: Value): (r: Route)
    // anything but an envelope is ignored
    ensures !IsEnvelope(data) ==> r == Ignore
    ensures IsEnvelope(data) ==>
      var typ := Get(data, "type").s;
      var payload := Get(data, "payload");
      // console: one entry at the normalised level
      && (typ == "console" ==> r == Append(LevelOf(payload), ArgsOf(payload)))
      // a reported error or rejection: one error entry holding the type and the raw payload
      && (typ == "error" || typ == "unhandledrejection" ==> r == Append(ErrorLevel, [Str(typ), payload]))
      // storage: the payload goes to the storage update
      && (typ == "storage" ==> r == Store(payload))
      // every other type is ignored
      && (typ !in {"console", "error", "unhandledrejection", "storage"} ==> r == Ignore)
  {
    if !IsEnvelope(data) then Ignore
    else
      var typ := Get(data, "type").s;
      var payload := Get(data, "payload");
      if typ == "console" then Append(LevelOf(payload), ArgsOf(payload))
      else if typ == "error" || typ == "unhandledrejection" then Append(ErrorLevel, [Str(typ), payload])
      else if typ == "storage" then Store(payload)
      else Ignore
  }

  /** The effect of one message on the mirror. */
  function HostStep(m: Mirror, data: Value, lib: Lib): Mirror {
    match RouteOf(data)
    case Store(u) => (match Update(m, u, lib) case Some(m') => m' case None => m)
    case _ => m
  }

  /** The mirror after a sequence of messages, delivered in order. */
  function Replay(m: Mirror, msgs: seq<Value>, lib: Lib): Mirror
    decreases |msgs|
  {
    if msgs == [] then m else HostStep(Replay(m, msgs[..|msgs| - 1], lib), msgs[|msgs| - 1], lib)
  }

  /** Delivering one more message is one more step. */
  lemma ReplaySnoc(m: Mirror, msgs: seq<Value>, x: Value, lib: Lib)
    ensures Replay(m, msgs + [x], lib) == HostStep(Replay(m, msgs, lib), x, lib)
  {
    assert (msgs + [x])[..|msgs|] == msgs;
  }

  /** Each storage message the preview posts reaches the update unchanged. */
  lemma RouteStorageMessage(k: Scope, a: Action, payload: Value)
    ensures RouteOf(StorageMessage(k, a, payload)) == Store(StorageMessage(k, a, payload).fields["payload"])
  {
  }

  /** The step a `set` message makes: the string stored under the key in the named scope. */
  lemma StepSet(m: Mirror, k: Scope, key: string, value: string, lib: Lib)
    ensures HostStep(m, StorageMessage(k, SetAction, SetPayload(key, value)), lib)
         == WithScope(m, k, ScopeOf(m, k)[key := Str(value)])
  {
    RouteStorageMessage(k, SetAction, SetPayload(key, value));
    UpdateSet(m, k, key, value, lib);
  }

  /** The step a `remove` message makes: the key gone from the named scope. */
  lemma StepRemove(m: Mirror, k: Scope, key: string, lib: Lib)
    ensures HostStep(m, StorageMessage(k, RemoveAction, RemovePayload(key)), lib)
         == WithScope(m, k, ScopeOf(m, k) - {key})
  {
    RouteStorageMessage(k, RemoveAction, RemovePayload(key));
    UpdateRemove(m, k, key, lib);
  }

  /** The step a `clear` message makes: the named scope emptied. */
  lemma StepClear(m: Mirror, k: Scope, lib: Lib)
    ensures HostStep(m, StorageMessage(k, ClearAction, ClearPayload), lib) == WithScope(m, k, map[])
  {
    RouteStorageMessage(k, ClearAction, ClearPayload);
    UpdateClear(m, k, lib);
  }

  /** A storage message of one scope leaves the other scope of the mirror as it was. */
  lemma StepKeepsOtherScope(m: Mirror, k: Scope, a: Action, payload: Value, j: Scope, lib: Lib)
    requires j != k
    ensures ScopeOf(HostStep(m, StorageMessage(k, a, payload), lib), j) == ScopeOf(m, j)
  {
    RouteStorageMessage(k, a, payload);
  }
}
