/** The messages the preview frame posts to the editor page: every message is an
    envelope `{ __playcode: true, type, payload }`; storage messages carry
    `{ kind, action, payload }` naming the storage scope and the mutation. */
module Bridge {
  import opened Values

  /** The two sandboxed storages the preview replaces. */
  datatype Scope = Local | Session

  function ScopeName(k: Scope): (r: string)
    ensures r == "localStorage" || r == "sessionStorage"
  {
    match k
    case Local => "localStorage"
    case Session => "sessionStorage"
  }

  /** The storage mutations the preview announces. */
  datatype Action = SetAction | RemoveAction | ClearAction

  function ActionName(a: Action): string {
    match a
    case SetAction => "set"
    case RemoveAction => "remove"
    case ClearAction => "clear"
  }

  /** `{ __playcode: true, type: type, payload: payload }` */
  function Envelope(typ: string, payload: Value): Value {
    Obj(map["__playcode" := Bool(true), "type" := Str(typ), "payload" := payload])
  }

  /** `post('storage', { kind: kind, action: action, payload: payload })` */
  function StorageMessage(kind: Scope, action: Action, payload: Value): Value {
    Envelope("storage", Obj(map["kind" := Str(ScopeName(kind)), "action" := Str(ActionName(action)), "payload" := payload]))
  }

  /** The payload of a `set` message: `{ key: k, value: v }`. */
  function SetPayload(key: string, value: string): Value {
    Obj(map["key" := Str(key), "value" := Str(value)])
  }

  /** The payload of a `remove` message: `{ key: k }`. */
  function RemovePayload(key: string): Value {
    Obj(map["key" := Str(key)])
  }

  /** The payload of a `clear` message: `{}`. */
  const ClearPayload: Value := Obj(map[])

  /** The console levels the editor shows. */
  datatype Level = LogLevel | InfoLevel | WarnLevel | ErrorLevel | DebugLevel

  function LevelName(l: Level): string {
    match l
    case LogLevel => "log"
    case InfoLevel => "info"
    case WarnLevel => "warn"
    case ErrorLevel => "error"
    case DebugLevel => "debug"
  }
}
