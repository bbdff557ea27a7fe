/** The storage shim the generated document installs in the sandboxed preview: the seed
    handed over by the editor, two key/value stores standing in for localStorage and
    sessionStorage, and the message every mutation posts to the editor page. */
module Shim {
  import opened Values
  import opened Bridge
  import opened PreviewStorage

  // ---- the seed ----

  /** The seed object: the parsed seed text, or `{}` when the text is empty, does not parse,
      or parses to something that is not a truthy object. */
  function ParseSeed(seedText: string, lib: Lib): (seed: Value)
    ensures Truthy(seed) && IsObjectType(seed)
    ensures seedText == [] || lib.parse(seedText).None? ==> seed == Obj(map[])
    ensures seedText != [] && lib.parse(seedText).Some? ==>
      var p := lib.parse(seedText).value;
      seed == if Truthy(p) && IsObjectType(p) then p else Obj(map[])
  {
    var parsed := if seedText == [] then Obj(map[]) else
      match lib.parse(seedText)
      case None => Obj(map[])
      case Some(v) => v;
    if !Truthy(parsed) || !IsObjectType(parsed) then Obj(map[]) else parsed
  }

  /** The object one storage is created over: `seed[name]` when that is a truthy object, else `{}`. */
  function ScopeSeed(seed: Value, k: Scope): (v: Value)
    ensures v.Obj? || v.Arr?
    ensures Get(seed, ScopeName(k)).Obj? || Get(seed, ScopeName(k)).Arr? ==> v == Get(seed, ScopeName(k))
    ensures !Get(seed, ScopeName(k)).Obj? && !Get(seed, ScopeName(k)).Arr? ==> v == Obj(map[])
  {
    var v := Get(seed, ScopeName(k));
    if Truthy(v) && IsObjectType(v) then v else Obj(map[])
  }

  function Digit(d: nat): char
    requires d < 10
  {
    "0123456789"[d]
  }

  /** The decimal text of an array index. */
  function Decimal(n: nat): string
    decreases n
  {
    if n < 10 then [Digit(n)] else Decimal(n / 10) + [Digit(n % 10)]
  }

  /** An array's own keys are its indices, written in decimal. */
  function IndexMap(items: seq<Value>): map<string, Value>
    decreases |items|
  {
    if items == [] then map[] else IndexMap(items[..|items| - 1])[Decimal(|items| - 1) := items[|items| - 1]]
  }

  /** The own properties of the object a storage is created over. */
  function StoreOf(v: Value): map<string, Value> {
    match v
    case Obj(m) => m
    case Arr(items) => IndexMap(items)
    case _ => map[]
  }

  /** A seed that is empty, does not parse or is not an object leaves both storages empty. */
  lemma BadSeedEmpty(seedText: string, lib: Lib, k: Scope)
    requires seedText == [] || lib.parse(seedText).None?
             || !Truthy(lib.parse(seedText).value) || !IsObjectType(lib.parse(seedText).value)
    ensures StoreOf(ScopeSeed(ParseSeed(seedText, lib), k)) == map[]
  {
    assert ParseSeed(seedText, lib) == Obj(map[]);
  }

  /** The seed the editor writes (its mirror, stringified) gives each storage exactly
      the mirror's scope. */
  lemma SeedFromMirror(m: Mirror, lib: Lib, k: Scope)
    requires Lawful(lib) && JsonMirror(m)
    ensures StoreOf(ScopeSeed(ParseSeed(lib.stringify(StorageJson(m)), lib), k)) == ScopeOf(m, k)
  {
    var v := StorageJson(m);
    assert IsJson(Obj(m.local)) && IsJson(Obj(m.session));
    assert IsJson(v);
    ParseSeedOfObject(lib.stringify(v), v, lib);
    assert Get(v, ScopeName(k)) == Obj(ScopeOf(m, k));
  }

  /** Seed text that parses to an object gives that object as the seed. */
  lemma ParseSeedOfObject(seedText: string, v: Value, lib: Lib)
    requires seedText != [] && lib.parse(seedText) == Some(v) && v.Obj?
    ensures ParseSeed(seedText, lib) == v
  {
  }

  // ---- key order ----

  /** No key listed twice. */
  predicate Distinct(s: seq<string>) {
    forall i, j :: 0 <= i < j < |s| ==> s[i] != s[j]
  }

  /** `order` is an enumeration of the keys of `store`, each once (what Object.keys returns). */
  ghost predicate Lists(order: seq<string>, store: map<string, Value>) {
    Distinct(order) && forall k :: k in store <==> k in order
  }

  /** The key order after `delete store[k]`. */
  function Without(s: seq<string>, k: string): (r: seq<string>)
    ensures forall x :: x in r <==> x in s && x != k
    ensures Distinct(s) ==> Distinct(r)
    ensures k !in s ==> r == s
    ensures Distinct(s) && s != [] && s[0] == k ==> r == s[1..]
  {
    if s == [] then []
    else if s[0] == k then Without(s[1..], k)
    else
      var rest := Without(s[1..], k);
      assert Distinct(s) ==> s[0] !in s[1..] && s[0] !in rest;
      assert forall j :: 0 <= j < |rest| ==> ([s[0]] + rest)[j + 1] == rest[j];
      [s[0]] + rest
  }

  /** A listing without repetitions is as long as the set it lists. */
  lemma {:induction false} ListsCount(order: seq<string>, store: map<string, Value>)
    requires Lists(order, store)
    ensures |order| == |store|
  {
    if order == [] {
      assert store.Keys == {};
    } else {
      var last := order[|order| - 1];
      var rest := order[..|order| - 1];
      assert forall k :: k in rest ==> k in order;
      assert last !in rest;
      ListsCount(rest, store - {last});
      assert store.Keys == (store - {last}).Keys + {last};
    }
  }

  /** `typeof i === 'number' ? (ks[i] || null) : null`: an empty-string key reads as null. */
  function KeyAt(order: seq<string>, i: Value): (r: Option<string>)
    ensures r.Some? <==> i.Num? && 0 <= i.n < |order| && order[i.n] != ""
    ensures r.Some? ==> r.value == order[i.n]
  {
    if i.Num? && 0 <= i.n < |order| && order[i.n] != "" then Some(order[i.n]) else None
  }

  /** key(i) as storage intends it: the i-th key whenever i is an index, the empty key included. */
  function KeyAtIntended(order: seq<string>, i: Value): (r: Option<string>)
    ensures r.Some? <==> i.Num? && 0 <= i.n < |order|
    ensures r.Some? ==> r.value == order[i.n]
  {
    if i.Num? && 0 <= i.n < |order| then Some(order[i.n]) else None
  }

  /** The intended key(0) … key(length - 1) enumerate exactly the stored keys. */
  lemma IntendedKeysEnumerate(order: seq<string>, store: map<string, Value>)
    requires Lists(order, store)
    ensures forall k :: k in store <==> exists n :: 0 <= n < |order| && KeyAtIntended(order, Num(n)) == Some(k)
  {
    forall k | k in store
      ensures exists n :: 0 <= n < |order| && KeyAtIntended(order, Num(n)) == Some(k)
    {
      var n :| 0 <= n < |order| && order[n] == k;
      assert KeyAtIntended(order, Num(n)) == Some(k);
    }
  }

  /** As written, a storage holding only the empty key has length 1 but no index yields it. */
  lemma EmptyKeyHidden()
    ensures Lists([""], map["" := Str("x")])
    ensures forall n :: KeyAt([""], Num(n)) == None
    ensures KeyAtIntended([""], Num(0)) == Some("")
  {
  }

  // ---- the message channel to the editor ----

  /** `parent`, as the preview sees it: everything posted to it, in order. */
  class Channel {
    var posted: seq<Value>

    constructor()
      ensures posted == []
    {
      posted := [];
    }

    /** post(type, payload) */
    method Post(typ: string, payload: Value)
      modifies this
      ensures posted == old(posted) + [Envelope(typ, payload)]
    {
      posted := posted + [Envelope(typ, payload)];
    }
  }

  // ---- createStorage ----

  /** One storage object: the store it was created over, the order of its keys, and the
      channel each mutation is announced on. */
  class ShimStorage {
    const kind: Scope
    const channel: Channel
    var store: map<string, Value>
    var order: seq<string>

    ghost predicate Valid()
      reads this
    {
      Lists(order, store)
    }

    /** createStorage(store, kind) */
    constructor(kind: Scope, initial: map<string, Value>, initialOrder: seq<string>, channel: Channel)
      requires Lists(initialOrder, initial)
      ensures Valid()
      ensures this.kind == kind && this.channel == channel
      ensures store == initial && order == initialOrder
    {
      this.kind := kind;
      this.channel := channel;
      store := initial;
      order := initialOrder;
    }

    /** getItem(k): the stored value as a string, or None (null) for a key not held. */
    function GetItem(k: Value, lib: Lib): (r: Option<string>)
      reads this
      ensures r.Some? <==> lib.toString(k) in store
      ensures r.Some? ==> r.value == lib.toString(store[lib.toString(k)])
    {
      var key := lib.toString(k);
      if key in store then Some(lib.toString(store[key])) else None
    }

    /** The `length` getter: the number of keys. */
    function Length(): (n: nat)
      reads this
      requires Valid()
      ensures n == |store|
    {
      ListsCount(order, store);
      |order|
    }

    /** key(i), with the empty key returned like any other (KeyAt is the code as written):
        the i-th key exactly when i is an index below the length. */
    function Key(i: Value): (r: Option<string>)
      reads this
      requires Valid()
      ensures r.Some? <==> i.Num? && 0 <= i.n < Length()
      ensures r.Some? ==> r.value in store && r.value == order[i.n]
    {
      KeyAtIntended(order, i)
    }

    /** setItem(k, v): store String(v) under String(k) and announce it. */
    method SetItem(k: Value, v: Value, lib: Lib)
      requires Valid()
      modifies this, channel
      ensures Valid()
      ensures store == old(store)[lib.toString(k) := Str(lib.toString(v))]
      ensures order == if lib.toString(k) in old(store) then old(order) else old(order) + [lib.toString(k)]
      ensures channel.posted == old(channel.posted)
                                + [StorageMessage(kind, SetAction, SetPayload(lib.toString(k), lib.toString(v)))]
      ensures Lawful(lib) ==> GetItem(k, lib) == Some(lib.toString(v))
    {
      var key := lib.toString(k);
      if key !in store {
        order := order + [key];
      }
      store := store[key := Str(lib.toString(v))];
      channel.Post("storage", StorageMessage(kind, SetAction, SetPayload(key, lib.toString(v))).fields["payload"]);
    }

    /** removeItem(k): delete String(k) and announce it, whether or not it was there. */
    method RemoveItem(k: Value, lib: Lib)
      requires Valid()
      modifies this, channel
      ensures Valid()
      ensures store == old(store) - {lib.toString(k)}
      ensures order == Without(old(order), lib.toString(k))
      ensures channel.posted == old(channel.posted) + [StorageMessage(kind, RemoveAction, RemovePayload(lib.toString(k)))]
      ensures GetItem(k, lib) == None
    {
      var key := lib.toString(k);
      store := store - {key};
      order := Without(order, key);
      channel.Post("storage", StorageMessage(kind, RemoveAction, RemovePayload(key)).fields["payload"]);
    }

    /** clear(): delete every key, one by one in key order, then announce it. */
    method Clear()
      requires Valid()
      modifies this, channel
      ensures Valid()
      ensures store == map[] && order == []
      ensures channel.posted == old(channel.posted) + [StorageMessage(kind, ClearAction, ClearPayload)]
    {
      var ks := order;
      var i := 0;
      while i < |ks|
        invariant 0 <= i <= |ks|
        invariant Distinct(ks)
        invariant order == ks[i..]
        invariant forall k :: k in store <==> k in ks[i..]
        invariant channel.posted == old(channel.posted)
      {
        store := store - {ks[i]};
        order := Without(order, ks[i]);
        i := i + 1;
      }
      assert store.Keys == {};
      channel.Post("storage", StorageMessage(kind, ClearAction, ClearPayload).fields["payload"]);
    }
  }

  // ---- the preview frame's storage script ----

  /** The script that parses the seed and installs both storages over one channel. The
      ghost `origin` is the pair of stores the seed gave; the invariant is the refinement:
      the editor, starting from `origin` and handling every posted message in order,
      holds exactly what the two storages hold. */
  class Frame {
    const lib: Lib
    const channel: Channel
    const local: ShimStorage
    const session: ShimStorage
    ghost const origin: Mirror

    ghost predicate Valid()
      reads this, local, session, channel
    {
      && local.kind == Local && session.kind == Session
      && local.channel == channel && session.channel == channel
      && local != session
      && local.Valid() && session.Valid()
      && Replay(origin, channel.posted, lib) == Mirror(local.store, session.store)
    }

    /** The seed parsing and the two createStorage calls. The key orders are the orders in
        which the seed text lists each scope's keys. */
    constructor(seedText: string, lib: Lib, localOrder: seq<string>, sessionOrder: seq<string>)
      requires Lists(localOrder, StoreOf(ScopeSeed(ParseSeed(seedText, lib), Local)))
      requires Lists(sessionOrder, StoreOf(ScopeSeed(ParseSeed(seedText, lib), Session)))
      ensures Valid() && channel.posted == [] && this.lib == lib
      ensures local.store == StoreOf(ScopeSeed(ParseSeed(seedText, lib), Local))
      ensures session.store == StoreOf(ScopeSeed(ParseSeed(seedText, lib), Session))
      ensures origin == Mirror(local.store, session.store)
    {
      var seed := ParseSeed(seedText, lib);
      var ch := new Channel();
      this.lib := lib;
      channel := ch;
      local := new ShimStorage(Local, StoreOf(ScopeSeed(seed, Local)), localOrder, ch);
      session := new ShimStorage(Session, StoreOf(ScopeSeed(seed, Session)), sessionOrder, ch);
      origin := Mirror(StoreOf(ScopeSeed(seed, Local)), StoreOf(ScopeSeed(seed, Session)));
    }

    function Storage(k: Scope): (s: ShimStorage)
      reads this
      ensures s == if k == Local then local else session
    {
      if k == Local then local else session
    }

    /** `localStorage.setItem(k, v)` or `sessionStorage.setItem(k, v)` in the user's code. */
    method SetItem(scope: Scope, k: Value, v: Value)
      requires Valid()
      modifies local, session, channel
      ensures Valid()
      ensures Storage(scope).store == old(Storage(scope).store)[lib.toString(k) := Str(lib.toString(v))]
      ensures Storage(scope).order == if lib.toString(k) in old(Storage(scope).store) then old(Storage(scope).order)
                                      else old(Storage(scope).order) + [lib.toString(k)]
      ensures forall j :: j != scope ==> Storage(j).store == old(Storage(j).store) && Storage(j).order == old(Storage(j).order)
      ensures channel.posted == old(channel.posted)
                                + [StorageMessage(scope, SetAction, SetPayload(lib.toString(k), lib.toString(v)))]
    {
      ghost var before := channel.posted;
      ghost var m := Replay(origin, before, lib);
      var s := Storage(scope);
      var msg := StorageMessage(scope, SetAction, SetPayload(lib.toString(k), lib.toString(v)));
      s.SetItem(k, v, lib);
      ReplaySnoc(origin, before, msg, lib);
      StepSet(m, scope, lib.toString(k), lib.toString(v), lib);
    }

    /** `removeItem(k)` on one of the two storages. */
    method RemoveItem(scope: Scope, k: Value)
      requires Valid()
      modifies local, session, channel
      ensures Valid()
      ensures Storage(scope).store == old(Storage(scope).store) - {lib.toString(k)}
      ensures Storage(scope).order == Without(old(Storage(scope).order), lib.toString(k))
      ensures forall j :: j != scope ==> Storage(j).store == old(Storage(j).store) && Storage(j).order == old(Storage(j).order)
      ensures channel.posted == old(channel.posted) + [StorageMessage(scope, RemoveAction, RemovePayload(lib.toString(k)))]
    {
      ghost var before := channel.posted;
      ghost var m := Replay(origin, before, lib);
      var s := Storage(scope);
      var msg := StorageMessage(scope, RemoveAction, RemovePayload(lib.toString(k)));
      s.RemoveItem(k, lib);
      ReplaySnoc(origin, before, msg, lib);
      StepRemove(m, scope, lib.toString(k), lib);
    }

    /** `clear()` on one of the two storages. */
    method Clear(scope: Scope)
      requires Valid()
      modifies local, session, channel
      ensures Valid()
      ensures Storage(scope).store == map[] && Storage(scope).order == []
      ensures forall j :: j != scope ==> Storage(j).store == old(Storage(j).store) && Storage(j).order == old(Storage(j).order)
      ensures channel.posted == old(channel.posted) + [StorageMessage(scope, ClearAction, ClearPayload)]
    {
      ghost var before := channel.posted;
      ghost var m := Replay(origin, before, lib);
      var s := Storage(scope);
      var msg := StorageMessage(scope, ClearAction, ClearPayload);
      s.Clear();
      ReplaySnoc(origin, before, msg, lib);
      StepClear(m, scope, lib);
    }
  }

  /** Started from the editor's own mirror, the frame's invariant says the editor's mirror
      follows the storages: the seed gives back that mirror as `origin`. */
  lemma FrameStartsFromMirror(m: Mirror, lib: Lib)
    requires Lawful(lib) && JsonMirror(m)
    ensures Mirror(StoreOf(ScopeSeed(ParseSeed(lib.stringify(StorageJson(m)), lib), Local)),
                   StoreOf(ScopeSeed(ParseSeed(lib.stringify(StorageJson(m)), lib), Session))) == m
  {
    SeedFromMirror(m, lib, Local);
    SeedFromMirror(m, lib, Session);
  }
}
