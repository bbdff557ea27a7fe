# open-playcode core, modelled in Dafny

open-playcode is a small in-browser playground. The editor page holds one project: HTML, CSS,
JavaScript, a runtime (vanilla or React/JSX), an import map and a Tailwind switch. Running the
project builds one self-contained HTML document and loads it into a sandboxed frame. The frame
reports console output, errors and storage writes back to the editor page as messages. This
project models the four pieces of that core and proves what each promises.

- **Share links** (`share.dfy`, module `Share`). `#code=<token>`, where the token is the
  LZ-compressed JSON of a version-4 record. The decoder accepts every record version ever
  written (1 to 4) and migrates it to the current shape.
- **The preview document** (`srcdoc.dfy`, `srcdoc_facts.dfy`, modules `SrcDoc` and `SrcDocFacts`).
  - The closing-tag escapes, the import-map tag, the Tailwind tag and the indenter.
  - The document's section order.
  - Containment. In the document as written, no lower-case `</style` starts inside the CSS and
    no lower-case `</script` inside the vanilla code, but the React code's and the storage seed's
    literals can hold `</script` (see "## Findings"). In the corrected document, which escapes
    those two literals as well, none of the four holds its lower-case closing-tag prefix. The
    escapes are case-sensitive, so an upper- or mixed-case closing tag such as `</STYLE>` or
    `</Script>` still ends the element, as written and corrected.
  - For every input, the escaped text differs from the input only by a backslash after the `<`
    of each closing-tag prefix. The two JSON literals can always be read back from the corrected
    document. The CSS and the vanilla code can be read back when they do not already hold the
    escaped form (`<\/style`, `<\/script`). For text that does, the escape is not injective.
  - The document as written and the corrected one agree exactly when the seed's literal holds
    no `</script` and, in a React run, neither does the code's.
- **The storage shim inside the preview** (`shim.dfy`, module `Shim`).
  - The seed parsing, modelled on values.
  - `createStorage`, as a class `ShimStorage` with its store, its key order and the `Channel` it
    posts each mutation to.
  - A class `Frame` holding the two storages. Its invariant is the refinement: the editor's mirror,
    fed every posted message in order, equals the two stores.
- **The editor page** (`bridge.dfy`, `preview_storage.dfy`, `host.dfy`, modules `Bridge`,
  `PreviewStorage` and `Host`).
  - The message formats, and the message router.
  - The storage update as a function on the mirror.
  - A class `App` whose methods update the console log, the mirror and the page's localStorage
    in place.
  - The editing operations, as functions on the project.
- **The saved project** (`storage.dfy`, module `Storage`): `loadProject`'s validation and
  normalisation, and `saveProject`.

Values as JavaScript sees them, its truthiness and `typeof`, are in `values.dfy`. String helpers
(`trim`, `split`/`join`, substring occurrence) are in `text.dfy`. The project record is in
`projects.dfy`.

The foreign calls are the function-typed fields of the datatype `Values.Lib`:

- `JSON.stringify` and `JSON.stringify(v, null, 2)`;
- `JSON.parse`, with `None` where it throws;
- `String()`;
- LZString's compress and decompress.

The laws the core relies on are the predicate `Values.Lawful`. It requires:

- that JSON text round-trips;
- that it is non-empty and has no white space at its ends;
- that a plain string prints as itself in quotes;
- that JSON text never holds `<\/`;
- that compression round-trips and never emits `&`.

Lemmas that need these laws take `Lawful(lib)` as a precondition.

The four defects listed under "## Findings" are each modelled twice: once as written, with a
lemma exhibiting the defect, and once corrected. The rest of the model uses the corrected
member:

- the document embeds both JSON literals escaped (`SrcDoc.ReactRuntimeEscaped`,
  `SrcDoc.StorageShimEscaped`);
- `Shim.ShimStorage.Key` returns the empty key like any other;
- the editor reopens a saved project with its Tailwind flag (`Storage.LoadProjectKeepingTailwind`).

## Model

| member | source | states |
|---|---|---|
| Share.EncodeProjectToHash | src/utils/share.ts:3-14 | every link the encoder writes starts with `#code=` |
| Share.VersionOf | src/utils/share.ts:31 | the version is non-zero exactly when `v` is the number 1, 2, 3 or 4, and then it is that number |
| Share.DecodeRecord | src/utils/share.ts:31-48 | accepted exactly when the version is known and html, css and js are strings. Those three are copied. The runtime is React iff the version is at least 2 and the stored runtime is exactly `'react'`. The import map is the stored string from version 3 on, else `''`. Tailwind is the stored flag's truthiness in version 4 only. autoRun is on. The tab is `js` iff the runtime is React, else `html` |
| Share.DecodeProjectFromHash | src/utils/share.ts:16-52 | a project comes back iff the hash is `#code=` followed by one or more non-`&` characters whose token decompresses to non-empty text that parses to a record that validates. The project is then the validated, migrated record. Every failing step gives null |
| Share.UnknownVersionRejected | src/utils/share.ts:31 | a record whose `v` is not 1 to 4 is refused whatever else it holds |
| Share.MatchCompressed | src/utils/share.ts:12-18 | the hash pattern captures exactly the compressed token of any non-empty payload |
| Share.DecodeHashOfRecord | src/utils/share.ts:11-22 | the link layer hands the decoder exactly the record that was encoded |
| Share.DecodeLegacyRecord | src/utils/share.ts:31-48 | a record as written by each of versions 1 to 4 is migrated to its own fields, with defaults for the fields that version lacked |
| Share.DecodeLegacy | src/utils/share.ts:16-48 | a link of each version 1 to 4 decodes to its migrated project |
| Share.ShareRoundTrip | src/utils/share.ts:3-48 | decoding an encoded link gives back all six run fields, with autoRun on and the tab that suits the runtime |
| Text.Trim | src/preview/buildSrcDoc.ts:148 | `trim()` removes white space at both ends and only there, and its result is empty or starts and ends with non-space |
| Text.TrimEmptyIff | src/preview/buildSrcDoc.ts:148-149 | the trimmed text is empty iff every character is white space |
| Text.JoinSplit | src/preview/buildSrcDoc.ts:168-171 | joining the pieces of a split gives back the text |
| Text.SplitJoin | src/preview/buildSrcDoc.ts:168-171 | splitting a join of pieces free of the separator gives back the pieces |
| SrcDoc.EscapesAreNeutralising | src/preview/buildSrcDoc.ts:139-145 | both escapes replace a closing-tag prefix by the same prefix with a backslash after its `<` |
| SrcDoc.EscapeRemovesTag | src/preview/buildSrcDoc.ts:139-145 | after the escape the text holds no occurrence of the closing-tag prefix |
| SrcDoc.EscapeIdentityIff | src/preview/buildSrcDoc.ts:139-145 | the escape changes the text iff the text held the prefix |
| SrcDoc.EscapeLength | src/preview/buildSrcDoc.ts:139-145 | the escape never shortens the text, and a result of the same length is the input unchanged |
| SrcDoc.EscapePieces | src/preview/buildSrcDoc.ts:139-145 | for every input, the input and its escape are the same pieces, none holding the closing-tag prefix, joined by the prefix in the input and by the prefix with a backslash after its `<` in the escape. So the escape only inserts those backslashes |
| SrcDoc.EscapeRoundTrip | src/preview/buildSrcDoc.ts:139-145 | removing the inserted backslashes restores the input, for input that does not already hold the escaped form |
| SrcDocFacts.EscapeStyleFacts | src/preview/buildSrcDoc.ts:139-141 | escapeStyle leaves the CSS unchanged iff it holds no `</style`. Unescaping restores CSS that does not already hold `<\/style` |
| SrcDocFacts.ImportMapTagBlank | src/preview/buildSrcDoc.ts:147-149 | the tag is empty iff the import map is empty or white space only |
| SrcDocFacts.ImportMapTagValid | src/preview/buildSrcDoc.ts:150-153 | an import map that parses becomes an importmap script. No `</script` starts inside its content, and the content, unescaped, parses to the same value as the trimmed import map |
| SrcDocFacts.ImportMapTagInvalid | src/preview/buildSrcDoc.ts:154-158 | an import map that does not parse yields the warning script and no importmap tag |
| SrcDoc.TailwindTag | src/preview/buildSrcDoc.ts:161-164 | the tag is non-empty iff Tailwind is on |
| SrcDoc.IndentLines | src/preview/buildSrcDoc.ts:166-172 | indenting keeps the number of lines. Each non-empty line gets exactly n spaces in front, and each empty line is left as it was |
| SrcDoc.IndentRoundTrip | src/preview/buildSrcDoc.ts:166-172 | stripping the n-space prefix from the indented code recovers the input |
| SrcDoc.IndentKeepsAbsence | src/preview/buildSrcDoc.ts:166-172 | indenting cannot create a pattern that holds no space or line break, such as `</script` |
| SrcDoc.StandardShaped | src/preview/buildSrcDoc.ts:48-136 | in the program's own fixed text, each embedded JSON literal is followed by `;`. This is what the document lemmas below assume of the templates |
| SrcDocFacts.StyleContained | src/preview/buildSrcDoc.ts:12-19 | in every document the escaped CSS sits right after the head. No `</style` starts within it, and the style element's own `</style>` follows it directly |
| SrcDocFacts.CssOnlyInStyle | src/preview/buildSrcDoc.ts:12-92 | two documents that differ only in CSS agree on everything before and after the style element's content |
| SrcDocFacts.CodeContained | src/preview/buildSrcDoc.ts:90-104 | in a vanilla document the code sits escaped and indented by 8 right after the module script's opening, and no `</script` starts within it |
| SrcDocFacts.CodeRecovered | src/preview/buildSrcDoc.ts:95-104 | removing the indent and the backslashes from the embedded vanilla code gives the user's code back, for code that does not already hold `<\/script` |
| SrcDocFacts.RawLiteralBreaksOut | src/preview/buildSrcDoc.ts:107-114 | a JSON string literal of `</script>` embedded unescaped puts `</script` inside the literal |
| SrcDocFacts.ReactSourceBreaksOut | src/preview/buildSrcDoc.ts:106-114 | as written, React code holding `</script>` closes its script element inside the code literal |
| SrcDocFacts.SeedBreaksOut | src/preview/buildSrcDoc.ts:50 | as written, the storage seed text `</script>` closes the storage script inside the seed literal |
| SrcDocFacts.EscapedLiteralContained | src/preview/buildSrcDoc.ts:143-145 | an escaped JSON literal followed by `;` holds the start of no `</script`, and unescaped it parses to the original string |
| SrcDocFacts.ReactRuntimeEscapedContained | src/preview/buildSrcDoc.ts:106-114 | with the literal escaped, the React runtime script keeps the code inside it and the code is read back intact |
| SrcDocFacts.StorageShimEscapedContained | src/preview/buildSrcDoc.ts:48-53 | with the literal escaped, the storage script keeps the seed inside it and the seed is read back intact |
| SrcDocFacts.ReactCodeContained | src/preview/buildSrcDoc.ts:90-114 | corrected: in a React document the code's literal sits right after the runtime's head. No `</script` starts within it, and unescaped it parses to the user's code |
| SrcDocFacts.SeedContained | src/preview/buildSrcDoc.ts:48-53 | corrected: in every document the seed's literal sits right after the storage script's head. No `</script` starts within it, and unescaped it parses to the seed text |
| SrcDocFacts.DocumentAsWrittenAgreesIff | src/preview/buildSrcDoc.ts:1-114 | the document buildSrcDoc writes equals the corrected document iff the seed's JSON literal holds no `</script` and, in a React run, neither does the code's |
| Shim.ParseSeed | src/preview/buildSrcDoc.ts:50-53 | the seed is always a truthy object. Empty or unparseable seed text gives `{}`. Otherwise the seed is the parsed value when that is a truthy object, else `{}` |
| Shim.ScopeSeed | src/preview/buildSrcDoc.ts:86-87 | each storage is created over the seed's same-named property when that is a truthy object, else over `{}` |
| Shim.BadSeedEmpty | src/preview/buildSrcDoc.ts:50-87 | a seed that is empty, does not parse or is not an object leaves both storages empty |
| Shim.SeedFromMirror | src/preview/buildSrcDoc.ts:50-87 | the seed the editor writes, its mirror as JSON, gives each storage exactly the mirror's scope |
| Shim.KeyAt | src/preview/buildSrcDoc.ts:67 | as written: a key comes back iff i is a number within range and the key at that index is not `""`, and then it is that key |
| Shim.EmptyKeyHidden | src/preview/buildSrcDoc.ts:67 | as written, a storage holding only the key `""` has length 1, but no index yields that key |
| Shim.KeyAtIntended | src/preview/buildSrcDoc.ts:67 | corrected: a key comes back iff the index is a number within range, and it is the key at that index |
| Shim.IntendedKeysEnumerate | src/preview/buildSrcDoc.ts:67-68 | corrected, `key(0)` to `key(length - 1)` enumerate exactly the stored keys |
| Shim.Channel.Post | src/preview/buildSrcDoc.ts:55-57 | posting appends exactly one envelope `{ __playcode: true, type, payload }` |
| Shim.ShimStorage.constructor | src/preview/buildSrcDoc.ts:59-62 | a storage is created over the given store and key order, on the given channel |
| Shim.ShimStorage.GetItem | src/preview/buildSrcDoc.ts:63 | getItem returns a value iff `String(k)` is an own key, and then the stored value as a string. Otherwise it returns null |
| Shim.ShimStorage.Length | src/preview/buildSrcDoc.ts:68 | length is the number of stored keys |
| Shim.ShimStorage.Key | src/preview/buildSrcDoc.ts:67 | corrected key(i): a key iff i is a number below length, and then the i-th key, which is stored |
| Shim.ShimStorage.SetItem | src/preview/buildSrcDoc.ts:64 | setItem stores `String(v)` under `String(k)`, appends a new key to the key order, and posts exactly one `set` message with that key and value. Afterwards getItem returns the value |
| Shim.ShimStorage.RemoveItem | src/preview/buildSrcDoc.ts:65 | removeItem deletes the key from the store and from the key order, and posts exactly one `remove` message, even when the key was absent |
| Shim.ShimStorage.Clear | src/preview/buildSrcDoc.ts:66 | clear deletes the keys one by one, leaving the store and key order empty, and then posts exactly one `clear` message |
| Shim.Frame.constructor | src/preview/buildSrcDoc.ts:49-87 | the two storages are created over the parsed seed's scopes on one channel. Nothing has been posted yet, and the refinement holds from the start |
| Shim.Frame.SetItem | src/preview/buildSrcDoc.ts:64 | a setItem on one storage sets the entry, appends a new key to its key order, and posts exactly that storage's `set` message. The other storage's store and key order are unchanged, and the editor's replay of the posted messages still equals both stores |
| Shim.Frame.RemoveItem | src/preview/buildSrcDoc.ts:65 | a removeItem on one storage deletes the key from its store and key order and posts exactly that storage's `remove` message. The other storage's store and key order are unchanged, and the refinement is kept |
| Shim.Frame.Clear | src/preview/buildSrcDoc.ts:66 | a clear on one storage empties its store and key order and posts exactly that storage's `clear` message. The other storage's store and key order are unchanged, and the refinement is kept |
| Shim.FrameStartsFromMirror | src/App.tsx:75 | a frame seeded from the editor's mirror starts with exactly that mirror, so the mirror follows the storages |
| Bridge.ScopeName | src/preview/buildSrcDoc.ts:86-87 | the two storages are announced as `localStorage` and `sessionStorage` |
| PreviewStorage.IsRecordIff | src/App.tsx:473-475 | isRecord holds exactly for plain objects: not null, not an array, not a primitive |
| PreviewStorage.LoadPreviewStorage | src/App.tsx:418-432 | nothing stored, empty text, or text that does not parse gives two empty scopes. Otherwise each scope is the stored one when that is a record, else empty |
| PreviewStorage.PreviewStorageRoundTrip | src/App.tsx:418-440 | a persisted mirror is loaded back exactly |
| PreviewStorage.KindOf | src/App.tsx:446-447 | only the exact names `localStorage` and `sessionStorage` select a scope |
| PreviewStorage.ActionOf | src/App.tsx:448-449 | only `set`, `remove` and `clear` are actions |
| PreviewStorage.Coerce | src/App.tsx:460 | a value is stored as `String(value)`, strings as themselves |
| PreviewStorage.Update | src/App.tsx:446-467 | the message is dropped exactly for an unknown scope, an unknown action, or a set/remove whose key is not a string. A message that is applied never touches the other scope. In the named scope, a set stores `String(value)` (a string as itself) under the key, a remove deletes the key, and a clear leaves it empty, whatever else the message holds |
| PreviewStorage.UpdateSet | src/App.tsx:457-460 | the shim's `set` message stores the string under the key in the named scope and changes nothing else |
| PreviewStorage.UpdateRemove | src/App.tsx:461-464 | the shim's `remove` message deletes the key from the named scope, present or not, and changes nothing else |
| PreviewStorage.UpdateClear | src/App.tsx:465-467 | the shim's `clear` message empties the named scope and changes nothing else |
| PreviewStorage.UpdateKeepsJson | src/App.tsx:457-467 | an update never brings a non-JSON value into the mirror |
| PreviewStorage.LevelOf | src/App.tsx:95-102 | the level is the payload's when that is `info`, `warn`, `error` or `debug`, and `log` otherwise |
| PreviewStorage.ArgsOf | src/App.tsx:105 | the args are the payload's when they form an array, and `[]` otherwise |
| PreviewStorage.RouteOf | src/App.tsx:89-116 | a non-envelope is ignored. `console` becomes one entry at the normalised level. `error` and `unhandledrejection` become one `error` entry holding `[type, payload]`. `storage` goes to the update. Any other type is ignored |
| PreviewStorage.RouteStorageMessage | src/App.tsx:112-114 | every storage message the shim posts reaches the update with its inner payload |
| PreviewStorage.StepSet | src/App.tsx:457-460 | the editor's step on the shim's `set` message stores the string in the named scope |
| PreviewStorage.StepRemove | src/App.tsx:461-464 | the editor's step on the shim's `remove` message deletes the key from the named scope |
| PreviewStorage.StepClear | src/App.tsx:465-467 | the editor's step on the shim's `clear` message empties the named scope |
| PreviewStorage.StepKeepsOtherScope | src/App.tsx:452-467 | a storage message for one scope leaves the other scope as it was |
| PreviewStorage.ReplaySnoc | src/App.tsx:89-116 | messages are handled one after another: one more message is one more step |
| Storage.TabOf | src/utils/storage.ts:12 | only `html`, `css` and `js` are tabs |
| Storage.DecodeStored | src/utils/storage.ts:10-23 | accepted exactly for a truthy object with string html, css and js and a known tab. The runtime is React iff stored exactly as `'react'`. The import map defaults to `''`. autoRun is coerced by truthiness. The Tailwind flag always comes back off |
| Storage.LoadProject | src/utils/storage.ts:5-27 | as written: null when nothing or empty text is stored or the text does not parse, and otherwise the validated record |
| Storage.SaveProject | src/utils/storage.ts:29-35 | the whole project is written as JSON under the project key, a refused write leaves the storage as it was, and no other key changes |
| Storage.DecodeProjectRecord | src/utils/storage.ts:10-23 | the record saveProject writes passes validation and reads back with the Tailwind flag off |
| Storage.LoadSavedRecord | src/utils/storage.ts:7-9 | what saveProject writes, loadProject parses back to the saved record |
| Storage.SaveLoadLosesTailwind | src/utils/storage.ts:15-31 | saving then loading keeps every field but the Tailwind flag, which comes back off |
| Storage.TailwindLostOnReload | src/utils/storage.ts:15-31 | as written, a project with Tailwind on does not survive a save and reload |
| Storage.LoadProjectKeepingTailwind | src/utils/storage.ts:15-23 | corrected loadProject: it accepts and refuses exactly what loadProject does, and differs from it only in the Tailwind flag |
| Storage.SaveLoadRoundTrip | src/utils/storage.ts:5-35 | corrected, saving then loading gives back the project exactly |
| Host.SnapshotOf | src/App.tsx:68-76 | a run's snapshot holds the project's six run fields and the given storage seed |
| Host.IsDirty | src/App.tsx:55-64 | dirty iff any of the six run fields differs from the last run's snapshot |
| Host.PersistPreviewStorage | src/App.tsx:434-440 | only the preview-storage key changes, and a refused write changes nothing |
| Host.PersistThenLoad | src/App.tsx:418-440 | the mirror persisted on one visit is the one the next visit starts from |
| Host.SharedLinkOpens | src/App.tsx:20-24 | a share link opens on the project it was made from, whatever is saved locally |
| Host.InitialProjectAsWrittenAgrees | src/App.tsx:20-24 | the editor's initializer as written, which reads the saved project with loadProject, and the corrected one differ in the Tailwind flag only, and they differ iff the saved project is opened and the corrected one reads the flag on |
| Host.SavedProjectReopensAsWritten | src/App.tsx:20-24 | as written, without a share link the editor reopens on the project it last saved with the Tailwind flag off |
| Host.SavedProjectReopens | src/App.tsx:20-24 | corrected: without a share link the editor reopens on the project it last saved, Tailwind flag included |
| Host.SetCodeForActiveTab | src/App.tsx:144-150 | the new text becomes the active tab's code, and no other field changes |
| Host.SetCodeLaws | src/App.tsx:136-150 | writing back the text the editor shows changes nothing, and of two writes the last wins |
| Host.ToggleRuntime | src/App.tsx:282-287 | the checkbox sets the runtime and opens the JS tab. Switching to React with a blank import map puts in the template's import map. Nothing else changes |
| Host.ToggleRuntimeIdempotent | src/App.tsx:282-287 | setting the checkbox twice to the same state is setting it once, and the code is never touched |
| Host.ApplyDeps | src/App.tsx:230-246 | a draft is rejected iff it is non-blank and does not parse. An accepted draft changes only the import map and the Tailwind flag, which is taken from the dialog. A blank draft clears the import map |
| Host.ApplyDepsKeepsMeaning | src/App.tsx:237-240 | the stored import map is already trimmed and parses to the same value as the draft |
| Host.ApplyDepsIdempotent | src/App.tsx:230-246 | applying the stored import map again changes nothing |
| Host.SameParseSameTag | src/preview/buildSrcDoc.ts:147-153 | two non-blank import maps whose trimmed texts parse to the same value give the same tag, so normalising in applyDeps does not change the document |
| Host.LoadedMirrorIsJson | src/App.tsx:418-432 | whatever is stored, the loaded mirror holds JSON values only |
| Host.App.constructor | src/App.tsx:20-40 | corrected: the editor opens on the share link's project, else the saved one, else the default. The mirror is read back from localStorage, the first snapshot matches the project (so nothing is dirty), and the console is empty |
| Host.App.Run | src/App.tsx:66-79 | run empties the console and takes a snapshot of the project and the mirror as JSON, so nothing is dirty. Project, mirror and localStorage are unchanged |
| Host.App.OnMessage | src/App.tsx:89-116 | the mirror moves exactly as the router and the update say. A console or error message appends one entry. A storage update that is applied writes the mirror back. Nothing else changes |
| Host.App.ApplyPreviewStorageUpdate | src/App.tsx:442-471 | a dropped message changes nothing. Otherwise the mirror becomes the update's result and is persisted |
| Host.App.PutEntry | src/App.tsx:460 | `store[key] = value` changes that entry of one scope only |
| Host.App.DeleteEntry | src/App.tsx:464 | `delete store[key]` removes that entry of one scope only |
| Host.App.ClearScope | src/App.tsx:466 | the delete loop over the scope's keys leaves that scope empty and the other untouched |

## Left out

- User interface and timers are not modelled: rendering, CodeMirror, the dependency dialog's open/close and error text, the divider drag, the keyboard shortcut, the 500 ms auto-run timer, the autoRun checkbox effect, the share button's clipboard and prompt, and `history.replaceState`.
- `reset` and `loadReactTemplate` (src/App.tsx:170-222) are not modelled. They set the project, snapshot and document together, as `run` does.
- The effect that calls saveProject on every project change (src/App.tsx:51-53) is modelled only as the function `Storage.SaveProject` and the reopening lemma. The editing operations are functions on the project and are not methods of `App`.
- JSON, `String()` and LZString are parameters (`Values.Lib`), constrained only by `Values.Lawful`.
- `crypto.randomUUID` and `Date.now` are parameters of `OnMessage`.
- Whether the page's localStorage accepts a write is the parameter `accepted`.
- `postMessage` is a `Channel` of posted values. Delivery is the sequence of messages that `Replay` folds, in order and one at a time.
- Messages that a discarded run posts after a new run has started are not distinguished, since the source has no generation id.
- The value cloning of `postMessage` is approximated by `Values.Value`: functions, dates and cyclic values do not exist in the model.
- The telemetry script's internals (`safe`, the error listeners), `formatArgs`, the Babel transform, dynamic `import()`, Blob URLs, React mounting and `defineGlobal`'s fallbacks are left out. These are fixed text inside the document, carried in `SrcDoc.Templates`.
- `SrcDoc.Document` takes its fixed text as a `Templates` value, and the program's own is `SrcDoc.Standard`. The document lemmas hold for every template satisfying `Shaped`, and `SrcDoc.StandardShaped` shows the program's does. For the same reason `Host.App` takes its templates as a constructor argument.
- The editor's `srcDoc` state is not a field. `Host.App.SrcDoc` derives it from the snapshot, because the source only ever sets the two together, and always to `buildSrcDoc` of the snapshot (src/App.tsx:40, 77-78).
- Numbers are unbounded integers, which is all the core compares them with or indexes by. `key(1.5)` and other non-integer indices are not modelled.
- JavaScript orders integer-like object keys before the others. The model keeps insertion order, and `Shim.Frame.constructor` takes each seed scope's key order as a parameter.
- The key `__proto__`, which JavaScript objects treat specially, is an ordinary key here.
- SrcDoc.EscapeRoundTrip: unescaping restores only text that does not already hold the escaped form. The escape is not injective: `</script` and `<\/script` both escape to `<\/script`. `SrcDoc.EscapePieces` states for every input what the escape changes.
- Shim.StoreOf: a seed scope that is an array becomes a storage over its index keys only. In the source, the array's own `length` property is also visible to getItem. The editor's own seed never holds an array scope.
- The escapes are case-sensitive, as the source's `replaceAll` is. `</STYLE` and `</SCRIPT` pass through them, and HTML ends an element on its closing tag in any case. So the containment lemmas speak only of the exact lower-case prefixes, and they do not promise that the user's text cannot end its element.
- Reading a property of null or undefined throws inside the message handler, for example a storage message without a payload. This leaves the state unchanged, just as the model's dropped message does.
- The source's `ref.current ?? …` and `state.localStorage ?? …` fallbacks never fire, because the loaded mirror always has both scopes. The model's mirror always has both.
- The React toggle uses the React template's import map, which the template in src/reactTemplate.ts does not define. It is the parameter `templateImportMap` of `Host.ToggleRuntime`.
- Host.IsDirty: a project loaded from localStorage has no tailwindCdn property. The model reads the flag back with the corrected loader, so the source's `undefined !== false` dirtiness after applying dependencies with Tailwind off to such a project is not reproduced.
- `SrcDoc.Document`, `SrcDoc.BuildSrcDoc`, `Host.InitialProject`, `Host.App.constructor` and `Host.App.SrcDoc` are the corrected program: the document escapes the React code's and the seed's JSON literals, and the initializer reads the saved Tailwind flag back. The program as written is `SrcDoc.DocumentAsWritten`, `SrcDoc.BuildSrcDocAsWritten` and `Host.InitialProjectAsWritten`. `SrcDocFacts.DocumentAsWrittenAgreesIff` and `Host.InitialProjectAsWrittenAgrees` state exactly where each pair differs.
- Host.SameParseSameTag: it and `Host.ApplyDepsKeepsMeaning` together relate the document's import-map tag after applyDeps to the draft's. No single lemma states the tag of the applied project directly.

## Findings

| source | as written | input that shows it | evidently intended | confidence | as-written member | corrected member |
|---|---|---|---|---|---|---|
| src/preview/buildSrcDoc.ts:107-114 | reactRuntime embeds `JSON.stringify(js)` in an inline script without escaping `</script` | React code containing `</script>` | the code literal escaped like the vanilla code, so no lower-case `</script` inside it ends its script | high; not executed | SrcDocFacts.ReactSourceBreaksOut | SrcDocFacts.ReactCodeContained |
| src/preview/buildSrcDoc.ts:50 | the seed is embedded as `JSON.stringify(storageSeed)` in an inline script without escaping `</script` | the seed text `</script>`. The editor's seed is its mirror as JSON, so it holds that text whenever the preview stored a string containing `</script>` | the seed literal escaped, so no lower-case `</script` inside it ends the storage script | high; not executed | SrcDocFacts.SeedBreaksOut | SrcDocFacts.SeedContained |
| src/preview/buildSrcDoc.ts:67 | `ks[i] \|\| null` turns the empty-string key into null | a storage holding only the key `""`: length is 1, key(0) is null | key(i) returns the i-th key for every index below length | medium; not executed | Shim.EmptyKeyHidden | Shim.IntendedKeysEnumerate |
| src/utils/storage.ts:15-23 | loadProject builds its record without tailwindCdn, though saveProject writes the whole project | save a project with Tailwind on, then reopen the editor without a share link | the flag read back like the other fields | high; not executed | Storage.TailwindLostOnReload | Storage.SaveLoadRoundTrip |
