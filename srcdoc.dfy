/** The preview document synthesizer: one self-contained HTML document built from a
    project's run fields and the storage seed, with the user's CSS and vanilla script
    escaped so that no lower-case `</style` or `</script` starts inside them (the escapes
    are case-sensitive: an upper- or mixed-case closing tag passes through). */
module SrcDoc {
  import opened Values
  import opened Text
  import opened Projects

  // ---- replaceAll and the two closing-tag escapes ----

  /** `s.replaceAll(from, to)`: left to right, non-overlapping. */
  function ReplaceAll(s: string, from: string, to: string): string
    requires from != []
    decreases |s|
  {
    if s == [] then []
    else if StartsWith(s, from) then to + ReplaceAll(s[|from|..], from, to)
    else [s[0]] + ReplaceAll(s[1..], from, to)
  }

  /** A closing-tag prefix such as `</style`: '<', then '/', and no other '<'. */
  predicate ClosingTag(pat: string) {
    |pat| >= 2 && pat[0] == '<' && pat[1] == '/' && forall i :: 1 <= i < |pat| ==> pat[i] != '<'
  }

  /** The same prefix with a backslash after its '<': `</style` becomes `<\/style`. */
  function Neutralised(pat: string): (n: string)
    requires ClosingTag(pat)
    ensures |n| == |pat| + 1 && n[0] == '<' && n[1] == '\\'
    ensures forall i :: 1 <= i < |n| ==> n[i] != '<'
  {
    [pat[0], '\\'] + pat[1..]
  }

  const StyleClose: string := "</style"
  const ScriptClose: string := "</script"

  /** escapeStyle */
  function EscapeStyle(css: string): string {
    ReplaceAll(css, "</style", "<\\/style")
  }

  /** escapeScript */
  function EscapeScript(js: string): string {
    ReplaceAll(js, "</script", "<\\/script")
  }

  lemma EscapesAreNeutralising()
    ensures ClosingTag(StyleClose) && Neutralised(StyleClose) == "<\\/style"
    ensures ClosingTag(ScriptClose) && Neutralised(ScriptClose) == "<\\/script"
  {
  }

  lemma StartsWithCons(s: string, w: string)
    requires s != [] && w != []
    ensures StartsWith(s, w) <==> s[0] == w[0] && StartsWith(s[1..], w[1..])
  {
    if s[0] == w[0] && StartsWith(s[1..], w[1..]) {
      assert s[..|w|] == [s[0]] + s[1..][..|w| - 1];
    }
  }

  /** One mismatching character rules an occurrence out. */
  lemma Mismatch(t: string, p: string, i: int, k: int)
    requires 0 <= k < |p| && 0 <= i + k < |t| && t[i + k] != p[k]
    ensures !OccursAt(t, p, i)
  {
  }

  /** Within `a`, occurrences in `a + b` are occurrences in `a`. */
  lemma OccursAtTruncate(a: string, b: string, p: string, i: int)
    requires 0 <= i && i + |p| <= |a|
    ensures OccursAt(a + b, p, i) <==> OccursAt(a, p, i)
  {
    assert (a + b)[i..i + |p|] == a[i..i + |p|];
  }

  /** If the escaped text starts with a piece free of '<', the original starts with it too. */
  lemma {:induction false} EscapeKeepsPrefix(t: string, pat: string, w: string)
    requires ClosingTag(pat)
    requires forall j :: 0 <= j < |w| ==> w[j] != '<'
    ensures StartsWith(ReplaceAll(t, pat, Neutralised(pat)), w) ==> StartsWith(t, w)
    decreases |t|
  {
    var n := Neutralised(pat);
    var e := ReplaceAll(t, pat, n);
    if w != [] && t != [] {
      if StartsWith(t, pat) {
        assert e == n + ReplaceAll(t[|pat|..], pat, n);
        Mismatch(e, w, 0, 0);
      } else {
        var rest := ReplaceAll(t[1..], pat, n);
        assert e == [t[0]] + rest;
        assert e[1..] == rest;
        EscapeKeepsPrefix(t[1..], pat, w[1..]);
        StartsWithCons(e, w);
        StartsWithCons(t, w);
      }
    }
  }

  /** Escaping removes every occurrence of the closing-tag prefix. */
  lemma {:induction false} EscapeRemovesTag(s: string, pat: string)
    requires ClosingTag(pat)
    ensures !Contains(ReplaceAll(s, pat, Neutralised(pat)), pat)
    decreases |s|
  {
    var n := Neutralised(pat);
    var e := ReplaceAll(s, pat, n);
    if s == [] {
      assert e == [];
    } else if StartsWith(s, pat) {
      var rest := ReplaceAll(s[|pat|..], pat, n);
      EscapeRemovesTag(s[|pat|..], pat);
      assert e == n + rest;
      forall i | 0 <= i < |e| ensures !OccursAt(e, pat, i) {
        if i == 0 {
          Mismatch(e, pat, 0, 1);
        } else if i < |n| {
          Mismatch(e, pat, i, 0);
        } else {
          OccursAtShift(n, rest, pat, i - |n|);
        }
      }
    } else {
      var rest := ReplaceAll(s[1..], pat, n);
      EscapeRemovesTag(s[1..], pat);
      assert e == [s[0]] + rest;
      assert e[1..] == rest;
      StartsWithCons(e, pat);
      EscapeKeepsPrefix(s[1..], pat, pat[1..]);
      StartsWithCons(s, pat);
      forall i | 1 <= i < |e| ensures !OccursAt(e, pat, i) {
        OccursAtShift([s[0]], rest, pat, i - 1);
      }
    }
  }

  /** Escaping changes nothing exactly when there is nothing to escape. */
  lemma {:induction false} EscapeIdentityIff(s: string, pat: string)
    requires ClosingTag(pat)
    ensures ReplaceAll(s, pat, Neutralised(pat)) == s <==> !Contains(s, pat)
    decreases |s|
  {
    EscapeRemovesTag(s, pat);
    if !Contains(s, pat) && s != [] {
      assert s == [s[0]] + s[1..];
      forall i | 0 <= i ensures !OccursAt(s[1..], pat, i) {
        OccursAtShift([s[0]], s[1..], pat, i);
      }
      EscapeIdentityIff(s[1..], pat);
    }
  }

  /** Escaping never shortens the text, and leaves it as it was when it keeps its length. */
  lemma {:induction false} EscapeLength(s: string, pat: string)
    requires ClosingTag(pat)
    ensures |ReplaceAll(s, pat, Neutralised(pat))| >= |s|
    ensures |ReplaceAll(s, pat, Neutralised(pat))| == |s| ==> ReplaceAll(s, pat, Neutralised(pat)) == s
    decreases |s|
  {
    var n := Neutralised(pat);
    if s != [] {
      if StartsWith(s, pat) {
        EscapeLength(s[|pat|..], pat);
      } else {
        EscapeLength(s[1..], pat);
        assert s == [s[0]] + s[1..];
      }
    }
  }

  /** `ps[0] + sep + ps[1] + sep + … + ps[|ps| - 1]` */
  function JoinWith(ps: seq<string>, sep: string): string
    requires ps != []
    decreases |ps|
  {
    if |ps| == 1 then ps[0] else ps[0] + sep + JoinWith(ps[1..], sep)
  }

  /** The text cut at each occurrence of `pat` that replaceAll replaces (left to right,
      non-overlapping). The first piece is a prefix of the text. */
  function Pieces(s: string, pat: string): (r: seq<string>)
    requires pat != []
    ensures r != [] && |r[0]| <= |s| && r[0] == s[..|r[0]|]
    decreases |s|
  {
    if s == [] then [[]]
    else if StartsWith(s, pat) then [[]] + Pieces(s[|pat|..], pat)
    else
      var r := Pieces(s[1..], pat);
      [[s[0]] + r[0]] + r[1..]
  }

  lemma JoinWithCons(c: char, ps: seq<string>, sep: string)
    requires ps != []
    ensures JoinWith([[c] + ps[0]] + ps[1..], sep) == [c] + JoinWith(ps, sep)
  {
    var qs := [[c] + ps[0]] + ps[1..];
    if |ps| > 1 {
      assert qs[1..] == ps[1..];
      assert JoinWith(qs, sep) == ([c] + ps[0]) + sep + JoinWith(ps[1..], sep);
    }
  }

  /** Joining the pieces with the prefix gives the text back. */
  lemma {:induction false} PiecesJoin(s: string, pat: string)
    requires pat != []
    ensures JoinWith(Pieces(s, pat), pat) == s
    decreases |s|
  {
    if s != [] {
      if StartsWith(s, pat) {
        var rest := s[|pat|..];
        PiecesJoin(rest, pat);
        assert Pieces(s, pat)[1..] == Pieces(rest, pat);
        assert s == pat + rest;
      } else {
        PiecesJoin(s[1..], pat);
        JoinWithCons(s[0], Pieces(s[1..], pat), pat);
        assert s == [s[0]] + s[1..];
      }
    }
  }

  /** replaceAll joins the same pieces with the replacement. */
  lemma {:induction false} ReplaceAllJoinsPieces(s: string, pat: string, to: string)
    requires pat != []
    ensures ReplaceAll(s, pat, to) == JoinWith(Pieces(s, pat), to)
    decreases |s|
  {
    if s != [] {
      if StartsWith(s, pat) {
        var rest := s[|pat|..];
        ReplaceAllJoinsPieces(rest, pat, to);
        assert Pieces(s, pat)[1..] == Pieces(rest, pat);
      } else {
        ReplaceAllJoinsPieces(s[1..], pat, to);
        JoinWithCons(s[0], Pieces(s[1..], pat), to);
      }
    }
  }

  /** No piece holds the prefix. */
  lemma {:induction false} PiecesFree(s: string, pat: string)
    requires pat != []
    ensures forall i :: 0 <= i < |Pieces(s, pat)| ==> !Contains(Pieces(s, pat)[i], pat)
    decreases |s|
  {
    var ps := Pieces(s, pat);
    if s == [] {
      assert ps == [[]];
    } else if StartsWith(s, pat) {
      var r := Pieces(s[|pat|..], pat);
      PiecesFree(s[|pat|..], pat);
      assert ps == [[]] + r;
      forall i | 0 <= i < |ps| ensures !Contains(ps[i], pat) {
        if i > 0 {
          assert ps[i] == r[i - 1];
        }
      }
    } else {
      var r := Pieces(s[1..], pat);
      PiecesFree(s[1..], pat);
      assert ps == [[s[0]] + r[0]] + r[1..];
      forall i | 0 <= i < |ps| ensures !Contains(ps[i], pat) {
        if i > 0 {
          assert ps[i] == r[i];
        } else {
          FirstPieceFree(s, pat);
        }
      }
    }
  }

  /** A prefix of `u` that starts with `p` makes `u` start with `p`. */
  lemma PrefixStartsWith(t: string, u: string, p: string)
    requires |t| <= |u| && t == u[..|t|]
    ensures StartsWith(t, p) ==> StartsWith(u, p)
  {
    if StartsWith(t, p) {
      assert u[..|p|] == t[..|p|];
    }
  }

  /** The first piece of a text that does not start with the prefix holds no prefix either,
      given that the first piece of its tail holds none. */
  lemma FirstPieceFree(s: string, pat: string)
    requires pat != [] && s != [] && !StartsWith(s, pat)
    requires !Contains(Pieces(s[1..], pat)[0], pat)
    ensures !Contains(Pieces(s, pat)[0], pat)
  {
    var r0 := Pieces(s[1..], pat)[0];
    var p0 := Pieces(s, pat)[0];
    assert p0 == [s[0]] + r0;
    forall k | 0 <= k ensures !OccursAt(p0, pat, k) {
      if k == 0 {
        PrefixStartsWith(p0, s, pat);
      } else {
        OccursAtShift([s[0]], r0, pat, k - 1);
      }
    }
  }

  /** For every input the escape differs from it only at the occurrences of the prefix: the
      same pieces, none holding the prefix, are joined by the prefix in the input and by its
      neutralised form in the escaped text. */
  lemma EscapePieces(s: string, pat: string)
    requires ClosingTag(pat)
    ensures JoinWith(Pieces(s, pat), pat) == s
    ensures ReplaceAll(s, pat, Neutralised(pat)) == JoinWith(Pieces(s, pat), Neutralised(pat))
    ensures forall i :: 0 <= i < |Pieces(s, pat)| ==> !Contains(Pieces(s, pat)[i], pat)
  {
    PiecesJoin(s, pat);
    ReplaceAllJoinsPieces(s, pat, Neutralised(pat));
    PiecesFree(s, pat);
  }

  /** Removing the inserted backslashes recovers the input, for any input that did not
      already hold the escaped form (for such input the escape is not injective). */
  lemma {:induction false} EscapeRoundTrip(s: string, pat: string)
    requires ClosingTag(pat)
    requires !Contains(s, Neutralised(pat))
    ensures ReplaceAll(ReplaceAll(s, pat, Neutralised(pat)), Neutralised(pat), pat) == s
    decreases |s|
  {
    var n := Neutralised(pat);
    var e := ReplaceAll(s, pat, n);
    if s == [] {
    } else if StartsWith(s, pat) {
      var s' := s[|pat|..];
      assert s == s[..|pat|] + s';
      forall i | 0 <= i ensures !OccursAt(s', n, i) {
        OccursAtShift(s[..|pat|], s', n, i);
      }
      EscapeRoundTrip(s', pat);
      var rest := ReplaceAll(s', pat, n);
      assert e == n + rest;
      assert StartsWith(e, n);
      assert e[|n|..] == rest;
      assert s == pat + s';
    } else {
      var rest := ReplaceAll(s[1..], pat, n);
      assert e == [s[0]] + rest;
      assert s == [s[0]] + s[1..];
      forall i | 0 <= i ensures !OccursAt(s[1..], n, i) {
        OccursAtShift([s[0]], s[1..], n, i);
      }
      EscapeRoundTrip(s[1..], pat);
      assert e[1..] == rest;
      StartsWithCons(e, n);
      EscapeKeepsPrefix(s[1..], pat, n[1..]);
      StartsWithCons(s, n);
    }
  }

  /** No occurrence of `p` can begin inside `a` when `a` has none and the character
      right after `a` does not occur in `p` after its first position. */
  lemma NoOccurrenceStartsIn(a: string, b: string, p: string)
    requires !Contains(a, p) && b != []
    requires forall j :: 1 <= j < |p| ==> p[j] != b[0]
    ensures forall i :: 0 <= i < |a| ==> !OccursAt(a + b, p, i)
  {
    forall i | 0 <= i < |a| ensures !OccursAt(a + b, p, i) {
      if i + |p| <= |a| {
        OccursAtTruncate(a, b, p, i);
      } else {
        Mismatch(a + b, p, i, |a| - i);
      }
    }
  }

  // ---- indent ----

  function Spaces(n: nat): (r: string)
    ensures |r| == n && forall i :: 0 <= i < n ==> r[i] == ' '
  {
    seq(n, _ => ' ')
  }

  /** A non-empty line gets `n` leading spaces; an empty line stays empty. */
  function PadLine(line: string, n: nat): string {
    if |line| > 0 then Spaces(n) + line else line
  }

  function PadLines(ls: seq<string>, n: nat): seq<string> {
    seq(|ls|, i requires 0 <= i < |ls| => PadLine(ls[i], n))
  }

  /** indent(code, n) */
  function Indent(code: string, n: nat): string {
    Join(PadLines(Split(code, '\n'), n), '\n')
  }

  /** The inverse of PadLine: drop `n` leading spaces from a line that has them. */
  function StripLine(line: string, n: nat): string {
    if |line| > 0 && n <= |line| && line[..n] == Spaces(n) then line[n..] else line
  }

  function Unindent(text: string, n: nat): string {
    var ls := Split(text, '\n');
    Join(seq(|ls|, i requires 0 <= i < |ls| => StripLine(ls[i], n)), '\n')
  }

  /** Indenting keeps the lines: as many as before, each non-empty one behind `n` spaces,
      each empty one untouched. */
  lemma IndentLines(code: string, n: nat)
    ensures Split(Indent(code, n), '\n') == PadLines(Split(code, '\n'), n)
  {
    var pl := PadLines(Split(code, '\n'), n);
    forall i | 0 <= i < |pl| ensures '\n' !in pl[i] {
      assert '\n' !in Spaces(n);
    }
    SplitJoin(pl, '\n');
  }

  lemma IndentRoundTrip(code: string, n: nat)
    ensures Unindent(Indent(code, n), n) == code
  {
    IndentLines(code, n);
    var ls := Split(code, '\n');
    var pl := PadLines(ls, n);
    forall i | 0 <= i < |ls| ensures StripLine(pl[i], n) == ls[i] {
      if |ls[i]| > 0 {
        assert (Spaces(n) + ls[i])[..n] == Spaces(n);
        assert (Spaces(n) + ls[i])[n..] == ls[i];
      }
    }
    assert seq(|pl|, i requires 0 <= i < |pl| => StripLine(pl[i], n)) == ls;
    JoinSplit(code, '\n');
  }

  /** Indenting cannot create a pattern that holds no space and no line break. */
  lemma IndentKeepsAbsence(code: string, n: nat, p: string)
    requires p != [] && ' ' !in p && '\n' !in p
    requires !Contains(code, p)
    ensures !Contains(Indent(code, n), p)
  {
    var ls := Split(code, '\n');
    var pl := PadLines(ls, n);
    JoinContains(pl, '\n', p);
    JoinContains(ls, '\n', p);
    JoinSplit(code, '\n');
    forall j | 0 <= j < |pl| ensures !Contains(pl[j], p) {
      if |ls[j]| > 0 && Contains(pl[j], p) {
        ContainsAfterSpaces(Spaces(n), ls[j], p);
      }
    }
  }

  // ---- the tags and scripts of the document ----

  const DocOpen: string :=
    "<!doctype html>\n<html lang=\"zh-CN\">\n  <head>\n    <meta charset=\"utf-8\" />\n    <meta name=\"viewport\" content=\"width=device-width, initial-scale=1\" />\n    "

  const TelemetryShim: string := @"<script>
      (function () {
        function safe(v) {
          if (typeof v === 'string') return v;
          try { return JSON.parse(JSON.stringify(v)); } catch (_) { return String(v); }
        }
        function post(type, payload) {
          try { parent.postMessage({ __playcode: true, type: type, payload: payload }, '*'); } catch (_) {}
        }
        ['log','info','warn','error','debug'].forEach(function (level) {
          var orig = console[level];
          console[level] = function () {
            var args = Array.prototype.slice.call(arguments).map(safe);
            post('console', { level: level, args: args });
            try { orig && orig.apply(console, arguments); } catch (_) {}
          };
        });
        window.addEventListener('error', function (e) {
          post('error', { message: e && e.message, stack: e && e.error && e.error.stack });
        });
        window.addEventListener('unhandledrejection', function (e) {
          post('unhandledrejection', { reason: safe(e && e.reason) });
        });
      })();
    </script>"

  const StorageShimHead: string := "<script>\n      (function () {\n        var seedText = "

  const StorageShimTail: string := ";" + @"
        var seed = {};
        try { seed = seedText ? JSON.parse(seedText) : {}; } catch (_) { seed = {}; }
        if (!seed || typeof seed !== 'object') seed = {};

        function post(type, payload) {
          try { parent.postMessage({ __playcode: true, type: type, payload: payload }, '*'); } catch (_) {}
        }

        function createStorage(store, kind) {
          function keys() { return Object.keys(store); }
          function persist(action, payload) { post('storage', { kind: kind, action: action, payload: payload }); }
          return {
            getItem: function (k) { k = String(k); return Object.prototype.hasOwnProperty.call(store, k) ? String(store[k]) : null; },
            setItem: function (k, v) { k = String(k); store[k] = String(v); persist('set', { key: k, value: String(v) }); },
            removeItem: function (k) { k = String(k); delete store[k]; persist('remove', { key: k }); },
            clear: function () { Object.keys(store).forEach(function (k) { delete store[k]; }); persist('clear', {}); },
            key: function (i) { var ks = keys(); return typeof i === 'number' ? (ks[i] || null) : null; },
            get length() { return keys().length; },
          };
        }

        function defineGlobal(name, value) {
          try {
            Object.defineProperty(window, name, { value: value, configurable: true });
            return;
          } catch (_) {}
          try { window[name] = value; } catch (_) {}
          try {
            if (typeof Window !== 'undefined' && Window.prototype) {
              Object.defineProperty(Window.prototype, name, { get: function () { return value; }, configurable: true });
            }
          } catch (_) {}
        }

        // about:srcdoc + sandbox(无 allow-same-origin) 会导致原生 localStorage/sessionStorage 访问抛 SecurityError。
        defineGlobal('localStorage', createStorage(seed.localStorage && typeof seed.localStorage === 'object' ? seed.localStorage : {}, 'localStorage'));
        defineGlobal('sessionStorage', createStorage(seed.sessionStorage && typeof seed.sessionStorage === 'object' ? seed.sessionStorage : {}, 'sessionStorage'));
      })();
    </script>"

  const ReactRuntimeHead: string := @"<script src=""https://unpkg.com/@babel/standalone/babel.min.js"" crossorigin></script>
    <script type=""module"">
      try {
        var root = document.getElementById('root');
        if (!root) { root = document.createElement('div'); root.id = 'root'; document.body.appendChild(root); }
        if (!window.Babel) throw new Error('Babel 加载失败（需要联网）');
        var code = "

  const ReactRuntimeTail: string := ";" + @"
        var out = window.Babel.transform(code, { presets: [['react', { runtime: 'classic' }]] }).code;
        var blob = new Blob([out], { type: 'text/javascript' });
        var url = URL.createObjectURL(blob);
        try {
          var mod = await import(url);
          if (root && !root.hasChildNodes()) {
            var ReactMod = await import('react');
            var React = ReactMod && (ReactMod.default || ReactMod);
            var Dom = await import('react-dom/client');
            var Comp = (mod && (mod.default || mod.App)) || null;
            if (Comp) {
              var el = typeof Comp === 'function' ? React.createElement(Comp) : Comp;
              Dom.createRoot(root).render(el);
            }
          }
        } finally {
          URL.revokeObjectURL(url);
        }
      } catch (e) {
        console.error(e);
      }
    </script>"

  const ImportMapWarning: string := "<script>" + @"
      console.warn('importmap 不是合法 JSON，已忽略');
    </script>"

  const ImportMapOpen: string := "<script type=\"importmap\">"
  const ScriptEnd: string := "</script>"
  const TailwindScript: string := "<script src=\"https://cdn.tailwindcss.com\"></script>"
  const VanillaOpen: string := "<script type=\"module\">\n      try {\n"
  const VanillaClose: string := "\n" + "      } catch (e) {\n        console.error(e);\n      }\n    </script>"
  const Gap: string := "\n    "
  const StyleOpen: string := "\n    <style>"
  const HeadEnd: string := "</style>\n  </head>\n  <body>\n    "
  const DocClose: string := "\n  </body>\n</html>"

  /** importMapTag: nothing for a blank import map, the pretty-printed JSON inside an
      importmap script when it parses, a console warning script when it does not. */
  function ImportMapTag(importMap: string, lib: Lib): string {
    var trimmed := Trim(importMap);
    if trimmed == [] then []
    else
      match lib.parse(trimmed)
      case Some(parsed) => ImportMapOpen + EscapeScript(lib.prettify(parsed)) + ScriptEnd
      case None => ImportMapWarning
  }

  /** tailwindTag */
  function TailwindTag(enabled: bool): (r: string)
    ensures r != [] <==> enabled
  {
    if !enabled then [] else TailwindScript
  }

  /** vanillaRuntime: the escaped code, indented by eight, inside try/catch in a module script. */
  function VanillaRuntime(js: string): string {
    VanillaOpen + Indent(EscapeScript(js), 8) + VanillaClose
  }

  /** The long fixed scripts of the document, gathered in one record: the proofs below
      treat them as text with a known first character and nothing more. */
  datatype Templates = Templates(
    docOpen: string,
    telemetry: string,
    shimHead: string,
    shimTail: string,
    reactHead: string,
    reactTail: string)

  /** The texts the program writes. */
  const Standard: Templates :=
    Templates(DocOpen, TelemetryShim, StorageShimHead, StorageShimTail, ReactRuntimeHead, ReactRuntimeTail)

  /** What the proofs need of the fixed texts: the text after an embedded JSON literal
      starts with ';'. */
  predicate Shaped(t: Templates) {
    t.shimTail != [] && t.shimTail[0] == ';' && t.reactTail != [] && t.reactTail[0] == ';'
  }

  lemma StandardShaped()
    ensures Shaped(Standard)
  {
  }

  /** reactRuntime as written: Babel, then the code as a JSON string literal, transformed
      and imported. The literal goes in unescaped (see ReactSourceBreaksOut). */
  function ReactRuntime(js: string, lib: Lib, t: Templates): string {
    t.reactHead + lib.stringify(Str(js)) + t.reactTail
  }

  /** reactRuntime with its code literal escaped like the vanilla code: the document below
      uses this one. */
  function ReactRuntimeEscaped(js: string, lib: Lib, t: Templates): string {
    t.reactHead + EscapeScript(lib.stringify(Str(js))) + t.reactTail
  }

  /** The storage shim script as written (its behaviour is modelled in the Shim module). The
      seed's JSON string literal goes in unescaped (see SeedBreaksOut). */
  function StorageShim(storageSeed: string, lib: Lib, t: Templates): string {
    t.shimHead + lib.stringify(Str(storageSeed)) + t.shimTail
  }

  /** The storage shim script with its seed literal escaped: the document below uses this one. */
  function StorageShimEscaped(storageSeed: string, lib: Lib, t: Templates): string {
    t.shimHead + EscapeScript(lib.stringify(Str(storageSeed))) + t.shimTail
  }

  function RuntimeScript(runtime: Runtime, js: string, lib: Lib, t: Templates): string {
    if runtime == React then ReactRuntimeEscaped(js, lib, t) else VanillaRuntime(js)
  }

  datatype DocInput = DocInput(
    html: string,
    css: string,
    js: string,
    runtime: Runtime,
    importMap: string,
    tailwindCdn: bool,
    storageSeed: string)

  /** Everything before the user's CSS. */
  function DocHead(importMap: string, tailwindCdn: bool, lib: Lib, t: Templates): string {
    t.docOpen + ImportMapTag(importMap, lib) + Gap + TailwindTag(tailwindCdn) + StyleOpen
  }

  /** Everything between the user's CSS and the runtime script. */
  function DocMiddle(html: string, storageSeed: string, lib: Lib, t: Templates): string {
    HeadEnd + html + Gap + t.telemetry + Gap + StorageShimEscaped(storageSeed, lib, t) + Gap
  }

  /** The document in section order: head with import map and Tailwind tags, escaped
      stylesheet, the user's HTML, the telemetry and storage scripts, the runtime script.
      Both embedded JSON literals are escaped here (see the findings on them). */
  function Document(input: DocInput, lib: Lib, t: Templates): string {
    DocHead(input.importMap, input.tailwindCdn, lib, t)
    + EscapeStyle(input.css)
    + DocMiddle(input.html, input.storageSeed, lib, t)
    + RuntimeScript(input.runtime, input.js, lib, t)
    + DocClose
  }

  /** buildSrcDoc, corrected: both JSON literals escaped. */
  function BuildSrcDoc(input: DocInput, lib: Lib): string {
    Document(input, lib, Standard)
  }

  // ---- the document as written ----

  /** The runtime script as written: the React code's literal goes in unescaped. */
  function RuntimeScriptAsWritten(runtime: Runtime, js: string, lib: Lib, t: Templates): string {
    if runtime == React then ReactRuntime(js, lib, t) else VanillaRuntime(js)
  }

  /** The part between the user's CSS and the runtime script as written: the seed's literal
      goes in unescaped. */
  function DocMiddleAsWritten(html: string, storageSeed: string, lib: Lib, t: Templates): string {
    HeadEnd + html + Gap + t.telemetry + Gap + StorageShim(storageSeed, lib, t) + Gap
  }

  /** The document exactly as buildSrcDoc writes it (see DocumentAsWrittenAgreesIff). */
  function DocumentAsWritten(input: DocInput, lib: Lib, t: Templates): string {
    DocHead(input.importMap, input.tailwindCdn, lib, t)
    + EscapeStyle(input.css)
    + DocMiddleAsWritten(input.html, input.storageSeed, lib, t)
    + RuntimeScriptAsWritten(input.runtime, input.js, lib, t)
    + DocClose
  }

  /** buildSrcDoc as written. */
  function BuildSrcDocAsWritten(input: DocInput, lib: Lib): string {
    DocumentAsWritten(input, lib, Standard)
  }
}
