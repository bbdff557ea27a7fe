/** What the preview document guarantees: no lower-case `</style` starts inside the user's
    stylesheet and no lower-case `</script` inside the code or the storage seed (the escapes
    are case-sensitive, so an upper- or mixed-case closing tag such as `</STYLE>` still ends
    the element), each can be read back from the document, and the stylesheet affects
    nothing outside its style element. */
module SrcDocFacts {
  import opened Values
  import opened Text
  import opened Projects
  import opened SrcDoc

  /** JSON text never holds the escaped closing tag, so unescaping it is exact. */
  lemma NoEscapedScriptClose(s: string)
    requires NoEscapedSlash(s)
    ensures !Contains(s, Neutralised(ScriptClose))
  {
    EscapesAreNeutralising();
    var n := Neutralised(ScriptClose);
    forall i | 0 <= i && i + |n| <= |s| ensures !OccursAt(s, n, i) {
      if s[i] != '<' {
        Mismatch(s, n, i, 0);
      } else if s[i + 1] != '\\' {
        Mismatch(s, n, i, 1);
      } else {
        Mismatch(s, n, i, 2);
      }
    }
  }

  /** No occurrence of `pat` starts in doc[lo..hi]. */
  predicate Confined(doc: string, lo: int, hi: int, pat: string) {
    forall i :: lo <= i < hi ==> !OccursAt(doc, pat, i)
  }

  /** A segment free of a closing-tag prefix, followed by a character that cannot continue
      one, contains the start of no occurrence wherever it is embedded. */
  lemma SegmentFacts(pre: string, seg: string, post: string, pat: string)
    requires !Contains(seg, pat) && post != []
    requires forall j :: 1 <= j < |pat| ==> pat[j] != post[0]
    ensures |pre| + |seg| <= |pre + seg + post|
    ensures (pre + seg + post)[|pre|..|pre| + |seg|] == seg
    ensures Confined(pre + seg + post, |pre|, |pre| + |seg|, pat)
  {
    NoOccurrenceStartsIn(seg, post, pat);
    assert pre + seg + post == pre + (seg + post);
    forall i | |pre| <= i < |pre| + |seg| ensures !OccursAt(pre + seg + post, pat, i) {
      OccursAtShift(pre, seg + post, pat, i - |pre|);
    }
  }

  // ---- the import map tag ----

  lemma ImportMapTagBlank(importMap: string, lib: Lib)
    ensures ImportMapTag(importMap, lib) == [] <==> forall i :: 0 <= i < |importMap| ==> IsSpace(importMap[i])
  {
    TrimEmptyIff(importMap);
  }

  /** A valid import map becomes an importmap script whose content holds no closing tag
      before its own, and whose content, unescaped, parses to the user's import map. */
  lemma ImportMapTagValid(importMap: string, lib: Lib)
    requires Lawful(lib)
    requires Trim(importMap) != [] && lib.parse(Trim(importMap)).Some?
    ensures var tag := ImportMapTag(importMap, lib);
            && |ImportMapOpen| + |ScriptEnd| <= |tag|
            && StartsWith(tag, ImportMapOpen)
            && tag[|tag| - |ScriptEnd|..] == ScriptEnd
            && Confined(tag, |ImportMapOpen|, |tag| - |ScriptEnd|, ScriptClose)
            && lib.parse(ReplaceAll(tag[|ImportMapOpen|..|tag| - |ScriptEnd|], "<\\/script", "</script"))
               == lib.parse(Trim(importMap))
  {
    EscapesAreNeutralising();
    var v := lib.parse(Trim(importMap)).value;
    var pretty := lib.prettify(v);
    var body := EscapeScript(pretty);
    var tag := ImportMapTag(importMap, lib);
    assert tag == ImportMapOpen + body + ScriptEnd;
    assert StartsWith(tag, ImportMapOpen) by {
      assert tag[..|ImportMapOpen|] == ImportMapOpen;
    }
    EscapeRemovesTag(pretty, ScriptClose);
    SegmentFacts(ImportMapOpen, body, ScriptEnd, ScriptClose);
    NoEscapedScriptClose(pretty);
    EscapeRoundTrip(pretty, ScriptClose);
  }

  /** An import map that does not parse yields the warning script and no import map. */
  lemma ImportMapTagInvalid(importMap: string, lib: Lib)
    requires Trim(importMap) != [] && lib.parse(Trim(importMap)).None?
    ensures ImportMapTag(importMap, lib) == ImportMapWarning
    ensures !StartsWith(ImportMapTag(importMap, lib), ImportMapOpen)
  {
    Mismatch(ImportMapWarning, ImportMapOpen, 0, 7);
  }

  // ---- the stylesheet ----

  /** Escaping the stylesheet changes it only where it held `</style`, and is undone by
      removing the backslashes when it did not already hold `<\/style`. */
  lemma EscapeStyleFacts(css: string)
    ensures EscapeStyle(css) == css <==> !Contains(css, StyleClose)
    ensures !Contains(css, "<\\/style") ==> ReplaceAll(EscapeStyle(css), "<\\/style", "</style") == css
  {
    EscapesAreNeutralising();
    EscapeIdentityIff(css, StyleClose);
    if !Contains(css, "<\\/style") {
      EscapeRoundTrip(css, StyleClose);
    }
  }

  // The document is one long concatenation; these regroup it on opaque parts.

  lemma Regroup3(a: string, b: string, c: string)
    ensures (a + b) + c == a + (b + c)
  {
  }

  lemma Regroup5(a: string, o: string, c: string, cl: string, d: string)
    ensures (a + (o + c + cl)) + d == (a + o) + c + (cl + d)
  {
  }

  lemma Regroup8(a: string, m0: string, sh: string, lit: string, st: string, g: string, r: string, d: string)
    ensures (a + ((m0 + (sh + lit + st)) + g) + r) + d == (a + (m0 + sh)) + lit + (st + g + r + d)
  {
  }

  lemma PrefixAndRest(h: string, e: string, r: string)
    ensures |h| + |e| <= |h + e + r|
    ensures (h + e + r)[..|h|] == h && (h + e + r)[|h| + |e|..] == r
  {
  }

  /** The document as head, escaped stylesheet and the rest. */
  lemma SplitAtStyle(input: DocInput, lib: Lib, t: Templates)
    ensures Document(input, lib, t)
         == DocHead(input.importMap, input.tailwindCdn, lib, t) + EscapeStyle(input.css)
            + (DocMiddle(input.html, input.storageSeed, lib, t) + RuntimeScript(input.runtime, input.js, lib, t) + DocClose)
  {
    var h := DocHead(input.importMap, input.tailwindCdn, lib, t);
    var e := EscapeStyle(input.css);
    var m := DocMiddle(input.html, input.storageSeed, lib, t);
    var r := RuntimeScript(input.runtime, input.js, lib, t);
    Regroup3(h + e + m, r, DocClose);
    Regroup3(h + e, m, r + DocClose);
    Regroup3(m, r, DocClose);
  }

  lemma MiddleStartsWithStyleEnd(html: string, storageSeed: string, lib: Lib, t: Templates)
    ensures StartsWith(DocMiddle(html, storageSeed, lib, t), "</style>")
  {
    var p := "</style>";
    var shim := StorageShimEscaped(storageSeed, lib, t);
    assert StartsWith(HeadEnd, p);
    OccursAtExtend(HeadEnd, html, p, 0);
    OccursAtExtend(HeadEnd + html, Gap, p, 0);
    OccursAtExtend(HeadEnd + html + Gap, t.telemetry, p, 0);
    OccursAtExtend(HeadEnd + html + Gap + t.telemetry, Gap, p, 0);
    OccursAtExtend(HeadEnd + html + Gap + t.telemetry + Gap, shim, p, 0);
    OccursAtExtend(HeadEnd + html + Gap + t.telemetry + Gap + shim, Gap, p, 0);
  }

  /** The stylesheet stays inside its style element: no `</style` starts within it, and the
      element's own closing tag follows it directly. */
  lemma StyleContained(input: DocInput, lib: Lib, t: Templates)
    ensures var doc := Document(input, lib, t);
            var o := |DocHead(input.importMap, input.tailwindCdn, lib, t)|;
            var e := EscapeStyle(input.css);
            && o + |e| <= |doc|
            && doc[o..o + |e|] == e
            && Confined(doc, o, o + |e|, StyleClose)
            && OccursAt(doc, "</style>", o + |e|)
  {
    EscapesAreNeutralising();
    var head := DocHead(input.importMap, input.tailwindCdn, lib, t);
    var e := EscapeStyle(input.css);
    var m := DocMiddle(input.html, input.storageSeed, lib, t);
    var r := RuntimeScript(input.runtime, input.js, lib, t);
    var rest := m + r + DocClose;
    SplitAtStyle(input, lib, t);
    EscapeRemovesTag(input.css, StyleClose);
    MiddleStartsWithStyleEnd(input.html, input.storageSeed, lib, t);
    Regroup3(m, r, DocClose);
    OccursAtExtend(m, r + DocClose, "</style>", 0);
    SegmentFacts(head, e, rest, StyleClose);
    OccursAtShift(head + e, rest, "</style>", 0);
  }

  /** The stylesheet affects the document only inside the style element. */
  lemma CssOnlyInStyle(a: DocInput, b: DocInput, lib: Lib, t: Templates)
    requires a.(css := b.css) == b
    ensures var o := |DocHead(a.importMap, a.tailwindCdn, lib, t)|;
            var da := Document(a, lib, t);
            var db := Document(b, lib, t);
            var ea := |EscapeStyle(a.css)|;
            var eb := |EscapeStyle(b.css)|;
            && o + ea <= |da| && o + eb <= |db|
            && da[..o] == db[..o]
            && da[o + ea..] == db[o + eb..]
  {
    var head := DocHead(a.importMap, a.tailwindCdn, lib, t);
    var rest := DocMiddle(a.html, a.storageSeed, lib, t) + RuntimeScript(a.runtime, a.js, lib, t) + DocClose;
    SplitAtStyle(a, lib, t);
    SplitAtStyle(b, lib, t);
    PrefixAndRest(head, EscapeStyle(a.css), rest);
    PrefixAndRest(head, EscapeStyle(b.css), rest);
  }

  // ---- the vanilla code ----

  /** Where the user's code begins in the document of a vanilla run. */
  function CodeStart(input: DocInput, lib: Lib, t: Templates): nat {
    |DocHead(input.importMap, input.tailwindCdn, lib, t)| + |EscapeStyle(input.css)|
    + |DocMiddle(input.html, input.storageSeed, lib, t)| + |VanillaOpen|
  }

  /** The vanilla code stays inside its module script: it sits escaped and indented right
      after the script's opening, and no `</script` starts within it. */
  lemma CodeContained(input: DocInput, lib: Lib, t: Templates)
    requires input.runtime == Vanilla
    ensures var doc := Document(input, lib, t);
            var s := CodeStart(input, lib, t);
            var code := Indent(EscapeScript(input.js), 8);
            && s + |code| <= |doc|
            && doc[s..s + |code|] == code
            && Confined(doc, s, s + |code|, ScriptClose)
  {
    EscapesAreNeutralising();
    var a := DocHead(input.importMap, input.tailwindCdn, lib, t) + EscapeStyle(input.css)
             + DocMiddle(input.html, input.storageSeed, lib, t);
    var code := Indent(EscapeScript(input.js), 8);
    Regroup5(a, VanillaOpen, code, VanillaClose, DocClose);
    EscapeRemovesTag(input.js, ScriptClose);
    IndentKeepsAbsence(EscapeScript(input.js), 8, ScriptClose);
    assert (VanillaClose + DocClose)[0] == '\n';
    SegmentFacts(a + VanillaOpen, code, VanillaClose + DocClose, ScriptClose);
  }

  /** Removing the indent and the backslashes from the embedded vanilla code gives the
      user's code back, when it did not already hold `<\/script`. */
  lemma CodeRecovered(js: string)
    requires !Contains(js, "<\\/script")
    ensures ReplaceAll(Unindent(Indent(EscapeScript(js), 8), 8), "<\\/script", "</script") == js
  {
    EscapesAreNeutralising();
    IndentRoundTrip(EscapeScript(js), 8);
    EscapeRoundTrip(js, ScriptClose);
  }

  // ---- the two JSON string literals: as written, and escaped ----

  /** An escaped JSON literal between a head and a tail that starts with ';' holds the start
      of no `</script`, and with the backslashes removed it denotes exactly the string. */
  lemma EscapedLiteralContained(head: string, text: string, tail: string, lib: Lib)
    requires Lawful(lib) && tail != [] && tail[0] == ';'
    ensures var lit := EscapeScript(lib.stringify(Str(text)));
            && Confined(head + lit + tail, |head|, |head| + |lit|, ScriptClose)
            && lib.parse(ReplaceAll(lit, "<\\/script", "</script")) == Some(Str(text))
  {
    EscapesAreNeutralising();
    var raw := lib.stringify(Str(text));
    EscapeRemovesTag(raw, ScriptClose);
    SegmentFacts(head, EscapeScript(raw), tail, ScriptClose);
    NoEscapedScriptClose(raw);
    EscapeRoundTrip(raw, ScriptClose);
  }

  /** With the literal escaped, React code stays inside its script and is read back intact. */
  lemma ReactRuntimeEscapedContained(js: string, lib: Lib, t: Templates)
    requires Lawful(lib) && Shaped(t)
    ensures var lit := EscapeScript(lib.stringify(Str(js)));
            && ReactRuntimeEscaped(js, lib, t) == t.reactHead + lit + t.reactTail
            && Confined(ReactRuntimeEscaped(js, lib, t), |t.reactHead|, |t.reactHead| + |lit|, ScriptClose)
            && lib.parse(ReplaceAll(lit, "<\\/script", "</script")) == Some(Str(js))
  {
    EscapedLiteralContained(t.reactHead, js, t.reactTail, lib);
  }

  /** With the literal escaped, the seed stays inside the storage shim and is read back intact. */
  lemma StorageShimEscapedContained(storageSeed: string, lib: Lib, t: Templates)
    requires Lawful(lib) && Shaped(t)
    ensures var lit := EscapeScript(lib.stringify(Str(storageSeed)));
            && StorageShimEscaped(storageSeed, lib, t) == t.shimHead + lit + t.shimTail
            && Confined(StorageShimEscaped(storageSeed, lib, t), |t.shimHead|, |t.shimHead| + |lit|, ScriptClose)
            && lib.parse(ReplaceAll(lit, "<\\/script", "</script")) == Some(Str(storageSeed))
  {
    EscapedLiteralContained(t.shimHead, storageSeed, t.shimTail, lib);
  }

  /** As written, a JSON literal holding `</script>` puts a closing tag inside the literal. */
  lemma RawLiteralBreaksOut(head: string, tail: string, lib: Lib)
    requires Lawful(lib)
    ensures var lit := lib.stringify(Str("</script>"));
            && OccursAt(head + lit + tail, ScriptClose, |head| + 1)
            && |head| + 1 + |ScriptClose| <= |head| + |lit|
  {
    var lit := lib.stringify(Str("</script>"));
    assert PlainText("</script>");
    assert OccursAt(lit, ScriptClose, 1);
    OccursAtExtend(lit, tail, ScriptClose, 1);
    Regroup3(head, lit, tail);
    OccursAtShift(head, lit + tail, ScriptClose, 1);
  }

  /** As written, React code holding `</script>` closes its script element early. */
  lemma ReactSourceBreaksOut(lib: Lib, t: Templates)
    requires Lawful(lib)
    ensures var lit := lib.stringify(Str("</script>"));
            && OccursAt(ReactRuntime("</script>", lib, t), ScriptClose, |t.reactHead| + 1)
            && |t.reactHead| + 1 + |ScriptClose| <= |t.reactHead| + |lit|
  {
    RawLiteralBreaksOut(t.reactHead, t.reactTail, lib);
  }

  /** As written, a storage seed holding `</script>` closes the storage shim early. */
  lemma SeedBreaksOut(lib: Lib, t: Templates)
    requires Lawful(lib)
    ensures var lit := lib.stringify(Str("</script>"));
            && OccursAt(StorageShim("</script>", lib, t), ScriptClose, |t.shimHead| + 1)
            && |t.shimHead| + 1 + |ScriptClose| <= |t.shimHead| + |lit|
  {
    RawLiteralBreaksOut(t.shimHead, t.shimTail, lib);
  }

  // ---- the two literals in the document ----

  /** Where the React code's literal begins in the document of a React run. */
  function ReactCodeStart(input: DocInput, lib: Lib, t: Templates): nat {
    |DocHead(input.importMap, input.tailwindCdn, lib, t)| + |EscapeStyle(input.css)|
    + |DocMiddle(input.html, input.storageSeed, lib, t)| + |t.reactHead|
  }

  /** In the document of a React run the code's literal sits right after the runtime's
      head, no `</script` starts within it, and unescaped it parses to the user's code. */
  lemma ReactCodeContained(input: DocInput, lib: Lib, t: Templates)
    requires Lawful(lib) && Shaped(t) && input.runtime == React
    ensures var doc := Document(input, lib, t);
            var s := ReactCodeStart(input, lib, t);
            var lit := EscapeScript(lib.stringify(Str(input.js)));
            && s + |lit| <= |doc|
            && doc[s..s + |lit|] == lit
            && Confined(doc, s, s + |lit|, ScriptClose)
            && lib.parse(ReplaceAll(lit, "<\\/script", "</script")) == Some(Str(input.js))
  {
    EscapesAreNeutralising();
    var a := DocHead(input.importMap, input.tailwindCdn, lib, t) + EscapeStyle(input.css)
             + DocMiddle(input.html, input.storageSeed, lib, t);
    var lit := EscapeScript(lib.stringify(Str(input.js)));
    Regroup5(a, t.reactHead, lit, t.reactTail, DocClose);
    EscapeRemovesTag(lib.stringify(Str(input.js)), ScriptClose);
    assert (t.reactTail + DocClose)[0] == ';';
    SegmentFacts(a + t.reactHead, lit, t.reactTail + DocClose, ScriptClose);
    EscapedLiteralContained(t.reactHead, input.js, t.reactTail, lib);
  }

  /** The part of the document between the stylesheet and the storage script. */
  function BeforeShim(html: string, t: Templates): string {
    HeadEnd + html + Gap + t.telemetry + Gap
  }

  /** Where the seed's literal begins in the document. */
  function SeedStart(input: DocInput, lib: Lib, t: Templates): nat {
    |DocHead(input.importMap, input.tailwindCdn, lib, t)| + |EscapeStyle(input.css)|
    + |BeforeShim(input.html, t)| + |t.shimHead|
  }

  /** In every document the seed's literal sits right after the storage script's head, no
      `</script` starts within it, and unescaped it parses to the seed text. */
  lemma SeedContained(input: DocInput, lib: Lib, t: Templates)
    requires Lawful(lib) && Shaped(t)
    ensures var doc := Document(input, lib, t);
            var s := SeedStart(input, lib, t);
            var lit := EscapeScript(lib.stringify(Str(input.storageSeed)));
            && s + |lit| <= |doc|
            && doc[s..s + |lit|] == lit
            && Confined(doc, s, s + |lit|, ScriptClose)
            && lib.parse(ReplaceAll(lit, "<\\/script", "</script")) == Some(Str(input.storageSeed))
  {
    EscapesAreNeutralising();
    var a := DocHead(input.importMap, input.tailwindCdn, lib, t) + EscapeStyle(input.css);
    var m0 := BeforeShim(input.html, t);
    var lit := EscapeScript(lib.stringify(Str(input.storageSeed)));
    var r := RuntimeScript(input.runtime, input.js, lib, t);
    Regroup8(a, m0, t.shimHead, lit, t.shimTail, Gap, r, DocClose);
    EscapeRemovesTag(lib.stringify(Str(input.storageSeed)), ScriptClose);
    assert (t.shimTail + Gap + r + DocClose)[0] == ';';
    SegmentFacts(a + (m0 + t.shimHead), lit, t.shimTail + Gap + r + DocClose, ScriptClose);
    EscapedLiteralContained(t.shimHead, input.storageSeed, t.shimTail, lib);
  }

  // ---- the document as written against the corrected one ----

  /** The document as written is the corrected one exactly when there is nothing to escape:
      the seed's literal holds no `</script`, and in a React run neither does the code's. */
  lemma DocumentAsWrittenAgreesIff(input: DocInput, lib: Lib, t: Templates)
    ensures DocumentAsWritten(input, lib, t) == Document(input, lib, t)
        <==> && !Contains(lib.stringify(Str(input.storageSeed)), ScriptClose)
             && (input.runtime == React ==> !Contains(lib.stringify(Str(input.js)), ScriptClose))
  {
    EscapesAreNeutralising();
    var seedLit := lib.stringify(Str(input.storageSeed));
    var jsLit := lib.stringify(Str(input.js));
    EscapeIdentityIff(seedLit, ScriptClose);
    EscapeIdentityIff(jsLit, ScriptClose);
    EscapeLength(seedLit, ScriptClose);
    EscapeLength(jsLit, ScriptClose);
  }
}
