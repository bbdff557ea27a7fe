/** String helpers the core uses: occurrence of a pattern, String.prototype.trim,
    and split/join on one separator character. */
module Text {
  import opened Values

  /** `p` occurs in `t` starting at index `i`. */
  predicate OccursAt(t: string, p: string, i: int) {
    0 <= i && i + |p| <= |t| && t[i..i + |p|] == p
  }

  ghost predicate Contains(t: string, p: string) {
    exists i :: OccursAt(t, p, i)
  }

  predicate StartsWith(t: string, p: string) {
    OccursAt(t, p, 0)
  }

  /** Occurrences inside `b` are occurrences inside `a + b`, shifted by |a|. */
  lemma OccursAtShift(a: string, b: string, p: string, i: int)
    requires 0 <= i
    ensures OccursAt(a + b, p, |a| + i) <==> OccursAt(b, p, i)
  {
    if i + |p| <= |b| {
      assert (a + b)[|a| + i..|a| + i + |p|] == b[i..i + |p|];
    }
  }

  lemma OccursAtExtend(a: string, b: string, p: string, i: int)
    requires OccursAt(a, p, i)
    ensures OccursAt(a + b, p, i)
  {
    assert (a + b)[i..i + |p|] == a[i..i + |p|];
  }

  /** An occurrence in either part is an occurrence in the concatenation. */
  lemma ContainsConcat(a: string, b: string, p: string)
    requires Contains(a, p) || Contains(b, p)
    ensures Contains(a + b, p)
  {
    if Contains(a, p) {
      var i :| OccursAt(a, p, i);
      OccursAtExtend(a, b, p, i);
    } else {
      var i :| OccursAt(b, p, i);
      OccursAtShift(a, b, p, i);
    }
  }

  /** A pattern without the character `c` cannot straddle a `c` placed between two parts. */
  lemma ContainsAcross(a: string, c: char, b: string, p: string)
    requires c !in p
    requires Contains(a + [c] + b, p)
    ensures Contains(a, p) || Contains(b, p)
  {
    var t := a + [c] + b;
    var i :| OccursAt(t, p, i);
    if i + |p| <= |a| {
      assert a[i..i + |p|] == t[i..i + |p|];
      assert OccursAt(a, p, i);
    } else if i > |a| {
      assert t == (a + [c]) + b;
      OccursAtShift(a + [c], b, p, i - |a| - 1);
      assert OccursAt(b, p, i - |a| - 1);
    } else {
      OccurrenceCovers(t, p, i, |a| - i);
      assert false;
    }
  }

  lemma OccurrenceCovers(t: string, p: string, i: int, k: int)
    requires OccursAt(t, p, i) && 0 <= k < |p|
    ensures t[i + k] == p[k]
  {
    assert t[i..i + |p|][k] == t[i + k];
  }

  /** A pattern without the character ' ' cannot overlap leading spaces. */
  lemma ContainsAfterSpaces(pad: string, b: string, p: string)
    requires forall j :: 0 <= j < |pad| ==> pad[j] == ' '
    requires ' ' !in p && p != []
    requires Contains(pad + b, p)
    ensures Contains(b, p)
  {
    var i :| OccursAt(pad + b, p, i);
    assert (pad + b)[i] == p[0];
    assert i >= |pad|;
    OccursAtShift(pad, b, p, i - |pad|);
  }

  // ---- String.prototype.trim ----

  function TrimStart(s: string): (r: string)
    ensures |r| <= |s| && r == s[|s| - |r|..]
    ensures forall i :: 0 <= i < |s| - |r| ==> IsSpace(s[i])
    ensures r != [] ==> !IsSpace(r[0])
  {
    if s != [] && IsSpace(s[0]) then TrimStart(s[1..]) else s
  }

  function TrimEnd(s: string): (r: string)
    ensures |r| <= |s| && r == s[..|r|]
    ensures forall i :: |r| <= i < |s| ==> IsSpace(s[i])
    ensures r != [] ==> !IsSpace(r[|r| - 1])
  {
    if s != [] && IsSpace(s[|s| - 1]) then TrimEnd(s[..|s| - 1]) else s
  }

  /** `s.trim()`: the longest infix of `s` with no white space at either end. */
  function Trim(s: string): (r: string)
    ensures var a := |s| - |TrimStart(s)|;
            && a + |r| <= |s| && r == s[a..a + |r|]
            && (forall i :: 0 <= i < a ==> IsSpace(s[i]))
            && (forall i :: a + |r| <= i < |s| ==> IsSpace(s[i]))
    ensures r == [] || Tidy(r)
  {
    var t := TrimStart(s);
    var r := TrimEnd(t);
    assert r == s[|s| - |t|..|s| - |t| + |r|];
    r
  }

  /** The trimmed text is empty exactly when every character is white space. */
  lemma TrimEmptyIff(s: string)
    ensures Trim(s) == [] <==> forall i :: 0 <= i < |s| ==> IsSpace(s[i])
  {
  }

  /** Trimming leaves tidy text alone. */
  lemma TrimTidy(s: string)
    requires Tidy(s)
    ensures Trim(s) == s
  {
  }

  // ---- split / join on one separator ----

  /** `ls.join(sep)` */
  function Join(ls: seq<string>, sep: char): string {
    if |ls| == 0 then []
    else if |ls| == 1 then ls[0]
    else ls[0] + [sep] + Join(ls[1..], sep)
  }

  /** `s.split(sep)`: never empty, no piece holds the separator. */
  function Split(s: string, sep: char): (r: seq<string>)
    ensures |r| >= 1
    ensures forall i :: 0 <= i < |r| ==> sep !in r[i]
  {
    if s == [] then [[]]
    else if s[0] == sep then [[]] + Split(s[1..], sep)
    else
      var rest := Split(s[1..], sep);
      [[s[0]] + rest[0]] + rest[1..]
  }

  /** Joining the pieces of a split gives back the text. */
  lemma {:induction false} JoinSplit(s: string, sep: char)
    ensures Join(Split(s, sep), sep) == s
  {
    if s == [] {
    } else if s[0] == sep {
      JoinSplit(s[1..], sep);
      var rest := Split(s[1..], sep);
      assert Split(s, sep)[1..] == rest;
    } else {
      JoinSplit(s[1..], sep);
      var rest := Split(s[1..], sep);
      var r := Split(s, sep);
      if |rest| == 1 {
        assert r == [[s[0]] + rest[0]];
      } else {
        assert r[1..] == rest[1..];
        assert Join(rest, sep) == rest[0] + [sep] + Join(rest[1..], sep);
        assert [s[0]] + Join(rest, sep) == s;
      }
    }
  }

  lemma {:induction false} SplitSingle(a: string, sep: char)
    requires sep !in a
    ensures Split(a, sep) == [a]
  {
    if a != [] {
      SplitSingle(a[1..], sep);
      assert [a[0]] + a[1..] == a;
    }
  }

  lemma {:induction false} SplitPrefix(a: string, t: string, sep: char)
    requires sep !in a
    ensures Split(a + [sep] + t, sep) == [a] + Split(t, sep)
  {
    var s := a + [sep] + t;
    if a == [] {
      assert s[1..] == t;
    } else {
      SplitPrefix(a[1..], t, sep);
      assert s[1..] == a[1..] + [sep] + t;
      assert [a[0]] + a[1..] == a;
    }
  }

  /** Splitting a join of separator-free pieces gives back the pieces. */
  lemma {:induction false} SplitJoin(ls: seq<string>, sep: char)
    requires |ls| >= 1
    requires forall i :: 0 <= i < |ls| ==> sep !in ls[i]
    ensures Split(Join(ls, sep), sep) == ls
  {
    if |ls| == 1 {
      SplitSingle(ls[0], sep);
    } else {
      SplitJoin(ls[1..], sep);
      SplitPrefix(ls[0], Join(ls[1..], sep), sep);
      assert [ls[0]] + ls[1..] == ls;
    }
  }

  /** With a separator the pattern lacks, the join contains the pattern exactly when some piece does. */
  lemma {:induction false} JoinContains(ls: seq<string>, sep: char, p: string)
    requires sep !in p && p != []
    ensures Contains(Join(ls, sep), p) <==> exists j :: 0 <= j < |ls| && Contains(ls[j], p)
  {
    if |ls| == 0 {
      assert !Contains([], p);
    } else if |ls| == 1 {
      assert Contains(Join(ls, sep), p) ==> Contains(ls[0], p);
    } else {
      JoinContains(ls[1..], sep, p);
      var rest := Join(ls[1..], sep);
      if Contains(Join(ls, sep), p) {
        ContainsAcross(ls[0], sep, rest, p);
        if !Contains(ls[0], p) {
          var j :| 0 <= j < |ls[1..]| && Contains(ls[1..][j], p);
          assert Contains(ls[j + 1], p);
        }
      }
      if exists j :: 0 <= j < |ls| && Contains(ls[j], p) {
        var j :| 0 <= j < |ls| && Contains(ls[j], p);
        if j == 0 {
          ContainsConcat(ls[0], [sep], p);
          ContainsConcat(ls[0] + [sep], rest, p);
        } else {
          assert Contains(ls[1..][j - 1], p);
          ContainsConcat(ls[0] + [sep], rest, p);
        }
      }
    }
  }
}
