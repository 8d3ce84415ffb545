/** Identifier conversion of the Elm generator (tools/json-to-elm.js):
    behaviour ids become Elm module names and behaviour names become Elm
    constructor names. */
module ElmNames {
  import opened Text

  /** `w.charAt(0).toUpperCase() + w.slice(1)`. */
  function UpperFirst(w: string): (r: string)
    ensures |r| == |w|
    ensures w != [] ==> r[0] == Upper(w[0]) && r[1..] == w[1..]
  {
    if w == [] then [] else [Upper(w[0])] + w[1..]
  }

  /** `w.charAt(0).toUpperCase() + w.slice(1).toLowerCase()`. */
  function Capitalize(w: string): (r: string)
    ensures |r| == |w|
    ensures w != [] ==> r[0] == Upper(w[0]) && r[1..] == LowerAll(w[1..])
  {
    if w == [] then [] else [Upper(w[0])] + LowerAll(w[1..])
  }

  /** Upper-casing a character that is not a given non-letter keeps it
      distinct from that character. */
  lemma {:induction false} CaseKeepsNonLetter(w: string, c: char)
    requires !('a' <= c <= 'z') && !('A' <= c <= 'Z') && c !in w
    ensures c !in UpperFirst(w) && c !in Capitalize(w)
  {
    if w != [] {
      assert UpperFirst(w) == [Upper(w[0])] + w[1..];
      forall i | 0 <= i < |w| - 1 ensures LowerAll(w[1..])[i] != c {
        assert w[1..][i] == w[i + 1];
      }
    }
  }

  /** toElmModuleName: the `_`-separated pieces of a snake_case id, each with
      its first character upper-cased, joined with nothing between them. */
  function ModuleName(id: string): (r: string)
    ensures '_' !in r
    ensures |r| == |id| - Count(id, '_')
  {
    var pieces := Split(id, '_');
    forall i | 0 <= i < |pieces| ensures '_' !in UpperFirst(pieces[i]) {
      CaseKeepsNonLetter(pieces[i], '_');
    }
    ConcatMissing(Map(pieces, UpperFirst), '_');
    ConcatMapLength(pieces, UpperFirst);
    ConcatSplit(id, '_');
    DeleteLength(id, '_');
    Join(Map(pieces, UpperFirst), "")
  }

  /** A concatenation of pieces that each start with a character upper-casing
      leaves alone starts with such a character too. */
  lemma {:induction false} ConcatStartsUpper(ps: seq<string>)
    requires forall i :: 0 <= i < |ps| ==> ps[i] == [] || Upper(ps[i][0]) == ps[i][0]
    ensures var s := Join(ps, ""); s == [] || Upper(s[0]) == s[0]
    decreases |ps|
  {
    if |ps| > 1 {
      ConcatStartsUpper(ps[1..]);
      assert Join(ps, "") == ps[0] + Join(ps[1..], "") by {
        assert Join(ps, "") == ps[0] + "" + Join(ps[1..], "");
      }
    }
  }

  /** Converting a module name again changes nothing. */
  lemma {:induction false} ModuleNameIdempotent(id: string)
    ensures ModuleName(ModuleName(id)) == ModuleName(id)
  {
    var r := ModuleName(id);
    var pieces := Split(id, '_');
    var up := Map(pieces, UpperFirst);
    assert r == Join(up, "");
    forall i | 0 <= i < |up| ensures up[i] == [] || Upper(up[i][0]) == up[i][0] {
      if pieces[i] != [] {
        assert up[i][0] == Upper(pieces[i][0]);
      }
    }
    ConcatStartsUpper(up);
    SplitNoSeparator(r, '_');
    assert Map([r], UpperFirst) == [UpperFirst(r)];
    assert UpperFirst(r) == r by {
      if r != [] {
        assert r == [r[0]] + r[1..];
      }
    }
  }

  /** The module name holds no non-letter that the id does not hold. */
  lemma {:induction false} ModuleNameKeepsChar(id: string, x: char)
    requires !('a' <= x <= 'z') && !('A' <= x <= 'Z')
    requires x !in id
    ensures x !in ModuleName(id)
  {
    var pieces := Split(id, '_');
    forall i | 0 <= i < |pieces| ensures LowerAll(UpperFirst(pieces[i])) == LowerAll(pieces[i]) {
      UpperFirstKeepsLetters(pieces[i]);
    }
    ConcatMapLower(pieces, UpperFirst);
    ConcatSplit(id, '_');
    DeleteKeeps(id, '_', x);
    SameLettersKeepChar(ModuleName(id), Delete(id, '_'), x);
  }

  // ---------------------------------------------------------------------------
  // toElmTypeName

  /** The pattern `\s*\(.*?\)\s*` matched at the start of `s`: its length. The group
      closes at the first `)` on the same line. */
  function GroupAt(s: string): (r: Option<nat>)
    ensures r.Some? ==> 2 <= r.value <= |s|
    ensures r.Some? ==> '(' in s[..r.value] && ')' in s[..r.value]
  {
    var w := SpaceRun(s);
    if w < |s| && s[w] == '(' then
      match IndexOf(LineRest(s[w + 1..]), ')')
      case None => None
      case Some(k) =>
        var close := w + 1 + k;
        assert s[close] == ')';
        var n := close + 1 + SpaceRun(s[close + 1..]);
        assert s[..n][w] == '(' && s[..n][close] == ')';
        Some(n)
    else None
  }

  /** `s.replace` of the global pattern `\s*\(.*?\)\s*` by nothing: every parenthesised group is cut
      together with the whitespace around it, scanning left to right. */
  function StripGroups(s: string): (r: string)
    ensures forall c :: c !in s ==> c !in r
    ensures '(' !in s ==> r == s
    decreases |s|
  {
    if s == [] then []
    else match GroupAt(s)
      case Some(n) =>
        assert forall c :: c in s[n..] ==> c in s;
        StripGroups(s[n..])
      case None =>
        assert forall c :: c in s[1..] ==> c in s;
        assert s == [s[0]] + s[1..];
        [s[0]] + StripGroups(s[1..])
  }

  /** An opening `(` that starts no group has no `)` after it on its line. */
  lemma {:induction false} UnclosedGroup(s: string)
    requires forall i :: 0 <= i < |s| ==> !IsLineTerm(s[i])
    requires s != [] && s[0] == '(' && GroupAt(s).None?
    ensures ')' !in s
  {
    assert SpaceRun(s) == 0;
    assert LineRest(s[1..]) == s[1..];
    assert s == [s[0]] + s[1..];
  }

  /** On a name without line breaks, no `(` is left with a `)` after it. */
  lemma {:induction false} StripGroupsLeavesNoGroup(s: string)
    requires forall i :: 0 <= i < |s| ==> !IsLineTerm(s[i])
    ensures NoGroupLeft(StripGroups(s))
    decreases |s|
  {
    if s != [] {
      match GroupAt(s)
      case Some(n) =>
        StripGroupsLeavesNoGroup(s[n..]);
      case None =>
        StripGroupsLeavesNoGroup(s[1..]);
        var tail := StripGroups(s[1..]);
        var r := [s[0]] + tail;
        assert StripGroups(s) == r;
        if s[0] == '(' {
          UnclosedGroup(s);
          assert ')' !in s[1..];
        }
        forall i, j | 0 <= i < j < |r| && r[i] == '(' ensures r[j] != ')' {
          assert r[j] == tail[j - 1];
          if i > 0 {
            assert r[i] == tail[i - 1];
          }
        }
    }
  }

  /** No `(` in `r` has a `)` after it. */
  predicate NoGroupLeft(r: string) {
    forall i, j :: 0 <= i < j < |r| && r[i] == '(' ==> r[j] != ')'
  }

  /** The case-insensitive pattern `\s+from\s+CORE` matched at the start of `s`: its length. */
  function FromCoreAt(s: string): (r: Option<nat>)
    ensures r.Some? ==> 10 <= r.value <= |s| && IsSpace(s[0])
  {
    var w1 := SpaceRun(s);
    if w1 == 0 || !StartsWithIgnoringCase(s[w1..], "from") then None
    else
      var w2 := SpaceRun(s[w1 + 4..]);
      if w2 == 0 || !StartsWithIgnoringCase(s[w1 + 4 + w2..], "core") then None
      else Some(w1 + 4 + w2 + 4)
  }

  /** `s.replace` of the case-insensitive pattern `\s+from\s+CORE` by
      nothing: the leftmost match is cut, the rest of `s` is kept. */
  function RemoveFromCore(s: string): (r: string)
    ensures Leftmost(s, FromCoreAt).None? ==> r == s
    ensures Leftmost(s, FromCoreAt).Some? ==>
      10 <= Leftmost(s, FromCoreAt).value.1 && CutAt(s, r, Leftmost(s, FromCoreAt).value.0, Leftmost(s, FromCoreAt).value.1)
  {
    CutLeftmost(s, FromCoreAt)
  }

  /** The name after the two clean-up replacements, each followed by `trim`. */
  function Clean(s: string): string {
    Trim(RemoveFromCore(Trim(StripGroups(s))))
  }

  /** toElmTypeName. Snake case wins over spaces; a name with neither keeps
      all but its first character. */
  function TypeName(name: string): (r: string)
    ensures var c := Clean(name);
      '_' in c ==> '_' !in r && |r| == |c| - Count(c, '_')
    ensures var c := Clean(name);
      '_' !in c && ' ' in c ==> '_' !in r && ' ' !in r && |r| == |c| - Count(c, ' ')
    ensures var c := Clean(name);
      '_' !in c && ' ' !in c ==> |r| == |c| && (c != [] ==> r[0] == Upper(c[0]) && r[1..] == c[1..])
  {
    var c := Clean(name);
    if '_' in c then
      CamelJoin(c, '_')
    else if ' ' in c then
      var r := CamelJoin(c, ' ');
      assert '_' !in r by {
        var pieces := Split(c, ' ');
        forall i | 0 <= i < |pieces| ensures '_' !in Capitalize(pieces[i]) {
          assert forall k :: 0 <= k < |pieces[i]| ==> pieces[i][k] in c by {
            JoinSplit(c, ' ');
            PieceCharsIn(pieces, " ", i);
          }
          CaseKeepsNonLetter(pieces[i], '_');
        }
        ConcatMissing(Map(pieces, Capitalize), '_');
      }
      r
    else
      UpperFirst(c)
  }

  /** `c.split(d).map(Capitalize).join('')`, with its separator-free result. */
  function CamelJoin(c: string, d: char): (r: string)
    requires !('a' <= d <= 'z') && !('A' <= d <= 'Z')
    ensures d !in r && |r| == |c| - Count(c, d)
  {
    var pieces := Split(c, d);
    forall i | 0 <= i < |pieces| ensures d !in Capitalize(pieces[i]) {
      CaseKeepsNonLetter(pieces[i], d);
    }
    ConcatMissing(Map(pieces, Capitalize), d);
    ConcatMapLength(pieces, Capitalize);
    ConcatSplit(c, d);
    DeleteLength(c, d);
    Join(Map(pieces, Capitalize), "")
  }

  /** Every character of a piece occurs in the join of the pieces. */
  lemma {:induction false} PieceCharsIn(ps: seq<string>, sep: string, i: nat)
    requires i < |ps|
    ensures forall k :: 0 <= k < |ps[i]| ==> ps[i][k] in Join(ps, sep)
    decreases |ps|
  {
    if |ps| > 1 {
      var j := Join(ps, sep);
      assert j == ps[0] + sep + Join(ps[1..], sep);
      if i == 0 {
        assert forall k :: 0 <= k < |ps[0]| ==> j[k] == ps[0][k];
      } else {
        PieceCharsIn(ps[1..], sep, i - 1);
        var off := |ps[0]| + |sep|;
        assert forall k :: 0 <= k < |Join(ps[1..], sep)| ==> j[off + k] == Join(ps[1..], sep)[k];
      }
    }
  }

  lemma {:induction false} LowerCapitalize(w: string)
    ensures LowerAll(Capitalize(w)) == LowerAll(w)
  {
    if w != [] {
      var r := Capitalize(w);
      forall i | 0 <= i < |w| ensures Lower(r[i]) == Lower(w[i]) {
        if i > 0 {
          assert r[i] == LowerAll(w[1..])[i - 1] == Lower(w[i]);
        }
      }
    }
  }

  /** Case aside, the converted name is the cleaned name with its word
      separators removed: no letter is lost, added or reordered. */
  lemma {:induction false} TypeNameKeepsLetters(name: string)
    ensures var c := Clean(name);
      LowerAll(TypeName(name)) ==
        if '_' in c then LowerAll(Delete(c, '_'))
        else if ' ' in c then LowerAll(Delete(c, ' '))
        else LowerAll(c)
  {
    var c := Clean(name);
    if '_' in c {
      CamelJoinKeepsLetters(c, '_');
    } else if ' ' in c {
      CamelJoinKeepsLetters(c, ' ');
    } else {
      UpperFirstKeepsLetters(c);
    }
  }

  /** The clean-up replacements only remove characters. */
  lemma {:induction false} CleanKeepsChar(name: string, x: char)
    requires x !in name
    ensures x !in Clean(name)
  {
    var t := Trim(StripGroups(name));
    assert x !in t;
    var u := RemoveFromCore(t);
    match Leftmost(t, FromCoreAt)
    case None =>
      TrimAvoids(u, x);
    case Some(m) =>
      assert CutAt(t, u, m.0, m.1);
      NotInSlice(t, x, 0, m.0);
      NotInSlice(t, x, m.0 + m.1, |t|);
      assert x !in u;
      TrimAvoids(u, x);
  }

  /** A character other than a letter is neither produced nor removed by
      the case changes, so for instance a name on one line converts to a name
      on one line. */
  lemma {:induction false} TypeNameKeepsChar(name: string, x: char)
    requires !('a' <= x <= 'z') && !('A' <= x <= 'Z')
    requires x !in name
    ensures x !in TypeName(name)
  {
    var c := Clean(name);
    CleanKeepsChar(name, x);
    DeleteKeeps(c, '_', x);
    DeleteKeeps(c, ' ', x);
    TypeNameKeepsLetters(name);
    var d := if '_' in c then Delete(c, '_') else if ' ' in c then Delete(c, ' ') else c;
    SameLettersKeepChar(TypeName(name), d, x);
  }

  /** Strings equal up to letter case hold the same non-letters. */
  lemma {:induction false} SameLettersKeepChar(r: string, d: string, x: char)
    requires !('a' <= x <= 'z') && !('A' <= x <= 'Z')
    requires LowerAll(r) == LowerAll(d) && x !in d
    ensures x !in r
  {
    forall i | 0 <= i < |r| ensures r[i] != x {
      assert Lower(r[i]) == LowerAll(d)[i] == Lower(d[i]);
    }
  }

  lemma {:induction false} DeleteKeeps(s: string, d: char, x: char)
    requires x !in s
    ensures x !in Delete(s, d)
    decreases |s|
  {
    if s != [] {
      DeleteKeeps(s[1..], d, x);
      assert x !in s[1..];
    }
  }

  lemma {:induction false} UpperFirstKeepsLetters(c: string)
    ensures LowerAll(UpperFirst(c)) == LowerAll(c)
  {
    if c != [] {
      var r := UpperFirst(c);
      forall i | 0 <= i < |c| ensures LowerAll(r)[i] == LowerAll(c)[i] {
        if i > 0 {
          assert r[i] == c[i];
        }
      }
    }
  }

  lemma {:induction false} CamelJoinKeepsLetters(c: string, d: char)
    requires !('a' <= d <= 'z') && !('A' <= d <= 'Z')
    ensures LowerAll(CamelJoin(c, d)) == LowerAll(Delete(c, d))
  {
    var pieces := Split(c, d);
    forall i | 0 <= i < |pieces| ensures LowerAll(Capitalize(pieces[i])) == LowerAll(pieces[i]) {
      LowerCapitalize(pieces[i]);
    }
    ConcatMapLower(pieces, Capitalize);
    ConcatSplit(c, d);
  }

  /** A name that neither starts nor ends with whitespace, holds no `(` and
      no ` from CORE` is left alone by the clean-up. */
  lemma {:induction false} CleanKept(s: string)
    requires s == [] || (!IsSpace(s[0]) && !IsSpace(s[|s| - 1]))
    requires '(' !in s
    requires forall q :: 0 <= q <= |s| ==> FromCoreAt(s[q..]).None?
    ensures Clean(s) == s
  {
    assert StripGroups(s) == s;
    TrimEnds(s);
    assert Leftmost(s, FromCoreAt).None?;
  }

  /** A name without whitespace and `(` is left alone by the clean-up. */
  lemma {:induction false} CleanPlain(s: string)
    requires forall i :: 0 <= i < |s| ==> !IsSpace(s[i]) && s[i] != '('
    ensures Clean(s) == s
  {
    forall q | 0 <= q <= |s| ensures FromCoreAt(s[q..]).None? {
      if q < |s| {
        assert s[q..][0] == s[q];
      }
    }
    CleanKept(s);
  }

  /** A name that is already PascalCase (no whitespace, `(`, or `_`, and no
      lower-case first letter) converts to itself. */
  lemma {:induction false} PascalCaseUnchanged(name: string)
    requires forall i :: 0 <= i < |name| ==> !IsSpace(name[i]) && name[i] != '(' && name[i] != '_'
    requires name == [] || !('a' <= name[0] <= 'z')
    ensures TypeName(name) == name
  {
    assert Clean(name) == name && ' ' !in name && '_' !in name by {
      CleanPlain(name);
    }
    TypeNameOfClean(name, ' ');
    assert UpperFirst(name) == name by {
      if name != [] {
        assert name == [name[0]] + name[1..];
      }
    }
  }

  /** On a name the clean-up leaves alone, a `_` selects the snake_case
      conversion, when there is none a space selects the word one, and with
      neither only the first character is upper-cased. */
  lemma {:induction false} TypeNameOfClean(c: string, d: char)
    requires Clean(c) == c
    requires d == '_' || ('_' !in c && d == ' ')
    ensures d in c ==> TypeName(c) == Join(Map(Split(c, d), Capitalize), "")
    ensures '_' !in c && ' ' !in c ==> TypeName(c) == UpperFirst(c)
  {
    if d in c {
      assert TypeName(c) == CamelJoin(c, d);
    }
  }

  /** A snake_case name of two words or more, none of them holding
      whitespace, `(` or `_`, becomes its words capitalised (first letter
      upper case, the rest lower case) and run together. */
  lemma {:induction false} TypeNameSnake(ws: seq<string>)
    requires |ws| >= 2
    requires forall i, k :: 0 <= i < |ws| && 0 <= k < |ws[i]| ==>
      !IsSpace(ws[i][k]) && ws[i][k] != '(' && ws[i][k] != '_'
    ensures TypeName(Join(ws, "_")) == Join(Map(ws, Capitalize), "")
  {
    var c := Join(ws, "_");
    SnakeClean(ws, c);
    TypeNameOfClean(c, '_');
    SplitJoin(ws, '_');
  }

  lemma {:induction false} SnakeClean(ws: seq<string>, c: string)
    requires |ws| >= 2 && c == Join(ws, "_")
    requires forall i, k :: 0 <= i < |ws| && 0 <= k < |ws[i]| ==> !IsSpace(ws[i][k]) && ws[i][k] != '('
    ensures Clean(c) == c && '_' in c
  {
    JoinKeeps(ws, "_", ch => !IsSpace(ch) && ch != '(');
    CleanPlain(c);
    assert c == ws[0] + "_" + Join(ws[1..], "_");
    assert c[|ws[0]|] == '_';
  }

  /** The pattern `\s+from\s+CORE` does not match at the space before a word
      that is not `from` in some letter case. */
  lemma {:induction false} NoFromCoreBefore(w: string, tail: string)
    requires w != [] && forall k :: 0 <= k < |w| ==> !IsSpace(w[k])
    requires LowerAll(w) != "from"
    requires tail == [] || tail[0] == ' '
    ensures FromCoreAt(" " + w + tail).None?
  {
    var s := " " + w + tail;
    var u := w + tail;
    assert s[1..] == u && u[0] == w[0];
    assert SpaceRun(s) == 1;
    if |w| < 4 {
      assert !StartsWithIgnoringCase(u, "from") by {
        if 4 <= |u| {
          assert LowerAll(u[..4])[|w|] == Lower(u[|w|]) == ' ';
        }
      }
    } else if |w| == 4 {
      assert !StartsWithIgnoringCase(u, "from") by {
        assert u[..4] == w;
      }
    } else {
      assert SpaceRun(s[5..]) == 0 by {
        assert s[5..][0] == w[4];
      }
    }
  }

  /** Words that are not empty, hold no whitespace and, after the first, are
      not `from` in any letter case: joined by spaces they hold no
      ` from CORE`. */
  lemma {:induction false} NoFromCoreInWords(ws: seq<string>)
    requires |ws| >= 1
    requires forall i :: 0 <= i < |ws| ==> ws[i] != []
    requires forall i, k :: 0 <= i < |ws| && 0 <= k < |ws[i]| ==> !IsSpace(ws[i][k])
    requires forall i :: 1 <= i < |ws| ==> LowerAll(ws[i]) != "from"
    ensures forall q :: 0 <= q <= |Join(ws, " ")| ==> FromCoreAt(Join(ws, " ")[q..]).None?
    decreases |ws|
  {
    var c := Join(ws, " ");
    if |ws| == 1 {
      forall q | 0 <= q <= |c| ensures FromCoreAt(c[q..]).None? {
        if q < |c| {
          assert c[q..][0] == ws[0][q];
        }
      }
    } else {
      var j := Join(ws[1..], " ");
      NoFromCoreInWords(ws[1..]);
      assert forall q :: 0 <= q <= |j| ==> FromCoreAt(j[q..]).None?;
      assert c == ws[0] + " " + j;
      var tail := if |ws| == 2 then [] else " " + Join(ws[2..], " ");
      assert j == ws[1] + tail by {
        if |ws| > 2 {
          assert ws[1..][1..] == ws[2..];
        }
      }
      assert ws[1] != [] && LowerAll(ws[1]) != "from";
      assert forall k :: 0 <= k < |ws[1]| ==> !IsSpace(ws[1][k]);
      assert forall k :: 0 <= k < |ws[0]| ==> !IsSpace(ws[0][k]);
      forall q | 0 <= q <= |c| ensures FromCoreAt(c[q..]).None? {
        NoFromCoreAt(ws[0], ws[1], tail, j, c, q);
      }
    }
  }

  /** One position of `NoFromCoreInWords`: in the first word, at the space
      after it, or in the words that follow. */
  lemma {:induction false} NoFromCoreAt(w0: string, w1: string, tail: string, j: string, c: string, q: nat)
    requires forall k :: 0 <= k < |w0| ==> !IsSpace(w0[k])
    requires w1 != [] && forall k :: 0 <= k < |w1| ==> !IsSpace(w1[k])
    requires LowerAll(w1) != "from" && (tail == [] || tail[0] == ' ')
    requires j == w1 + tail && c == w0 + " " + j && q <= |c|
    requires forall q :: 0 <= q <= |j| ==> FromCoreAt(j[q..]).None?
    ensures FromCoreAt(c[q..]).None?
  {
    if q < |w0| {
      assert c[q..][0] == w0[q];
    } else if q == |w0| {
      assert c[q..] == " " + w1 + tail;
      NoFromCoreBefore(w1, tail);
    } else {
      assert c[q..] == j[q - |w0| - 1..];
    }
  }

  /** A name of two words or more separated by single spaces, the words not
      empty, holding no whitespace, `(` or `_`, and none after the first
      being `from`, becomes its words capitalised and run together. */
  lemma {:induction false} TypeNameWords(ws: seq<string>)
    requires |ws| >= 2
    requires forall i :: 0 <= i < |ws| ==> ws[i] != []
    requires forall i, k :: 0 <= i < |ws| && 0 <= k < |ws[i]| ==>
      !IsSpace(ws[i][k]) && ws[i][k] != '(' && ws[i][k] != '_'
    requires forall i :: 1 <= i < |ws| ==> LowerAll(ws[i]) != "from"
    ensures TypeName(Join(ws, " ")) == Join(Map(ws, Capitalize), "")
  {
    var c := Join(ws, " ");
    WordsClean(ws, c);
    TypeNameOfClean(c, ' ');
    SplitJoin(ws, ' ');
  }

  lemma {:induction false} WordsClean(ws: seq<string>, c: string)
    requires |ws| >= 2 && c == Join(ws, " ")
    requires forall i :: 0 <= i < |ws| ==> ws[i] != []
    requires forall i, k :: 0 <= i < |ws| && 0 <= k < |ws[i]| ==>
      !IsSpace(ws[i][k]) && ws[i][k] != '(' && ws[i][k] != '_'
    requires forall i :: 1 <= i < |ws| ==> LowerAll(ws[i]) != "from"
    ensures Clean(c) == c && '_' !in c && ' ' in c
  {
    assert '(' !in c && '_' !in c by {
      JoinKeeps(ws, " ", ch => ch != '(' && ch != '_');
    }
    assert !IsSpace(c[0]) && !IsSpace(c[|c| - 1]) by {
      JoinEnds(ws, " ");
      var z := ws[|ws| - 1];
      assert !IsSpace(ws[0][0]) && !IsSpace(z[|z| - 1]);
    }
    NoFromCoreInWords(ws);
    CleanKept(c);
    assert ' ' in c by {
      assert c == ws[0] + " " + Join(ws[1..], " ");
      assert c[|ws[0]|] == ' ';
    }
  }
}
