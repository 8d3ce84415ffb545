/** String primitives shared by both tools: the JavaScript `String` operations
    they use (`split`, `join`, `trim`, `includes`, `replace` of a literal,
    `toUpperCase`/`toLowerCase` on ASCII letters) and the leftmost-match search
    that `RegExp.prototype.exec` performs. Strings are sequences of characters. */
module Text {

  datatype Option<T> = None | Some(value: T)

  /** The characters of JavaScript's `\s` class, which are also the characters
      `String.prototype.trim` removes. */
  predicate IsSpace(c: char) {
    c == ' ' || c == '\t' || c == '\n' || c == '\r' || c == '\U{B}' || c == '\U{C}'
    || c == '\U{A0}' || c == '\U{1680}' || ('\U{2000}' <= c <= '\U{200A}')
    || c == '\U{2028}' || c == '\U{2029}' || c == '\U{202F}' || c == '\U{205F}'
    || c == '\U{3000}' || c == '\U{FEFF}'
  }

  /** The characters a regular-expression `.` does not match. */
  predicate IsLineTerm(c: char) {
    c == '\n' || c == '\r' || c == '\U{2028}' || c == '\U{2029}'
  }

  /** Whitespace that stays within one line. */
  predicate IsBlank(c: char) {
    IsSpace(c) && !IsLineTerm(c)
  }

  /** `toUpperCase` on one character, restricted to ASCII letters. */
  function Upper(c: char): (r: char)
    ensures 'a' <= c <= 'z' ==> 'A' <= r <= 'Z' && r as int == c as int - 32
    ensures !('a' <= c <= 'z') ==> r == c
  {
    if 'a' <= c <= 'z' then (c as int - 32) as char else c
  }

  /** `toLowerCase` on one character, restricted to ASCII letters. */
  function Lower(c: char): (r: char)
    ensures 'A' <= c <= 'Z' ==> 'a' <= r <= 'z' && r as int == c as int + 32
    ensures !('A' <= c <= 'Z') ==> r == c
  {
    if 'A' <= c <= 'Z' then (c as int + 32) as char else c
  }

  /** `s.toLowerCase()` on ASCII letters. */
  function LowerAll(s: string): (r: string)
    ensures |r| == |s| && forall i :: 0 <= i < |s| ==> r[i] == Lower(s[i])
  {
    seq(|s|, i requires 0 <= i < |s| => Lower(s[i]))
  }

  /** Number of occurrences of `c` in `s`. */
  function Count(s: string, c: char): nat {
    if s == [] then 0 else (if s[0] == c then 1 else 0) + Count(s[1..], c)
  }

  /** `s` with every `c` deleted. */
  function Delete(s: string, c: char): string {
    if s == [] then [] else (if s[0] == c then [] else [s[0]]) + Delete(s[1..], c)
  }

  /** `s.split(d)` for a one-character separator `d`: the pieces between the
      separators, in order; there is always one more piece than separators. */
  function Split(s: string, d: char): (r: seq<string>)
    ensures |r| == Count(s, d) + 1
    ensures forall i :: 0 <= i < |r| ==> d !in r[i]
    decreases |s|
  {
    if s == [] then [""]
    else
      var rest := Split(s[1..], d);
      if s[0] == d then [""] + rest else [[s[0]] + rest[0]] + rest[1..]
  }

  /** `parts.join(sep)`. */
  function Join(parts: seq<string>, sep: string): string {
    if |parts| == 0 then ""
    else if |parts| == 1 then parts[0]
    else parts[0] + sep + Join(parts[1..], sep)
  }

  /** `ws.map(f)`. */
  function Map(ws: seq<string>, f: string -> string): (r: seq<string>)
    ensures |r| == |ws| && forall i :: 0 <= i < |ws| ==> r[i] == f(ws[i])
  {
    seq(|ws|, i requires 0 <= i < |ws| => f(ws[i]))
  }

  /** Index of the first `c` in `s`. */
  function IndexOf(s: string, c: char): (r: Option<nat>)
    ensures r.Some? ==> r.value < |s| && s[r.value] == c && c !in s[..r.value]
    ensures r.None? ==> c !in s
  {
    if s == [] then None
    else if s[0] == c then Some(0)
    else match IndexOf(s[1..], c)
      case None => None
      case Some(k) =>
        assert s[..k + 1] == [s[0]] + s[1..][..k];
        Some(k + 1)
  }

  /** `s` starts with the lower-case word `p`, ignoring ASCII case. */
  predicate StartsWithIgnoringCase(s: string, p: string) {
    |p| <= |s| && LowerAll(s[..|p|]) == p
  }

  /** Each line followed by a newline: the text a generator builds when every
      piece it appends ends with `\n`. */
  function Unlines(lines: seq<string>): string {
    if lines == [] then "" else Unlines(lines[..|lines| - 1]) + lines[|lines| - 1] + "\n"
  }

  lemma {:induction false} UnlinesCons(line: string, lines: seq<string>)
    ensures Unlines([line] + lines) == line + "\n" + Unlines(lines)
    decreases |lines|
  {
    if lines != [] {
      var init := lines[..|lines| - 1];
      assert ([line] + lines)[..|lines|] == [line] + init;
      UnlinesCons(line, init);
    } else {
      assert [line] + lines == [line];
      assert [line][..0] == [];
    }
  }

  /** The lines of a text (separated by `\n`). */
  function Lines(s: string): seq<string> {
    Split(s, '\n')
  }

  predicate SingleLine(s: string) {
    '\n' !in s
  }

  predicate StartsWith(s: string, p: string) {
    |p| <= |s| && s[..|p|] == p
  }

  predicate EndsWith(s: string, p: string) {
    |p| <= |s| && s[|s| - |p|..] == p
  }

  /** `s.includes(p)`. */
  predicate Contains(s: string, p: string)
    decreases |s|
  {
    StartsWith(s, p) || (s != [] && Contains(s[1..], p))
  }

  /** Length of the run of `\s` characters that starts `s`. */
  function SpaceRun(s: string): (n: nat)
    ensures n <= |s|
    ensures forall i :: 0 <= i < n ==> IsSpace(s[i])
    ensures n == |s| || !IsSpace(s[n])
  {
    if s != [] && IsSpace(s[0]) then 1 + SpaceRun(s[1..]) else 0
  }

  /** Length of the run of same-line whitespace that starts `s`. */
  function BlankRun(s: string): (n: nat)
    ensures n <= |s|
    ensures forall i :: 0 <= i < n ==> IsBlank(s[i])
    ensures n == |s| || !IsBlank(s[n])
  {
    if s != [] && IsBlank(s[0]) then 1 + BlankRun(s[1..]) else 0
  }

  /** The text before the first line terminator: what `.+` reaches. */
  function LineRest(s: string): (r: string)
    ensures |r| <= |s| && r == s[..|r|]
    ensures forall i :: 0 <= i < |r| ==> !IsLineTerm(r[i])
    ensures |r| == |s| || IsLineTerm(s[|r|])
  {
    if s == [] || IsLineTerm(s[0]) then [] else [s[0]] + LineRest(s[1..])
  }

  /** `s` without its leading whitespace. */
  function TrimLeft(s: string): (r: string)
    ensures |r| <= |s| && r == s[|s| - |r|..]
    ensures r == [] || !IsSpace(r[0])
    ensures forall i :: 0 <= i < |s| - |r| ==> IsSpace(s[i])
  {
    s[SpaceRun(s)..]
  }

  /** `s` without its trailing whitespace. */
  function TrimRight(s: string): (r: string)
    ensures |r| <= |s| && r == s[..|r|]
    ensures r == [] || !IsSpace(r[|r| - 1])
    ensures forall i :: |r| <= i < |s| ==> IsSpace(s[i])
    decreases |s|
  {
    if s != [] && IsSpace(s[|s| - 1]) then TrimRight(s[..|s| - 1]) else s
  }

  /** `s.trim()`: the slice of `s` left when the whitespace at both ends is cut. */
  function Trim(s: string): (r: string)
    ensures r == [] || (!IsSpace(r[0]) && !IsSpace(r[|r| - 1]))
    ensures SpaceRun(s) + |r| <= |s| && r == s[SpaceRun(s)..SpaceRun(s) + |r|]
    ensures forall k :: SpaceRun(s) + |r| <= k < |s| ==> IsSpace(s[k])
  {
    TrimRight(TrimLeft(s))
  }

  /** `p` occurs in `s` at position `j`. */
  predicate OccursAt(s: string, p: string, j: nat) {
    j <= |s| && StartsWith(s[j..], p)
  }

  /** `s.indexOf(p)`: the first position where `p` occurs, if it occurs. */
  function Find(s: string, p: string): (r: Option<nat>)
    ensures r.Some? ==> r.value + |p| <= |s| && OccursAt(s, p, r.value)
    ensures r.Some? ==> forall j :: 0 <= j < r.value ==> !OccursAt(s, p, j)
    ensures r.None? ==> forall j :: 0 <= j <= |s| ==> !OccursAt(s, p, j)
    decreases |s|
  {
    if StartsWith(s, p) then Some(0)
    else if s == [] then None
    else
      assert forall j :: 1 <= j <= |s| ==> OccursAt(s, p, j) == OccursAt(s[1..], p, j - 1) by {
        forall j | 1 <= j <= |s| ensures s[j..] == s[1..][j - 1..] { }
      }
      match Find(s[1..], p)
      case None => None
      case Some(k) => Some(k + 1)
  }

  /** `s.replace(p, '')` for a literal `p`: the first occurrence of `p` is
      cut, and the text before and after it is kept. */
  function RemoveFirst(s: string, p: string): (r: string)
    ensures |r| <= |s|
    decreases |s|
  {
    if StartsWith(s, p) then s[|p|..]
    else if s == [] then []
    else [s[0]] + RemoveFirst(s[1..], p)
  }

  /** `replace` with a literal cuts the first occurrence, and only it. */
  lemma {:induction false} RemoveFirstCuts(s: string, p: string)
    ensures Find(s, p).None? ==> RemoveFirst(s, p) == s
    ensures Find(s, p).Some? ==> CutAt(s, RemoveFirst(s, p), Find(s, p).value, |p|)
  {
    match Find(s, p)
    case None => RemoveAbsent(s, p);
    case Some(i) => RemoveFirstAt(s, p, i);
  }

  lemma {:induction false} RemoveFirstAt(s: string, p: string, i: nat)
    requires i + |p| <= |s| && OccursAt(s, p, i)
    requires forall j :: 0 <= j < i ==> !OccursAt(s, p, j)
    ensures RemoveFirst(s, p) == s[..i] + s[i + |p|..]
    decreases i
  {
    if i > 0 {
      assert !OccursAt(s, p, 0);
      assert s[1..][i - 1..] == s[i..];
      forall j | 0 <= j < i - 1 ensures !OccursAt(s[1..], p, j) {
        assert s[1..][j..] == s[j + 1..];
        assert !OccursAt(s, p, j + 1);
      }
      RemoveFirstAt(s[1..], p, i - 1);
      assert [s[0]] + s[1..][..i - 1] == s[..i];
    }
  }

  lemma {:induction false} RemoveAbsent(s: string, p: string)
    requires forall j :: 0 <= j <= |s| ==> !OccursAt(s, p, j)
    ensures RemoveFirst(s, p) == s
    decreases |s|
  {
    assert !OccursAt(s, p, 0);
    if s != [] {
      forall j | 0 <= j <= |s| - 1 ensures !OccursAt(s[1..], p, j) {
        assert s[1..][j..] == s[j + 1..];
        assert !OccursAt(s, p, j + 1);
      }
      RemoveAbsent(s[1..], p);
      assert [s[0]] + s[1..] == s;
    }
  }

  /** `r` is `s` with the `n` characters at `p` cut out. */
  predicate CutAt(s: string, r: string, p: nat, n: nat) {
    p + n <= |s| && r == s[..p] + s[p + n..]
  }

  /** What `RegExp.prototype.exec` does with a pattern that is tried at each
      position in turn: `f` says whether (and how) the pattern matches at the
      start of a suffix; the result is the first position where it does. */
  function Leftmost<T>(s: string, f: string -> Option<T>): (r: Option<(nat, T)>)
    ensures r.Some? ==> r.value.0 <= |s| && f(s[r.value.0..]) == Some(r.value.1)
    ensures r.Some? ==> forall q :: 0 <= q < r.value.0 ==> f(s[q..]).None?
    ensures r.None? ==> forall q :: 0 <= q <= |s| ==> f(s[q..]).None?
    decreases |s|
  {
    match f(s)
    case Some(v) => Some((0, v))
    case None =>
      if s == [] then None
      else
        match Leftmost(s[1..], f)
        case None =>
          assert forall q :: 1 <= q <= |s| ==> s[q..] == s[1..][q - 1..];
          None
        case Some(m) =>
          assert forall q :: 1 <= q <= |s| ==> s[q..] == s[1..][q - 1..];
          Some((m.0 + 1, m.1))
  }

  /** `s.replace(pattern, "")` for a pattern without the global flag: the
      leftmost match of `f` (which gives the match length) is cut out. */
  function CutLeftmost(s: string, f: string -> Option<nat>): (r: string)
    requires forall t :: f(t).Some? ==> f(t).value <= |t|
    ensures Leftmost(s, f).None? ==> r == s
    ensures Leftmost(s, f).Some? ==>
      var (p, n) := Leftmost(s, f).value; p + n <= |s| && r == s[..p] + s[p + n..]
  {
    match Leftmost(s, f)
    case None => s
    case Some((p, n)) => s[..p] + s[p + n..]
  }

  /** The successive results of `exec` with a global pattern (or of
      `String.prototype.match` with one): each search starts where the
      previous match ended. `f` gives the length of a match (never empty) and
      what is read from it. */
  function Scan<T>(s: string, f: string -> Option<(nat, T)>): (r: seq<T>)
    requires forall t :: f(t).Some? ==> 1 <= f(t).value.0 <= |t|
    ensures |r| <= |s|
    decreases |s|
  {
    match Leftmost(s, f)
    case None => []
    case Some((p, m)) => [m.1] + Scan(s[p + m.0..], f)
  }

  /** A character missing from a text is missing from every slice of it. */
  lemma {:induction false} NotInSlice(s: string, c: char, a: nat, b: nat)
    requires c !in s && a <= b <= |s|
    ensures c !in s[a..b]
  {
    forall i | 0 <= i < b - a
      ensures s[a..b][i] != c
    {
      assert s[a..b][i] == s[a + i];
    }
  }

  lemma {:induction false} TrimAvoids(s: string, c: char)
    requires c !in s
    ensures c !in Trim(s)
  {
    NotInSlice(s, c, SpaceRun(s), SpaceRun(s) + |Trim(s)|);
  }

  /** A text that neither starts nor ends with whitespace is its own trim. */
  lemma {:induction false} TrimEnds(s: string)
    requires s == [] || (!IsSpace(s[0]) && !IsSpace(s[|s| - 1]))
    ensures Trim(s) == s
  {
    assert SpaceRun(s) == 0;
    assert TrimLeft(s) == s;
  }

  /** A property that every character of the pieces and of the separator has
      holds of every character of their join. */
  lemma {:induction false} JoinKeeps(ps: seq<string>, sep: string, p: char -> bool)
    requires forall i, k :: 0 <= i < |ps| && 0 <= k < |ps[i]| ==> p(ps[i][k])
    requires forall k :: 0 <= k < |sep| ==> p(sep[k])
    ensures forall k :: 0 <= k < |Join(ps, sep)| ==> p(Join(ps, sep)[k])
    decreases |ps|
  {
    if |ps| > 1 {
      JoinKeeps(ps[1..], sep, p);
      var j := Join(ps[1..], sep);
      var c := Join(ps, sep);
      assert c == ps[0] + sep + j;
      forall k | 0 <= k < |c| ensures p(c[k]) {
        if k < |ps[0]| {
          assert c[k] == ps[0][k];
        } else if k < |ps[0]| + |sep| {
          assert c[k] == sep[k - |ps[0]|];
        } else {
          assert c[k] == j[k - |ps[0]| - |sep|];
        }
      }
    } else if |ps| == 1 {
      assert Join(ps, sep) == ps[0];
    }
  }

  /** A join of pieces that are not empty starts with the first character of
      the first piece and ends with the last character of the last piece. */
  lemma {:induction false} JoinEnds(ps: seq<string>, sep: string)
    requires |ps| >= 1 && forall i :: 0 <= i < |ps| ==> ps[i] != []
    ensures var c := Join(ps, sep); var z := ps[|ps| - 1];
      c != [] && c[0] == ps[0][0] && c[|c| - 1] == z[|z| - 1]
    decreases |ps|
  {
    if |ps| > 1 {
      JoinEnds(ps[1..], sep);
      assert Join(ps, sep) == ps[0] + sep + Join(ps[1..], sep);
    }
  }

  /** `trim` after cutting the leading whitespace is `trim`. */
  /** The whitespace run of a text that starts with whitespace `w` and then
      a non-space is `w`. */
  lemma {:induction false} SpaceRunOf(w: string, x: string)
    requires forall i :: 0 <= i < |w| ==> IsSpace(w[i])
    requires x == [] || !IsSpace(x[0])
    ensures SpaceRun(w + x) == |w|
    decreases |w|
  {
    if w == [] {
      assert w + x == x;
    } else {
      assert (w + x)[1..] == w[1..] + x;
      SpaceRunOf(w[1..], x);
    }
  }

  lemma {:induction false} TrimAfterLeft(s: string)
    ensures Trim(TrimLeft(s)) == Trim(s)
  {
    var t := TrimLeft(s);
    assert SpaceRun(t) == 0;
  }

  /** A trimmed text is its own trim. */
  lemma {:induction false} TrimTwice(s: string)
    ensures Trim(Trim(s)) == Trim(s)
  {
    var t := Trim(s);
    assert SpaceRun(t) == 0;
    assert TrimLeft(t) == t;
  }

  /** Every value `Scan` collects is one that `f` returns. */
  /** One step of the global search: the match found, then the matches in
      what follows it. */
  lemma {:induction false} ScanStep<T>(s: string, f: string -> Option<(nat, T)>, p: nat, m: (nat, T))
    requires forall t :: f(t).Some? ==> 1 <= f(t).value.0 <= |t|
    requires Leftmost(s, f) == Some((p, m))
    ensures p + m.0 <= |s| && Scan(s, f) == [m.1] + Scan(s[p + m.0..], f)
  {
  }

  lemma {:induction false} ScanAll<T>(s: string, f: string -> Option<(nat, T)>, P: T -> bool)
    requires forall t :: f(t).Some? ==> 1 <= f(t).value.0 <= |t|
    requires forall t :: f(t).Some? ==> P(f(t).value.1)
    ensures forall i :: 0 <= i < |Scan(s, f)| ==> P(Scan(s, f)[i])
    decreases |s|
  {
    match Leftmost(s, f)
    case None =>
    case Some((p, m)) =>
      ScanAll(s[p + m.0..], f, P);
  }

  /** The blocks of lines one after the other. */
  function Concat(bs: seq<seq<string>>): seq<string> {
    if bs == [] then [] else Concat(bs[..|bs| - 1]) + bs[|bs| - 1]
  }

  // ---------------------------------------------------------------------------
  // Lemmas relating split, join and the line functions.

  /** Splitting at a separator that is followed by more text splits the two
      sides independently. */
  lemma {:induction false} SplitAtSeparator(a: string, b: string, d: char)
    requires d !in a
    ensures Split(a + [d] + b, d) == [a] + Split(b, d)
    decreases |a|
  {
    if a == [] {
      assert a + [d] + b == [d] + b;
      assert ([d] + b)[1..] == b;
    } else {
      SplitAtSeparator(a[1..], b, d);
      assert (a + [d] + b)[1..] == a[1..] + [d] + b;
      var rest := Split(a[1..] + [d] + b, d);
      assert rest[0] == a[1..] && rest[1..] == Split(b, d);
      assert [a[0]] + a[1..] == a;
    }
  }

  /** A piece without the separator splits into itself. */
  lemma {:induction false} SplitNoSeparator(a: string, d: char)
    requires d !in a
    ensures Split(a, d) == [a]
    decreases |a|
  {
    if a != [] {
      SplitNoSeparator(a[1..], d);
      assert [a[0]] + a[1..] == a;
    }
  }

  /** Round trip: splitting a join gives back the pieces. */
  lemma {:induction false} SplitJoin(parts: seq<string>, d: char)
    requires |parts| > 0
    requires forall i :: 0 <= i < |parts| ==> d !in parts[i]
    ensures Split(Join(parts, [d]), d) == parts
    decreases |parts|
  {
    if |parts| == 1 {
      SplitNoSeparator(parts[0], d);
    } else {
      SplitJoin(parts[1..], d);
      SplitAtSeparator(parts[0], Join(parts[1..], [d]), d);
      assert [parts[0]] + parts[1..] == parts;
    }
  }

  /** Round trip: joining the pieces of a split gives back the text. */
  lemma {:induction false} JoinSplit(s: string, d: char)
    ensures Join(Split(s, d), [d]) == s
    decreases |s|
  {
    if s != [] {
      JoinSplit(s[1..], d);
      var rest := Split(s[1..], d);
      if s[0] == d {
        assert Split(s, d) == [""] + rest;
        assert ([""] + rest)[1..] == rest;
        assert s == [d] + s[1..];
      } else {
        var p := Split(s, d);
        assert p == [[s[0]] + rest[0]] + rest[1..];
        if |rest| == 1 {
          assert s == [s[0]] + s[1..];
        } else {
          assert p[1..] == rest[1..];
          assert Join(rest, [d]) == rest[0] + [d] + Join(rest[1..], [d]);
          assert s == [s[0]] + s[1..];
        }
      }
    }
  }

  lemma {:induction false} JoinAppend(a: seq<string>, b: seq<string>, sep: string)
    requires |a| > 0 && |b| > 0
    ensures Join(a + b, sep) == Join(a, sep) + sep + Join(b, sep)
    decreases |a|
  {
    if |a| == 1 {
      assert (a + b)[1..] == b;
    } else {
      JoinAppend(a[1..], b, sep);
      assert (a + b)[1..] == a[1..] + b;
    }
  }

  lemma {:induction false} UnlinesAppend(a: seq<string>, b: seq<string>)
    ensures Unlines(a + b) == Unlines(a) + Unlines(b)
    decreases |b|
  {
    if b == [] {
      assert a + b == a;
    } else {
      var b', x := b[..|b| - 1], b[|b| - 1];
      calc {
        Unlines(a + b);
      == { assert (a + b)[..|a + b| - 1] == a + b' && (a + b)[|a + b| - 1] == x; }
        Unlines(a + b') + x + "\n";
      == { UnlinesAppend(a, b'); }
        Unlines(a) + Unlines(b') + x + "\n";
      == { assert Unlines(b) == Unlines(b') + x + "\n"; }
        Unlines(a) + Unlines(b);
      }
    }
  }

  /** The lines of a text built line by line, followed by more text, are
      those lines followed by the lines of the rest. */
  lemma {:induction false} LinesOfUnlinesThen(lines: seq<string>, rest: string)
    requires forall i :: 0 <= i < |lines| ==> SingleLine(lines[i])
    ensures Lines(Unlines(lines) + rest) == lines + Lines(rest)
    decreases |lines|
  {
    if lines == [] {
      assert Unlines(lines) + rest == rest;
    } else {
      var head, tail := lines[0], lines[1..];
      forall i | 0 <= i < |tail| ensures SingleLine(tail[i]) {
        assert tail[i] == lines[i + 1];
      }
      LinesOfUnlinesThen(tail, rest);
      var after := Unlines(tail) + rest;
      assert Lines(after) == tail + Lines(rest);
      UnlinesCons(head, tail);
      assert [head] + tail == lines;
      assert Unlines(lines) + rest == head + ['\n'] + after;
      SplitAtSeparator(head, after, '\n');
      assert lines + Lines(rest) == [head] + (tail + Lines(rest));
    }
  }

  // ---------------------------------------------------------------------------
  // Lemmas about `map(...).join('')`.

  lemma {:induction false} DeleteLength(s: string, c: char)
    ensures |Delete(s, c)| == |s| - Count(s, c)
    decreases |s|
  {
    if s != [] {
      DeleteLength(s[1..], c);
    }
  }

  /** Joining the pieces of a split with nothing between them deletes the
      separators. */
  lemma {:induction false} ConcatSplit(s: string, d: char)
    ensures Join(Split(s, d), "") == Delete(s, d)
    decreases |s|
  {
    if s != [] {
      ConcatSplit(s[1..], d);
      var rest := Split(s[1..], d);
      if s[0] == d {
        assert Split(s, d) == [""] + rest;
        assert ([""] + rest)[1..] == rest;
      } else {
        var p := Split(s, d);
        assert p == [[s[0]] + rest[0]] + rest[1..];
        if |rest| > 1 {
          assert p[1..] == rest[1..];
        }
      }
    }
  }

  /** A character missing from every piece is missing from their concatenation. */
  lemma {:induction false} ConcatMissing(ps: seq<string>, c: char)
    requires forall i :: 0 <= i < |ps| ==> c !in ps[i]
    ensures c !in Join(ps, "")
    decreases |ps|
  {
    if |ps| > 1 {
      ConcatMissing(ps[1..], c);
    }
  }

  /** Mapping a length-preserving function over the pieces keeps the length of
      their concatenation. */
  lemma {:induction false} ConcatMapLength(ps: seq<string>, f: string -> string)
    requires forall i :: 0 <= i < |ps| ==> |f(ps[i])| == |ps[i]|
    ensures |Join(Map(ps, f), "")| == |Join(ps, "")|
    decreases |ps|
  {
    if |ps| > 1 {
      ConcatMapLength(ps[1..], f);
      assert Map(ps, f)[1..] == Map(ps[1..], f);
    }
  }

  lemma {:induction false} LowerAllAppend(a: string, b: string, a': string, b': string)
    requires LowerAll(a) == LowerAll(a') && LowerAll(b) == LowerAll(b')
    ensures LowerAll(a + b) == LowerAll(a' + b')
  {
    assert |a| == |LowerAll(a)| == |LowerAll(a')| == |a'|;
    forall i | 0 <= i < |a + b|
      ensures LowerAll(a + b)[i] == LowerAll(a' + b')[i]
    {
      if i < |a| {
        assert LowerAll(a)[i] == LowerAll(a')[i];
      } else {
        assert LowerAll(b)[i - |a|] == LowerAll(b')[i - |a|];
      }
    }
  }

  /** Mapping a function that only changes letter case over the pieces keeps
      their concatenation, case aside. */
  lemma {:induction false} ConcatMapLower(ps: seq<string>, f: string -> string)
    requires forall i :: 0 <= i < |ps| ==> LowerAll(f(ps[i])) == LowerAll(ps[i])
    ensures LowerAll(Join(Map(ps, f), "")) == LowerAll(Join(ps, ""))
    decreases |ps|
  {
    if |ps| > 1 {
      var m := Map(ps, f);
      var ps' := ps[1..];
      assert m[1..] == Map(ps', f);
      forall i | 0 <= i < |ps'| ensures LowerAll(f(ps'[i])) == LowerAll(ps'[i]) {
        assert ps'[i] == ps[i + 1];
      }
      ConcatMapLower(ps', f);
      JoinUnsepCons(m);
      JoinUnsepCons(ps);
      LowerAllAppend(m[0], Join(m[1..], ""), ps[0], Join(ps', ""));
    }
  }

  /** Concatenation without separator peels off its first piece. */
  lemma {:induction false} JoinUnsepCons(ps: seq<string>)
    requires |ps| > 1
    ensures Join(ps, "") == ps[0] + Join(ps[1..], "")
  {
    assert Join(ps, "") == ps[0] + "" + Join(ps[1..], "");
  }

  /** Appending one more block. */
  lemma {:induction false} ConcatSnoc(bs: seq<seq<string>>, i: nat)
    requires i < |bs|
    ensures Concat(bs[..i + 1]) == Concat(bs[..i]) + bs[i]
  {
    assert bs[..i + 1][..i] == bs[..i];
  }

  /** Blocks of equal length `L` take `L` lines each. */
  lemma {:induction false} ConcatLength(bs: seq<seq<string>>, L: nat)
    requires forall i :: 0 <= i < |bs| ==> |bs[i]| == L
    ensures |Concat(bs)| == L * |bs|
    decreases |bs|
  {
    if bs != [] {
      ConcatLength(bs[..|bs| - 1], L);
    }
  }

  /** Block `k` of blocks of equal length `L` occupies lines `L * k` up to
      `L * k + L` of the concatenation. */
  lemma {:induction false} ConcatBlock(bs: seq<seq<string>>, L: nat, k: nat)
    requires forall i :: 0 <= i < |bs| ==> |bs[i]| == L
    requires k < |bs|
    ensures L * k + L <= |Concat(bs)|
    ensures Concat(bs)[L * k..L * k + L] == bs[k]
    decreases |bs|
  {
    var n := |bs|;
    var p := bs[..n - 1];
    forall i | 0 <= i < |p| ensures |p[i]| == L {
      assert p[i] == bs[i];
    }
    ConcatLength(p, L);
    var a, o := Concat(p), L * k;
    assert Concat(bs) == a + bs[n - 1];
    if k < n - 1 {
      ConcatBlock(p, L, k);
      PrefixSlice(a, bs[n - 1], o, o + L);
    } else {
      assert |p| == k;
      assert o == |a|;
      PrefixSlice(a, bs[n - 1], o, o);
      assert (a + bs[n - 1])[|a|..] == bs[n - 1];
    }
  }

  /** Slices that stay inside the left operand of a concatenation. */
  lemma {:induction false} PrefixSlice(x: seq<string>, y: seq<string>, i: nat, j: nat)
    requires i <= j <= |x|
    ensures (x + y)[i..j] == x[i..j]
  {
    assert forall q :: 0 <= q < j - i ==> (x + y)[i..j][q] == x[i + q];
  }

  /** Text that ends in a pending indentation `pad`: finishing that line
      with `x` and appending the lines `rest` gives the lines of `ls`
      followed by `pad + x` and `rest`. */
  lemma {:induction false} PendingStep(ls: seq<string>, pad: string, x: string, rest: seq<string>)
    ensures Unlines(ls) + pad + x + "\n" + Unlines(rest) == Unlines(ls + ([pad + x] + rest))
  {
    UnlinesAppend(ls, [pad + x] + rest);
    UnlinesCons(pad + x, rest);
  }

  /** Mapping keeps membership. */
  lemma {:induction false} MapMember(xs: seq<string>, f: string -> string, x: string)
    requires x in xs
    ensures f(x) in Map(xs, f)
  {
    var i :| 0 <= i < |xs| && xs[i] == x;
    assert Map(xs, f)[i] == f(x);
  }

  /** A slice of the middle part of a concatenation. */
  lemma {:induction false} MiddleSlice(x: seq<string>, y: seq<string>, z: seq<string>, i: nat, j: nat)
    requires i <= j <= |y|
    ensures (x + y + z)[|x| + i..|x| + j] == y[i..j]
  {
    var w := x + y + z;
    assert forall q :: 0 <= q < j - i ==> w[|x| + i..|x| + j][q] == w[|x| + i + q] == y[i..j][q];
  }

  /** A slice of the middle part, seen from the whole. */
  lemma {:induction false} SliceAfter(x: seq<string>, y: seq<string>, z: seq<string>, i: nat, n: nat, b: seq<string>)
    requires i + n <= |y| && y[i..i + n] == b
    ensures |x| + i + n <= |x + y + z|
    ensures (x + y + z)[|x| + i..|x| + i + n] == b
  {
    MiddleSlice(x, y, z, i, i + n);
  }

  /** Block `k` of blocks of length `L` placed after `head`. */
  lemma {:induction false} BlockAfter(head: seq<string>, bs: seq<seq<string>>, L: nat, rest: seq<string>, k: nat)
    requires forall i :: 0 <= i < |bs| ==> |bs[i]| == L
    requires k < |bs|
    ensures |head| + L * k + L <= |head + Concat(bs) + rest|
    ensures (head + Concat(bs) + rest)[|head| + L * k..|head| + L * k + L] == bs[k]
  {
    var c, o := Concat(bs), L * k;
    assert o + L <= |c| && c[o..o + L] == bs[k] by {
      ConcatBlock(bs, L, k);
    }
    SliceAfter(head, c, rest, o, L, bs[k]);
  }

  /** Appending the text of block `i` to the text of the lines before it. */
  lemma {:induction false} PrefixSnoc(prefix: seq<string>, bs: seq<seq<string>>, i: nat)
    requires i < |bs|
    ensures prefix + Concat(bs[..i]) + bs[i] == prefix + Concat(bs[..i + 1])
  {
    ConcatSnoc(bs, i);
  }

  lemma {:induction false} UnlinesBlockStep(prefix: seq<string>, bs: seq<seq<string>>, i: nat)
    requires i < |bs|
    ensures Unlines(prefix + Concat(bs[..i])) + Unlines(bs[i]) == Unlines(prefix + Concat(bs[..i + 1]))
  {
    ConcatSnoc(bs, i);
    UnlinesAppend(prefix + Concat(bs[..i]), bs[i]);
    assert prefix + Concat(bs[..i + 1]) == (prefix + Concat(bs[..i])) + bs[i];
  }

  /** No blocks yet, and all of them. */
  lemma {:induction false} BlocksEnds(prefix: seq<string>, bs: seq<seq<string>>)
    ensures prefix + Concat(bs[..0]) == prefix
    ensures prefix + Concat(bs[..|bs|]) == prefix + Concat(bs)
  {
    assert bs[..0] == [];
    assert bs[..|bs|] == bs;
  }
}
