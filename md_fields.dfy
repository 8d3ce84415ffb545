/** The per-field normalisers of the markdown compiler: what it does to a
    matched value before storing it (prefix stripping, annotation cutting,
    comma lists, transitions and parameters). */
module MdFields {
  import opened Text
  import opened BehaviorSpec
  import opened MdMatch

  /** A field's trimmed value, or the default when the field is absent. */
  function TrimmedOr(v: Option<string>, default: string): (r: string)
    ensures v.None? ==> r == default
    ensures v.Some? ==> r == Trim(v.value)
  {
    match v
    case None => default
    case Some(s) => Trim(s)
  }

  /** `s.replace(/^\d+\.\s+/, '')`: a leading item number, its dot and the
      whitespace after them removed. */
  function StripNumber(s: string): (r: string)
    ensures |r| <= |s| && r == s[|s| - |r|..]
    ensures MarkerLength(s, Numbered).None? ==> r == s
    ensures Marked(s, Numbered) ==> r == TrimLeft(AfterMarker(s, Numbered))
  {
    match MarkerLength(s, Numbered)
    case None => s
    case Some(k) => if SpaceRun(s[k..]) > 0 then TrimLeft(s[k..]) else s
  }

  /** Digits `ds`, a dot and whitespace `w` in front of a text `x` that
      does not start with whitespace: all three go, and nothing more. */
  lemma {:induction false} StripNumberCuts(ds: string, w: string, x: string)
    requires ds != [] && forall i :: 0 <= i < |ds| ==> IsDigit(ds[i])
    requires w != [] && forall i :: 0 <= i < |w| ==> IsSpace(w[i])
    requires x == [] || !IsSpace(x[0])
    ensures StripNumber(ds + "." + w + x) == x
  {
    var t := "." + w + x;
    var s := ds + t;
    assert ds + "." + w + x == s;
    NumberMarker(ds, t);
    assert s[|ds| + 1..] == w + x;
    StrippedRest(s, Numbered, |ds| + 1, w, x);
  }

  /** The marker-stripping replace for each kind of list item. */
  function StripMarker(s: string, m: Marker): string {
    match m
    case Numbered => StripNumber(s)
    case Dash => StripDash(s)
  }

  /** What stays of a marked text once the whitespace after the marker goes. */
  lemma {:induction false} StrippedRest(s: string, m: Marker, k: nat, w: string, x: string)
    requires MarkerLength(s, m) == Some(k) && s[k..] == w + x
    requires w != [] && forall i :: 0 <= i < |w| ==> IsSpace(w[i])
    requires x == [] || !IsSpace(x[0])
    ensures StripMarker(s, m) == x
  {
    SpaceRunOf(w, x);
    assert s[k..][|w|..] == x;
  }

  /** `s.replace(/^-\s+/, '')`: a leading dash and the whitespace after it
      removed. */
  function StripDash(s: string): (r: string)
    ensures |r| <= |s| && r == s[|s| - |r|..]
    ensures MarkerLength(s, Dash).None? ==> r == s
    ensures Marked(s, Dash) ==> r == TrimLeft(AfterMarker(s, Dash))
  {
    match MarkerLength(s, Dash)
    case None => s
    case Some(k) => if SpaceRun(s[k..]) > 0 then TrimLeft(s[k..]) else s
  }

  /** A dash and whitespace `w` in front of a text `x` that does not start
      with whitespace: both go, and nothing more. */
  lemma {:induction false} StripDashCuts(w: string, x: string)
    requires w != [] && forall i :: 0 <= i < |w| ==> IsSpace(w[i])
    requires x == [] || !IsSpace(x[0])
    ensures StripDash("-" + w + x) == x
  {
    var s := "-" + w + x;
    assert s[1..] == w + x;
    StrippedRest(s, Dash, 1, w, x);
  }

  /** `\s*\(.*$`: whitespace, a parenthesis, and nothing but same-line text
      to the end. */
  function ParenTail(u: string): (r: Option<nat>)
    ensures r.Some? ==> r.value == |u|
    ensures r.Some? ==> '(' in u
  {
    var n := SpaceRun(u);
    if n < |u| && u[n] == '(' && |LineRest(u[n + 1..])| == |u| - n - 1 then Some(|u|) else None
  }

  /** `s.replace(/\s*\(.*$/, '')`: a trailing annotation in parentheses cut
      off. */
  function CutAnnotation(s: string): (r: string)
    ensures '(' !in s ==> r == s
    ensures |r| <= |s| && r == s[..|r|]
  {
    NoParenTail(s);
    CutLeftmost(s, ParenTail)
  }

  lemma {:induction false} NoParenTail(s: string)
    ensures '(' !in s ==> forall q :: 0 <= q <= |s| ==> ParenTail(s[q..]).None?
  {
    if '(' !in s {
      forall q | 0 <= q <= |s|
        ensures ParenTail(s[q..]).None?
      {
        NotInSlice(s, '(', q, |s|);
      }
    }
  }

  /** `s.replace(/\(active\)|\(passive\)/g, '')`: one left-to-right pass that
      cuts every `(active)` and `(passive)` it meets. */
  function RemoveTags(s: string): (r: string)
    ensures |r| <= |s|
    ensures forall i :: 0 <= i < |r| ==> r[i] in s
    ensures '(' !in s ==> r == s
    decreases |s|
  {
    if StartsWith(s, "(active)") then
      assert s[0] == '(';
      RemoveTags(s[8..])
    else if StartsWith(s, "(passive)") then
      assert s[0] == '(';
      RemoveTags(s[9..])
    else if s == [] then []
    else [s[0]] + RemoveTags(s[1..])
  }

  /** A text that does not start with a parenthesis keeps its first
      character. */
  lemma {:induction false} RemoveTagsStep(s: string)
    requires s != [] && s[0] != '('
    ensures RemoveTags(s) == [s[0]] + RemoveTags(s[1..])
  {
    assert !StartsWith(s, "(active)") by {
      if 8 <= |s| { assert s[..8][0] == s[0]; }
    }
    assert !StartsWith(s, "(passive)") by {
      if 9 <= |s| { assert s[..9][0] == s[0]; }
    }
  }

  /** Text without a parenthesis passes through the tag removal as it is. */
  lemma {:induction false} RemoveTagsPlain(x: string, z: string)
    requires '(' !in x
    ensures RemoveTags(x + z) == x + RemoveTags(z)
    decreases |x|
  {
    if x == [] {
      assert x + z == z;
    } else {
      var s := x + z;
      calc {
        RemoveTags(s);
      == { assert s[0] == x[0]; RemoveTagsStep(s); }
        [x[0]] + RemoveTags(s[1..]);
      == { assert s[1..] == x[1..] + z; RemoveTagsPlain(x[1..], z); }
        [x[0]] + (x[1..] + RemoveTags(z));
      == { assert [x[0]] + x[1..] == x; }
        x + RemoveTags(z);
      }
    }
  }

  /** A tag at the start of a text is cut. */
  lemma {:induction false} RemoveTagsFront(tag: string, y: string)
    requires tag == "(active)" || tag == "(passive)"
    ensures RemoveTags(tag + y) == RemoveTags(y)
  {
    var z := tag + y;
    assert z[..|tag|] == tag && z[|tag|..] == y;
    if tag == "(passive)" {
      assert z[..8][1] == 'p';
    }
  }

  /** A tag between two texts without parentheses is cut, and nothing
      else. */
  lemma {:induction false} RemoveTagsCuts(x: string, tag: string, y: string)
    requires tag == "(active)" || tag == "(passive)"
    requires '(' !in x && '(' !in y
    ensures RemoveTags(x + tag + y) == x + y
  {
    assert x + tag + y == x + (tag + y);
    RemoveTagsPlain(x, tag + y);
    RemoveTagsFront(tag, y);
  }

  /** An `**Awareness**:` value: the comma-separated pieces, each with its
      `(active)`/`(passive)` tags cut and trimmed. */
  function AwarenessList(v: string): (r: seq<string>)
    ensures |r| == Count(v, ',') + 1
    ensures forall i :: 0 <= i < |r| ==> r[i] == Trim(RemoveTags(Split(v, ',')[i]))
    ensures forall i :: 0 <= i < |r| ==> ',' !in r[i] && Trim(r[i]) == r[i]
  {
    var pieces := Split(v, ',');
    forall i | 0 <= i < |pieces|
      ensures ',' !in Trim(RemoveTags(pieces[i])) && Trim(Trim(RemoveTags(pieces[i]))) == Trim(RemoveTags(pieces[i]))
    {
      TrimAvoids(RemoveTags(pieces[i]), ',');
      TrimTwice(RemoveTags(pieces[i]));
    }
    Map(pieces, a => Trim(RemoveTags(a)))
  }

  /** A value without commas is one entry: its tag is cut and the rest
      trimmed. */
  lemma {:induction false} AwarenessTagged(x: string, tag: string, y: string)
    requires tag == "(active)" || tag == "(passive)"
    requires ',' !in x && ',' !in y && '(' !in x && '(' !in y
    ensures AwarenessList(x + tag + y) == [Trim(x + y)]
  {
    var v := x + tag + y;
    assert ',' !in v by {
      assert ',' !in tag;
    }
    AwarenessSingle(v);
    RemoveTagsCuts(x, tag, y);
  }

  /** A value without commas gives a single entry. */
  lemma {:induction false} AwarenessSingle(v: string)
    requires ',' !in v
    ensures AwarenessList(v) == [Trim(RemoveTags(v))]
  {
    SplitNoSeparator(v, ',');
    var r := AwarenessList(v);
    assert |r| == 1 && r[0] == Trim(RemoveTags(v));
  }

  // ---------------------------------------------------------------------------
  // Lists read from a list block.

  /** The items a global expression matches in a block, as matched text. */
  function Items(block: Option<string>, item: string -> Option<(nat, string)>): seq<string>
    requires forall t :: item(t).Some? ==> 1 <= item(t).value.0 <= |t|
  {
    match block
    case None => []
    case Some(b) => Scan(b, item)
  }

  /** The numbered lines under `- **Tactical Delegates**:` (or `Behaviors`),
      each up to any annotation. */
  function DelegateItems(body: string): seq<string> {
    Items(ListBlock(body, DelegatesLabel, Numbered), AnnotatedItemAt)
  }

  /** The numbered lines under `- **Operational Sequence**:`, each up to its
      first parenthesis. */
  function StepItems(body: string): seq<string> {
    Items(ListBlock(body, Named("Operational Sequence"), Numbered), t => PlainItemAt(t, Numbered))
  }

  /** The dashed lines under `- **Result**:`, each up to its first
      parenthesis. */
  function ResultItems(body: string): seq<string> {
    Items(ListBlock(body, Named("Result"), Dash), t => PlainItemAt(t, Dash))
  }

  /** Each delegate item without its number, trimmed: the text after the
      marker, with no whitespace left at either end. */
  function DelegateNames(body: string): (r: seq<string>)
    ensures |r| == |DelegateItems(body)|
    ensures forall i :: 0 <= i < |r| ==> r[i] == Trim(AfterMarker(DelegateItems(body)[i], Numbered))
    ensures forall i :: 0 <= i < |r| ==> Trim(r[i]) == r[i]
  {
    DelegateItemsMarked(body);
    NumberedNames(DelegateItems(body))
  }

  /** `items.map(d => d.replace(/^\d+\.\s+/, '').trim())` on marked items. */
  function NumberedNames(items: seq<string>): (r: seq<string>)
    requires forall i :: 0 <= i < |items| ==> Marked(items[i], Numbered)
    ensures |r| == |items|
    ensures forall i :: 0 <= i < |r| ==> r[i] == Trim(AfterMarker(items[i], Numbered)) && Trim(r[i]) == r[i]
  {
    forall i | 0 <= i < |items|
      ensures Trim(StripNumber(items[i])) == Trim(AfterMarker(items[i], Numbered))
      ensures Trim(Trim(StripNumber(items[i]))) == Trim(StripNumber(items[i]))
    {
      TrimAfterLeft(AfterMarker(items[i], Numbered));
      TrimTwice(StripNumber(items[i]));
    }
    Map(items, s => Trim(StripNumber(s)))
  }

  /** Every item matched by `\d+\.\s+(.+?)(?=\s+\(|$)` is marked. */
  lemma {:induction false} DelegateItemsMarked(body: string)
    ensures forall i :: 0 <= i < |DelegateItems(body)| ==> Marked(DelegateItems(body)[i], Numbered)
  {
    var block := ListBlock(body, DelegatesLabel, Numbered);
    if block.Some? {
      ScanAll(block.value, AnnotatedItemAt, (s: string) => Marked(s, Numbered));
    }
  }

  /** Each step item without its number and without anything from its first
      parenthesis, trimmed: the text after the marker, which holds no
      parenthesis and no line feed, with no whitespace left at either end. */
  function StepNames(body: string): (r: seq<string>)
    ensures |r| == |StepItems(body)|
    ensures forall i :: 0 <= i < |r| ==> PlainName(StepItems(body)[i], Numbered, r[i])
  {
    PlainItemsHold(ListBlock(body, Named("Operational Sequence"), Numbered), Numbered);
    PlainNames(StepItems(body), Numbered)
  }

  /** Each result item without its dash and without anything from its first
      parenthesis, trimmed: the text after the marker, which holds no
      parenthesis and no line feed, with no whitespace left at either end. */
  function ResultNames(body: string): (r: seq<string>)
    ensures |r| == |ResultItems(body)|
    ensures forall i :: 0 <= i < |r| ==> PlainName(ResultItems(body)[i], Dash, r[i])
  {
    PlainItemsHold(ListBlock(body, Named("Result"), Dash), Dash);
    PlainNames(ResultItems(body), Dash)
  }

  /** `items.map(s => s.replace(MARKER, '').replace(/\s*\(.*$/, '').trim())`
      on plain items. */
  function PlainNames(items: seq<string>, m: Marker): (r: seq<string>)
    requires forall i :: 0 <= i < |items| ==> PlainItem(items[i], m)
    ensures |r| == |items|
    ensures forall i :: 0 <= i < |r| ==> PlainName(items[i], m, r[i])
  {
    Map(items, s => PlainNameOf(s, m))
  }

  /** One step or result item made a name. */
  function PlainNameOf(item: string, m: Marker): (r: string)
    ensures PlainItem(item, m) ==> PlainName(item, m, r)
  {
    PlainNameHolds(item, m);
    Trim(CutAnnotation(StripMarker(item, m)))
  }

  /** Every item matched by `MARKER\s+([^(\n]+)` is marked and holds no
      parenthesis and no line feed. */
  lemma {:induction false} PlainItemsHold(block: Option<string>, m: Marker)
    ensures var items := Items(block, t => PlainItemAt(t, m));
            forall i :: 0 <= i < |items| ==> PlainItem(items[i], m)
  {
    if block.Some? {
      ScanAll(block.value, t => PlainItemAt(t, m), (s: string) => PlainItem(s, m));
    }
  }

  /** `name` is what the text after the marker of `item` comes to once
      trimmed, and it holds no parenthesis, no line feed and no whitespace
      at either end. */
  predicate PlainName(item: string, m: Marker, name: string) {
    name == Trim(AfterMarker(item, m)) && Trim(name) == name && '(' !in name && '\n' !in name
  }

  /** The annotation cut is a no-op on a plain item: its name is the text
      after the marker, trimmed. */
  lemma {:induction false} PlainNameHolds(item: string, m: Marker)
    ensures PlainItem(item, m) ==> PlainName(item, m, Trim(CutAnnotation(StripMarker(item, m))))
  {
    if PlainItem(item, m) {
      PlainNameHeld(item, m);
    }
  }

  lemma {:induction false} PlainNameHeld(item: string, m: Marker)
    requires PlainItem(item, m)
    ensures PlainName(item, m, Trim(CutAnnotation(StripMarker(item, m))))
  {
    var a := AfterMarker(item, m);
    var b := StripMarker(item, m);
    assert b == TrimLeft(a);
    NotInSlice(item, '(', |item| - |b|, |item|);
    NotInSlice(item, '\n', |item| - |b|, |item|);
    TrimAfterLeft(a);
    TrimTwice(b);
    TrimAvoids(b, '(');
    TrimAvoids(b, '\n');
  }

  // ---------------------------------------------------------------------------
  // Transitions.

  /** A transition line as matched by the global expression. */
  function TransitionMatch(t: string, word: string): (r: Option<(nat, string)>)
    ensures r.Some? ==> 1 <= r.value.0 <= |t|
  {
    match TransitionAt(t, word)
    case None => None
    case Some((n, _)) => Some((n, t[..n]))
  }

  /** `line.match(...)` on one matched line: the trimmed condition and
      target of the first match, or nothing when the line does not match. */
  function ParseTransition(line: string, word: string): (r: Option<Transition>)
    ensures r.None? <==> forall p :: 0 <= p <= |line| ==> TransitionAt(line[p..], word).None?
    ensures r.Some? ==> StoredTransition(r.value)
  {
    match Leftmost(line, t => TransitionAt(t, word))
    case None => None
    case Some((p, (_, tr))) =>
      TrimmedCapture(LineRest(line[p..][TransitionLead(line[p..], word).value..]), tr);
      Some(Transition(Trim(tr.condition), Trim(tr.target)))
  }

  /** The pair read from a line is the first match's, trimmed. */
  lemma {:induction false} ParseTransitionFirst(line: string, word: string, p: nat)
    requires p <= |line| && TransitionAt(line[p..], word).Some?
    requires forall q :: 0 <= q < p ==> TransitionAt(line[q..], word).None?
    ensures var tr := TransitionAt(line[p..], word).value.1;
            ParseTransition(line, word) == Some(Transition(Trim(tr.condition), Trim(tr.target)))
  {
    var l := Leftmost(line, t => TransitionAt(t, word));
    assert l.Some? && l.value.0 == p by {
      assert (t => TransitionAt(t, word))(line[p..]).Some?;
    }
  }

  /** `-\s+If` at the start of `t`. */
  predicate IfLead(t: string) {
    t != [] && t[0] == '-' && StartsWith(t[1 + BlankRun(t[1..])..], "If")
  }

  /** A line where no dash is followed by blanks and `If` yields no
      strategic transition. */
  lemma {:induction false} WithoutIf(line: string)
    requires forall p :: 0 <= p <= |line| ==> !IfLead(line[p..])
    ensures ParseTransition(line, "If").None?
  {
  }

  /** A pair as stored: both parts trimmed, no arrow with blanks around it
      inside the condition (the lazy capture stops at the first one), and no
      blanks and parenthesis inside the target (the lazy capture stops
      there too). */
  predicate StoredTransition(tr: Transition) {
    Trim(tr.condition) == tr.condition && Trim(tr.target) == tr.target
    && (forall j :: 0 <= j <= |tr.condition| ==> !ArrowAhead(tr.condition[j..]))
    && (forall j :: 0 <= j <= |tr.target| ==> !Opens(tr.target[j..]))
  }

  /** What the two captures come to once trimmed is a stored pair. */
  lemma {:induction false} TrimmedCapture(line: string, tr: Transition)
    requires Captures(line, tr)
    ensures StoredTransition(Transition(Trim(tr.condition), Trim(tr.target)))
  {
    TrimTwice(tr.condition);
    TrimTwice(tr.target);
    TrimmedCondition(line, |tr.condition|);
    var x := AfterArrow(line[|tr.condition|..]);
    TrimmedTarget(x, tr.target);
  }

  lemma {:induction false} TrimmedCondition(line: string, c: nat)
    requires 1 <= c <= |line| && forall j :: 1 <= j < c ==> !ArrowAhead(line[j..])
    ensures var t := Trim(line[..c]); forall j :: 0 <= j <= |t| ==> !ArrowAhead(t[j..])
  {
    var cond := line[..c];
    var t := Trim(cond);
    var a := SpaceRun(cond);
    assert a + |t| <= c && t == line[a..a + |t|];
    forall j | 0 <= j <= |t|
      ensures !ArrowAhead(t[j..])
    {
      NoArrowInside(line, c, a, t, j);
    }
  }

  /** No arrow starts inside the trimmed condition, at `t[j..]`. */
  lemma {:induction false} NoArrowInside(line: string, c: nat, a: nat, t: string, j: nat)
    requires a + |t| <= c <= |line| && t == line[a..a + |t|] && j <= |t|
    requires t == [] || !IsSpace(t[0])
    requires forall k :: 1 <= k < c ==> !ArrowAhead(line[k..])
    ensures !ArrowAhead(t[j..])
  {
    if j == |t| {
    } else if a + j == 0 {
      assert t[j..][0] == t[0];
    } else {
      var u, v := t[j..], line[a + j..];
      assert u == v[..|u|];
      ArrowExtends(u, v);
    }
  }

  lemma {:induction false} TrimmedTarget(x: string, tg: string)
    requires |tg| <= |x| && tg == x[..|tg|] && forall j :: 1 <= j < |tg| ==> !Opens(x[j..])
    ensures var t := Trim(tg); forall j :: 0 <= j <= |t| ==> !Opens(t[j..])
  {
    var t := Trim(tg);
    var a := SpaceRun(tg);
    assert a + |t| <= |tg| && t == x[a..a + |t|];
    forall j | 0 <= j <= |t|
      ensures !Opens(t[j..])
    {
      NoOpeningInside(x, |tg|, a, t, j);
    }
  }

  /** No blanks and parenthesis start inside the trimmed target, at
      `t[j..]`. */
  lemma {:induction false} NoOpeningInside(x: string, c: nat, a: nat, t: string, j: nat)
    requires a + |t| <= c <= |x| && t == x[a..a + |t|] && j <= |t|
    requires t == [] || !IsSpace(t[0])
    requires forall k :: 1 <= k < c ==> !Opens(x[k..])
    ensures !Opens(t[j..])
  {
    if j == |t| {
    } else if a + j == 0 {
      assert t[j..][0] == t[0];
    } else {
      var u, v := t[j..], x[a + j..];
      assert u == v[..|u|];
      OpensExtends(u, v);
    }
  }

  /** The results that are not `null`, in order. */
  function Present(ts: seq<Option<Transition>>): (r: seq<Transition>)
    ensures |r| <= |ts|
    ensures forall t :: t in r <==> Some(t) in ts
  {
    if ts == [] then []
    else (match ts[0] case None => [] case Some(t) => [t]) + Present(ts[1..])
  }

  /** Filtering keeps the order: the results of a concatenation are those of
      its two parts, one after the other. */
  lemma {:induction false} PresentAppend(a: seq<Option<Transition>>, b: seq<Option<Transition>>)
    ensures Present(a + b) == Present(a) + Present(b)
    decreases |a|
  {
    if a == [] {
      assert a + b == b;
    } else {
      var h := match a[0] case None => [] case Some(t) => [t];
      calc {
        Present(a + b);
      == { assert (a + b)[0] == a[0] && (a + b)[1..] == a[1..] + b; }
        h + Present(a[1..] + b);
      == { PresentAppend(a[1..], b); }
        h + (Present(a[1..]) + Present(b));
      }
    }
  }

  /** `- **Transitions**:` followed by dashed lines: the pairs read from the
      lines that match, in order. Strategic transitions need the word `If`
      after the dash; tactical ones do not. */
  function TransitionList(body: string, word: string): (r: seq<Transition>)
    ensures |r| <= |TransitionLines(body, word)|
    ensures forall i :: 0 <= i < |r| ==> StoredTransition(r[i])
    ensures forall t :: t in r <==>
      exists i :: 0 <= i < |TransitionLines(body, word)| && ParseTransition(TransitionLines(body, word)[i], word) == Some(t)
  {
    var ts := ParseLines(TransitionLines(body, word), word);
    PresentStored(ts);
    Present(ts)
  }

  lemma {:induction false} PresentStored(ts: seq<Option<Transition>>)
    requires forall i :: 0 <= i < |ts| && ts[i].Some? ==> StoredTransition(ts[i].value)
    ensures forall i :: 0 <= i < |Present(ts)| ==> StoredTransition(Present(ts)[i])
    decreases |ts|
  {
    if ts != [] {
      assert forall i :: 0 <= i < |ts[1..]| ==> ts[1..][i] == ts[i + 1];
      PresentStored(ts[1..]);
    }
  }

  /** `transitionLines.map(...)`: one result per matched line. */
  function ParseLines(lines: seq<string>, word: string): (r: seq<Option<Transition>>)
    ensures |r| == |lines|
    ensures forall i :: 0 <= i < |r| ==> r[i] == ParseTransition(lines[i], word)
  {
    if lines == [] then [] else [ParseTransition(lines[0], word)] + ParseLines(lines[1..], word)
  }

  /** The lines of the list that the global transition expression matches. */
  function TransitionLines(body: string, word: string): seq<string> {
    Items(ListBlock(body, Named("Transitions"), Dash), t => TransitionMatch(t, word))
  }

  // ---------------------------------------------------------------------------
  // Parameters.

  /** A parameter line as matched by the global expression. */
  function ParamMatch(t: string): (r: Option<(nat, string)>)
    ensures r.Some? ==> 1 <= r.value.0 <= |t|
  {
    match ParamAt(t)
    case None => None
    case Some((n, _)) => Some((n, t[..n]))
  }

  /** `line.match(...)` on one matched line: the trimmed key and value. */
  function ParseParam(line: string): Option<Param> {
    match Leftmost(line, ParamAt)
    case None => None
    case Some((_, (_, p))) => Some(Param(Trim(p.key), Trim(p.value)))
  }

  /** The parameter lines of a body. */
  function ParamLines(body: string): seq<string> {
    Items(ListBlock(body, Named("Parameters"), Dash), ParamMatch)
  }

  /** The value a JavaScript object holds for `key`. */
  function Lookup(ps: seq<Param>, key: string): Option<string> {
    if ps == [] then None
    else if ps[0].key == key then Some(ps[0].value)
    else Lookup(ps[1..], key)
  }

  predicate HasKey(ps: seq<Param>, key: string) {
    exists i :: 0 <= i < |ps| && ps[i].key == key
  }

  predicate DistinctKeys(ps: seq<Param>) {
    forall i, j :: 0 <= i < j < |ps| ==> ps[i].key != ps[j].key
  }

  /** `object[key] = value`: an existing key keeps its place and takes the
      new value; a new key goes last. */
  function SetParam(ps: seq<Param>, key: string, value: string): (r: seq<Param>)
    requires DistinctKeys(ps)
    ensures DistinctKeys(r)
    ensures forall j :: 0 <= j < |r| ==> r[j].key == key || HasKey(ps, r[j].key)
    ensures Lookup(r, key) == Some(value)
    ensures forall k :: k != key ==> Lookup(r, k) == Lookup(ps, k)
    decreases |ps|
  {
    if ps == [] then [Param(key, value)]
    else if ps[0].key == key then
      assert forall j :: 1 <= j < |ps| ==> ps[j].key == ps[1..][j - 1].key;
      [Param(key, value)] + ps[1..]
    else
      var rest := SetParam(ps[1..], key, value);
      assert forall j :: 0 <= j < |rest| ==> rest[j].key != ps[0].key by {
        forall j | 0 <= j < |rest| ensures rest[j].key != ps[0].key {
          if rest[j].key != key {
            var i :| 0 <= i < |ps[1..]| && ps[1..][i].key == rest[j].key;
            assert ps[i + 1].key == rest[j].key;
          }
        }
      }
      [ps[0]] + rest
  }

  /** The object the `forEach` over the parameter lines builds. */
  function Parameters(lines: seq<string>): (r: seq<Param>)
    ensures DistinctKeys(r)
  {
    if lines == [] then []
    else
      var before := Parameters(lines[..|lines| - 1]);
      match ParseParam(lines[|lines| - 1])
      case None => before
      case Some(p) => SetParam(before, p.key, p.value)
  }

  /** The `forEach` over the parameter lines: each line that matches sets
      its key. */
  method CollectParameters(lines: seq<string>) returns (ps: seq<Param>)
    ensures ps == Parameters(lines)
  {
    ps := [];
    var i := 0;
    while i < |lines|
      invariant 0 <= i <= |lines|
      invariant ps == Parameters(lines[..i])
    {
      assert lines[..i + 1][..i] == lines[..i];
      match ParseParam(lines[i]) {
        case Some(p) => ps := SetParam(ps, p.key, p.value);
        case None =>
      }
      i := i + 1;
    }
    assert lines[..|lines|] == lines;
  }

  /** A key takes the value of the last line that sets it. */
  lemma {:induction false} LaterKeyWins(lines: seq<string>, i: nat, key: string, value: string)
    requires i < |lines| && ParseParam(lines[i]) == Some(Param(key, value))
    requires forall j :: i < j < |lines| ==> ParseParam(lines[j]).None? || ParseParam(lines[j]).value.key != key
    ensures Lookup(Parameters(lines), key) == Some(value)
    decreases |lines|
  {
    var init := lines[..|lines| - 1];
    var last := ParseParam(lines[|lines| - 1]);
    assert Parameters(lines) ==
      match last
      case None => Parameters(init)
      case Some(p) => SetParam(Parameters(init), p.key, p.value);
    if i < |lines| - 1 {
      assert init[i] == lines[i];
      assert forall j :: i < j < |init| ==> init[j] == lines[j];
      LaterKeyWins(init, i, key, value);
      assert last.None? || last.value.key != key;
    }
  }

  /** A key no line sets is not in the object. */
  lemma {:induction false} UnsetKeyAbsent(lines: seq<string>, key: string)
    requires forall j :: 0 <= j < |lines| ==> ParseParam(lines[j]).None? || ParseParam(lines[j]).value.key != key
    ensures Lookup(Parameters(lines), key).None?
    decreases |lines|
  {
    if lines != [] {
      var init := lines[..|lines| - 1];
      assert forall j :: 0 <= j < |init| ==> init[j] == lines[j];
      UnsetKeyAbsent(init, key);
    }
  }
}
