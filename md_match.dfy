/** The pieces of the markdown compiler's regular expressions. Each is a
    function that says whether, and how, the expression matches at the start
    of a text; the search for the leftmost match (`String.prototype.match`
    without the global flag) is `Leftmost`, and the successive matches of a
    global expression are `Scan`.

    Whitespace: the expressions use `\s`, which also matches line breaks.
    Here it is read as same-line whitespace (a blank), except after
    `## Description`, whose paragraph starts on the next line. A run of
    whitespace is taken whole: where the regular-expression engine would hand
    one blank back to a following capture that would otherwise be empty, the
    model reports no match at that position. */
module MdMatch {
  import opened Text
  import opened BehaviorSpec

  predicate IsDigit(c: char) {
    '0' <= c <= '9'
  }

  /** Length of the run of decimal digits that starts `s`. */
  function DigitRun(s: string): (n: nat)
    ensures n <= |s|
    ensures forall i :: 0 <= i < n ==> IsDigit(s[i])
    ensures n == |s| || !IsDigit(s[n])
  {
    if s != [] && IsDigit(s[0]) then 1 + DigitRun(s[1..]) else 0
  }

  /** Length of the run that `[^(\n]` matches at the start of `s`. */
  function PlainRun(s: string): (n: nat)
    ensures n <= |s|
    ensures forall i :: 0 <= i < n ==> s[i] != '(' && s[i] != '\n'
    ensures n == |s| || s[n] == '(' || s[n] == '\n'
  {
    if s != [] && s[0] != '(' && s[0] != '\n' then 1 + PlainRun(s[1..]) else 0
  }

  /** A lookahead without an end-of-input alternative: the first position at
      or after `k` where `p` holds of the rest of `s`. */
  function Seek(s: string, k: nat, p: string -> bool): (r: Option<nat>)
    ensures r.Some? ==> k <= r.value <= |s| && p(s[r.value..])
    ensures r.Some? ==> forall j :: k <= j < r.value ==> !p(s[j..])
    ensures r.None? ==> forall j :: k <= j <= |s| ==> !p(s[j..])
    decreases |s| - k
  {
    if k > |s| then None
    else if p(s[k..]) then Some(k)
    else Seek(s, k + 1, p)
  }

  /** A lookahead with an end-of-input (or end-of-line) alternative: the
      first position at or after `k` where `p` holds, or the end of `s`. */
  function Until(s: string, k: nat, p: string -> bool): (r: nat)
    requires k <= |s|
    ensures k <= r <= |s|
    ensures r == |s| || p(s[r..])
    ensures forall j :: k <= j < r ==> !p(s[j..])
    decreases |s| - k
  {
    if k == |s| || p(s[k..]) then k else Until(s, k + 1, p)
  }

  // ---------------------------------------------------------------------------
  // Captures that end a line.

  /** `\s*(.+)$` in multi-line mode: the rest of the line after the blanks. */
  function LineValue(s: string): (r: Option<string>)
    ensures r.Some? ==> r.value != [] && r.value == LineRest(s[BlankRun(s)..])
    ensures r.None? ==> LineRest(s[BlankRun(s)..]) == []
  {
    var v := LineRest(s[BlankRun(s)..]);
    if v == [] then None else Some(v)
  }

  /** `\s+\(`: blanks, then an opening parenthesis. */
  predicate Opens(u: string) {
    0 < BlankRun(u) < |u| && u[BlankRun(u)] == '('
  }

  /** `(.+?)(?:\s+\(|$)` on one line: the shortest non-empty prefix of the
      line that ends where an annotation in parentheses starts, or the whole
      line. */
  function BeforeAnnotation(line: string): (r: string)
    requires line != []
    ensures 0 < |r| <= |line| && r == line[..|r|]
    ensures |r| == |line| || Opens(line[|r|..])
    ensures forall j :: 1 <= j < |r| ==> !Opens(line[j..])
  {
    line[..Until(line, 1, Opens)]
  }

  // ---------------------------------------------------------------------------
  // Field labels.

  /** The bold labels the compiler looks for. */
  datatype Label =
    | Named(name: string)   // `**name**:`
    | TriggerLabel          // `**Trigger**:` or `**Trigger Condition**:`
    | DelegatesLabel        // `**Tactical Delegates**` or `**Tactical Behaviors**`, colon optional

  /** The length of the label at the start of `u`. */
  function LabelLength(u: string, l: Label): (r: Option<nat>)
    ensures r.Some? ==> 2 <= r.value <= |u| && StartsWith(u, "**")
  {
    if !StartsWith(u, "**") then None
    else match l
    case Named(name) =>
      if StartsWith(u, "**" + name + "**:") then Some(|"**" + name + "**:"|) else None
    case TriggerLabel =>
      if StartsWith(u, "**Trigger**:") then Some(|"**Trigger**:"|)
      else if StartsWith(u, "**Trigger") then
        var b := BlankRun(u[9..]);
        if b > 0 && StartsWith(u[9 + b..], "Condition**:") then Some(9 + b + 12) else None
      else None
    case DelegatesLabel =>
      if StartsWith(u, "**Tactical Delegates**") || StartsWith(u, "**Tactical Behaviors**") then
        Some(if 22 < |u| && u[22] == ':' then 23 else 22)
      else None
  }

  /** `-\s+` and then the label: the length of both. */
  function BulletLabel(t: string, l: Label): (r: Option<nat>)
    ensures r.Some? ==> 4 <= r.value <= |t|
    ensures r.Some? ==> t[0] == '-'
  {
    if t == [] || t[0] != '-' then None
    else
      var b := BlankRun(t[1..]);
      if b == 0 then None
      else match LabelLength(t[1 + b..], l)
        case None => None
        case Some(n) => Some(1 + b + n)
  }

  // ---------------------------------------------------------------------------
  // One-line fields.

  /** `-\s+**Label**:\s*(.+)$` at the start of `t`: the captured value. */
  function FieldAt(t: string, l: Label): Option<string> {
    match BulletLabel(t, l)
    case None => None
    case Some(n) => LineValue(t[n..])
  }

  /** The value on the first line that carries the label. */
  function Field(body: string, l: Label): (r: Option<string>)
    ensures r.None? <==> forall p :: 0 <= p <= |body| ==> FieldAt(body[p..], l).None?
    ensures r.Some? ==> exists p :: 0 <= p <= |body| && FieldAt(body[p..], l) == r
                          && forall q :: 0 <= q < p ==> FieldAt(body[q..], l).None?
  {
    match Leftmost(body, t => FieldAt(t, l))
    case None => None
    case Some((_, v)) => Some(v)
  }

  /** `p` is where the first line that carries the label starts. */
  predicate FirstField(body: string, l: Label, p: int) {
    0 <= p <= |body| && FieldAt(body[p..], l).Some?
    && forall q :: 0 <= q < p ==> FieldAt(body[q..], l).None?
  }

  /** The value of a field is read from the first line that carries its
      label, and from no other. */
  lemma {:induction false} FirstFieldWins(body: string, l: Label, p: int)
    requires FirstField(body, l, p)
    ensures Field(body, l) == FieldAt(body[p..], l)
  {
    var r := Field(body, l);
    assert r.Some?;
    var p' :| 0 <= p' <= |body| && FieldAt(body[p'..], l) == r
               && forall q :: 0 <= q < p' ==> FieldAt(body[q..], l).None?;
    assert FieldAt(body[p..], l).Some? && FieldAt(body[p'..], l).Some?;
  }

  /** `-\s+**Label**:\s*(.+?)(?:\s+\(|$)` at the start of `t`: the value up
      to any annotation in parentheses. */
  function AnnotatedFieldAt(t: string, l: Label): Option<string> {
    match BulletLabel(t, l)
    case None => None
    case Some(n) =>
      var line := LineRest(t[n..][BlankRun(t[n..])..]);
      if line == [] then None else Some(BeforeAnnotation(line))
  }

  function AnnotatedField(body: string, l: Label): (r: Option<string>)
    ensures r.None? <==> forall p :: 0 <= p <= |body| ==> AnnotatedFieldAt(body[p..], l).None?
  {
    match Leftmost(body, t => AnnotatedFieldAt(t, l))
    case None => None
    case Some((_, v)) => Some(v)
  }

  /** `**Name**:\s*(.+)$` (a metadata line, no bullet) at the start of `t`. */
  function MetaAt(t: string, name: string): Option<string> {
    match LabelLength(t, Named(name))
    case None => None
    case Some(n) => LineValue(t[n..])
  }

  function Meta(md: string, name: string): (r: Option<string>)
    ensures r.None? <==> forall p :: 0 <= p <= |md| ==> MetaAt(md[p..], name).None?
  {
    match Leftmost(md, t => MetaAt(t, name))
    case None => None
    case Some((_, v)) => Some(v)
  }

  /** Where a description stops: a line that starts with `-` or `**`. */
  predicate DescriptionStop(u: string) {
    StartsWith(u, "\n-") || StartsWith(u, "\n**")
  }

  /** `-\s+**Description**:\s*(.+?)(?=\n-|\n\*\*|$)` with `.` matching line
      breaks: the value runs up to the next line that starts with `-` or
      `**`, or to the end of the body. */
  function DescriptionAt(t: string): Option<string> {
    match BulletLabel(t, Named("Description"))
    case None => None
    case Some(n) =>
      var v := t[n..][BlankRun(t[n..])..];
      if v == [] then None else Some(v[..Until(v, 1, DescriptionStop)])
  }

  function DescriptionField(body: string): (r: Option<string>)
    ensures r.None? <==> forall p :: 0 <= p <= |body| ==> DescriptionAt(body[p..]).None?
  {
    match Leftmost(body, DescriptionAt)
    case None => None
    case Some((_, v)) => Some(v)
  }

  // ---------------------------------------------------------------------------
  // Lists under a label line.

  /** `-\s+**Label**:\s*\n`: the length of the label line. */
  function HeaderAt(t: string, l: Label): (r: Option<nat>)
    ensures r.Some? ==> 5 <= r.value <= |t|
  {
    match BulletLabel(t, l)
    case None => None
    case Some(n) =>
      var b := BlankRun(t[n..]);
      if n + b < |t| && t[n + b] == '\n' then Some(n + b + 1) else None
  }

  /** The marker of a list item: `\d+\.` or `-`. */
  datatype Marker = Numbered | Dash

  function MarkerLength(u: string, m: Marker): (r: Option<nat>)
    ensures r.Some? ==> 1 <= r.value <= |u|
  {
    match m
    case Numbered =>
      var d := DigitRun(u);
      if 0 < d < |u| && u[d] == '.' then Some(d + 1) else None
    case Dash =>
      if u != [] && u[0] == '-' then Some(1) else None
  }

  /** `MARKER\s+` at the start of `u`: a marker with a blank after it. */
  predicate Marked(u: string, m: Marker) {
    MarkerLength(u, m).Some? && MarkerLength(u, m).value < |u| && IsBlank(u[MarkerLength(u, m).value])
  }

  /** The text after the marker at the start of `u`. */
  function AfterMarker(u: string, m: Marker): (r: string)
    ensures |r| <= |u| && r == u[|u| - |r|..]
  {
    match MarkerLength(u, m)
    case None => u
    case Some(k) => u[k..]
  }

  lemma {:induction false} DigitRunPrefix(t: string, n: nat)
    requires DigitRun(t) < n <= |t|
    ensures DigitRun(t[..n]) == DigitRun(t)
    decreases n
  {
    if IsDigit(t[0]) {
      DigitRunPrefix(t[1..], n - 1);
      assert t[..n][1..] == t[1..][..n - 1];
    }
  }

  /** The digit run of a text that starts with digits `ds` and then a
      non-digit is `ds`. */
  lemma {:induction false} DigitRunOf(ds: string, x: string)
    requires forall i :: 0 <= i < |ds| ==> IsDigit(ds[i])
    requires x == [] || !IsDigit(x[0])
    ensures DigitRun(ds + x) == |ds|
    decreases |ds|
  {
    if ds == [] {
      assert ds + x == x;
    } else {
      assert (ds + x)[1..] == ds[1..] + x;
      DigitRunOf(ds[1..], x);
    }
  }

  /** Digits and then a dot make an item number. */
  lemma {:induction false} NumberMarker(ds: string, t: string)
    requires ds != [] && forall i :: 0 <= i < |ds| ==> IsDigit(ds[i])
    requires t != [] && t[0] == '.'
    ensures MarkerLength(ds + t, Numbered) == Some(|ds| + 1)
  {
    DigitRunOf(ds, t);
    assert (ds + t)[|ds|] == '.';
  }

  /** A prefix of a marked text that reaches past the marker is marked the
      same way. */
  lemma {:induction false} MarkedPrefix(t: string, m: Marker, n: nat)
    requires Marked(t, m) && MarkerLength(t, m).value < n <= |t|
    ensures Marked(t[..n], m) && MarkerLength(t[..n], m) == MarkerLength(t, m)
    ensures AfterMarker(t[..n], m) == t[MarkerLength(t, m).value..n]
  {
    var k := MarkerLength(t, m).value;
    if m == Numbered {
      DigitRunPrefix(t, n);
    }
  }

  /** One line of a list block, `\s+MARKER\s+.+\n?`: its length, with the
      line break when there is one. */
  function ItemLine(t: string, m: Marker): (r: Option<nat>)
    ensures r.Some? ==> 1 <= r.value <= |t|
  {
    var a := BlankRun(t);
    if a == 0 then None
    else match MarkerLength(t[a..], m)
      case None => None
      case Some(k) =>
        var b := BlankRun(t[a + k..]);
        var line := LineRest(t[a + k + b..]);
        if b == 0 || line == [] then None
        else
          var n := a + k + b + |line|;
          Some(if n < |t| && t[n] == '\n' then n + 1 else n)
  }

  /** `(?:\s+MARKER\s+.+\n?)+`: the length of the run of item lines. */
  function BlockLength(t: string, m: Marker): (n: nat)
    ensures n <= |t|
    decreases |t|
  {
    match ItemLine(t, m)
    case None => 0
    case Some(k) => k + BlockLength(t[k..], m)
  }

  /** A label line followed by at least one item line: the items. */
  function ListAt(t: string, l: Label, m: Marker): Option<string> {
    match HeaderAt(t, l)
    case None => None
    case Some(h) =>
      var n := BlockLength(t[h..], m);
      if n == 0 then None else Some(t[h..][..n])
  }

  /** The items under the first label line that has any. */
  function ListBlock(body: string, l: Label, m: Marker): (r: Option<string>)
    ensures r.None? <==> forall p :: 0 <= p <= |body| ==> ListAt(body[p..], l, m).None?
  {
    match Leftmost(body, t => ListAt(t, l, m))
    case None => None
    case Some((_, v)) => Some(v)
  }

  // ---------------------------------------------------------------------------
  // Items read from a list block by a global expression: each gives the
  // length of the match and the matched text.

  /** `\d+\.\s+(.+?)(?=\s+\(|$)`: a numbered item up to any annotation. */
  function AnnotatedItemAt(t: string): (r: Option<(nat, string)>)
    ensures r.Some? ==> 1 <= r.value.0 <= |t| && r.value.1 == t[..r.value.0]
    ensures r.Some? ==> Marked(r.value.1, Numbered)
  {
    match MarkerLength(t, Numbered)
    case None => None
    case Some(k) =>
      var b := BlankRun(t[k..]);
      var line := LineRest(t[k + b..]);
      if b == 0 || line == [] then None
      else
        var n := k + b + |BeforeAnnotation(line)|;
        assert IsBlank(t[k..][0]);
        MarkedPrefix(t, Numbered, n);
        Some((n, t[..n]))
  }

  /** `MARKER\s+([^(\n]+)`: an item up to the first parenthesis. */
  function PlainItemAt(t: string, m: Marker): (r: Option<(nat, string)>)
    ensures r.Some? ==> 1 <= r.value.0 <= |t| && r.value.1 == t[..r.value.0]
    ensures r.Some? ==> PlainItem(r.value.1, m)
  {
    match MarkerLength(t, m)
    case None => None
    case Some(k) =>
      var b := BlankRun(t[k..]);
      var run := PlainRun(t[k + b..]);
      if b == 0 || run == 0 then None
      else
        var n := k + b + run;
        PlainItemFacts(t, m, k, b, n);
        Some((n, t[..n]))
  }

  /** What a plain item's text is: a marker, a blank, and no parenthesis or
      line feed anywhere. */
  predicate PlainItem(u: string, m: Marker) {
    '(' !in u && '\n' !in u && Marked(u, m)
  }

  lemma {:induction false} PlainItemFacts(t: string, m: Marker, k: nat, b: nat, n: nat)
    requires MarkerLength(t, m) == Some(k) && k + b <= |t|
    requires b == BlankRun(t[k..]) && n == k + b + PlainRun(t[k + b..]) && 0 < b && k + b < n
    ensures n <= |t| && PlainItem(t[..n], m)
  {
    assert '(' !in t[..n] && '\n' !in t[..n] by {
      PlainItemText(t, m, k, b, n);
    }
    assert Marked(t[..n], m) by {
      assert IsBlank(t[k..][0]);
      MarkedPrefix(t, m, n);
    }
  }

  /** The text of a plain item holds no parenthesis and no line feed. */
  lemma {:induction false} PlainItemText(t: string, m: Marker, k: nat, b: nat, n: nat)
    requires MarkerLength(t, m) == Some(k) && k + b <= |t|
    requires b == BlankRun(t[k..]) && n == k + b + PlainRun(t[k + b..])
    ensures '(' !in t[..n] && '\n' !in t[..n]
  {
    MarkerPlain(t, m);
    forall i | 0 <= i < n ensures t[i] != '(' && t[i] != '\n' {
      if k <= i < k + b {
        assert t[i] == t[k..][i - k];
      } else if k + b <= i {
        assert t[i] == t[k + b..][i - k - b];
      }
    }
  }

  /** A marker holds neither a parenthesis nor a line feed. */
  lemma {:induction false} MarkerPlain(t: string, m: Marker)
    requires MarkerLength(t, m).Some?
    ensures forall i :: 0 <= i < MarkerLength(t, m).value ==> t[i] != '(' && t[i] != '\n'
  {
  }

  // ---------------------------------------------------------------------------
  // Transitions and parameters.

  /** `\s+→\s+` and at least one more character: where a condition may end. */
  predicate ArrowAhead(u: string) {
    var a := BlankRun(u);
    a < |u| && 0 < a && u[a] == '→'
    && 0 < BlankRun(u[a + 1..]) < |u[a + 1..]|
  }

  /** The text after the blanks that follow the arrow. */
  function AfterArrow(u: string): (r: string)
    requires ArrowAhead(u)
    ensures r != [] && |r| < |u| && r == u[|u| - |r|..]
  {
    var a := BlankRun(u);
    u[a + 1..][BlankRun(u[a + 1..])..]
  }

  /** `(.+?)\s+→\s+(.+?)(?:\s+\(|$)` on one line: the length of the match
      and the condition and target captured. */
  function ConditionTarget(line: string): (r: Option<(nat, Transition)>)
    ensures r.Some? ==> 1 <= r.value.0 <= |line|
    ensures r.Some? ==> Captures(line, r.value.1)
    ensures r.None? <==> forall j :: 1 <= j <= |line| ==> !ArrowAhead(line[j..])
  {
    match Seek(line, 1, ArrowAhead)
    case None => None
    case Some(c) =>
      var target := AfterArrow(line[c..]);
      Some((|line| - |target| + TargetEnd(target), Transition(line[..c], BeforeAnnotation(target))))
  }

  /** `tr` is what `(.+?)\s+→\s+(.+?)(?:\s+\(|$)` captures at the start of
      `line`: the condition is the shortest non-empty prefix that an arrow
      with blanks around it follows, and the target is what the lazy capture
      takes after those blanks, up to an annotation or the end of the line. */
  predicate Captures(line: string, tr: Transition) {
    var c := |tr.condition|;
    1 <= c < |line| && tr.condition == line[..c] && ArrowAhead(line[c..])
    && (forall j :: 1 <= j < c ==> !ArrowAhead(line[j..]))
    && tr.target == BeforeAnnotation(AfterArrow(line[c..]))
  }

  lemma {:induction false} BlankRunPrefix(u: string, v: string)
    requires |u| <= |v| && u == v[..|u|] && BlankRun(u) < |u|
    ensures BlankRun(v) == BlankRun(u)
    decreases |u|
  {
    if IsBlank(u[0]) {
      assert v[1..][..|u| - 1] == u[1..];
      BlankRunPrefix(u[1..], v[1..]);
    }
  }

  /** An arrow with blanks around it in a prefix is one in the whole text. */
  lemma {:induction false} ArrowExtends(u: string, v: string)
    requires |u| <= |v| && u == v[..|u|]
    ensures ArrowAhead(u) ==> ArrowAhead(v)
  {
    if ArrowAhead(u) {
      ArrowExtended(u, v);
    }
  }

  lemma {:induction false} ArrowExtended(u: string, v: string)
    requires ArrowAhead(u) && |u| <= |v| && u == v[..|u|]
    ensures ArrowAhead(v)
  {
    var a := BlankRun(u);
    BlankRunPrefix(u, v);
    assert v[a] == u[a];
    var u', v' := u[a + 1..], v[a + 1..];
    assert u' == v'[..|u'|];
    BlankRunPrefix(u', v');
  }

  /** Blanks and a parenthesis in a prefix are there in the whole text. */
  lemma {:induction false} OpensExtends(u: string, v: string)
    requires |u| <= |v| && u == v[..|u|]
    ensures Opens(u) ==> Opens(v)
  {
    if Opens(u) {
      BlankRunPrefix(u, v);
      assert v[BlankRun(u)] == u[BlankRun(u)];
    }
  }

  /** Where `(.+?)(?:\s+\(|$)` stops matching the target: after the
      blanks and the opening parenthesis of an annotation, or at the end. */
  function TargetEnd(target: string): (n: nat)
    requires target != []
    ensures |BeforeAnnotation(target)| <= n <= |target|
  {
    var cut := BeforeAnnotation(target);
    if |cut| < |target| then |cut| + BlankRun(target[|cut|..]) + 1 else |cut|
  }

  /** `-\s+WORD\s+` where WORD is `If` (strategic transitions) or nothing at
      all (tactical ones): the length of the lead. */
  function TransitionLead(t: string, word: string): (r: Option<nat>)
    ensures r.Some? ==> 2 <= r.value <= |t|
    ensures r.Some? ==> t[0] == '-' && 0 < BlankRun(t[1..]) && StartsWith(t[1 + BlankRun(t[1..])..], word)
  {
    if t == [] || t[0] != '-' then None
    else
      var a := BlankRun(t[1..]);
      if a == 0 then None
      else if word == [] then Some(1 + a)
      else if !StartsWith(t[1 + a..], word) then None
      else
        var b := BlankRun(t[1 + a + |word|..]);
        if b == 0 then None else Some(1 + a + |word| + b)
  }

  /** `-\s+WORD\s+(.+?)\s+→\s+(.+?)(?:\s+\(|$)`: the length of the match
      and the two captures. */
  function TransitionAt(t: string, word: string): (r: Option<(nat, Transition)>)
    ensures r.Some? ==> 1 <= r.value.0 <= |t|
    ensures r.Some? ==> TransitionLead(t, word).Some?
    ensures r.Some? ==> Captures(LineRest(t[TransitionLead(t, word).value..]), r.value.1)
  {
    match TransitionLead(t, word)
    case None => None
    case Some(s) =>
      match ConditionTarget(LineRest(t[s..]))
      case None => None
      case Some((n, tr)) => Some((s + n, tr))
  }

  /** `:\s+` and at least one more character: where a parameter key may end. */
  predicate ColonAhead(u: string) {
    u != [] && u[0] == ':' && 0 < BlankRun(u[1..]) < |u[1..]|
  }

  /** `-\s+(.+?):\s+(.+)$` on one line: the length of the match and the key
      and value. */
  function ParamAt(t: string): (r: Option<(nat, Param)>)
    ensures r.Some? ==> 1 <= r.value.0 <= |t|
  {
    if t == [] || t[0] != '-' then None
    else
      var a := BlankRun(t[1..]);
      var line := LineRest(t[1 + a..]);
      if a == 0 then None
      else match Seek(line, 1, ColonAhead)
        case None => None
        case Some(c) =>
          var value := line[c + 1..][BlankRun(line[c + 1..])..];
          Some((1 + a + |line|, Param(line[..c], value)))
  }

  // ---------------------------------------------------------------------------
  // Sections and headed entries.

  /** `##\s+Title` at the start of `u`: the length of the heading. */
  function HeadingLength(u: string, title: string): (r: Option<nat>)
    ensures r.Some? ==> 3 <= r.value <= |u|
  {
    if StartsWith(u, "##") then
      var b := BlankRun(u[2..]);
      if b > 0 && StartsWith(u[2 + b..], title) then Some(2 + b + |title|) else None
    else None
  }

  predicate HeadingAhead(u: string, title: string) {
    HeadingLength(u, title).Some?
  }

  /** `##\s+Title(.+?)(?=STOP)` with `.` matching line breaks: the text
      between the heading and the earliest stop after it. */
  function SectionAt(t: string, title: string, stop: string -> bool): Option<string> {
    match HeadingLength(t, title)
    case None => None
    case Some(h) =>
      match Seek(t[h..], 1, stop)
      case None => None
      case Some(k) => Some(t[h..][..k])
  }

  function Section(md: string, title: string, stop: string -> bool): (r: Option<string>)
    ensures r.None? <==> forall p :: 0 <= p <= |md| ==> SectionAt(md[p..], title, stop).None?
  {
    match Leftmost(md, t => SectionAt(t, title, stop))
    case None => None
    case Some((_, v)) => Some(v)
  }

  /** A heading read by `HASHES\s+(.+?)\n([\s\S]+?)(?=STOP)`. */
  datatype Entry = Entry(name: string, body: string)

  /** The heading marker, the blanks after it, a name that runs to a line
      feed, and a body that runs to the earliest stop: the length of the
      match and the entry. */
  function EntryAt(t: string, hashes: string, stop: string -> bool): (r: Option<(nat, Entry)>)
    ensures r.Some? ==> 1 <= r.value.0 <= |t|
  {
    if !StartsWith(t, hashes) || hashes == [] then None
    else
      var b := BlankRun(t[|hashes|..]);
      var v := t[|hashes| + b..];
      var name := LineRest(v);
      if b == 0 || name == [] || |name| == |v| || v[|name|] != '\n' then None
      else
        var w := v[|name| + 1..];
        match Seek(w, 1, stop)
        case None => None
        case Some(k) => Some((|hashes| + b + |name| + 1 + k, Entry(name, w[..k])))
  }

  /** Where the body of a `###` entry stops. */
  predicate EntryStop(u: string) {
    StartsWith(u, "###") || StartsWith(u, "##") || StartsWith(u, "---")
  }

  /** Where the body of a `####` awareness entry stops. */
  predicate AwarenessEntryStop(u: string) {
    StartsWith(u, "####") || StartsWith(u, "###") || StartsWith(u, "##") || u == []
  }

  /** `###\s+(.+?)\n([\s\S]+?)(?=###|##|---)`: a behaviour entry. */
  function BehaviorEntryAt(t: string): (r: Option<(nat, Entry)>)
    ensures r.Some? ==> 1 <= r.value.0 <= |t|
  {
    EntryAt(t, "###", EntryStop)
  }

  /** `####\s+(.+?)\n([\s\S]+?)(?=####|###|##|$)`: an awareness entry. */
  function AwarenessEntryAt(t: string): (r: Option<(nat, Entry)>)
    ensures r.Some? ==> 1 <= r.value.0 <= |t|
  {
    EntryAt(t, "####", AwarenessEntryStop)
  }

  /** The entries of a section, in the order their headings appear. */
  function Entries(content: string): seq<Entry> {
    Scan(content, BehaviorEntryAt)
  }

  function AwarenessEntries(content: string): seq<Entry> {
    Scan(content, AwarenessEntryAt)
  }

  predicate FourHashesAhead(u: string) {
    StartsWith(u, "####") && |u| > 4
  }

  /** `###\s+Title[\s\S]+?(####[\s\S]+?)(?=STOP|$)`: from the first `####`
      after the heading (at least one character after it) up to the earliest
      stop or the end. */
  function SubsectionAt(t: string, title: string, stop: string -> bool): Option<string> {
    if !StartsWith(t, "###") then None
    else
      var b := BlankRun(t[3..]);
      if b == 0 || !StartsWith(t[3 + b..], title) then None
      else
        var v := t[3 + b + |title|..];
        match Seek(v, 1, FourHashesAhead)
        case None => None
        case Some(j) =>
          var w := v[j + 4..];
          Some(v[j..j + 4 + Until(w, 1, stop)])
  }

  function Subsection(content: string, title: string, stop: string -> bool): (r: Option<string>)
    ensures r.None? <==> forall p :: 0 <= p <= |content| ==> SubsectionAt(content[p..], title, stop).None?
  {
    match Leftmost(content, t => SubsectionAt(t, title, stop))
    case None => None
    case Some((_, v)) => Some(v)
  }

  // ---------------------------------------------------------------------------
  // Text without bold labels.

  /** Every label starts with `**`, so a bullet label needs a `*`. */
  lemma {:induction false} LabelNeedsStar(t: string, l: Label)
    ensures BulletLabel(t, l).Some? ==> '*' in t
  {
    if BulletLabel(t, l).Some? {
      var b := BlankRun(t[1..]);
      assert StartsWith(t[1 + b..], "**");
      assert t[1 + b] == t[1 + b..][0];
    }
  }

  /** A body without `*` has no field, no annotated field and no list
      block with the label `l`. */
  lemma {:induction false} Unlabelled(body: string, l: Label)
    requires '*' !in body
    ensures Field(body, l).None? && AnnotatedField(body, l).None?
    ensures ListBlock(body, l, Numbered).None? && ListBlock(body, l, Dash).None?
  {
    forall p | 0 <= p <= |body|
      ensures BulletLabel(body[p..], l).None?
    {
      NotInSlice(body, '*', p, |body|);
      assert body[p..|body|] == body[p..];
      LabelNeedsStar(body[p..], l);
    }
    assert forall p :: 0 <= p <= |body| ==> HeaderAt(body[p..], l).None?;
  }

  /** Nor has it a description. */
  lemma {:induction false} Undescribed(body: string)
    requires '*' !in body
    ensures DescriptionField(body).None?
  {
    Unlabelled(body, Named("Description"));
    forall p | 0 <= p <= |body|
      ensures DescriptionAt(body[p..]).None?
    {
      NotInSlice(body, '*', p, |body|);
      assert body[p..|body|] == body[p..];
      LabelNeedsStar(body[p..], Named("Description"));
    }
  }
}
