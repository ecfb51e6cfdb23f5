/** What templating guarantees: the validator's scanner sees every step a template can
    read, and resolution is single-pass. */
module TemplateProofs {
  import opened Wrappers
  import opened FlowTypes
  import opened Template

  // ----- leftmost double characters -----------------------------------------------------

  ghost predicate DoubleAt(s: string, c: char, i: int) {
    0 <= i < |s| - 1 && s[i] == c && s[i + 1] == c
  }

  ghost predicate NoDoubleBefore(s: string, c: char, n: int) {
    forall j :: 0 <= j < n ==> !DoubleAt(s, c, j)
  }

  /** `FindDouble` finds the leftmost occurrence, and none exactly when there is none. */
  lemma {:induction false} FindDoubleLeftmost(s: string, c: char)
    ensures FindDouble(s, c).Some? ==>
              DoubleAt(s, c, FindDouble(s, c).value) && NoDoubleBefore(s, c, FindDouble(s, c).value)
    ensures FindDouble(s, c).None? ==> NoDoubleBefore(s, c, |s|)
  {
    if |s| >= 2 && !(s[0] == c && s[1] == c) {
      FindDoubleLeftmost(s[1..], c);
      forall j | 0 <= j ensures DoubleAt(s, c, j + 1) == DoubleAt(s[1..], c, j) {}
      forall n, j | NoDoubleBefore(s[1..], c, n) && 0 <= j < n + 1 ensures !DoubleAt(s, c, j) {
        if j > 0 { assert !DoubleAt(s[1..], c, j - 1); }
      }
    }
  }

  lemma FindDoubleIs(s: string, c: char, k: nat)
    requires DoubleAt(s, c, k) && NoDoubleBefore(s, c, k)
    ensures FindDouble(s, c) == Some(k)
  {
    FindDoubleLeftmost(s, c);
    match FindDouble(s, c) {
      case None => assert false;
      case Some(m) =>
    }
  }

  // ----- trimming -----------------------------------------------------------------------

  lemma {:induction false} TrimStartSuffix(s: string)
    ensures |TrimStart(s)| <= |s|
    ensures s == s[..|s| - |TrimStart(s)|] + TrimStart(s)
    ensures forall i :: 0 <= i < |s| - |TrimStart(s)| ==> IsWhitespace(s[i])
  {
    if s != "" && IsWhitespace(s[0]) {
      TrimStartSuffix(s[1..]);
      var r := TrimStart(s);
      assert s[|s| - |r|..] == s[1..][|s[1..]| - |r|..];
      forall i | 0 <= i < |s| - |r| ensures IsWhitespace(s[i]) {
        if i > 0 { assert s[i] == s[1..][i - 1]; }
      }
    }
  }

  lemma {:induction false} TrimEndPrefix(s: string)
    ensures |TrimEnd(s)| <= |s|
    ensures s == TrimEnd(s) + s[|TrimEnd(s)|..]
    ensures forall i :: |TrimEnd(s)| <= i < |s| ==> IsWhitespace(s[i])
  {
    if s != "" && IsWhitespace(s[|s| - 1]) {
      TrimEndPrefix(s[..|s| - 1]);
    }
  }

  lemma {:induction false} TrimStartAppend(s: string, c: char)
    requires !IsWhitespace(c)
    ensures TrimStart(s + [c]) == TrimStart(s) + [c]
  {
    if s != "" {
      assert (s + [c])[1..] == s[1..] + [c];
      TrimStartAppend(s[1..], c);
    }
  }

  /** Dropping a final brace before trimming only drops it (and what trimming then eats). */
  lemma TrimDropBrace(inner: string)
    requires inner != "" && inner[|inner| - 1] == '}'
    ensures Trim(inner) != "" && Trim(inner)[|Trim(inner)| - 1] == '}'
    ensures Trim(inner[..|inner| - 1]) == TrimEnd(Trim(inner)[..|Trim(inner)| - 1])
  {
    var x := inner[..|inner| - 1];
    assert inner == x + ['}'];
    TrimStartAppend(x, '}');
    assert (TrimStart(x) + ['}'])[..|TrimStart(x)|] == TrimStart(x);
  }

  // ----- the whole-span shortcut against the scanner ------------------------------------

  /** The decomposition behind a whole span: blanks, `{{`, the inner text, `}}`, blanks. */
  lemma WholeSpanShape(text: string) returns (before: string, inner: string, trailing: string)
    requires WholeSpan(text).Some?
    ensures text == before + "{{" + inner + "}}" + trailing
    ensures forall i :: 0 <= i < |before| ==> IsWhitespace(before[i])
    ensures forall i :: 0 <= i < |trailing| ==> IsWhitespace(trailing[i])
    ensures FindDouble(inner, '{').None? && FindDouble(inner, '}').None?
    ensures WholeSpan(text) == Some(Trim(inner))
  {
    hide TrimStart, TrimEnd, FindDouble;
    TrimStartSuffix(text);
    var t0 := TrimStart(text);
    before := text[..|text| - |t0|];
    TrimEndPrefix(t0);
    var t := TrimEnd(t0);
    trailing := t0[|t|..];
    var u := t[2..];
    inner := u[..|u| - 2];
    Braces(t);
    Regroup(before, "{{" + inner + "}}", trailing, inner);
  }

  lemma Braces(t: string)
    requires |t| >= 4 && t[..2] == "{{" && t[2..][|t| - 4..] == "}}"
    ensures t == "{{" + t[2..][..|t| - 4] + "}}"
  {
    var u := t[2..];
    assert u == u[..|t| - 4] + u[|t| - 4..];
    assert t == t[..2] + u;
  }

  lemma Regroup(a: string, m: string, z: string, inner: string)
    requires m == "{{" + inner + "}}"
    ensures a + (m + z) == a + "{{" + inner + "}}" + z
  {
  }

  /** The scanner reads the same expression, unless the inner text ends in a brace: then it
      closes one character earlier. */
  lemma WholeSpanScan(text: string)
    requires WholeSpan(text).Some?
    ensures var expr := WholeSpan(text).value;
            var scan := NextSpan(text);
            && scan.Span?
            && (scan.expr == expr
                || (expr != "" && expr[|expr| - 1] == '}' && scan.expr == TrimEnd(expr[..|expr| - 1])))
  {
    var before, inner, trailing := WholeSpanShape(text);
    assert Blank(before);
    Opens(before, inner + "}}" + trailing);
    assert text == before + "{{" + (inner + "}}" + trailing);
    hide *;
    Halves(before, "{{", inner + "}}" + trailing);
    if inner != "" && inner[|inner| - 1] == '}' {
      ClosesEarly(inner, trailing);
      TrimDropBrace(inner);
      ScannedAs(text, before, inner + "}}" + trailing, |inner| - 1);
      assert (inner + "}}" + trailing)[..|inner| - 1] == inner[..|inner| - 1];
    } else {
      Closes(inner, trailing);
      ScannedAs(text, before, inner + "}}" + trailing, |inner|);
      assert (inner + "}}" + trailing)[..|inner|] == inner;
    }
  }

  lemma Halves(a: string, b: string, c: string)
    ensures (a + b + c)[|a| + |b|..] == c
  {
  }

  /** Blanks do not open a span. */
  lemma Opens(before: string, rest: string)
    requires Blank(before)
    ensures FindDouble(before + "{{" + rest, '{') == Some(|before|)
  {
    BlankUndoubled(before);
    DoubleAfter(before, '{', rest);
    assert "{{" == ['{', '{'];
  }

  lemma Closes(inner: string, trailing: string)
    requires FindDouble(inner, '}').None? && (inner != "" ==> inner[|inner| - 1] != '}')
    ensures FindDouble(inner + "}}" + trailing, '}') == Some(|inner|)
  {
    DoubleAfter(inner, '}', trailing);
    assert "}}" == ['}', '}'];
  }

  lemma ClosesEarly(inner: string, trailing: string)
    requires FindDouble(inner, '}').None? && inner != "" && inner[|inner| - 1] == '}'
    ensures FindDouble(inner + "}}" + trailing, '}') == Some(|inner| - 1)
  {
    var d := inner[..|inner| - 1];
    DropLast(inner);
    DoubleAfter(d, '}', "}" + trailing);
    hide FindDouble, Undoubled;
    assert inner + "}}" + trailing == d + ['}', '}'] + ("}" + trailing);
  }

  lemma ScannedAs(text: string, before: string, after: string, end: nat)
    requires FindDouble(text, '{') == Some(|before|) && |before| + 2 <= |text| && text[|before| + 2..] == after
    requires FindDouble(after, '}') == Some(end) && end + 2 <= |after|
    ensures NextSpan(text).Span? && NextSpan(text).expr == Trim(after[..end])
  {
    hide FindDouble, Trim;
  }

  // ----- which step an expression reads -------------------------------------------------

  lemma {:induction false} FirstDotTake(s: string, m: nat)
    requires m <= |s|
    requires FirstDot(s).Some? && FirstDot(s).value < m
    ensures s[FirstDot(s).value] == '.'
    ensures FirstDot(s[..m]) == FirstDot(s)
  {
    if s[0] != '.' {
      FirstDotTake(s[1..], m - 1);
      assert s[..m][1..] == s[1..][..m - 1];
    }
  }

  /** An expression that reads a step field names the step between its first two dots, and
      cutting the expression anywhere after the second dot does not change that. */
  lemma RefOfCut(expr: string, m: nat)
    requires m <= |expr| && |SplitDots(expr)| >= 3 && SplitDots(expr)[0] == "steps"
    requires FirstDot(expr[6..]).Some? && 6 + FirstDot(expr[6..]).value < m
    ensures RefOf(expr[..m]) == [SplitDots(expr)[1]]
  {
    FirstDotTake(expr, |expr|);
    var k := FirstDot(expr).value;
    assert expr[..k] == "steps";
    assert expr[..m][..6] == "steps" + [expr[5]];
    FirstDotTake(expr[6..], m - 6);
    assert expr[..m][6..] == expr[6..][..m - 6];
    var id := FirstDot(expr[6..]).value;
    assert expr[6..][..m - 6][..id] == expr[6..][..id];
  }

  /** A path with a step field has its second dot inside the expression. */
  lemma StepPathShape(expr: string)
    requires |SplitDots(expr)| >= 3 && SplitDots(expr)[0] == "steps"
    ensures |expr| > 6 && FirstDot(expr[6..]).Some? && expr[6 + FirstDot(expr[6..]).value] == '.'
    ensures RefOf(expr) == [SplitDots(expr)[1]]
  {
    FirstDotTake(expr, |expr|);
    var k := FirstDot(expr).value;
    assert expr[..k] == "steps" && |expr[..k]| == 5;
    assert expr[..|expr|] == expr;
    FirstDotTake(expr[6..], |expr[6..]|);
    RefOfCut(expr, |expr|);
  }

  lemma WholeSpanRef(text: string)
    requires WholeSpan(text).Some?
    requires |SplitDots(WholeSpan(text).value)| >= 3 && SplitDots(WholeSpan(text).value)[0] == "steps"
    ensures SplitDots(WholeSpan(text).value)[1] in StepRefs(text)
  {
    var expr := WholeSpan(text).value;
    WholeSpanScan(text);
    StepPathShape(expr);
    var scanned := NextSpan(text).expr;
    if scanned != expr {
      var d := expr[..|expr| - 1];
      TrimEndPrefix(d);
      var q := 6 + FirstDot(expr[6..]).value;
      assert d[q] == '.';
      assert |TrimEnd(d)| > q;
      assert TrimEnd(d) == expr[..|TrimEnd(d)|];
      RefOfCut(expr, |TrimEnd(d)|);
    }
    assert SplitDots(expr)[1] in RefOf(scanned);
  }

  // ----- the footprint theorem ----------------------------------------------------------

  /** The context with only the given step entries kept. */
  function Restrict(ctx: TemplateContext, keep: set<StepId>): TemplateContext {
    ctx.(steps := map id | id in ctx.steps && id in keep :: ctx.steps[id])
  }

  lemma PathFootprint(expr: string, ctx: TemplateContext, keep: set<StepId>)
    requires |SplitDots(expr)| >= 3 && SplitDots(expr)[0] == "steps" ==> SplitDots(expr)[1] in keep
    ensures ResolvePath(expr, Restrict(ctx, keep)) == ResolvePath(expr, ctx)
  {
  }

  lemma {:induction false} SpansFootprint(text: string, ctx: TemplateContext, keep: set<StepId>)
    requires forall id | id in StepRefs(text) :: id in keep
    ensures ResolveSpans(text, Restrict(ctx, keep)) == ResolveSpans(text, ctx)
    decreases |text|
  {
    match NextSpan(text) {
      case Span(_, expr, after) =>
        assert StepRefs(text) == RefOf(expr) + StepRefs(after);
        if |SplitDots(expr)| >= 3 && SplitDots(expr)[0] == "steps" {
          StepPathShape(expr);
          assert SplitDots(expr)[1] in StepRefs(text);
        }
        PathFootprint(expr, ctx, keep);
        SpansFootprint(after, ctx, keep);
      case _ =>
    }
  }

  /** Scanner agreement: what a template resolves to, success or error, depends on no step
      entry other than those `extract_step_refs` reports for it. */
  lemma ScannerSeesEveryRead(text: string, ctx: TemplateContext, keep: set<StepId>)
    requires forall id | id in StepRefs(text) :: id in keep
    ensures Resolve(text, Restrict(ctx, keep)) == Resolve(text, ctx)
  {
    match WholeSpan(text) {
      case None => SpansFootprint(text, ctx, keep);
      case Some(expr) =>
        if |SplitDots(expr)| >= 3 && SplitDots(expr)[0] == "steps" { WholeSpanRef(text); }
        PathFootprint(expr, ctx, keep);
    }
  }

  // ----- single pass --------------------------------------------------------------------

  /** No double of the character in the text, nor half of one at its end. */
  predicate Undoubled(t: string, c: char) {
    FindDouble(t, c).None? && (t != "" ==> t[|t| - 1] != c)
  }

  lemma DoubleAfter(t: string, c: char, x: string)
    requires Undoubled(t, c)
    ensures FindDouble(t + [c, c] + x, c) == Some(|t|)
  {
    var text := t + [c, c] + x;
    FindDoubleLeftmost(t, c);
    forall j | 0 <= j < |t| ensures !DoubleAt(text, c, j) {
      assert text[j] == t[j];
      if j + 1 < |t| { assert text[j + 1] == t[j + 1]; assert !DoubleAt(t, c, j); }
    }
    FindDoubleIs(text, c, |t|);
  }

  datatype Segment = Lit(text: string) | Ref(expr: string)

  /** Segments that can be told apart once written out. */
  predicate Clear(seg: Segment) {
    match seg
    case Lit(t) => Undoubled(t, '{')
    case Ref(e) => Undoubled(e, '}')
  }

  /** Literals alternate with references, so no two literals touch. */
  predicate Alternating(segs: seq<Segment>) {
    forall i :: 0 <= i < |segs| ==> (segs[i].Ref? <==> i % 2 == 1) && Clear(segs[i])
  }

  function Written(segs: seq<Segment>): string {
    if segs == [] then ""
    else (match segs[0]
          case Lit(t) => t
          case Ref(e) => "{{" + e + "}}") + Written(segs[1..])
  }

  /** The intended meaning: literals copied, references replaced by their rendered value,
      whatever characters that value contains. */
  function Meaning(segs: seq<Segment>, ctx: TemplateContext): Result<string, TemplateError> {
    if segs == [] then Ok("")
    else match segs[0]
      case Lit(t) => Prepend(t, Meaning(segs[1..], ctx))
      case Ref(e) =>
        match ResolvePath(Trim(e), ctx)
        case Err(err) => Err(err)
        case Ok(v) => Prepend(Render(v), Meaning(segs[1..], ctx))
  }

  lemma NextSpanOf(t: string, e: string, rest: string)
    requires Clear(Lit(t)) && Clear(Ref(e))
    ensures NextSpan(t + "{{" + e + "}}" + rest) == Span(t, Trim(e), rest)
  {
    var text := t + "{{" + e + "}}" + rest;
    hide Undoubled, FindDouble;
    assert text == t + ['{', '{'] + (e + ['}', '}'] + rest);
    DoubleAfter(t, '{', e + ['}', '}'] + rest);
    DoubleAfter(e, '}', rest);
    assert text[|t| + 2..] == e + ['}', '}'] + rest && text[..|t|] == t;
    assert (e + ['}', '}'] + rest)[..|e|] == e && (e + ['}', '}'] + rest)[|e| + 2..] == rest;
  }

  /** Single pass, as a round trip: writing segments out and resolving the text gives their
      meaning. A rendered value is copied and never scanned again, even if it holds `{{`. */
  lemma {:induction false} ResolveIsSinglePass(segs: seq<Segment>, ctx: TemplateContext)
    requires Alternating(segs)
    ensures ResolveSpans(Written(segs), ctx) == Meaning(segs, ctx)
    decreases |segs|
  {
    if |segs| < 2 {
      FewSegments(segs, ctx);
    } else {
      hide *;
      WrittenTwo(segs);
      MeaningTwo(segs, ctx);
      NextSpanOf(segs[0].text, segs[1].expr, Written(segs[2..]));
      ResolveIsSinglePass(segs[2..], ctx);
      SpanResolved(Written(segs), segs[0].text, Trim(segs[1].expr), Written(segs[2..]), ctx);
    }
  }

  lemma FewSegments(segs: seq<Segment>, ctx: TemplateContext)
    requires Alternating(segs) && |segs| < 2
    ensures ResolveSpans(Written(segs), ctx) == Meaning(segs, ctx)
  {
    if |segs| == 1 {
      var t := segs[0].text;
      assert segs[1..] == [];
      assert Written(segs) == t + "" == t;
      assert Meaning(segs, ctx) == Ok(t + "");
    }
  }

  lemma SpanResolved(text: string, literal: string, expr: string, rest: string, ctx: TemplateContext)
    requires NextSpan(text) == Span(literal, expr, rest)
    ensures ResolveSpans(text, ctx) ==
            match ResolvePath(expr, ctx)
            case Err(e) => Err(e)
            case Ok(v) => Prepend(literal + Render(v), ResolveSpans(rest, ctx))
  {
    hide ResolvePath, Render, Prepend;
  }

  /** What the first literal and reference mean, before the rest. */
  lemma MeaningTwo(segs: seq<Segment>, ctx: TemplateContext)
    requires Alternating(segs) && |segs| >= 2
    ensures segs[0].Lit? && segs[1].Ref?
    ensures Meaning(segs, ctx) ==
            match ResolvePath(Trim(segs[1].expr), ctx)
            case Err(e) => Err(e)
            case Ok(v) => Prepend(segs[0].text + Render(v), Meaning(segs[2..], ctx))
  {
    hide ResolvePath, Render, Clear, Trim;
    assert segs[0].Lit? && segs[1].Ref?;
    assert segs[1..][1..] == segs[2..] && segs[1..][0] == segs[1];
    match ResolvePath(Trim(segs[1].expr), ctx) {
      case Err(_) =>
      case Ok(v) => PrependTwice(segs[0].text, Render(v), Meaning(segs[2..], ctx));
    }
  }

  // ----- resolving an already resolved text ---------------------------------------------

  /** A context in which every value is the empty string and no step has a row. */
  const BLANK: TemplateContext :=
    TemplateContext(JString(""), JString(""), JString(""), map[], JString(""))

  lemma BlankPath(expr: string)
    ensures ResolvePath(expr, BLANK).Ok? ==> ResolvePath(expr, BLANK).value == JString("")
  {
    var rest := SplitDots(expr)[1..];
    assert DotGet(JString(""), rest).Some? ==> rest == [];
  }

  lemma {:induction false} BlankShrinks(text: string)
    requires NextSpan(text) != NoSpan
    ensures ResolveSpans(text, BLANK).Ok? ==> |ResolveSpans(text, BLANK).value| < |text|
    decreases |text|
  {
    match NextSpan(text) {
      case Span(literal, expr, after) =>
        BlankPath(expr);
        if NextSpan(after) != NoSpan { BlankShrinks(after); }
      case _ =>
    }
  }

  lemma NoOpenNoWhole(text: string)
    requires FindDouble(text, '{').None?
    ensures WholeSpan(text).None?
  {
    FindDoubleLeftmost(text, '{');
    if WholeSpan(text).Some? {
      var before, _, _ := WholeSpanShape(text);
      assert DoubleAt(text, '{', |before|);
    }
  }

  // ----- the shortcut -------------------------------------------------------------------

  predicate Blank(s: string) {
    forall i | 0 <= i < |s| :: IsWhitespace(s[i])
  }

  lemma {:induction false} TrimStartBlank(before: string, x: string)
    requires Blank(before) && x != "" && !IsWhitespace(x[0])
    ensures TrimStart(before + x) == x
  {
    if before == "" {
      assert before + x == x;
    } else {
      assert (before + x)[1..] == before[1..] + x;
      TrimStartBlank(before[1..], x);
    }
  }

  lemma {:induction false} TrimEndBlank(x: string, trailing: string)
    requires Blank(trailing) && x != "" && !IsWhitespace(x[|x| - 1])
    ensures TrimEnd(x + trailing) == x
  {
    if trailing == "" {
      assert x + trailing == x;
    } else {
      var n := |trailing| - 1;
      assert (x + trailing)[..|x| + n] == x + trailing[..n];
      TrimEndBlank(x, trailing[..n]);
    }
  }

  /** A whole span is blanks around one pair of braces without doubled braces inside. */
  lemma WholeSpanIs(before: string, inner: string, trailing: string)
    requires Blank(before) && Blank(trailing) && FindDouble(inner, '{').None? && FindDouble(inner, '}').None?
    ensures WholeSpan(before + "{{" + inner + "}}" + trailing) == Some(Trim(inner))
  {
    var x := "{{" + inner + "}}";
    hide FindDouble;
    assert before + "{{" + inner + "}}" + trailing == before + (x + trailing);
    TrimStartBlank(before, x + trailing);
    TrimEndBlank(x, trailing);
    hide TrimStart, TrimEnd;
    assert x[..2] == "{{" && x[2..] == inner + "}}";
    assert (inner + "}}")[|inner|..] == "}}" && (inner + "}}")[..|inner|] == inner;
  }

  /** The expression the whole-text shortcut reads from written segments, if it applies: there
      is one reference, without `{{` in it, between blanks. A closing brace right after the
      reference counts as part of it. */
  function Lone(segs: seq<Segment>): Option<string>
    requires Alternating(segs)
  {
    if 2 <= |segs| <= 3 && Blank(segs[0].text) && FindDouble(segs[1].expr, '{').None? then
      var tail := if |segs| == 3 then segs[2].text else "";
      if Blank(tail) then Some(segs[1].expr)
      else if tail[0] == '}' && Blank(tail[1..]) then Some(segs[1].expr + "}")
      else None
    else None
  }

  lemma BlankUndoubled(t: string)
    requires Blank(t)
    ensures Undoubled(t, '{')
  {
    FindDoubleLeftmost(t, '{');
  }

  lemma Cancel(a: string, b: string, x: string, y: string)
    requires |a| == |b| && a + x == b + y
    ensures a == b && x == y
  {
    assert a == (a + x)[..|a|] == (b + y)[..|b|] == b;
    assert x == (a + x)[|a|..] == (b + y)[|b|..] == y;
  }

  /** Texts that are equal up to where a double first occurs agree before and after it. */
  lemma SameDouble(a: string, b: string, c: char, x: string, y: string)
    requires Undoubled(a, c) && Undoubled(b, c) && a + [c, c] + x == b + [c, c] + y
    ensures a == b && x == y
  {
    hide Undoubled, FindDouble;
    DoubleAfter(a, c, x);
    DoubleAfter(b, c, y);
    Cancel(a + [c, c], b + [c, c], x, y);
    Cancel(a, b, [c, c], [c, c]);
  }

  lemma SameOpening(t: string, e: string, rest: string, before: string, inner: string, trailing: string)
    requires Clear(Lit(t)) && Blank(before)
    requires t + "{{" + e + "}}" + rest == before + "{{" + inner + "}}" + trailing
    ensures t == before && e + "}}" + rest == inner + "}}" + trailing
  {
    BlankUndoubled(before);
    hide Undoubled, Blank;
    assert "{{" == ['{', '{'];
    assert t + "{{" + e + "}}" + rest == t + "{{" + (e + "}}" + rest);
    assert before + "{{" + inner + "}}" + trailing == before + "{{" + (inner + "}}" + trailing);
    SameDouble(t, before, '{', e + "}}" + rest, inner + "}}" + trailing);
  }

  lemma DropLast(inner: string)
    requires FindDouble(inner, '}').None? && inner != "" && inner[|inner| - 1] == '}'
    ensures Undoubled(inner[..|inner| - 1], '}')
  {
    var d := inner[..|inner| - 1];
    FindDoubleLeftmost(inner, '}');
    FindDoubleLeftmost(d, '}');
    hide FindDouble;
    if d != "" { assert !DoubleAt(inner, '}', |d| - 1); }
    forall i ensures !DoubleAt(d, '}', i) {
      if 0 <= i < |d| - 1 { assert !DoubleAt(inner, '}', i); }
    }
  }

  lemma SameClosing(e: string, rest: string, inner: string, trailing: string)
    requires Clear(Ref(e)) && FindDouble(inner, '}').None? && e + "}}" + rest == inner + "}}" + trailing
    ensures (inner == e && rest == trailing) || (inner == e + "}" && rest == "}" + trailing)
  {
    assert "}}" == ['}', '}'];
    if inner != "" && inner[|inner| - 1] == '}' {
      DropLast(inner);
      var d := inner[..|inner| - 1];
      hide Undoubled, Clear, FindDouble;
      assert inner == d + "}";
      assert inner + "}}" + trailing == d + "}}" + ("}" + trailing);
      SameDouble(e, d, '}', rest, "}" + trailing);
    } else {
      hide Undoubled, Clear, FindDouble;
      SameDouble(e, inner, '}', rest, trailing);
    }
  }

  lemma {:induction false} WrittenBraces(segs: seq<Segment>)
    requires Alternating(segs) && |segs| >= 2
    ensures '{' in Written(segs)
  {
    assert segs[1].Ref? && segs[0].Lit?;
    assert Written(segs) == segs[0].text + (("{{" + segs[1].expr + "}}") + Written(segs[1..][1..]));
    assert Written(segs)[|segs[0].text|] == '{';
  }

  lemma WrittenTwo(segs: seq<Segment>)
    requires Alternating(segs) && |segs| >= 2
    ensures segs[0].Lit? && segs[1].Ref? && Clear(segs[0]) && Clear(segs[1]) && Alternating(segs[2..])
    ensures Written(segs) == segs[0].text + "{{" + segs[1].expr + "}}" + Written(segs[2..])
  {
    hide Clear;
    assert segs[0].Lit? && segs[1].Ref?;
    var t, e, rest := segs[0].text, segs[1].expr, Written(segs[2..]);
    assert segs[1..][1..] == segs[2..] && segs[1..][0] == segs[1];
    assert Written(segs[1..]) == "{{" + e + "}}" + rest;
    Regrouped(t, e, rest);
  }

  lemma Regrouped(t: string, e: string, rest: string)
    ensures t + ("{{" + e + "}}" + rest) == t + "{{" + e + "}}" + rest
  {
  }

  lemma WrittenTail(segs: seq<Segment>)
    requires Alternating(segs) && 2 <= |segs| <= 3
    ensures Written(segs[2..]) == if |segs| == 3 then segs[2].text else ""
  {
    hide Clear;
    if |segs| == 3 {
      assert segs[2].Lit? && segs[2..] == [segs[2]] && [segs[2]][1..] == [];
      assert segs[2].text + "" == segs[2].text;
    }
  }

  lemma BlankHasNoBrace(s: string)
    requires Blank(s)
    ensures '{' !in s && '{' !in "}" + s
  {
  }

  /** The shortcut applies to written segments exactly when there is a lone reference. */
  lemma WholeIsLone(segs: seq<Segment>)
    requires Alternating(segs)
    ensures WholeSpan(Written(segs)) == match Lone(segs) case None => None case Some(e) => Some(Trim(e))
  {
    hide WholeSpan, FindDouble, Trim, Written;
    if |segs| < 2 {
      NoReference(segs);
    } else {
      var text := Written(segs);
      WrittenTwo(segs);
      var t, e, rest := segs[0].text, segs[1].expr, Written(segs[2..]);
      if WholeSpan(text).Some? {
        var before, inner, trailing := WholeSpanShape(text);
        SameOpening(t, e, rest, before, inner, trailing);
        SameClosing(e, rest, inner, trailing);
        LoneFound(segs, inner, trailing);
      } else if Lone(segs).Some? {
        LoneShape(segs);
      }
    }
  }

  lemma NoReference(segs: seq<Segment>)
    requires Alternating(segs) && |segs| < 2
    ensures WholeSpan(Written(segs)).None?
  {
    hide WholeSpan;
    if |segs| == 1 {
      assert Clear(segs[0]) && segs[1..] == [] && segs[0].text + "" == segs[0].text;
    }
    NoOpenNoWhole(Written(segs));
  }

  lemma LoneFound(segs: seq<Segment>, inner: string, trailing: string)
    requires Alternating(segs) && |segs| >= 2 && segs[0].Lit? && segs[1].Ref? && Blank(segs[0].text) && Blank(trailing)
    requires FindDouble(inner, '{').None?
    requires var e, rest := segs[1].expr, Written(segs[2..]);
             (inner == e && rest == trailing) || (inner == e + "}" && rest == "}" + trailing)
    ensures Lone(segs) == Some(inner)
  {
    var e, rest := segs[1].expr, Written(segs[2..]);
    WrittenTwo(segs);
    ShorterOpens(e, inner);
    if |segs| > 3 {
      WrittenBraces(segs[2..]);
      BlankHasNoBrace(trailing);
    } else {
      WrittenTail(segs);
    }
    hide Written, FindDouble;
    if rest == "}" + trailing { assert rest[1..] == trailing && rest[0] == '}'; }
  }

  lemma ShorterOpens(e: string, inner: string)
    requires (inner == e || inner == e + "}") && FindDouble(inner, '{').None?
    ensures FindDouble(e, '{').None?
  {
    FindDoubleLeftmost(e, '{');
    FindDoubleLeftmost(inner, '{');
    hide FindDouble;
    assert forall i :: DoubleAt(e, '{', i) ==> DoubleAt(inner, '{', i);
  }

  lemma LoneShape(segs: seq<Segment>)
    requires Alternating(segs) && Lone(segs).Some?
    ensures WholeSpan(Written(segs)) == Some(Trim(Lone(segs).value))
  {
    hide *;
    LoneParts(segs);
    WrittenTwo(segs);
    WrittenTail(segs);
    var t, e, rest := segs[0].text, segs[1].expr, Written(segs[2..]);
    if Lone(segs) == Some(e) {
      ClearRef(e);
      WholeSpanIs(t, e, rest);
    } else {
      WithBrace(e);
      Rebrace(t, e, rest);
      WholeSpanIs(t, e + "}", rest[1..]);
    }
  }

  /** What a lone reference stands between. */
  lemma LoneParts(segs: seq<Segment>)
    requires Alternating(segs) && Lone(segs).Some?
    ensures 2 <= |segs| <= 3 && segs[0].Lit? && segs[1].Ref? && (|segs| == 3 ==> segs[2].Lit?)
    ensures Blank(segs[0].text) && FindDouble(segs[1].expr, '{').None?
    ensures var tail := if |segs| == 3 then segs[2].text else "";
            || (Blank(tail) && Lone(segs) == Some(segs[1].expr))
            || (tail != "" && tail[0] == '}' && Blank(tail[1..]) && Lone(segs) == Some(segs[1].expr + "}"))
  {
    hide Clear, FindDouble;
  }

  lemma ClearRef(e: string)
    requires Clear(Ref(e))
    ensures FindDouble(e, '}').None?
  {
    hide FindDouble;
  }

  lemma Rebrace(t: string, e: string, rest: string)
    requires rest != "" && rest[0] == '}'
    ensures t + "{{" + e + "}}" + rest == t + "{{" + (e + "}") + "}}" + rest[1..]
  {
    assert rest == "}" + rest[1..];
  }

  lemma WithBrace(e: string)
    requires Clear(Ref(e)) && FindDouble(e, '{').None?
    ensures FindDouble(e + "}", '{').None? && FindDouble(e + "}", '}').None?
  {
    FindDoubleLeftmost(e, '{');
    FindDoubleLeftmost(e, '}');
    FindDoubleLeftmost(e + "}", '{');
    FindDoubleLeftmost(e + "}", '}');
    hide FindDouble;
    forall i ensures !DoubleAt(e + "}", '{', i) && !DoubleAt(e + "}", '}', i) {
      if 0 <= i < |e| - 1 { assert !DoubleAt(e, '{', i) && !DoubleAt(e, '}', i); }
    }
  }

  /** What a text written from segments resolves to, values and errors alike: the value of its
      lone reference, blanks dropped, if it has one, and otherwise its meaning. */
  lemma ResolveWritten(segs: seq<Segment>, ctx: TemplateContext)
    requires Alternating(segs)
    ensures Resolve(Written(segs), ctx) ==
            match Lone(segs)
            case None => Meaning(segs, ctx)
            case Some(e) => Meaning([Lit(""), Ref(e)], ctx)
  {
    WholeIsLone(segs);
    ResolveIsSinglePass(segs, ctx);
    hide WholeSpan, ResolvePath, Written, Trim, Lone, ResolveSpans;
    match Lone(segs) {
      case None =>
      case Some(e) => LoneMeaning(e, ctx);
    }
  }

  lemma LoneMeaning(e: string, ctx: TemplateContext)
    ensures Meaning([Lit(""), Ref(e)], ctx) ==
            match ResolvePath(Trim(e), ctx) case Err(err) => Err(err) case Ok(v) => Ok(Render(v))
  {
    hide ResolvePath, Trim;
    assert [Lit(""), Ref(e)][1..] == [Ref(e)] && [Ref(e)][1..] == [];
    match ResolvePath(Trim(e), ctx) {
      case Err(_) =>
      case Ok(v) =>
        assert Meaning([Ref(e)], ctx) == Ok(Render(v) + "");
        assert Render(v) + "" == Render(v) && "" + Render(v) == Render(v);
    }
  }

  /** The scheduler resolves a step's input a second time when it builds the job request.
      That second pass leaves the text alone in every context exactly when the text holds
      no opening braces. */
  lemma SecondPassIsIdentity(text: string)
    ensures (forall ctx :: Resolve(text, ctx) == Ok(text)) <==> FindDouble(text, '{').None?
  {
    if FindDouble(text, '{').None? {
      NoOpenNoWhole(text);
      forall ctx ensures Resolve(text, ctx) == Ok(text) {}
    } else {
      match WholeSpan(text) {
        case Some(expr) =>
          BlankPath(expr);
          assert text != "";
        case None => BlankShrinks(text);
      }
      assert Resolve(text, BLANK) != Ok(text);
    }
  }
}
