/** What a reference means. A dotted path names a root and the keys below it; the value it
    leads to is rendered as its own text if it is a string, and serialised otherwise. */
module Paths {
  import opened Wrappers
  import opened FlowTypes
  import opened Template
  import opened TemplateProofs

  // ----- writing a path -----------------------------------------------------------------

  function Dotted(parts: seq<string>): string
    requires parts != []
  {
    if |parts| == 1 then parts[0] else parts[0] + "." + Dotted(parts[1..])
  }

  /** A template that is one reference. */
  function Reference(parts: seq<string>): string
    requires parts != []
  {
    "{{" + Dotted(parts) + "}}"
  }

  predicate Key(k: string) {
    '.' !in k && '{' !in k && '}' !in k
  }

  predicate Keys(parts: seq<string>) {
    forall k | k in parts :: Key(k)
  }

  /** Blanks around an expression are not part of it. */
  predicate Tight(s: string) {
    s != "" ==> !IsWhitespace(s[0]) && !IsWhitespace(s[|s| - 1])
  }

  predicate Writable(parts: seq<string>) {
    parts != [] && Keys(parts) && Tight(Dotted(parts))
  }

  // ----- reading it back ----------------------------------------------------------------

  lemma {:induction false} NoDouble(s: string, c: char)
    requires c !in s
    ensures FindDouble(s, c) == None
  {
    if |s| >= 2 {
      NoDouble(s[1..], c);
    }
  }

  lemma {:induction false} NoDot(s: string)
    requires '.' !in s
    ensures SplitDots(s) == [s]
  {
    NoFirstDot(s);
  }

  lemma {:induction false} NoFirstDot(s: string)
    requires '.' !in s
    ensures FirstDot(s) == None
  {
    if s != "" {
      NoFirstDot(s[1..]);
    }
  }

  lemma {:induction false} DotAfter(a: string, b: string)
    requires '.' !in a
    ensures FirstDot(a + "." + b) == Some(|a|)
  {
    if a != "" {
      assert (a + "." + b)[1..] == a[1..] + "." + b;
      DotAfter(a[1..], b);
    }
  }

  lemma SplitFirst(a: string, b: string)
    requires '.' !in a
    ensures SplitDots(a + "." + b) == [a] + SplitDots(b)
  {
    DotAfter(a, b);
    assert (a + "." + b)[..|a|] == a && (a + "." + b)[|a| + 1..] == b;
  }

  lemma Trimmed(s: string)
    requires Tight(s)
    ensures Trim(s) == s
  {
  }

  /** The parts of a dotted path are read back as they were written. */
  lemma {:induction false} SplitDotted(parts: seq<string>)
    requires parts != [] && Keys(parts)
    ensures SplitDots(Dotted(parts)) == parts
  {
    hide SplitDots;
    assert Key(parts[0]);
    if |parts| == 1 {
      NoDot(parts[0]);
    } else {
      assert forall k :: k in parts[1..] ==> k in parts;
      SplitDotted(parts[1..]);
      SplitFirst(parts[0], Dotted(parts[1..]));
      assert [parts[0]] + parts[1..] == parts;
    }
  }

  lemma {:induction false} NoBraces(parts: seq<string>)
    requires parts != [] && Keys(parts)
    ensures '{' !in Dotted(parts) && '}' !in Dotted(parts)
  {
    assert Key(parts[0]);
    if |parts| > 1 {
      assert forall k :: k in parts[1..] ==> k in parts;
      NoBraces(parts[1..]);
    }
  }

  lemma ReferenceSpan(parts: seq<string>)
    requires Writable(parts)
    ensures WholeSpan(Reference(parts)) == Some(Dotted(parts)) && SplitDots(Dotted(parts)) == parts
  {
    var expr := Dotted(parts);
    SplitDotted(parts);
    NoBraces(parts);
    NoDouble(expr, '{');
    NoDouble(expr, '}');
    Trimmed(expr);
    hide *;
    NoBlank();
    WholeSpanIs("", expr, "");
    Bare(parts);
  }

  lemma NoBlank()
    ensures Blank("")
  {
  }

  lemma Bare(parts: seq<string>)
    requires parts != []
    ensures "" + "{{" + Dotted(parts) + "}}" + "" == Reference(parts)
  {
    assert "" + "{{" + Dotted(parts) + "}}" + "" == "{{" + Dotted(parts) + "}}";
  }

  lemma ReferenceResolves(parts: seq<string>, ctx: TemplateContext)
    requires Writable(parts)
    ensures SplitDots(Dotted(parts)) == parts
    ensures Resolve(Reference(parts), ctx) ==
            match ResolvePath(Dotted(parts), ctx) case Err(e) => Err(e) case Ok(v) => Ok(Render(v))
  {
    ReferenceSpan(parts);
    hide WholeSpan, ResolvePath, Render, SplitDots, Reference;
  }

  // ----- where keys lead ----------------------------------------------------------------

  /** From value to value, one key of an object at a time. */
  ghost predicate Leads(chain: seq<Value>, from: Value, keys: seq<string>, to: Value) {
    && |chain| == |keys| + 1 && chain[0] == from && chain[|keys|] == to
    && forall i :: 0 <= i < |keys| ==>
         chain[i].JObject? && keys[i] in chain[i].fields && chain[i + 1] == chain[i].fields[keys[i]]
  }

  ghost predicate Reaches(from: Value, keys: seq<string>, to: Value) {
    exists chain :: Leads(chain, from, keys, to)
  }

  lemma {:induction false} DotGetReaches(from: Value, keys: seq<string>)
    ensures DotGet(from, keys).Some? ==> Reaches(from, keys, DotGet(from, keys).value)
    decreases |keys|
  {
    if keys == [] {
      assert Leads([from], from, keys, from);
    } else if DotGet(from, keys).Some? {
      var next, to := from.fields[keys[0]], DotGet(from, keys).value;
      DotGetReaches(next, keys[1..]);
      var chain :| Leads(chain, next, keys[1..], to);
      LeadsLonger(chain, from, keys, to);
    }
  }

  lemma LeadsLonger(chain: seq<Value>, from: Value, keys: seq<string>, to: Value)
    requires keys != [] && from.JObject? && keys[0] in from.fields && Leads(chain, from.fields[keys[0]], keys[1..], to)
    ensures Reaches(from, keys, to)
  {
    var longer := [from] + chain;
    forall i | 0 <= i < |keys|
      ensures longer[i].JObject? && keys[i] in longer[i].fields && longer[i + 1] == longer[i].fields[keys[i]]
    {
      if i > 0 { assert longer[i] == chain[i - 1] && keys[i] == keys[1..][i - 1]; }
    }
    assert Leads(longer, from, keys, to);
  }

  lemma {:induction false} ReachesDotGet(chain: seq<Value>, from: Value, keys: seq<string>, to: Value)
    requires Leads(chain, from, keys, to)
    ensures DotGet(from, keys) == Some(to)
    decreases |keys|
  {
    if keys != [] {
      forall i | 0 <= i < |keys| - 1
        ensures chain[1..][i].JObject? && keys[1..][i] in chain[1..][i].fields
                && chain[1..][i + 1] == chain[1..][i].fields[keys[1..][i]]
      {
        assert chain[1..][i] == chain[i + 1] && keys[1..][i] == keys[i + 1];
      }
      ReachesDotGet(chain[1..], from.fields[keys[0]], keys[1..], to);
    }
  }

  /** A path leads to at most one value. */
  lemma ReachesOne(from: Value, keys: seq<string>, a: Value, b: Value)
    requires Reaches(from, keys, a) && Reaches(from, keys, b)
    ensures a == b
  {
    var c :| Leads(c, from, keys, a);
    var d :| Leads(d, from, keys, b);
    ReachesDotGet(c, from, keys, a);
    ReachesDotGet(d, from, keys, b);
  }

  // ----- what a reference resolves to ---------------------------------------------------

  /** The text of what the keys lead to, or a refusal that names the reference. */
  ghost predicate Reads(from: Value, keys: seq<string>, expr: string, r: Result<string, TemplateError>) {
    && (forall to :: Reaches(from, keys, to) ==> r == Ok(if to.JString? then to.s else to.text))
    && ((forall to :: !Reaches(from, keys, to)) ==> r == Err(UnresolvableReference(expr)))
  }

  lemma ReadsBy(from: Value, keys: seq<string>, expr: string)
    ensures Reads(from, keys, expr,
                  match OkOr(DotGet(from, keys), expr) case Err(e) => Err(e) case Ok(v) => Ok(Render(v)))
  {
    DotGetReaches(from, keys);
    forall to | Reaches(from, keys, to) ensures DotGet(from, keys) == Some(to) {
      var chain :| Leads(chain, from, keys, to);
      ReachesDotGet(chain, from, keys, to);
    }
    hide Reaches, DotGet;
  }

  /** The four roots that hold a value: each reads its own, keys of any depth below it. */
  lemma RootReads(root: string, keys: seq<string>, ctx: TemplateContext)
    requires Writable([root] + keys)
    ensures var expr, r := Dotted([root] + keys), Resolve(Reference([root] + keys), ctx);
            && (root == "inputs" ==> Reads(ctx.inputs, keys, expr, r))
            && (root == "trigger" ==> Reads(ctx.trigger, keys, expr, r))
            && (root == "env" ==> Reads(ctx.env, keys, expr, r))
            && (root == "run" ==> Reads(ctx.run, keys, expr, r))
  {
    var parts := [root] + keys;
    ReferenceResolves(parts, ctx);
    assert parts[0] == root && parts[1..] == keys;
    ReadsBy(ctx.inputs, keys, Dotted(parts));
    ReadsBy(ctx.trigger, keys, Dotted(parts));
    ReadsBy(ctx.env, keys, Dotted(parts));
    ReadsBy(ctx.run, keys, Dotted(parts));
    hide Reads, Resolve, SplitDots, DotGet, Dotted, Reference, Writable, Render;
  }

  /** A value that may be missing, read as it is. */
  predicate ReadsWhole(value: Option<Value>, keys: seq<string>, expr: string, r: Result<string, TemplateError>) {
    r == if value.Some? && keys == [] then Ok(if value.value.JString? then value.value.s else value.value.text)
         else Err(UnresolvableReference(expr))
  }

  /** The fields of a step that has an entry: an output is read like a root, but not below a
      string; a feedback and a comment only as they are; no other field exists. */
  lemma FieldReads(id: string, field: string, keys: seq<string>, ctx: TemplateContext)
    requires Writable(["steps", id, field] + keys) && id in ctx.steps
    ensures var parts := ["steps", id, field] + keys;
            var expr, r, sc := Dotted(parts), Resolve(Reference(parts), ctx), ctx.steps[id];
            && (field == "output" && sc.output.None? ==> r == Err(UnresolvableReference(expr)))
            && (field == "output" && sc.output.Some? && sc.output.value.JString? && keys != [] ==>
                  r == Err(UnstructuredOutput(expr)))
            && (field == "output" && sc.output.Some? && (sc.output.value.JString? ==> keys == []) ==>
                  Reads(sc.output.value, keys, expr, r))
            && (field == "feedback" ==> ReadsWhole(sc.feedback, keys, expr, r))
            && (field == "approval_comment" ==> ReadsWhole(sc.approvalComment, keys, expr, r))
            && (field == "run" && sc.run.None? ==> r == Err(UnresolvableReference(expr)))
            && (field == "run" && sc.run.Some? ==> Reads(sc.run.value, keys, expr, r))
            && (field != "output" && field != "feedback" && field != "approval_comment" && field != "run" ==>
                  r == Err(UnresolvableReference(expr)))
  {
    hide *;
    var parts := ["steps", id, field] + keys;
    StepPath(id, field, keys, ctx);
    if field == "output" {
      OutputReads(ctx.steps[id], keys, Dotted(parts));
    } else if field == "run" {
      RunReads(ctx.steps[id], keys, Dotted(parts));
    } else {
      TextReads(ctx.steps[id], field, keys, Dotted(parts));
    }
  }

  function Shown(r: Result<Value, TemplateError>): Result<string, TemplateError> {
    match r
    case Err(e) => Err(e)
    case Ok(v) => Ok(Render(v))
  }

  lemma StepPath(id: string, field: string, keys: seq<string>, ctx: TemplateContext)
    requires Writable(["steps", id, field] + keys) && id in ctx.steps
    ensures var parts := ["steps", id, field] + keys;
            Resolve(Reference(parts), ctx) == Shown(ResolveStepField(ctx.steps[id], field, keys, Dotted(parts)))
  {
    var parts := ["steps", id, field] + keys;
    ReferenceResolves(parts, ctx);
    assert parts[0] == "steps" && parts[1] == id && parts[2] == field && parts[3..] == keys;
    hide Resolve, SplitDots, Dotted, Reference, Writable, ResolveStepField, Render;
  }

  lemma OutputReads(sc: StepContext, keys: seq<string>, expr: string)
    ensures var r := Shown(ResolveStepField(sc, "output", keys, expr));
            && (sc.output.None? ==> r == Err(UnresolvableReference(expr)))
            && (sc.output.Some? && sc.output.value.JString? && keys != [] ==> r == Err(UnstructuredOutput(expr)))
            && (sc.output.Some? && (sc.output.value.JString? ==> keys == []) ==> Reads(sc.output.value, keys, expr, r))
  {
    if sc.output.Some? { ReadsBy(sc.output.value, keys, expr); }
    hide Reads;
  }

  lemma RunReads(sc: StepContext, keys: seq<string>, expr: string)
    ensures var r := Shown(ResolveStepField(sc, "run", keys, expr));
            && (sc.run.None? ==> r == Err(UnresolvableReference(expr)))
            && (sc.run.Some? ==> Reads(sc.run.value, keys, expr, r))
  {
    if sc.run.Some? { ReadsBy(sc.run.value, keys, expr); }
    hide Reads;
  }

  lemma TextReads(sc: StepContext, field: string, keys: seq<string>, expr: string)
    requires field != "output" && field != "run"
    ensures var r := Shown(ResolveStepField(sc, field, keys, expr));
            && (field == "feedback" ==> ReadsWhole(sc.feedback, keys, expr, r))
            && (field == "approval_comment" ==> ReadsWhole(sc.approvalComment, keys, expr, r))
            && (field != "feedback" && field != "approval_comment" ==> r == Err(UnresolvableReference(expr)))
  {
  }

  /** Every other path is refused: an unknown root, a step without an entry, a step without a
      field. */
  lemma OtherRefused(parts: seq<string>, ctx: TemplateContext)
    requires Writable(parts)
    requires parts[0] != "inputs" && parts[0] != "trigger" && parts[0] != "env" && parts[0] != "run"
    requires parts[0] == "steps" && |parts| >= 3 ==> parts[1] !in ctx.steps
    ensures Resolve(Reference(parts), ctx) == Err(UnresolvableReference(Dotted(parts)))
  {
    ReferenceResolves(parts, ctx);
    hide Resolve, SplitDots, Dotted, Reference, Writable;
  }

  // ----- references within a text -------------------------------------------------------

  /** A reference within a text resolves to what it resolves to alone. */
  lemma MeaningSplits(segs: seq<Segment>, ctx: TemplateContext)
    requires Alternating(segs) && |segs| >= 2
    ensures segs[0].Lit? && segs[1].Ref?
    ensures Meaning(segs, ctx) ==
            match Resolve("{{" + segs[1].expr + "}}", ctx)
            case Err(e) => Err(e)
            case Ok(text) => Prepend(segs[0].text + text, Meaning(segs[2..], ctx))
  {
    hide *;
    MeaningTwo(segs, ctx);
    Clearly(segs);
    Alone(segs[1].expr, ctx);
  }

  lemma Clearly(segs: seq<Segment>)
    requires Alternating(segs) && |segs| >= 2
    ensures segs[0].Lit? && segs[1].Ref? && Clear(segs[1])
  {
  }

  lemma Alone(e: string, ctx: TemplateContext)
    requires Clear(Ref(e))
    ensures Resolve("{{" + e + "}}", ctx) ==
            match ResolvePath(Trim(e), ctx) case Err(err) => Err(err) case Ok(v) => Ok(Render(v))
  {
    var segs := [Lit(""), Ref(e)];
    OneReference(e);
    ResolveWritten(segs, ctx);
    hide *;
    LoneMeaning(e, ctx);
  }

  lemma OneReference(e: string)
    requires Clear(Ref(e))
    ensures Alternating([Lit(""), Ref(e)]) && Written([Lit(""), Ref(e)]) == "{{" + e + "}}"
    ensures Lone([Lit(""), Ref(e)]).Some? ==> Lone([Lit(""), Ref(e)]) == Some(e)
  {
    var segs := [Lit(""), Ref(e)];
    assert segs[1..] == [Ref(e)] && [Ref(e)][1..] == [];
    assert Clear(Lit(""));
    hide Clear;
    assert Written([Ref(e)]) == "{{" + e + "}}" + "" == "{{" + e + "}}";
    assert Written(segs) == "" + Written([Ref(e)]) == Written([Ref(e)]);
  }

  // ----- what the scanner reports -------------------------------------------------------

  /** Of a path the scanner reports the step it names, and nothing of any other path. */
  lemma ReferenceRefs(parts: seq<string>)
    requires Writable(parts)
    ensures StepRefs(Reference(parts)) == if parts[0] == "steps" && |parts| >= 2 then [parts[1]] else []
  {
    hide *;
    WritableKeys(parts);
    var expr := Dotted(parts);
    SplitDotted(parts);
    NoBraces(parts);
    Trimmed(expr);
    Unbraced(expr);
    NextSpanOf("", expr, "");
    Bare(parts);
    OneSpanRefs(Reference(parts), expr);
    PathRef(parts);
  }

  lemma WritableKeys(parts: seq<string>)
    requires Writable(parts)
    ensures parts != [] && Keys(parts) && Tight(Dotted(parts))
  {
  }

  lemma Unbraced(expr: string)
    requires '{' !in expr && '}' !in expr
    ensures Clear(Lit("")) && Clear(Ref(expr))
  {
    NoDouble(expr, '}');
  }

  lemma OneSpanRefs(text: string, expr: string)
    requires NextSpan(text) == Span("", expr, "")
    ensures StepRefs(text) == RefOf(expr)
  {
    assert StepRefs("") == [] && RefOf(expr) + [] == RefOf(expr);
  }

  lemma PathRef(parts: seq<string>)
    requires parts != [] && Keys(parts)
    ensures RefOf(Dotted(parts)) == if parts[0] == "steps" && |parts| >= 2 then [parts[1]] else []
  {
    FirstKey(parts);
    hide *;
    if |parts| >= 2 {
      SplitDotted(parts[1..]);
      DottedTwo(parts);
      StepsPrefix(parts[0], Dotted(parts[1..]));
    } else {
      DottedOne(parts);
      NoPrefix(parts[0]);
    }
  }

  lemma FirstKey(parts: seq<string>)
    requires parts != [] && Keys(parts)
    ensures '.' !in parts[0] && Keys(parts[1..])
  {
    assert Key(parts[0]);
    assert forall k :: k in parts[1..] ==> k in parts;
  }

  lemma NoPrefix(s: string)
    requires '.' !in s
    ensures RefOf(s) == []
  {
    hide SplitDots;
    if |s| >= 6 { assert s[..6][5] in s; }
  }

  lemma DottedOne(parts: seq<string>)
    requires |parts| == 1
    ensures Dotted(parts) == parts[0]
  {
  }

  lemma DottedTwo(parts: seq<string>)
    requires |parts| >= 2
    ensures Dotted(parts) == parts[0] + "." + Dotted(parts[1..])
  {
  }

  /** A path begins with `steps.` exactly when that is its first part. */
  lemma StepsPrefix(first: string, rest: string)
    requires '.' !in first
    ensures RefOf(first + "." + rest) == if first == "steps" then [SplitDots(rest)[0]] else []
  {
    var expr := first + "." + rest;
    DotAfter(first, rest);
    hide FirstDot, SplitDots;
    if |expr| >= 6 && expr[..6] == "steps." {
      assert expr == "steps" + "." + expr[6..];
      DotAfter("steps", expr[6..]);
      assert |first| == 5 && first == expr[..5] && expr[6..] == rest;
      assert expr[..5] == expr[..6][..5];
    }
    if first == "steps" { assert expr[..6] == "steps." && expr[6..] == rest; }
  }

  /** Of a text the scanner reports what it reports of each reference alone. */
  lemma RefsSplit(segs: seq<Segment>)
    requires Alternating(segs)
    ensures |segs| < 2 ==> StepRefs(Written(segs)) == []
    ensures |segs| >= 2 ==>
              segs[1].Ref?
              && StepRefs(Written(segs)) == StepRefs("{{" + segs[1].expr + "}}") + StepRefs(Written(segs[2..]))
  {
    if |segs| < 2 {
      FewRefs(segs);
    } else {
      hide *;
      WrittenTwo(segs);
      Clearly(segs);
      var t, e, rest := segs[0].text, segs[1].expr, Written(segs[2..]);
      NextSpanOf(t, e, rest);
      NothingClear();
      NextSpanOf("", e, "");
      Padded(e);
      SpanRefs(Written(segs), t, Trim(e), rest);
      OneSpanRefs("{{" + e + "}}", Trim(e));
    }
  }

  lemma FewRefs(segs: seq<Segment>)
    requires Alternating(segs) && |segs| < 2
    ensures StepRefs(Written(segs)) == []
  {
    if |segs| == 1 { assert segs[1..] == [] && segs[0].text + "" == segs[0].text && Clear(segs[0]); }
  }

  lemma NothingClear()
    ensures Clear(Lit(""))
  {
  }

  lemma Padded(e: string)
    ensures "" + "{{" + e + "}}" + "" == "{{" + e + "}}"
  {
  }

  lemma SpanRefs(text: string, literal: string, expr: string, rest: string)
    requires NextSpan(text) == Span(literal, expr, rest)
    ensures StepRefs(text) == RefOf(expr) + StepRefs(rest)
  {
    hide RefOf;
  }
}
