/** `{{ ... }}` templating: scanning, path resolution, rendering, and the template context
    built from a run. */
module Template {
  import opened Wrappers
  import opened FlowTypes

  datatype TemplateError =
    | UnresolvableReference(reference: string)
    | UnstructuredOutput(reference: string)
    | Unterminated

  datatype StepContext = StepContext(
    output: Option<Value>,
    feedback: Option<Value>,
    approvalComment: Option<Value>,
    run: Option<Value>)

  datatype TemplateContext = TemplateContext(
    inputs: Value,
    trigger: Value,
    env: Value,
    steps: map<StepId, StepContext>,
    run: Value)

  // ----- scanning ---------------------------------------------------------------------

  /** Index of the leftmost occurrence of the character `c` written twice. */
  function FindDouble(s: string, c: char): (r: Option<nat>)
    ensures r.Some? ==> r.value + 2 <= |s|
  {
    if |s| < 2 then None
    else if s[0] == c && s[1] == c then Some(0)
    else match FindDouble(s[1..], c)
         case None => None
         case Some(k) => Some(k + 1)
  }

  /** The characters `str::trim` removes (Unicode `White_Space`). */
  predicate IsWhitespace(c: char) {
    var n := c as int;
    9 <= n <= 13 || n == 32 || n == 0x85 || n == 0xA0 || n == 0x1680 || 0x2000 <= n <= 0x200A
    || n == 0x2028 || n == 0x2029 || n == 0x202F || n == 0x205F || n == 0x3000
  }

  function TrimStart(s: string): string {
    if s != "" && IsWhitespace(s[0]) then TrimStart(s[1..]) else s
  }

  function TrimEnd(s: string): string {
    if s != "" && IsWhitespace(s[|s| - 1]) then TrimEnd(s[..|s| - 1]) else s
  }

  function Trim(s: string): string {
    TrimEnd(TrimStart(s))
  }

  /** One step of a left-to-right scan: no span left, a span that never closes, or the
      text before the next span, its trimmed expression and the text after it. */
  datatype Scan = NoSpan | Open | Span(literal: string, expr: string, rest: string)

  function NextSpan(text: string): (r: Scan)
    ensures r.Span? ==> |r.literal| + |r.rest| + 4 <= |text|
  {
    match FindDouble(text, '{')
    case None => NoSpan
    case Some(start) =>
      var after := text[start + 2..];
      match FindDouble(after, '}')
      case None => Open
      case Some(end) => Span(text[..start], Trim(after[..end]), after[end + 2..])
  }

  function FirstDot(s: string): (r: Option<nat>)
    ensures r.Some? ==> r.value < |s|
  {
    if s == "" then None
    else if s[0] == '.' then Some(0)
    else match FirstDot(s[1..])
         case None => None
         case Some(k) => Some(k + 1)
  }

  /** The parts of `s` between dots; never empty. */
  function SplitDots(s: string): (parts: seq<string>)
    ensures |parts| >= 1
  {
    match FirstDot(s)
    case None => [s]
    case Some(k) => [s[..k]] + SplitDots(s[k + 1..])
  }

  // ----- paths ------------------------------------------------------------------------

  function DotGet(value: Value, path: seq<string>): Option<Value>
    decreases |path|
  {
    if path == [] then Some(value)
    else if value.JObject? && path[0] in value.fields then DotGet(value.fields[path[0]], path[1..])
    else None
  }

  /** `dot_get` as the source runs it: a cursor that walks down one key at a time. */
  method DotGetLoop(value: Value, path: seq<string>) returns (r: Option<Value>)
    ensures r == DotGet(value, path)
  {
    var current := value;
    var i := 0;
    while i < |path|
      invariant 0 <= i <= |path|
      invariant DotGet(value, path) == DotGet(current, path[i..])
    {
      if !current.JObject? || path[i] !in current.fields { return None; }
      assert path[i..][1..] == path[i + 1..];
      current := current.fields[path[i]];
      i := i + 1;
    }
    r := Some(current);
  }

  function OkOr<T>(o: Option<T>, reference: string): Result<T, TemplateError> {
    match o
    case Some(v) => Ok(v)
    case None => Err(UnresolvableReference(reference))
  }

  function ResolveStepField(sc: StepContext, field: string, rest: seq<string>,
                            expr: string): Result<Value, TemplateError> {
    if field == "output" then
      (match sc.output
       case None => Err(UnresolvableReference(expr))
       case Some(output) =>
         if rest == [] then Ok(output)
         else if output.JString? then Err(UnstructuredOutput(expr))
         else OkOr(DotGet(output, rest), expr))
    else if field == "feedback" then
      if rest != [] then Err(UnresolvableReference(expr)) else OkOr(sc.feedback, expr)
    else if field == "approval_comment" then
      if rest != [] then Err(UnresolvableReference(expr)) else OkOr(sc.approvalComment, expr)
    else if field == "run" then
      (match sc.run
       case None => Err(UnresolvableReference(expr))
       case Some(run) => if rest == [] then Ok(run) else OkOr(DotGet(run, rest), expr))
    else Err(UnresolvableReference(expr))
  }

  function ResolvePath(expr: string, ctx: TemplateContext): Result<Value, TemplateError> {
    var parts := SplitDots(expr);
    if parts[0] == "inputs" then OkOr(DotGet(ctx.inputs, parts[1..]), expr)
    else if parts[0] == "trigger" then OkOr(DotGet(ctx.trigger, parts[1..]), expr)
    else if parts[0] == "env" then OkOr(DotGet(ctx.env, parts[1..]), expr)
    else if parts[0] == "run" then OkOr(DotGet(ctx.run, parts[1..]), expr)
    else if parts[0] == "steps" && |parts| >= 3 then
      if parts[1] in ctx.steps
      then ResolveStepField(ctx.steps[parts[1]], parts[2], parts[3..], expr)
      else Err(UnresolvableReference(expr))
    else Err(UnresolvableReference(expr))
  }

  function Render(v: Value): string {
    if v.JString? then v.s else v.text
  }

  // ----- resolution -------------------------------------------------------------------

  /** If `text`, trimmed, is exactly one span, its inner expression. */
  function WholeSpan(text: string): Option<string> {
    var t := Trim(text);
    if !(|t| >= 2 && t[..2] == "{{") then None
    else
      var u := t[2..];
      if !(|u| >= 2 && u[|u| - 2..] == "}}") then None
      else
        var inner := u[..|u| - 2];
        if FindDouble(inner, '{').Some? || FindDouble(inner, '}').Some? then None
        else Some(Trim(inner))
  }

  /** Every span of `rest` replaced by its rendered value, left to right. */
  function ResolveSpans(rest: string, ctx: TemplateContext): Result<string, TemplateError>
    decreases |rest|
  {
    match NextSpan(rest)
    case NoSpan => Ok(rest)
    case Open => Err(Unterminated)
    case Span(literal, expr, after) =>
      match ResolvePath(expr, ctx)
      case Err(e) => Err(e)
      case Ok(v) => Prepend(literal + Render(v), ResolveSpans(after, ctx))
  }

  function Prepend(out: string, r: Result<string, TemplateError>): Result<string, TemplateError> {
    match r
    case Ok(s) => Ok(out + s)
    case Err(e) => Err(e)
  }

  function Resolve(text: string, ctx: TemplateContext): Result<string, TemplateError> {
    match WholeSpan(text)
    case Some(expr) =>
      (match ResolvePath(expr, ctx)
       case Err(e) => Err(e)
       case Ok(v) => Ok(Render(v)))
    case None => ResolveSpans(text, ctx)
  }

  lemma PrependTwice(a: string, b: string, r: Result<string, TemplateError>)
    ensures Prepend("", r) == r
    ensures Prepend(a, Prepend(b, r)) == Prepend(a + b, r)
  {
    if r.Ok? {
      assert "" + r.value == r.value;
      assert a + (b + r.value) == (a + b) + r.value;
    }
  }

  /** `resolve`: the loop that moves `rest` past one span at a time, appending to `out`. */
  method ResolveText(text: string, ctx: TemplateContext) returns (r: Result<string, TemplateError>)
    ensures r == Resolve(text, ctx)
  {
    var whole := WholeSpan(text);
    if whole.Some? {
      var value := ResolvePath(whole.value, ctx);
      return if value.Ok? then Ok(Render(value.value)) else Err(value.error);
    }
    var out, rest := "", text;
    PrependTwice("", "", ResolveSpans(text, ctx));
    while true
      invariant ResolveSpans(text, ctx) == Prepend(out, ResolveSpans(rest, ctx))
      decreases |rest|
    {
      match NextSpan(rest) {
        case NoSpan => return Ok(out + rest);
        case Open => return Err(Unterminated);
        case Span(literal, expr, after) =>
          var value := ResolvePath(expr, ctx);
          if value.Err? { return Err(value.error); }
          PrependTwice(out, literal + Render(value.value), ResolveSpans(after, ctx));
          out, rest := out + (literal + Render(value.value)), after;
      }
    }
  }

  /** Every string inside a JSON value resolves (the success half of `resolve_value`). */
  predicate ResolvesValue(v: Value, ctx: TemplateContext) {
    match v
    case JString(s) => Resolve(s, ctx).Ok?
    case JArray(items, _) => forall x | x in items :: ResolvesValue(x, ctx)
    case JObject(fields, _) => forall k | k in fields :: ResolvesValue(fields[k], ctx)
    case JOther(_) => true
  }

  // ----- the validator's scanner ------------------------------------------------------

  /** The step id an expression of the form `steps.<id>...` names. */
  function RefOf(expr: string): seq<StepId> {
    if |expr| >= 6 && expr[..6] == "steps." then [SplitDots(expr[6..])[0]] else []
  }

  function StepRefs(text: string): seq<StepId>
    decreases |text|
  {
    match NextSpan(text)
    case Span(_, expr, after) => RefOf(expr) + StepRefs(after)
    case _ => []
  }

  lemma AppendRefs(a: seq<StepId>, b: seq<StepId>, c: seq<StepId>)
    ensures a + (b + c) == (a + b) + c
  {
  }

  /** `extract_step_refs`. */
  method ExtractStepRefs(text: string) returns (refs: seq<StepId>)
    ensures refs == StepRefs(text)
  {
    refs := [];
    var rest := text;
    while true
      invariant StepRefs(text) == refs + StepRefs(rest)
      decreases |rest|
    {
      match NextSpan(rest) {
        case Span(_, expr, after) =>
          AppendRefs(refs, RefOf(expr), StepRefs(after));
          refs, rest := refs + RefOf(expr), after;
        case _ => return;
      }
    }
  }
}
