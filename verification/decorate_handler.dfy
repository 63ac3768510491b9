/**
 * The Facelets `<ui:decorate>` tag handler
 * `com.sun.faces.facelets.tag.ui.DecorateHandler`: at construction it
 * collects the nested `<ui:define>` blocks by name and the nested
 * `<ui:param>` handlers in order; applying it binds the parameters in a
 * wrapping variable mapper, registers itself as the template client,
 * includes the template, and restores the mapper and the client stack;
 * as a template client it answers requests for a named block.
 *
 * The Facelet context, EL evaluation, the template inclusion and the
 * nested handlers are collaborators: their outcomes are supplied as
 * functions, and each call into the component tree is recorded.
 */
module DecorateTag {
  import opened JavaLang
  import JavaStrings

  /** A nested `<ui:define name="...">`; `tagId` tells two handlers with the same name apart. */
  datatype DefineHandler = DefineHandler(name: string, tagId: nat)

  /** A nested `<ui:param>`. */
  datatype ParamHandler = ParamHandler(tagId: nat)

  /** The `template` attribute of the tag, as written in the page. */
  datatype TagAttribute = TagAttribute(expression: string)

  /** A `jakarta.el.ValueExpression`, opaque here. */
  datatype ValueExpression = ValueExpression(expression: string)

  /** What one `<ui:param>` binds once evaluated: a variable name and its expression. */
  datatype Binding = Binding(name: string, value: ValueExpression)

  /**
   * The EL variable mapper: the one the context started with, or a
   * `VariableMapperWrapper` around another mapper holding its own variables.
   */
  datatype VariableMapper =
    | BaseMapper(id: nat, variables: map<string, ValueExpression>)
    | Wrapper(target: VariableMapper, variables: map<string, ValueExpression>)

  /** `setVariable` on a mapper: the binding goes into the mapper's own variables. */
  function Bind(m: VariableMapper, b: Binding): (r: VariableMapper)
    ensures r.Wrapper? == m.Wrapper?
    ensures r.Wrapper? ==> r.target == m.target
    ensures b.name in r.variables && r.variables[b.name] == b.value
    ensures r.variables.Keys == m.variables.Keys + {b.name}
  {
    match m
    case BaseMapper(id, vars) => BaseMapper(id, vars[b.name := b.value])
    case Wrapper(t, vars) => Wrapper(t, vars[b.name := b.value])
  }

  /** A call from this handler into the component tree under construction. */
  datatype TreeCall =
    | DefinitionApplied(define: DefineHandler)
    | NextHandlerApplied
    | FaceletIncluded(path: string)

  // ------------------------------------------------------------ Construction

  /** The map that `put`ting each define handler in turn, under its name, leaves behind. */
  function DefinesMap(defines: seq<DefineHandler>): map<string, DefineHandler> {
    if defines == [] then map[]
    else
      var last := defines[|defines| - 1];
      DefinesMap(defines[..|defines| - 1])[last.name := last]
  }

  /** The keys of `DefinesMap` are exactly the names found. */
  lemma {:induction false} DefinesMapKeys(defines: seq<DefineHandler>)
    ensures forall name :: name in DefinesMap(defines) <==> exists i :: 0 <= i < |defines| && defines[i].name == name
  {
    if defines != [] {
      var prefix := defines[..|defines| - 1];
      DefinesMapKeys(prefix);
      forall name | exists i :: 0 <= i < |defines| && defines[i].name == name
        ensures name in DefinesMap(defines)
      {
        var i :| 0 <= i < |defines| && defines[i].name == name;
        if i < |prefix| {
          assert prefix[i].name == name;
        }
      }
    }
  }

  /** Each name maps to the last handler carrying it. */
  lemma {:induction false} DefinesMapLastWins(defines: seq<DefineHandler>)
    ensures forall i :: 0 <= i < |defines| ==>
      (forall j :: i < j < |defines| ==> defines[j].name != defines[i].name) ==>
        defines[i].name in DefinesMap(defines) && DefinesMap(defines)[defines[i].name] == defines[i]
  {
    if defines != [] {
      var prefix := defines[..|defines| - 1];
      DefinesMapLastWins(prefix);
      forall i | 0 <= i < |defines| - 1 && forall j :: i < j < |defines| ==> defines[j].name != defines[i].name
        ensures defines[i].name in DefinesMap(defines) && DefinesMap(defines)[defines[i].name] == defines[i]
      {
        assert prefix[i] == defines[i];
        assert forall j :: i < j < |prefix| ==> prefix[j].name != prefix[i].name;
      }
    }
  }

  /**
   * The `handlers` map the constructor builds from the nested define
   * handlers, in document order: every name found is a key, nothing else is,
   * and each name maps to the last handler carrying it.
   */
  method CollectDefines(defines: seq<DefineHandler>) returns (handlers: map<string, DefineHandler>)
    ensures handlers == DefinesMap(defines)
    ensures forall name :: name in handlers <==> exists i :: 0 <= i < |defines| && defines[i].name == name
    ensures forall i :: 0 <= i < |defines| ==>
      (forall j :: i < j < |defines| ==> defines[j].name != defines[i].name) ==> handlers[defines[i].name] == defines[i]
  {
    handlers := map[];
    var k := 0;
    while k < |defines|
      invariant 0 <= k <= |defines|
      invariant handlers == DefinesMap(defines[..k])
    {
      var d := defines[k];
      assert defines[..k + 1][..k] == defines[..k];
      handlers := handlers[d.name := d];
      k := k + 1;
    }
    assert defines[..k] == defines;
    DefinesMapKeys(defines);
    DefinesMapLastWins(defines);
  }

  /**
   * The `params` array the constructor builds from the nested param
   * handlers: `null` when there are none, otherwise a new array holding
   * them in order.
   */
  method CollectParams(found: seq<ParamHandler>) returns (params: array?<ParamHandler>)
    ensures params == null <==> |found| == 0
    ensures params != null ==> fresh(params) && params[..] == found
  {
    if |found| > 0 {
      params := new ParamHandler[|found|];
      for i := 0 to params.Length
        invariant params[..i] == found[..i]
      {
        params[i] := found[i];
      }
    } else {
      params := null;
    }
  }

  // ------------------------------------------------------------- Application

  /** Where binding a sequence of parameters ends: the mapper, and the failure that stopped it if any. */
  datatype ParamsResult = ParamsResult(mapper: VariableMapper, failure: Option<Failure>)

  /** Applying `params` one after the other to mapper `m`; the first failure stops the rest. */
  function BindParams(evalParam: (ParamHandler, VariableMapper) -> Outcome<Binding>,
                      m: VariableMapper, params: seq<ParamHandler>): (r: ParamsResult)
    ensures m.Wrapper? ==> r.mapper.Wrapper? && r.mapper.target == m.target
    ensures m.variables.Keys <= r.mapper.variables.Keys
    ensures params == [] ==> r == ParamsResult(m, None)
    decreases |params|
  {
    if params == [] then ParamsResult(m, None)
    else
      match evalParam(params[0], m)
      case Threw(f) => ParamsResult(m, Some(f))
      case Returned(b) => BindParams(evalParam, Bind(m, b), params[1..])
  }

  /**
   * The two checks on the evaluated template path: a path that is blank
   * once trimmed, or one that starts with the contracts directory, is
   * rejected with a `TagAttributeException`.
   */
  function CheckTemplatePath(path: string, contractsDirectory: string): (r: Option<Failure>)
    ensures r.None? <==> (exists i :: 0 <= i < |path| && !JavaStrings.IsTrimmed(path[i])) && !(contractsDirectory <= path)
    ensures r.Some? ==> r.value.TagAttributeException?
  {
    JavaStrings.TrimIsEmptyIffBlank(path);
    if |JavaStrings.Trim(path)| == 0 then
      Some(TagAttributeException("Invalid path : " + path))
    else if contractsDirectory <= path then
      Some(TagAttributeException("Invalid path, contract resources cannot be accessed this way : " + path))
    else
      None
  }

  /**
   * The `catch (IOException e)` around the inclusion: an `IOException` is
   * rethrown as a `TagAttributeException`; other outcomes pass through.
   */
  function RethrowIncludeFailure(path: string, c: Completion): (r: Completion)
    ensures r.Abrupt? <==> c.Abrupt?
    ensures r.Abrupt? ==> !r.failure.IOException?
    ensures c.Abrupt? && !c.failure.IOException? ==> r == c
  {
    if c.Abrupt? && c.failure.IOException? then Abrupt(TagAttributeException("Invalid path : " + path)) else c
  }

  /** What the `try` block of `apply` does, given the evaluated template attribute. */
  datatype TemplateStep = TemplateStep(completion: Completion, included: Option<string>)

  /**
   * The `try` block of `apply`: evaluate the path, check it, include it.
   * `includeFacelet` is how the inclusion of a given path ends. The
   * `catch (IOException e)` covers the whole block; when evaluation itself
   * fails, `path` is still `null` and the message reads "Invalid path : null".
   */
  function IncludeTemplate(evaluated: Outcome<Option<string>>, contractsDirectory: string,
                           includeFacelet: string -> Completion): (r: TemplateStep)
    // Only an evaluated path that passes both checks is included ...
    ensures r.included.Some? ==> evaluated == Returned(Some(r.included.value))
    ensures r.included.Some? ==> CheckTemplatePath(r.included.value, contractsDirectory).None?
    // ... and every such path is, the block ending as its inclusion does.
    ensures evaluated.Returned? && evaluated.value.Some? && CheckTemplatePath(evaluated.value.value, contractsDirectory).None? ==>
      && r.included == evaluated.value
      && r.completion == RethrowIncludeFailure(evaluated.value.value, includeFacelet(evaluated.value.value))
    // A rejected path ends with the check's exception, a `null` path with a `NullPointerException`.
    ensures evaluated.Returned? && evaluated.value.Some? && CheckTemplatePath(evaluated.value.value, contractsDirectory).Some? ==>
      r.completion == Abrupt(CheckTemplatePath(evaluated.value.value, contractsDirectory).value)
    ensures evaluated == Returned(None) ==> r.completion == Abrupt(NullPointerException)
    // A failing evaluation ends the block through the same catch, nothing included.
    ensures evaluated.Threw? ==> r == TemplateStep(RethrowIncludeFailure("null", Abrupt(evaluated.failure)), None)
    // Nothing escapes the block as an `IOException`.
    ensures r.completion.Abrupt? ==> !r.completion.failure.IOException?
  {
    match evaluated
    case Threw(f) => TemplateStep(RethrowIncludeFailure("null", Abrupt(f)), None)
    case Returned(None) => TemplateStep(Abrupt(NullPointerException), None)
    case Returned(Some(path)) =>
      match CheckTemplatePath(path, contractsDirectory)
      case Some(f) => TemplateStep(Abrupt(f), None)
      case None => TemplateStep(RethrowIncludeFailure(path, includeFacelet(path)), Some(path))
  }

  /** The `FaceletContextImplBase` a handler is applied in. */
  class FaceletContext {
    /** `getVariableMapper()` / `setVariableMapper(...)`. */
    var variableMapper: VariableMapper
    /** The template clients, innermost first (`pushClient` / `popClient`). */
    var clients: seq<object>
    /** The calls made into the component tree, in order. */
    var treeCalls: seq<TreeCall>
    /** The template clients as they stood at the latest call into the tree. */
    ghost var clientsAtCall: seq<object>
    /** How applying a `<ui:param>` with a given current mapper ends. */
    const evalParam: (ParamHandler, VariableMapper) -> Outcome<Binding>
    /** `template.getValue(ctx)` with a given current mapper; `None` is a `null` result. */
    const evalTemplate: (TagAttribute, VariableMapper) -> Outcome<Option<string>>
    /** The configured contracts directory (`WebAppContractsDirectory`). */
    const contractsDirectory: string
    /** How a call into the component tree ends, given the mapper current at the call. */
    const runTreeCall: (TreeCall, VariableMapper) -> Completion

    constructor (variableMapper: VariableMapper, clients: seq<object>,
                 evalParam: (ParamHandler, VariableMapper) -> Outcome<Binding>,
                 evalTemplate: (TagAttribute, VariableMapper) -> Outcome<Option<string>>,
                 contractsDirectory: string,
                 runTreeCall: (TreeCall, VariableMapper) -> Completion)
      ensures this.variableMapper == variableMapper && this.clients == clients && treeCalls == [] && clientsAtCall == []
      ensures this.evalParam == evalParam && this.evalTemplate == evalTemplate
      ensures this.contractsDirectory == contractsDirectory && this.runTreeCall == runTreeCall
    {
      this.variableMapper := variableMapper;
      this.clients := clients;
      this.treeCalls := [];
      this.clientsAtCall := [];
      this.evalParam := evalParam;
      this.evalTemplate := evalTemplate;
      this.contractsDirectory := contractsDirectory;
      this.runTreeCall := runTreeCall;
    }

    /** `param.apply(ctx, parent)`: evaluate the parameter and bind it in the current mapper. */
    method ApplyParam(p: ParamHandler) returns (c: Completion)
      modifies this`variableMapper
      ensures evalParam(p, old(variableMapper)).Threw? ==>
        c == Abrupt(evalParam(p, old(variableMapper)).failure) && variableMapper == old(variableMapper)
      ensures evalParam(p, old(variableMapper)).Returned? ==>
        c == Normal && variableMapper == Bind(old(variableMapper), evalParam(p, old(variableMapper)).value)
    {
      match evalParam(p, variableMapper)
      case Threw(f) =>
        c := Abrupt(f);
      case Returned(b) =>
        variableMapper := Bind(variableMapper, b);
        c := Normal;
    }

    /**
     * A call into the component tree: recorded together with the template
     * clients it sees, and ending as `runTreeCall` says.
     */
    method Run(call: TreeCall) returns (c: Completion)
      modifies this`treeCalls, this`clientsAtCall
      ensures treeCalls == old(treeCalls) + [call]
      ensures clientsAtCall == clients
      ensures c == runTreeCall(call, variableMapper)
    {
      treeCalls := treeCalls + [call];
      clientsAtCall := clients;
      c := runTreeCall(call, variableMapper);
    }
  }

  /** A `<ui:decorate template="...">` tag handler. */
  class DecorateHandler {
    /** The required `template` attribute. */
    const template: TagAttribute
    /** Nested define handlers by name. */
    const handlers: map<string, DefineHandler>
    /** Nested param handlers in order, or `null` when there are none. */
    const params: array?<ParamHandler>

    constructor (template: TagAttribute, defines: seq<DefineHandler>, paramHandlers: seq<ParamHandler>)
      ensures this.template == template
      ensures forall name :: name in handlers <==> exists i :: 0 <= i < |defines| && defines[i].name == name
      ensures forall i :: 0 <= i < |defines| ==>
        (forall j :: i < j < |defines| ==> defines[j].name != defines[i].name) ==> handlers[defines[i].name] == defines[i]
      ensures params == null <==> |paramHandlers| == 0
      ensures params != null ==> fresh(params) && params[..] == paramHandlers
    {
      var found := CollectDefines(defines);
      var collected := CollectParams(paramHandlers);
      this.template := template;
      this.handlers := found;
      this.params := collected;
    }

    /**
     * `apply(ctx, parent)`. Parameters are bound first, outside the `try`:
     * if one fails, its exception propagates, nothing is pushed and the
     * wrapper stays installed. Otherwise the handler pushes itself as a
     * template client, evaluates, checks and includes the template, and in
     * the `finally` restores the original mapper and pops itself, so the
     * client stack is as before in every case. The template is included
     * with this handler as the innermost client, which is how an insert in
     * the template reaches `ApplyNamed`.
     */
    method Apply(ctx: FaceletContext) returns (c: Completion)
      modifies ctx`variableMapper, ctx`clients, ctx`treeCalls, ctx`clientsAtCall
      ensures ctx.clients == old(ctx.clients)
      ensures var bound := if params == null then ParamsResult(old(ctx.variableMapper), None)
                           else BindParams(ctx.evalParam, Wrapper(old(ctx.variableMapper), map[]), params[..]);
        && (bound.failure.Some? ==>
              && c == Abrupt(bound.failure.value) && ctx.variableMapper == bound.mapper
              && ctx.treeCalls == old(ctx.treeCalls) && ctx.clientsAtCall == old(ctx.clientsAtCall))
        && (bound.failure.None? ==>
              var step := IncludeTemplate(ctx.evalTemplate(template, bound.mapper), ctx.contractsDirectory,
                                          path => ctx.runTreeCall(FaceletIncluded(path), bound.mapper));
              && c == step.completion
              && ctx.variableMapper == old(ctx.variableMapper)
              && ctx.treeCalls == old(ctx.treeCalls) + (if step.included.Some? then [FaceletIncluded(step.included.value)] else [])
              && ctx.clientsAtCall == (if step.included.Some? then [this as object] + old(ctx.clients) else old(ctx.clientsAtCall)))
    {
      var orig := ctx.variableMapper;
      if params != null {
        ctx.variableMapper := Wrapper(orig, map[]);
        var i := 0;
        while i < params.Length
          invariant 0 <= i <= params.Length
          invariant ctx.clients == old(ctx.clients) && ctx.treeCalls == old(ctx.treeCalls)
          invariant ctx.clientsAtCall == old(ctx.clientsAtCall)
          invariant BindParams(ctx.evalParam, Wrapper(orig, map[]), params[..])
                 == BindParams(ctx.evalParam, ctx.variableMapper, params[i..])
        {
          assert params[i..][1..] == params[i + 1..];
          c := ctx.ApplyParam(params[i]);
          if c.Abrupt? {
            return;
          }
          i := i + 1;
        }
      }
      ghost var before := ctx.clients;
      ctx.clients := [this as object] + ctx.clients;
      assert ctx.clients[1..] == before;
      // try
      var evaluated := ctx.evalTemplate(template, ctx.variableMapper);
      match evaluated {
        case Threw(f) =>
          c := RethrowIncludeFailure("null", Abrupt(f));
        case Returned(None) =>
          c := Abrupt(NullPointerException);
        case Returned(Some(path)) =>
          var rejected := CheckTemplatePath(path, ctx.contractsDirectory);
          if rejected.Some? {
            c := Abrupt(rejected.value);
          } else {
            var included := ctx.Run(FaceletIncluded(path));
            c := RethrowIncludeFailure(path, included);
          }
      }
      // finally
      ctx.variableMapper := orig;
      ctx.clients := ctx.clients[1..];
    }

    /**
     * `apply(ctx, parent, name)`: for a name, apply the define handler
     * registered under it and answer `true`, or answer `false` and call
     * nothing when there is none; for `null`, apply the tag's body and
     * answer `true`. An exception from the applied handler propagates.
     */
    method ApplyNamed(ctx: FaceletContext, name: Option<string>) returns (r: Outcome<bool>)
      modifies ctx`treeCalls, ctx`clientsAtCall
      ensures name.Some? && name.value !in handlers ==>
        r == Returned(false) && ctx.treeCalls == old(ctx.treeCalls) && ctx.clientsAtCall == old(ctx.clientsAtCall)
      ensures name.None? || name.value in handlers ==> ctx.clientsAtCall == ctx.clients
      ensures name.Some? && name.value in handlers ==>
        var call := DefinitionApplied(handlers[name.value]);
        && ctx.treeCalls == old(ctx.treeCalls) + [call]
        && r == (if ctx.runTreeCall(call, ctx.variableMapper).Abrupt?
                 then Threw(ctx.runTreeCall(call, ctx.variableMapper).failure) else Returned(true))
      ensures name.None? ==>
        && ctx.treeCalls == old(ctx.treeCalls) + [NextHandlerApplied]
        && r == (if ctx.runTreeCall(NextHandlerApplied, ctx.variableMapper).Abrupt?
                 then Threw(ctx.runTreeCall(NextHandlerApplied, ctx.variableMapper).failure) else Returned(true))
    {
      if name.Some? {
        if name.value in handlers {
          var c := ctx.Run(DefinitionApplied(handlers[name.value]));
          r := if c.Abrupt? then Threw(c.failure) else Returned(true);
        } else {
          r := Returned(false);
        }
      } else {
        var c := ctx.Run(NextHandlerApplied);
        r := if c.Abrupt? then Threw(c.failure) else Returned(true);
      }
    }
  }

  /** A blank template path is rejected and nothing is included. */
  lemma BlankTemplateNotIncluded(path: string, contractsDirectory: string, includeFacelet: string -> Completion)
    requires forall i :: 0 <= i < |path| ==> JavaStrings.IsTrimmed(path[i])
    ensures IncludeTemplate(Returned(Some(path)), contractsDirectory, includeFacelet)
         == TemplateStep(Abrupt(TagAttributeException("Invalid path : " + path)), None)
  {
    JavaStrings.TrimIsEmptyIffBlank(path);
  }

  /** A path under the contracts directory is rejected and nothing is included. */
  lemma ContractPathNotIncluded(path: string, contractsDirectory: string, includeFacelet: string -> Completion)
    requires contractsDirectory <= path
    ensures var step := IncludeTemplate(Returned(Some(path)), contractsDirectory, includeFacelet);
      step.included.None? && step.completion.Abrupt? && step.completion.failure.TagAttributeException?
  {
  }

  /** An `IOException` from the inclusion surfaces as a `TagAttributeException` naming the path. */
  lemma IncludeIOExceptionRethrown(path: string, contractsDirectory: string, includeFacelet: string -> Completion)
    requires CheckTemplatePath(path, contractsDirectory).None?
    requires includeFacelet(path).Abrupt? && includeFacelet(path).failure.IOException?
    ensures IncludeTemplate(Returned(Some(path)), contractsDirectory, includeFacelet)
         == TemplateStep(Abrupt(TagAttributeException("Invalid path : " + path)), Some(path))
  {
  }
}
