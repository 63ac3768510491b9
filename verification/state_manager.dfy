/**
 * The view-state coordinator `jakarta.faces.application.StateManager`:
 * the bridge between the legacy `SerializedView` pair and the two-element
 * `Object[]` on the save path and on the write path, the re-entrancy marker
 * that keeps the save bridge from recursing, `getViewState`, and the
 * memoised storage-mode decision.
 *
 * The class is abstract in the source. A concrete subclass is represented by
 * an `Overrides` value saying which of the four bridging methods it
 * overrides and what its override does; a method it does not override runs
 * the default body modelled here.
 */
module StateManagement {
  import opened JavaLang
  import JavaStrings

  /** Init parameter consulted to choose where state is saved. */
  const STATE_SAVING_METHOD_PARAM_NAME: string := "jakarta.faces.STATE_SAVING_METHOD"

  /** Value of that parameter that selects client-side saving. */
  const STATE_SAVING_METHOD_CLIENT: string := "client"

  /** Request attribute that marks "saveView is being called from saveSerializedView". */
  const IS_CALLED_FROM_API_CLASS: string := "jakarta.faces.ensureOverriddenInvocation"

  // ------------------------------------------------------------------ Values

  /**
   * The runtime class of a Java array. `new Object[] {...}` is an
   * `ObjectArray`; a `String[]` is a `NarrowerReferenceArray` (still an
   * `instanceof Object[]`, but its component type is not `Object`); an
   * `int[]` is a `PrimitiveArray` (an array, but not an `Object[]`).
   */
  datatype ArrayKind = ObjectArray | NarrowerReferenceArray | PrimitiveArray

  /** A Java `Object` as far as the bridge can tell them apart. */
  datatype Value =
    | Null
    | Bool(b: bool)
    | Text(s: string)
    | Arr(kind: ArrayKind, elements: seq<Value>)
    | Opaque(ref: nat)

  /** `StateManager.SerializedView`: an immutable (structure, state) pair. */
  datatype SerializedView = SerializedView(structure: Value, state: Value)

  /** The component tree of the current request; only overriding subclasses look inside it. */
  datatype ViewRoot = ViewRoot(id: nat)

  /**
   * What a concrete subclass overrides. `None` means the subclass inherits the
   * default body; `Some(f)` means its own method runs, computing `f`.
   */
  datatype Overrides = Overrides(
    saveView: Option<ViewRoot -> Outcome<Value>>,
    saveSerializedView: Option<ViewRoot -> Outcome<Option<SerializedView>>>,
    writeState: Option<Value -> Completion>,
    writeSerializedView: Option<Option<SerializedView> -> Completion>)

  /** A call of one of the modelled virtual methods, as it is dispatched. */
  datatype Call =
    | SaveViewCall(markerPresent: bool)
    | SaveSerializedViewCall
    | WriteStateCall(state: Value)
    | WriteSerializedViewCall(view: Option<SerializedView>)
    | InitParameterRead(name: string)

  // ------------------------------------------------------- Shape conversions

  /**
   * The result check of `saveSerializedView`: an `instanceof Object[]` (any
   * array of references) of length exactly two becomes a pair; anything else
   * becomes `null`.
   */
  function SerializedViewOf(stateObj: Value): (r: Option<SerializedView>)
    ensures r.Some? ==> stateObj.Arr? && stateObj.kind != PrimitiveArray && |stateObj.elements| == 2
    ensures r.Some? ==> r.value == SerializedView(stateObj.elements[0], stateObj.elements[1])
    ensures r.None? ==> !stateObj.Arr? || stateObj.kind == PrimitiveArray || |stateObj.elements| != 2
  {
    match stateObj
    case Arr(kind, elements) =>
      if kind != PrimitiveArray && |elements| == 2 then Some(SerializedView(elements[0], elements[1])) else None
    case _ => None
  }

  /**
   * The argument check of `writeState(Object)`: only an array whose component
   * type is exactly `Object` and whose length is exactly two is forwarded.
   */
  function WritableSerializedViewOf(state: Value): (r: Option<SerializedView>)
    ensures r.Some? ==> state == Arr(ObjectArray, [r.value.structure, r.value.state])
    ensures r.None? ==> !state.Arr? || state.kind != ObjectArray || |state.elements| != 2
  {
    if state.Arr? && state.kind == ObjectArray && |state.elements| == 2 then
      Some(SerializedView(state.elements[0], state.elements[1]))
    else
      None
  }

  /** `new Object[] { view.getStructure(), view.getState() }`. */
  function StateArrayOf(view: SerializedView): (r: Value)
    ensures r.Arr? && r.kind == ObjectArray && |r.elements| == 2
  {
    Arr(ObjectArray, [view.structure, view.state])
  }

  /** Pair to array and back gives the pair again, through either check. */
  lemma PairArrayPairRoundTrip(view: SerializedView)
    ensures SerializedViewOf(StateArrayOf(view)) == Some(view)
    ensures WritableSerializedViewOf(StateArrayOf(view)) == Some(view)
  {
  }

  /**
   * Array to pair and back: the write check gives the same array back; the
   * save check keeps both elements but the rebuilt array is a plain `Object[]`.
   */
  lemma ArrayPairArrayRoundTrip(state: Value)
    ensures WritableSerializedViewOf(state).Some? ==> StateArrayOf(WritableSerializedViewOf(state).value) == state
    ensures SerializedViewOf(state).Some? ==> StateArrayOf(SerializedViewOf(state).value) == Arr(ObjectArray, state.elements)
  {
    if SerializedViewOf(state).Some? {
      assert state.elements == [state.elements[0], state.elements[1]];
    }
  }

  /** The write check is the stricter one: whatever it accepts the save check accepts alike, not the other way round. */
  lemma WriteCheckIsStricter(state: Value)
    ensures WritableSerializedViewOf(state).Some? ==> SerializedViewOf(state) == WritableSerializedViewOf(state)
    ensures var narrow := Arr(NarrowerReferenceArray, [Text("s"), Text("t")]);
      SerializedViewOf(narrow).Some? && WritableSerializedViewOf(narrow).None?
    ensures var primitive := Arr(PrimitiveArray, [Bool(true), Bool(false)]);
      SerializedViewOf(primitive).None? && WritableSerializedViewOf(primitive).None?
  {
  }

  // ------------------------------------------------- The save bridge, as values

  /**
   * What `saveView` returns for a subclass with overrides `o`, when the
   * re-entrancy marker is (`marked`) or is not in the request attributes.
   */
  function SaveViewResult(o: Overrides, root: ViewRoot, marked: bool): Outcome<Value>
    decreases if marked then 0 else 2
  {
    if o.saveView.Some? then o.saveView.value(root)
    else if marked then Returned(Null)
    else
      match SaveSerializedViewResult(o, root)
      case Threw(f) => Threw(f)
      case Returned(None) => Returned(Null)
      case Returned(Some(view)) => Returned(StateArrayOf(view))
  }

  /** What `saveSerializedView` returns for a subclass with overrides `o`. */
  function SaveSerializedViewResult(o: Overrides, root: ViewRoot): Outcome<Option<SerializedView>>
    decreases 1
  {
    if o.saveSerializedView.Some? then o.saveSerializedView.value(root)
    else
      match SaveViewResult(o, root, true)
      case Threw(f) => Threw(f)
      case Returned(stateObj) => Returned(SerializedViewOf(stateObj))
  }

  /** The virtual calls one `saveView` makes, itself first. */
  function SaveViewTrace(o: Overrides, marked: bool): seq<Call>
    decreases if marked then 0 else 2
  {
    [SaveViewCall(marked)] + if o.saveView.None? && !marked then SaveSerializedViewTrace(o) else []
  }

  /** The virtual calls one `saveSerializedView` makes, itself first. */
  function SaveSerializedViewTrace(o: Overrides): seq<Call>
    decreases 1
  {
    [SaveSerializedViewCall] + if o.saveSerializedView.None? then SaveViewTrace(o, true) else []
  }

  /**
   * With neither save method overridden, the bridge stops after one nested
   * call and saves nothing: `saveSerializedView` makes exactly one nested
   * `saveView` call, which sees the marker and returns `null`.
   */
  lemma DefaultSaveBridgeTerminates(o: Overrides, root: ViewRoot)
    requires o.saveView.None? && o.saveSerializedView.None?
    ensures SaveSerializedViewTrace(o) == [SaveSerializedViewCall, SaveViewCall(true)]
    ensures SaveSerializedViewResult(o, root) == Returned(None)
    ensures SaveViewTrace(o, false) == [SaveViewCall(false), SaveSerializedViewCall, SaveViewCall(true)]
    ensures SaveViewResult(o, root, false) == Returned(Null)
  {
  }

  /**
   * A legacy subclass (only `saveSerializedView` overridden): `saveView`
   * runs the override exactly once and hands back its pair as a two-element
   * `Object[]`, losing neither component.
   */
  lemma LegacyOverrideSavedThroughSaveView(o: Overrides, root: ViewRoot)
    requires o.saveView.None? && o.saveSerializedView.Some?
    ensures SaveViewTrace(o, false) == [SaveViewCall(false), SaveSerializedViewCall]
    ensures var legacy := o.saveSerializedView.value(root);
      && (legacy.Threw? ==> SaveViewResult(o, root, false) == Threw(legacy.failure))
      && (legacy == Returned(None) ==> SaveViewResult(o, root, false) == Returned(Null))
      && (legacy.Returned? && legacy.value.Some? ==>
            && SaveViewResult(o, root, false) == Returned(StateArrayOf(legacy.value.value))
            && SerializedViewOf(SaveViewResult(o, root, false).value) == legacy.value)
  {
  }

  /**
   * A current subclass (only `saveView` overridden): `saveSerializedView`
   * runs the override exactly once, with the marker set, and wraps a
   * two-element reference array into the pair of its two elements.
   */
  lemma CurrentOverrideSavedThroughSaveSerializedView(o: Overrides, root: ViewRoot)
    requires o.saveView.Some? && o.saveSerializedView.None?
    ensures SaveSerializedViewTrace(o) == [SaveSerializedViewCall, SaveViewCall(true)]
    ensures var current := o.saveView.value(root);
      && (current.Threw? ==> SaveSerializedViewResult(o, root) == Threw(current.failure))
      && (current.Returned? ==> SaveSerializedViewResult(o, root) == Returned(SerializedViewOf(current.value)))
  {
  }

  /**
   * The guard of the inherited `saveView`: with the marker present it returns
   * `null` and makes no call back into `saveSerializedView`.
   */
  lemma MarkedSaveViewDoesNotCallBack(o: Overrides, root: ViewRoot)
    requires o.saveView.None?
    ensures SaveViewTrace(o, true) == [SaveViewCall(true)]
    ensures SaveViewResult(o, root, true) == Returned(Null)
  {
  }

  /** How many times a trace dispatches to `saveView`, with or without the marker. */
  function SaveViewRuns(trace: seq<Call>): nat {
    multiset(trace)[SaveViewCall(false)] + multiset(trace)[SaveViewCall(true)]
  }

  /** How many times a trace dispatches to `saveSerializedView`. */
  function SaveSerializedViewRuns(trace: seq<Call>): nat {
    multiset(trace)[SaveSerializedViewCall]
  }

  /**
   * Whatever is overridden, one call of either save entry point runs each
   * save override at most once (the bridge never traverses the tree twice),
   * makes at most three calls, and never reaches `saveView` from
   * `saveSerializedView` without the marker.
   */
  lemma {:induction false} SaveBridgeIsBounded(o: Overrides)
    ensures o.saveView.Some? ==> SaveViewRuns(SaveViewTrace(o, false)) == 1 && SaveViewRuns(SaveSerializedViewTrace(o)) <= 1
    ensures o.saveSerializedView.Some? ==>
      SaveSerializedViewRuns(SaveViewTrace(o, false)) <= 1 && SaveSerializedViewRuns(SaveSerializedViewTrace(o)) == 1
    ensures |SaveViewTrace(o, false)| <= 3 && |SaveSerializedViewTrace(o)| <= 2
    ensures forall k :: 0 <= k < |SaveSerializedViewTrace(o)| ==> SaveSerializedViewTrace(o)[k] != SaveViewCall(false)
  {
    if o.saveView.Some? {
      assert SaveViewTrace(o, false) == [SaveViewCall(false)];
    } else if o.saveSerializedView.Some? {
      assert SaveSerializedViewTrace(o) == [SaveSerializedViewCall];
      assert SaveViewTrace(o, false) == [SaveViewCall(false), SaveSerializedViewCall];
    }
  }

  // ------------------------------------------------ The write bridge, as values

  /** At least one `writeState` overload is overridden, so the defaults cannot call each other forever. */
  predicate WriteSinkSupplied(o: Overrides) {
    o.writeState.Some? || o.writeSerializedView.Some?
  }

  /** How `writeState(Object)` ends for a subclass with overrides `o`. */
  function WriteStateResult(o: Overrides, state: Value): Completion
    requires WriteSinkSupplied(o)
    decreases if o.writeState.Some? then 0 else 1
  {
    if o.writeState.Some? then o.writeState.value(state)
    else
      match WritableSerializedViewOf(state)
      case None => Normal
      case Some(view) => WriteSerializedViewResult(o, Some(view))
  }

  /** How `writeState(SerializedView)` ends for a subclass with overrides `o`. */
  function WriteSerializedViewResult(o: Overrides, view: Option<SerializedView>): Completion
    requires WriteSinkSupplied(o)
    decreases if o.writeSerializedView.Some? then 0 else 1
  {
    if o.writeSerializedView.Some? then o.writeSerializedView.value(view)
    else
      match view
      case None => Normal
      case Some(v) => WriteStateResult(o, StateArrayOf(v))
  }

  /** The virtual calls one `writeState(Object)` makes, itself first. */
  function WriteStateTrace(o: Overrides, state: Value): seq<Call>
    requires WriteSinkSupplied(o)
    decreases if o.writeState.Some? then 0 else 1
  {
    [WriteStateCall(state)] +
      if o.writeState.Some? then []
      else match WritableSerializedViewOf(state)
        case None => []
        case Some(view) => WriteSerializedViewTrace(o, Some(view))
  }

  /** The virtual calls one `writeState(SerializedView)` makes, itself first. */
  function WriteSerializedViewTrace(o: Overrides, view: Option<SerializedView>): seq<Call>
    requires WriteSinkSupplied(o)
    decreases if o.writeSerializedView.Some? then 0 else 1
  {
    [WriteSerializedViewCall(view)] +
      if o.writeSerializedView.Some? then []
      else match view
        case None => []
        case Some(v) => WriteStateTrace(o, StateArrayOf(v))
  }

  /**
   * A subclass that overrides only `writeState(Object)`: the pair overload
   * does nothing for `null` and otherwise hands the override, once, an array
   * from which the write check recovers the very same pair.
   */
  lemma PairWriteReachesArraySink(o: Overrides, view: Option<SerializedView>)
    requires o.writeState.Some? && o.writeSerializedView.None?
    ensures view.None? ==> WriteSerializedViewTrace(o, view) == [WriteSerializedViewCall(None)]
    ensures view.None? ==> WriteSerializedViewResult(o, view) == Normal
    ensures view.Some? ==> WriteSerializedViewTrace(o, view) == [WriteSerializedViewCall(view), WriteStateCall(StateArrayOf(view.value))]
    ensures view.Some? ==> WriteSerializedViewResult(o, view) == o.writeState.value(StateArrayOf(view.value))
    ensures view.Some? ==> WritableSerializedViewOf(StateArrayOf(view.value)) == view
  {
  }

  /**
   * A subclass that overrides only `writeState(SerializedView)`: the array
   * overload forwards exactly the two-element `Object[]` arguments, once, as
   * the pair of their elements, and silently drops every other argument.
   */
  lemma ArrayWriteReachesPairSink(o: Overrides, state: Value)
    requires o.writeState.None? && o.writeSerializedView.Some?
    ensures var view := WritableSerializedViewOf(state);
      && (view.None? ==> WriteStateTrace(o, state) == [WriteStateCall(state)] && WriteStateResult(o, state) == Normal)
      && (view.Some? ==>
            && WriteStateTrace(o, state) == [WriteStateCall(state), WriteSerializedViewCall(view)]
            && WriteStateResult(o, state) == o.writeSerializedView.value(view)
            && StateArrayOf(view.value) == state)
  {
  }

  // ----------------------------------------------------- The storage decision

  /**
   * What `isSavingStateInClient` computes from the init parameter when it has
   * nothing cached: the parameter must be present and equal `"client"`
   * ignoring case.
   */
  function ClientSideRequested(param: Option<string>): bool {
    match param
    case None => false
    case Some(p) => JavaStrings.EqualsIgnoreCase(p, STATE_SAVING_METHOD_CLIENT)
  }

  /**
   * The decision as the code makes it: an absent parameter means server-side
   * saving, as does any value other than `"client"` in some case; `"client"`
   * in any case means client-side saving.
   */
  lemma StorageDecisionCases()
    ensures !ClientSideRequested(None)
    ensures ClientSideRequested(Some("client")) && ClientSideRequested(Some("CLIENT")) && ClientSideRequested(Some("Client"))
    ensures !ClientSideRequested(Some("server")) && !ClientSideRequested(Some("SERVER"))
    ensures !ClientSideRequested(Some("foo")) && !ClientSideRequested(Some(""))
  {
    JavaStrings.ClientSpellings();
    assert !JavaStrings.CharEqualsIgnoreCase('s', 'c');
    assert !JavaStrings.CharEqualsIgnoreCase('S', 'c');
  }

  // -------------------------------------------------------------- The state

  /** The per-request `FacesContext`, as far as `StateManager` uses it. */
  class FacesContext {
    /** `getAttributes()`: the per-request attributes map. */
    var attributes: map<string, Value>
    /** The view being saved. */
    const root: ViewRoot
    /** `getExternalContext().getInitParameter(name)`, for every name. */
    const initParameters: map<string, string>
    /** `getRenderKit().getResponseStateManager().getViewState(this, state)`. */
    const renderViewState: Value -> string
    /** The modelled virtual calls made against this request, in order. */
    ghost var calls: seq<Call>

    constructor (attributes: map<string, Value>, root: ViewRoot, initParameters: map<string, string>,
                 renderViewState: Value -> string)
      ensures this.attributes == attributes && this.root == root
      ensures this.initParameters == initParameters && this.renderViewState == renderViewState
      ensures calls == []
    {
      this.attributes := attributes;
      this.root := root;
      this.initParameters := initParameters;
      this.renderViewState := renderViewState;
      calls := [];
    }

    /** `getExternalContext().getInitParameter(name)`, recorded as a read. */
    method GetInitParameter(name: string) returns (p: Option<string>)
      modifies this`calls
      ensures p == (if name in initParameters then Some(initParameters[name]) else None)
      ensures calls == old(calls) + [InitParameterRead(name)]
    {
      p := if name in initParameters then Some(initParameters[name]) else None;
      calls := calls + [InitParameterRead(name)];
    }
  }

  /** An instance of a concrete subclass of `StateManager`, shared by all requests. */
  class StateManager {
    /** Which bridging methods the subclass overrides, and how. */
    const overrides: Overrides
    /** The memoised storage decision; `None` until the first `IsSavingStateInClient`. */
    var savingStateInClient: Option<bool>

    constructor (overrides: Overrides)
      ensures this.overrides == overrides && savingStateInClient == None
    {
      this.overrides := overrides;
      savingStateInClient := None;
    }

    /**
     * `saveSerializedView`: when not overridden, puts the marker, calls
     * `saveView`, removes the marker whether that returned or threw, and
     * wraps a two-element reference array into a pair.
     */
    method SaveSerializedView(ctx: FacesContext) returns (r: Outcome<Option<SerializedView>>)
      modifies ctx`attributes, ctx`calls
      decreases if overrides.saveSerializedView.Some? then 0 else 2
      ensures r == SaveSerializedViewResult(overrides, ctx.root)
      ensures ctx.calls == old(ctx.calls) + SaveSerializedViewTrace(overrides)
      ensures ctx.attributes ==
        if overrides.saveSerializedView.Some? then old(ctx.attributes)
        else old(ctx.attributes) - {IS_CALLED_FROM_API_CLASS}
    {
      ctx.calls := ctx.calls + [SaveSerializedViewCall];
      if overrides.saveSerializedView.Some? {
        r := overrides.saveSerializedView.value(ctx.root);
        return;
      }
      ctx.attributes := ctx.attributes[IS_CALLED_FROM_API_CLASS := Bool(true)];
      var stateObj := SaveView(ctx);
      // finally
      ctx.attributes := ctx.attributes - {IS_CALLED_FROM_API_CLASS};
      match stateObj
      case Threw(f) =>
        r := Threw(f);
      case Returned(v) =>
        r := Returned(SerializedViewOf(v));
    }

    /**
     * `saveView`: when not overridden, returns `null` without calling back if
     * the marker is present; otherwise calls `saveSerializedView` and turns
     * its pair into a two-element `Object[]`. It leaves the attributes as
     * they were.
     */
    method SaveView(ctx: FacesContext) returns (r: Outcome<Value>)
      modifies ctx`attributes, ctx`calls
      decreases if overrides.saveView.Some? then 0 else if IS_CALLED_FROM_API_CLASS in ctx.attributes then 1 else 3
      ensures r == SaveViewResult(overrides, ctx.root, IS_CALLED_FROM_API_CLASS in old(ctx.attributes))
      ensures ctx.calls == old(ctx.calls) + SaveViewTrace(overrides, IS_CALLED_FROM_API_CLASS in old(ctx.attributes))
      ensures ctx.attributes == old(ctx.attributes)
    {
      var marked := IS_CALLED_FROM_API_CLASS in ctx.attributes;
      ctx.calls := ctx.calls + [SaveViewCall(marked)];
      if overrides.saveView.Some? {
        r := overrides.saveView.value(ctx.root);
        return;
      }
      r := Returned(Null);
      if !marked {
        var view := SaveSerializedView(ctx);
        match view
        case Threw(f) =>
          r := Threw(f);
        case Returned(None) =>
        case Returned(Some(v)) =>
          r := Returned(StateArrayOf(v));
      }
    }

    /** `getViewState`: one `saveView`, whose result the render kit turns into a string. */
    method GetViewState(ctx: FacesContext) returns (r: Outcome<string>)
      modifies ctx`attributes, ctx`calls
      ensures var saved := SaveViewResult(overrides, ctx.root, IS_CALLED_FROM_API_CLASS in old(ctx.attributes));
        r == if saved.Threw? then Threw(saved.failure) else Returned(ctx.renderViewState(saved.value))
      ensures ctx.calls == old(ctx.calls) + SaveViewTrace(overrides, IS_CALLED_FROM_API_CLASS in old(ctx.attributes))
      ensures ctx.attributes == old(ctx.attributes)
    {
      var state := SaveView(ctx);
      match state
      case Threw(f) =>
        r := Threw(f);
      case Returned(v) =>
        r := Returned(ctx.renderViewState(v));
    }

    /**
     * `writeState(Object)`: when not overridden, forwards a two-element
     * `Object[]` as a pair to `writeState(SerializedView)` and ignores
     * anything else.
     */
    method WriteState(ctx: FacesContext, state: Value) returns (c: Completion)
      requires WriteSinkSupplied(overrides)
      modifies ctx`calls
      decreases if overrides.writeState.Some? then 0 else 1
      ensures c == WriteStateResult(overrides, state)
      ensures ctx.calls == old(ctx.calls) + WriteStateTrace(overrides, state)
    {
      ctx.calls := ctx.calls + [WriteStateCall(state)];
      if overrides.writeState.Some? {
        c := overrides.writeState.value(state);
        return;
      }
      c := Normal;
      if state.Arr? && state.kind == ObjectArray {
        if |state.elements| == 2 {
          var view := SerializedView(state.elements[0], state.elements[1]);
          c := WriteSerializedView(ctx, Some(view));
        }
      }
    }

    /**
     * `writeState(SerializedView)`: when not overridden, does nothing for
     * `null` and forwards the pair as a two-element `Object[]` otherwise.
     */
    method WriteSerializedView(ctx: FacesContext, view: Option<SerializedView>) returns (c: Completion)
      requires WriteSinkSupplied(overrides)
      modifies ctx`calls
      decreases if overrides.writeSerializedView.Some? then 0 else 1
      ensures c == WriteSerializedViewResult(overrides, view)
      ensures ctx.calls == old(ctx.calls) + WriteSerializedViewTrace(overrides, view)
    {
      ctx.calls := ctx.calls + [WriteSerializedViewCall(view)];
      if overrides.writeSerializedView.Some? {
        c := overrides.writeSerializedView.value(view);
        return;
      }
      c := Normal;
      if view.Some? {
        c := WriteState(ctx, StateArrayOf(view.value));
      }
    }

    /**
     * `isSavingStateInClient`: the first call reads the init parameter and
     * caches whether it is `"client"` ignoring case; later calls return the
     * cached decision without reading the parameter again.
     */
    method IsSavingStateInClient(ctx: FacesContext) returns (r: bool)
      modifies this`savingStateInClient, ctx`calls
      ensures savingStateInClient == Some(r)
      ensures old(savingStateInClient).Some? ==> r == old(savingStateInClient).value && ctx.calls == old(ctx.calls)
      ensures old(savingStateInClient).None? ==>
        && r == ClientSideRequested(
             if STATE_SAVING_METHOD_PARAM_NAME in ctx.initParameters
             then Some(ctx.initParameters[STATE_SAVING_METHOD_PARAM_NAME]) else None)
        && ctx.calls == old(ctx.calls) + [InitParameterRead(STATE_SAVING_METHOD_PARAM_NAME)]
    {
      if savingStateInClient.Some? {
        return savingStateInClient.value;
      }
      savingStateInClient := Some(false);
      var saveStateParam := ctx.GetInitParameter(STATE_SAVING_METHOD_PARAM_NAME);
      if saveStateParam.Some? && JavaStrings.EqualsIgnoreCase(saveStateParam.value, STATE_SAVING_METHOD_CLIENT) {
        savingStateInClient := Some(true);
      }
      r := savingStateInClient.value;
    }
  }

  /**
   * The decision is made once per `StateManager`: two requests, even with
   * different init parameters, get the answer the first one computed, and
   * the second reads no parameter.
   */
  method StorageDecisionIsMemoised(manager: StateManager, first: FacesContext, second: FacesContext)
    returns (a: bool, b: bool)
    requires first != second
    modifies manager, first, second
    ensures a == b
    ensures second.calls == old(second.calls)
    ensures old(manager.savingStateInClient).None? ==>
      a == ClientSideRequested(
        if STATE_SAVING_METHOD_PARAM_NAME in first.initParameters
        then Some(first.initParameters[STATE_SAVING_METHOD_PARAM_NAME]) else None)
  {
    a := manager.IsSavingStateInClient(first);
    b := manager.IsSavingStateInClient(second);
  }
}
