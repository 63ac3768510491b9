# Mojarra view-state bridging and `<ui:decorate>`, modelled in Dafny

This project models two pieces of Mojarra, the Jakarta Faces implementation.

**`jakarta.faces.application.StateManager`** is the abstract coordinator that saves a view's state between requests. The model covers the logic the class itself implements:

- **Save bridge.** `saveSerializedView` (legacy `SerializedView` pair) and `saveView` (two-element `Object[]`) each call the other by default. The request attribute `jakarta.faces.ensureOverriddenInvocation` stops this from recursing: `saveSerializedView` puts it before its nested call and removes it in a `finally`, and the inherited `saveView` does not call back while it is present.
- **Write bridge.** The two `writeState` overloads convert between the same two shapes.
- **`getViewState`.** It runs one `saveView` and hands the result to the render kit.
- **Storage-mode decision.** `isSavingStateInClient` computes it once and caches it in a nullable field.

A concrete subclass is an `Overrides` value. For each of the four bridging methods it holds either nothing, meaning the default body runs, or the function the subclass's override computes. Every dispatched call is recorded in a ghost `calls` trace on the request context. Pure functions (`SaveViewResult`, `SaveSerializedViewTrace`, ...) give what each entry point returns and which calls it makes. The methods of the `StateManager` class are proved against those functions, and lemmas state the bridge's properties:
- it terminates;
- each overriding save method runs at most once per call;
- the pair and array shapes round-trip.

**`com.sun.faces.facelets.tag.ui.DecorateHandler`** is the `<ui:decorate>` tag handler.

- **Constructor.** It collects the nested `<ui:define>` handlers into a name-to-handler map, where the last one with a given name wins. It also collects the nested `<ui:param>` handlers into an array, which is `null` when there are none.
- **`apply(ctx, parent)`.** It binds the parameters in a wrapping variable mapper, pushes itself as a template client, and evaluates, checks and includes the template path. The inclusion therefore runs with this handler as the innermost client, which is how an insert in the template reaches `apply(ctx, parent, name)`. In a `finally` it restores the mapper and pops the client.
- **`apply(ctx, parent, name)`.** It dispatches a named block to its define handler, or the tag body when the name is `null`.

The Facelet context is modelled as a class with these parts:
- the current mapper;
- the client stack;
- a record of the calls made into the component tree;
- functions giving the outcomes of EL evaluation, parameter application, inclusion and nested handlers.

Java's `equalsIgnoreCase` and `trim` are modelled in `JavaStrings`.

Points where the code and its documentation differ, or where the code does something easy to miss. The model follows the code in every case.

- **Storage-mode default.** The doc comment of `STATE_SAVING_METHOD_PARAM_NAME` (StateManager.java:53-56), and the one at :354, say an absent parameter means client-side saving. `isSavingStateInClient` returns `false` when the parameter is absent (:469-475), as its own doc comment says (:459-461). `StorageDecisionCases` states the code's behaviour: absent gives `false`.
- **`writeState(Object)` length check.** Its doc comment says it accepts an `Object[]` of length "greater than or equal to two" (:323). The code accepts length exactly two (:338).
- **`writeState(Object)` type check.** It also requires the component type to be exactly `Object` (:336). `saveSerializedView` uses `instanceof Object[]` (:205), which also accepts a `String[]`. `WriteCheckIsStricter` shows such an array that one accepts and the other rejects.
- **Marker removal.** `saveSerializedView` removes the marker in its `finally` even when the marker was already present before the call (:201).
- **Failing `<ui:param>`.** `DecorateHandler.apply` applies the parameters before its `try` (:95-101). If one of them throws, the exception propagates, the wrapping mapper stays installed, and nothing has been pushed. The client stack is therefore unchanged on every path, but the mapper is restored only when the parameters all succeed. `DecorateTag.DecorateHandler.Apply` states exactly this.
- **`null` template path.** A template attribute that evaluates to `null` fails with a `NullPointerException` at `path.trim()` (:107).
- **Failing template evaluation.** The `catch (IOException e)` covers the evaluation too (:105-115). An `IOException` from `template.getValue` would therefore also become a `TagAttributeException`, and its message would read "Invalid path : null" because `path` is still `null`. The model routes evaluation failures through the same catch.

## Model

| member | source | states |
|---|---|---|
| `StateManagement.SerializedViewOf` | impl/src/main/java/jakarta/faces/application/StateManager.java:204-212 | a pair is produced only from a non-primitive array of length exactly two, with element 0 as structure and element 1 as state; every other result gives null |
| `StateManagement.WritableSerializedViewOf` | impl/src/main/java/jakarta/faces/application/StateManager.java:336-341 | forwards only an `Object[]` (component type exactly Object) of length exactly two, and rebuilding an array from the forwarded pair gives an equal array (equal kind and elements; Java builds a new one) |
| `StateManagement.StateArrayOf` | impl/src/main/java/jakarta/faces/application/StateManager.java:255 | the pair becomes a two-element `Object[]` |
| `StateManagement.PairArrayPairRoundTrip` | impl/src/main/java/jakarta/faces/application/StateManager.java:375-379 | pair to array and back, through either check, gives the same structure and state |
| `StateManagement.ArrayPairArrayRoundTrip` | impl/src/main/java/jakarta/faces/application/StateManager.java:335-343 | array to pair and back gives an equal array (compared by kind and elements, not identity) through the write check, and the same two elements as a plain `Object[]` through the save check |
| `StateManagement.WriteCheckIsStricter` | impl/src/main/java/jakarta/faces/application/StateManager.java:205-207 | whatever the write check accepts, the save check accepts alike; a two-element `String[]` passes the save check but not the write check; a two-element primitive array passes neither |
| `StateManagement.DefaultSaveBridgeTerminates` | impl/src/main/java/jakarta/faces/application/StateManager.java:196-199 | with neither save method overridden, `saveSerializedView` makes exactly one nested `saveView` call, made with the marker set, and returns null; `saveView` returns null after three calls in all |
| `StateManagement.MarkedSaveViewDoesNotCallBack` | impl/src/main/java/jakarta/faces/application/StateManager.java:252 | the inherited `saveView` returns null and calls nothing while the marker is present |
| `StateManagement.LegacyOverrideSavedThroughSaveView` | impl/src/main/java/jakarta/faces/application/StateManager.java:249-260 | with only `saveSerializedView` overridden, `saveView` runs it once and returns its pair as `[structure, state]`, null for null, and rethrows its exception |
| `StateManagement.CurrentOverrideSavedThroughSaveSerializedView` | impl/src/main/java/jakarta/faces/application/StateManager.java:194-212 | with only `saveView` overridden, `saveSerializedView` runs it once with the marker set, rethrows its exception, and otherwise wraps its result by the save check |
| `StateManagement.SaveBridgeIsBounded` | impl/src/main/java/jakarta/faces/application/StateManager.java:252-253 | whatever is overridden, either save entry point runs an overriding `saveView` or `saveSerializedView` at most once, makes at most three calls, and `saveSerializedView` never calls `saveView` without the marker |
| `StateManagement.PairWriteReachesArraySink` | impl/src/main/java/jakarta/faces/application/StateManager.java:375-379 | with only the array overload overridden, the pair overload does nothing for null and otherwise calls the override once with an array that decodes to the same pair |
| `StateManagement.ArrayWriteReachesPairSink` | impl/src/main/java/jakarta/faces/application/StateManager.java:335-343 | with only the pair overload overridden, the array overload forwards exactly the two-element `Object[]` arguments, once, as the pair of their elements, and does nothing for any other argument |
| `StateManagement.StorageDecisionCases` | impl/src/main/java/jakarta/faces/application/StateManager.java:469-475 | absent parameter gives false; "client" in any case gives true; "server", "SERVER", "foo" and "" give false |
| `StateManagement.FacesContext.GetInitParameter` | impl/src/main/java/jakarta/faces/application/StateManager.java:471 | returns the init parameter or null, and records the read |
| `StateManagement.StateManager.SaveSerializedView` | impl/src/main/java/jakarta/faces/application/StateManager.java:194-213 | returns `SaveSerializedViewResult`, makes the calls `SaveSerializedViewTrace` lists, and leaves the attributes: with the inherited body, as before minus the marker (removed even if it was there already), whether the nested `saveView` returned or threw; with `saveSerializedView` overridden, exactly as before, marker included |
| `StateManagement.StateManager.SaveView` | impl/src/main/java/jakarta/faces/application/StateManager.java:249-260 | returns `SaveViewResult` for the marker's presence on entry, makes the calls `SaveViewTrace` lists, and leaves the attributes unchanged |
| `StateManagement.StateManager.GetViewState` | impl/src/main/java/jakarta/faces/application/StateManager.java:521-524 | one `saveView`; its exception propagates, otherwise the render kit's view state of its result is returned |
| `StateManagement.StateManager.WriteState` | impl/src/main/java/jakarta/faces/application/StateManager.java:335-343 | ends as `WriteStateResult` and makes the calls `WriteStateTrace` lists, given that one write overload is overridden |
| `StateManagement.StateManager.WriteSerializedView` | impl/src/main/java/jakarta/faces/application/StateManager.java:375-379 | ends as `WriteSerializedViewResult` and makes the calls `WriteSerializedViewTrace` lists, given that one write overload is overridden |
| `StateManagement.StateManager.IsSavingStateInClient` | impl/src/main/java/jakarta/faces/application/StateManager.java:465-476 | afterwards the cache holds the answer; a cached answer is returned without reading the parameter; otherwise the parameter is read once and the answer is whether it is present and equals "client" ignoring case |
| `StateManagement.StorageDecisionIsMemoised` | impl/src/main/java/jakarta/faces/application/StateManager.java:466-468 | two requests get the same answer, the one computed from the first request's parameter, and the second reads nothing |
| `JavaStrings.EqualsIgnoreCase` | impl/src/main/java/jakarta/faces/application/StateManager.java:472 | true exactly when the lengths agree and every position matches by Java's per-character case-insensitive rule |
| `JavaStrings.ClientSpellings` | impl/src/main/java/jakarta/faces/application/StateManager.java:472 | "CLIENT", "Client" and "clıent" (dotless i) equal "client" ignoring case; "server" and "clients" do not |
| `JavaStrings.TrimLeading` | impl/src/main/java/com/sun/faces/facelets/tag/ui/DecorateHandler.java:107 | the result is the suffix left after the maximal prefix of characters up to U+0020 |
| `JavaStrings.TrimTrailing` | impl/src/main/java/com/sun/faces/facelets/tag/ui/DecorateHandler.java:107 | the result is the prefix left before the maximal suffix of characters up to U+0020 |
| `JavaStrings.TrimIsEmptyIffBlank` | impl/src/main/java/com/sun/faces/facelets/tag/ui/DecorateHandler.java:107 | `path.trim().length() == 0` exactly when every character is at most U+0020 |
| `DecorateTag.CollectDefines` | impl/src/main/java/com/sun/faces/facelets/tag/ui/DecorateHandler.java:58-68 | the loop builds the map that `put`ting each handler in turn leaves; its keys are exactly the names found, and each name maps to the last define handler carrying it |
| `DecorateTag.DefinesMapKeys` | impl/src/main/java/com/sun/faces/facelets/tag/ui/DecorateHandler.java:58-68 | a name is a key of the collected map exactly when some nested define handler carries it |
| `DecorateTag.DefinesMapLastWins` | impl/src/main/java/com/sun/faces/facelets/tag/ui/DecorateHandler.java:58-68 | a handler with no later handler of the same name is what its name maps to |
| `DecorateTag.CollectParams` | impl/src/main/java/com/sun/faces/facelets/tag/ui/DecorateHandler.java:69-81 | null exactly when no param handler was found, otherwise a new array with the handlers found, in order |
| `DecorateTag.DecorateHandler.constructor` | impl/src/main/java/com/sun/faces/facelets/tag/ui/DecorateHandler.java:55-82 | the handler holds the template attribute, the last-wins define map and the params array as above |
| `DecorateTag.BindParams` | impl/src/main/java/com/sun/faces/facelets/tag/ui/DecorateHandler.java:95-101 | binding parameters into a wrapper keeps it a wrapper around the same target mapper and never drops a variable; no parameters leave the mapper as it was |
| `DecorateTag.CheckTemplatePath` | impl/src/main/java/com/sun/faces/facelets/tag/ui/DecorateHandler.java:107-113 | a path passes exactly when it has a character above U+0020 and does not start with the contracts directory; a rejection is a `TagAttributeException` |
| `DecorateTag.RethrowIncludeFailure` | impl/src/main/java/com/sun/faces/facelets/tag/ui/DecorateHandler.java:115-119 | an exception stays an exception and is never an `IOException`; exceptions other than `IOException` pass through unchanged |
| `DecorateTag.IncludeTemplate` | impl/src/main/java/com/sun/faces/facelets/tag/ui/DecorateHandler.java:105-119 | a path is included exactly when evaluation returned it and it passed both checks, and the block then ends as its inclusion does, an `IOException` rethrown as `TagAttributeException`; a rejected path ends with the check's exception and a `null` path with a `NullPointerException`; a failing evaluation includes nothing and ends through the same catch, an `IOException` becoming a `TagAttributeException` with message "Invalid path : null" and any other exception propagating unchanged; no `IOException` ever escapes the block |
| `DecorateTag.FaceletContext.ApplyParam` | impl/src/main/java/com/sun/faces/facelets/tag/ui/DecorateHandler.java:99 | a parameter either fails, leaving the mapper as it was, or binds its variable in the current mapper |
| `DecorateTag.FaceletContext.Run` | impl/src/main/java/com/sun/faces/facelets/tag/ui/DecorateHandler.java:114 | a call into the component tree is recorded once, sees the current template clients, and ends as the collaborator says |
| `DecorateTag.DecorateHandler.Apply` | impl/src/main/java/com/sun/faces/facelets/tag/ui/DecorateHandler.java:91-124 | the client stack is the same afterwards on every path; a failing parameter propagates with the wrapper left installed and nothing included; otherwise the mapper is restored, the outcome and the single inclusion, if any, are those of `IncludeTemplate` under the bound mapper, and the inclusion sees this handler pushed as the innermost template client on top of the caller's clients |
| `DecorateTag.DecorateHandler.ApplyNamed` | impl/src/main/java/com/sun/faces/facelets/tag/ui/DecorateHandler.java:127-140 | an unknown name gives false and calls nothing; a known name applies that define handler once and gives true; null applies the tag body once and gives true; a failing call propagates its exception; the applied handler sees the template clients unchanged |
| `DecorateTag.BlankTemplateNotIncluded` | impl/src/main/java/com/sun/faces/facelets/tag/ui/DecorateHandler.java:107-109 | a blank path fails with "Invalid path : " and the path and includes nothing |
| `DecorateTag.ContractPathNotIncluded` | impl/src/main/java/com/sun/faces/facelets/tag/ui/DecorateHandler.java:111-113 | a path under the contracts directory fails with a `TagAttributeException` and includes nothing |
| `DecorateTag.IncludeIOExceptionRethrown` | impl/src/main/java/com/sun/faces/facelets/tag/ui/DecorateHandler.java:115-119 | an `IOException` from including an accepted path surfaces as a `TagAttributeException` naming the path |

## Left out

- **Tree traversal, naming-container id uniqueness, transient exclusion.** These are what an overriding `saveView` does (StateManager.java:172-186, :224-245). `StateManager` itself implements none of them, so an override is an opaque function of the view root, and nothing is claimed about its result.
- **Overrides that call back.** An override that calls `super` or the other save method is not modelled: overrides do not call back into the bridge.
- **Overrides and request attributes.** An override is a function of the view root alone. It neither reads nor writes the request attributes. The contracts of `StateManagement.StateManager.SaveView` (attributes unchanged) and `StateManagement.StateManager.SaveSerializedView` (attributes as before minus the marker, or exactly as before when overridden) depend on this for a subclass that overrides a save method.
- **Restore methods.** `restoreView` is abstract. `restoreTreeStructure`, `restoreComponentState`, `getTreeStructureToSave` and `getComponentStateToSave` are stubs that return `null` or do nothing.
- **Unused constants.** `STATE_SAVING_METHOD_SERVER`, `PARTIAL_STATE_SAVING_PARAM_NAME`, `FULL_STATE_SAVING_VIEW_IDS_PARAM_NAME`, `IS_SAVING_STATE`, `IS_BUILDING_INITIAL_STATE` and `SERIALIZE_SERVER_STATE_PARAM_NAME` are declared in the file, but nothing in it uses them.
- **Render kit.** `ResponseStateManager.getViewState` is an opaque function of the saved value.
- **Default/default `writeState`.** The two default `writeState` bodies call each other forever. The model requires at least one of the two overloads to be overridden (`WriteSinkSupplied`).
- **Concurrency.** The model is sequential. The benign race on `savingStateInClient` between concurrent requests is not represented.
- **Null context.** The `NullPointerException` for a `null` context is not modelled: contexts are non-null references.
- JavaStrings.EqualsIgnoreCase: the case mapping covers only the cases that pair a character with an ASCII letter: ASCII letters, dotless i, long s, dotted capital I and the Kelvin sign. Other non-ASCII letters compare by identity only. Strings are sequences of Unicode scalar values rather than UTF-16 units. Neither limit changes a comparison with "client".
- **Collaborators not part of this model.** These are `FaceletContextImplBase`, `ParamHandler.apply`, `VariableMapperWrapper`, `DefineHandler.applyDefinition`, the tag's next handler, `includeFacelet` and EL evaluation. Each is an outcome supplied by the context.
  - A parameter binds one variable in the current mapper, or fails.
  - The included template and the applied handlers leave the mapper and the client stack alone.
  - `pushClient` adds to the front of the client stack, and `popClient` removes that front entry.
- **Configuration.** `WebConfiguration` is a constant contracts-directory string on the context. The lookup cannot fail and never yields `null`.
- **Missing `template` attribute.** `getRequiredAttribute("template")` throws a `TagException` when the attribute is missing. This is not modelled: the constructor is given the attribute.
- **Logging.** Logging in `DecorateHandler` is left out.
- **`FacesContextProducer`.** It is dependency-injection wiring with no logic of its own.
