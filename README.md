# CmdLineUtility and CmdLineAction, modelled in Dafny

This project models the orchestration engine of the Apache OODT command-line
framework (`org.apache.oodt.cas.cl`). `CmdLineUtility` runs one linear
pipeline over an option catalog and a parsed-arguments bundle. The pipeline
has these stages:

1. Catalog completion injects a default help option and a default action
   option when the catalog lacks them.
2. The parser runs on the completed catalog.
3. If a help instance is present, option help or action help is shown and the
   run stops.
4. The required check computes the required options of the chosen action
   minus the options of the custom specified instances.
5. Validation collects every instance that some validator rejects.
6. Each handleable instance's handler is called with the chosen action.
7. The chosen action's `execute` is called once.

`CmdLineAction` is the base object the pipeline dispatches to. It has a name,
a description and an abstract `execute`.

Files:

- `wrappers.dfy`: module `Wrappers` holds `Option`, `Result` and `Outcome`.
- `options.dfy`: module `Options` holds the catalog entries
  (`CmdLineOption`), the option instances (`OptionInstance`), the validator
  and handler identities, and the built-in default options.
- `action.dfy`: module `Actions` holds the class `CmdLineAction`. Its field
  `trace` records every handler call and every `Execute` call made on the
  action.
- `arguments.dfy`: module `Arguments` holds the parsed-arguments bundle
  `CmdLineArgs`. It keeps its three base sets and its four derived views as
  given fields. A subset type states what every bundle guarantees about the
  views.
- `utility.dfy`: module `Utility` holds the specification functions, the
  lemmas and the class `CmdLineUtility`.

Collaborators whose code is not part of this model are parameters:

- The parser is a field of `CmdLineUtility`, as in the source.
- `determineRequired` is the `RequiredRule` argument.
- What each validator accepts is the `Acceptance` argument.
- The `CmdLineArgs` constructor is the `ArgsFactory` argument. `Run` requires
  that it keeps the supported actions it is given.
- The option store is a value holding the supported options and the supported
  actions.
- The help printers and the presenter are replaced by the log `presented`.
  It records which help was shown, and for which bundle.

## Model

| member | source | states |
|---|---|---|
| `Utility.WithBuiltIns` | src/main/java/org/apache/oodt/cas/cl/CmdLineUtility.java:99-111 | The result contains the catalog, a help option and an action option. Exactly one option is added for each missing built-in kind, so at most two. Every added option is built-in, and no option of a kind the catalog already had is added. |
| `Utility.CmdLineUtility.AddBuiltInOptions` | src/main/java/org/apache/oodt/cas/cl/CmdLineUtility.java:101-111 | The two in-place additions compute exactly `WithBuiltIns` of the loaded catalog. |
| `Utility.CmdLineUtility.Parse` | src/main/java/org/apache/oodt/cas/cl/CmdLineUtility.java:94-115 | The parser is called on the completed catalog `WithBuiltIns` of the store's options. A parser error is returned unchanged. Otherwise the bundle is built from the store's actions, the completed catalog and the parsed instances. |
| `Utility.CmdLineUtility.Run` | src/main/java/org/apache/oodt/cas/cl/CmdLineUtility.java:87-92 | The bundle is what `Parse` returns. A parse error is reported and shows nothing. A help request shows exactly the help `HelpFor` selects, passes, and leaves every action's trace unchanged. Otherwise no help is shown and the outcome is `Execute`'s. Only the specified action's trace grows: by the handler calls and one execution, and only on success. |
| `Utility.CmdLineUtility.HandleHelp` | src/main/java/org/apache/oodt/cas/cl/CmdLineUtility.java:117-127 | Returns true iff a help instance is present. With no sub-options it presents option help, otherwise action help, exactly one of the two. Without a help instance nothing is presented. |
| `Utility.CmdLineUtility.PrintOptionHelp` | src/main/java/org/apache/oodt/cas/cl/CmdLineUtility.java:79-81 | Presents the option help for the bundle, appended to the presenter log. |
| `Utility.CmdLineUtility.PrintActionHelp` | src/main/java/org/apache/oodt/cas/cl/CmdLineUtility.java:83-85 | Presents the action help for the bundle, appended to the presenter log. |
| `Utility.CmdLineUtility.Execute` | src/main/java/org/apache/oodt/cas/cl/CmdLineUtility.java:129-143 | A non-empty required check fails with the missing set. Otherwise a non-empty failed-validation set fails with that set. In both cases the action's trace is unchanged, so no handler and no execution ran. On success every specified instance was visited once, and the trace grew by exactly the handler calls followed by one `Executed`. |
| `Utility.CmdLineUtility.Check` | src/main/java/org/apache/oodt/cas/cl/CmdLineUtility.java:145-152 | Returns exactly `RequiredNotSet`: the loop that removes each custom specified instance's option computes the set difference. |
| `Utility.RequiredNotSet` | src/main/java/org/apache/oodt/cas/cl/CmdLineUtility.java:146-151 | The result is a subset of the required set. It holds no option of a custom specified instance. It holds every required option that no such instance refers to. When the rule returns custom options only, no built-in option is ever reported missing. |
| `Utility.CmdLineUtility.Validate` | src/main/java/org/apache/oodt/cas/cl/CmdLineUtility.java:154-164 | The result is a subset of the input. An input instance is in it iff it fails validation, so the result holds every failing instance and is not cut short at the first. |
| `Utility.CmdLineUtility.ValidateInstance` | src/main/java/org/apache/oodt/cas/cl/CmdLineUtility.java:166-175 | The result is true for a non-validatable instance, with no validator run. For a validatable one it is true iff every validator accepts. The validators run are a prefix of the list in which all but the last accepted. On success all of them ran; on failure at least one ran and the last one run rejected, so the run stops at the first rejection. |
| `Utility.CmdLineUtility.Handle` | src/main/java/org/apache/oodt/cas/cl/CmdLineUtility.java:177-181 | Visits every instance of the set exactly once, in some order. It appends to the action's trace exactly the handler calls of that order. |
| `Utility.CmdLineUtility.HandleInstance` | src/main/java/org/apache/oodt/cas/cl/CmdLineUtility.java:183-187 | A handleable instance gets one call of its option's handler with the given action. A non-handleable instance gets no call. |
| `Utility.HandlerCallsCount` | src/main/java/org/apache/oodt/cas/cl/CmdLineUtility.java:177-187 | In the calls for any order, each handler event occurs as often as its instance occurs in the order when the handler is that instance's own. Otherwise it does not occur. |
| `Utility.HandledExactlyOnce` | src/main/java/org/apache/oodt/cas/cl/CmdLineUtility.java:177-187 | For an order that visits each instance of a set once, every handleable instance's handler is called exactly once with it. Every call comes from an instance of the set, and no call is an execution. |
| `Utility.CmdLineUtility.constructor` | src/main/java/org/apache/oodt/cas/cl/CmdLineUtility.java:39-45 | A new utility holds the given parser and option store and has presented nothing. |
| `Actions.CmdLineAction.constructor` | src/main/java/org/apache/oodt/cas/cl/action/CmdLineAction.java:8 | Name and description are unset, and nothing has happened to the action. |
| `Actions.CmdLineAction.Named` | src/main/java/org/apache/oodt/cas/cl/action/CmdLineAction.java:10-13 | Name and description are the arguments, and nothing has happened to the action. |
| `Actions.CmdLineAction.SetName` | src/main/java/org/apache/oodt/cas/cl/action/CmdLineAction.java:15-21 | Afterwards `GetName()` returns the new name. The description and the trace are unchanged. |
| `Actions.CmdLineAction.SetDescription` | src/main/java/org/apache/oodt/cas/cl/action/CmdLineAction.java:23-29 | Afterwards `GetDescription()` returns the new description. The name and the trace are unchanged. |
| `Actions.CmdLineAction.Execute` | src/main/java/org/apache/oodt/cas/cl/action/CmdLineAction.java:31 | An execution is the one event appended to the trace. No other member of the class appends one. |

## Left out

- The token parser (`StdCmdLineOptionParser`) is not part of this model. The parser is an arbitrary function from the arguments and the valid options to a set of instances or an error. Nothing is proved about tokens.
- `determineRequired`, `findHelpOption` and `findActionOption` are not part of this model. `determineRequired` is an arbitrary rule. Finding a help or action option is modelled as the presence of an option of that kind.
- The internals of `CmdLineArgs` are not part of this model. Its derived views are given fields. The guarantees the orchestrator relies on are stated in `ViewsConsistent`: the specified action is a supported one, the help instance is a specified help instance, and the custom views hold no built-in entries. The constructor is a parameter.
- The Spring option store factory in the default constructor (line 41) is not modelled. The option store is given to the constructor.
- The help printers and presenter (`printHelp`, `presentOptionHelp`, `presentActionHelp`) are not modelled. This is text rendering and I/O. Only which help was presented, and for which bundle, is recorded.
- The getters and setters of `CmdLineUtility` (lines 47-77) are not modelled. They only wire collaborator fields.
- The exception message strings at lines 132 and 137 are not modelled. Each failure carries the offending set instead.
- The bodies of concrete validators, handlers and actions are plug-in code outside these files. A validator's verdict is the `Acceptance` argument. A handler's effect is recorded on the action's trace; whatever fields of a concrete action it sets are not modelled. Side effects of validators are not modelled.
- The iteration order over a `HashSet` is unspecified in the source. The model picks an arbitrary element each time and asserts no order.
- Object identity of catalog options is modelled by the `id` field of a value. The default help and action options share one fixed `id`. They are told apart from catalog entries by their kind: each is added only when the catalog has no option of that kind.
- The capabilities of the default `HelpCmdLineOption` and `ActionCmdLineOption` are defined outside the modelled classes; the model gives them no validators and no handler.
- `parse` adds the defaults to the set returned by `loadSupportedOptions()`, in place. The model builds a new set, so an option store that hands out its own internal set would be changed in the source and is not changed here.
- The `Validate.notNull` guards (lines 95-96 and 155) are not modelled. Dafny references and sets are never null.
- `Utility.CmdLineUtility.Execute`: the source gives a missing specified action (null) to the handlers and then raises a `NullPointerException` at line 142. The model ends with `NoSpecifiedAction` right after validation. It calls no handler, because a handler given a null action has no target whose state could change.
- `Utility.CmdLineUtility.Handle`: the source accepts a null action. The model's action is never null, because its only caller, `Execute`, has already stopped when there is no action.
- Exceptions thrown by a concrete action's `execute` are not modelled. They propagate unchanged in the source.
