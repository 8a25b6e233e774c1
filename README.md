# Backbone.Blazer routing engine in Dafny

A model of the routing engine of Backbone.Blazer, in two versions:

- the distributed router, `dist/backbone.blazer.js`;
- the earlier, smaller router, `backbone.blazer.js`.

Each version gets its own modules.

**Distributed router.**

- `JsValues`: the JavaScript values the router handles. Objects are ordered property lists. A read such as `params[key]` also reaches the prototype chain: the names of the built-in members of `Object.prototype` and `Array.prototype` (ECMAScript 2023), `constructor` and `__proto__` read an inherited value. The module also holds the underscore helpers the router uses (`_.extend`, `_.defaults`, `_.omit`, `split`/`join`, `toLowerCase`).
- `SeqFacts`: facts about sequence concatenation and slicing that the proofs share.
- `UrlTemplate` and `UrlSegments`: `url`, which fills `:name`/`*name` markers, and the `serializeParams`/`deserializeParams` codec for the catch-all `params` segment.
- `Registry`:
  - how `route` reads its arguments;
  - the derived route name and the `path` prefix;
  - the `handlers` list and the lookups `get`/`getRoute`/`getHandler`/`getUrl`;
  - `matchesUrl`;
  - the parameters a matched fragment produces.
- `Outcomes`: what a hook's return value does in `_runHandler`, filter chains, and `createFilter` and the filter lists.
- `Hierarchy`: `isAncestor`, `ancestors`, `nodes` and `siblings` over dotted names.
- `Blazer`: the classes `Router`, `Route`, `Section` (a Route with a router of its own), the static filter registry, and the part of `Backbone.history` the router relies on.
  - Every navigation method is proved against a step function. The step function maps the old state (every router's `current`/`previous` pair, the history's fragment, and a trace of hook calls and emitted events) to the new state and to how the call ends.
- `Lifecycle`: lemmas over those step functions. They cover:
  - veto;
  - cancel and revert;
  - redirect;
  - the order exit → before filters → prepare → execute → after filters;
  - the failure path;
  - which handler a fragment reaches.

**Earlier router.**

- `LegacyUrl`: its `url`.
- `LegacyBlazer`: its `Router` and `Route`, with the same step-function design.
- `LegacyLifecycle`: lemmas about its lifecycle.

**How asynchrony is modelled.** A hook is represented by what it returns:

- a value;
- a redirect marker;
- a promise that fulfils, rejects or stays pending.

jQuery promises are settled synchronously. An exception ends the whole call as a `Threw` status. A `fuel` parameter bounds nested navigations; running out of it stands for the stack overflow that an endless redirect loop ends in. The route matcher and the captures it extracts are a parameter (`scan`).

**Where the two versions differ.** The quirks of each version are kept:

| behaviour | distributed router | earlier router |
|---|---|---|
| `params[key] \|\| params[index++]` | a falsy named value falls back to the next positional one | same |
| a named *after* filter in `createFilter` | lands in the *before* slot | same |
| a before-filter chain that fails | never settles | never settles |
| `false` from a hook | cancels | means nothing special |
| `matchesUrl` | exact equality | prefix test |
| an undefined value in `url` | removes the marker with its slash | keeps the slash |

## Model

| member | source | states |
|---|---|---|
| JsValues.ParseNatToString | dist/backbone.blazer.js:374 | The decimal text of a position is an index key and parses back to that position, so `params[index]` on an object reads the property named "0", "1", … |
| JsValues.Get | dist/backbone.blazer.js:374 | An own-property lookup: a property the object does not own reads `undefined`. Reads through the prototype chain are `JsValues.Read`. |
| JsValues.Inherited | dist/backbone.blazer.js:374 | What the prototype chain answers: a built-in name of `Object.prototype` (and, for an array, of `Array.prototype`) reads a truthy inherited value, and every other name reads `undefined`. |
| JsValues.BuiltinIsWord | dist/backbone.blazer.js:374 | No built-in name is an array index, `length` or `params`. |
| JsValues.Read | dist/backbone.blazer.js:374 | `d[k]` on a plain object: a defined own property reads as itself. A name that is not built in reads as the own property. A built-in name the object does not own reads the truthy inherited member. |
| JsValues.ReadPut | dist/backbone.blazer.js:403 | After `d[k] = v`, reading `k` gives `v`, and every other read is unchanged. |
| JsValues.Put | dist/backbone.blazer.js:403 | After an assignment the property reads the new value. Every other property reads as before, the keys grow by that one, and distinct keys stay distinct. |
| JsValues.PutNew | dist/backbone.blazer.js:403 | Assigning a property the object lacks appends it at the end of the model's key order (JavaScript's ordering of integer-like keys is under Left out). |
| JsValues.ExtendGet | dist/backbone.blazer.js:210 | After `_.extend(d, src)` a key of `src` reads as in `src`, and any other key reads as in `d`. |
| JsValues.ExtendKeys | dist/backbone.blazer.js:210 | `_.extend(d, src)` owns exactly the properties of `d` and of `src`. |
| JsValues.DefaultsGet | dist/backbone.blazer.js:211 | After `_.defaults(d, src)` a property keeps its value when `d[k]` (prototype chain included) is defined, and otherwise reads as in `src`. So a built-in name `d` does not own is never filled in. |
| JsValues.DefaultsFresh | dist/backbone.blazer.js:211 | Defaults whose keys are all new and not built-in names, and whose values are all defined, are appended in order, at the end of the model's key order (see Left out). |
| JsValues.Omit | dist/backbone.blazer.js:383 | No omitted key is left in the result of `_.omit`. |
| JsValues.OmitKeeps | dist/backbone.blazer.js:383 | `_.omit(d, ks)` is `d` with the omitted keys taken out: the result is a subsequence of `d`, every other key reads as in `d`, its keys are exactly those of `d` not in `ks`, and distinct keys stay distinct. |
| JsValues.Split | dist/backbone.blazer.js:400-402 | `split` gives at least one part, and no part contains the separator. |
| JsValues.JoinSplit | dist/backbone.blazer.js:393-394 | Joining the parts of a split gives back the string. |
| JsValues.SplitJoin | dist/backbone.blazer.js:400-402 | Splitting a join of separator-free parts gives back the parts. |
| JsValues.SplitAppendSep | dist/backbone.blazer.js:400 | Splitting at a separator splits the two sides independently. |
| JsValues.Lower | dist/backbone.blazer.js:147 | For ASCII text, `toLowerCase` keeps the length and lowers each letter in place. |
| UrlTemplate.WordRun | dist/backbone.blazer.js:373 | The `\w+` of a marker is the longest run of word characters. |
| UrlTemplate.ByKey | dist/backbone.blazer.js:374 | `params[key]` on an array of values: a key the array does not answer itself reads `undefined`, and the name of a built-in array member reads that member. |
| UrlTemplate.ParseRender | dist/backbone.blazer.js:373 | Cutting a template into literal characters and markers (the matches of `/?[:*](\w+)`) loses nothing: rendering the pieces gives the template back. |
| UrlTemplate.StripParens | dist/backbone.blazer.js:372 | The template `url` works on has no parentheses left. |
| UrlTemplate.FillAllAppend | dist/backbone.blazer.js:373-380 | The marker replacement is a left-to-right fold: filling `a + b` fills `b` from the state that filling `a` ended in. |
| UrlTemplate.StepBlank | dist/backbone.blazer.js:374-379 | A marker with a falsy named value and a `null`/`undefined` positional one is removed with its slash. The position still advances, and a `params` marker is still remembered. |
| UrlTemplate.FillAllBlank | dist/backbone.blazer.js:373-380 | When no marker finds a value, every marker disappears and only the literal text is left. |
| UrlTemplate.UrlNothingToFill | dist/backbone.blazer.js:360-387 | With nothing to fill, `url` returns the template's literal text. When there is a `params` marker and an object argument, it also appends the serialized object, without a slash if the text is empty. |
| UrlTemplate.FlattenAppend | dist/backbone.blazer.js:364 | `_.flatten` of concatenated arguments is the concatenation of the flattened parts. |
| UrlTemplate.UrlIgnoresSurplus | dist/backbone.blazer.js:363-380 | Positional arguments beyond those the markers consume do not change the url. |
| UrlTemplate.PairsCarriable | dist/backbone.blazer.js:390-394 | `serializeParams` writes one `key:value` pair per property of an object whose values are non-empty strings. |
| UrlTemplate.CollectPairs | dist/backbone.blazer.js:399-405 | Reading such pairs back adds the properties in the order of the pairs, which is the model's key order (see Left out). |
| UrlTemplate.DeserializeSerialize | dist/backbone.blazer.js:390-406 | Round trip: `deserializeParams(serializeParams(d))` is `d` for every object whose keys and values contain none of ':', '+' and whose values are non-empty strings. |
| UrlSegments.ParseSegments | dist/backbone.blazer.js:372-373 | A template made of a plain head and `/literal`, `/:key`, `/*key` segments has no parentheses, and it parses into the head's characters followed by each segment's pieces. |
| UrlSegments.StepNamed | dist/backbone.blazer.js:374-379 | A marker whose named value is truthy is replaced by '/' and that value. The position does not advance, and the key is recorded as consumed. |
| UrlSegments.StepPositional | dist/backbone.blazer.js:374-379 | For a key the array does not answer itself (not an index, `length` or a built-in member), a marker takes the next positional value, with its slash, and the position advances by one. |
| UrlSegments.FillNamed | dist/backbone.blazer.js:373-380 | With an object whose every marker key is truthy, each segment is written as '/' and its value, and every key is consumed. |
| UrlSegments.FillPositional | dist/backbone.blazer.js:373-380 | With enough non-blank positional values and marker keys the array does not answer itself, the markers take the values in order. |
| UrlSegments.UrlNamed | dist/backbone.blazer.js:360-387 | `url(template, obj)` writes each marker's value after a slash. When the template has a `params` marker, it appends the serialized properties no marker consumed. |
| UrlSegments.UrlPositional | dist/backbone.blazer.js:360-380 | `url(template, v1, v2, …)` (or an array) fills the markers with the values in order, when no marker key is an index, `length` or a built-in array member. |
| UrlSegments.UrlCatchAll | dist/backbone.blazer.js:373-385 | `url('head/*params', obj)` is `head/` followed by the serialized object when `obj` has no truthy `params` property and no "0" property. |
| UrlSegments.UrlSegmentsEmpty | dist/backbone.blazer.js:374-379 | When no marker finds a value, every marker segment is removed with its slash and the literal segments stay. |
| UrlSegments.ParseLeading | dist/backbone.blazer.js:372-373 | A template that starts with a marker has no parentheses, and it parses into that marker, without a slash, followed by the pieces of the other segments. |
| UrlSegments.ParseMarkerHead | dist/backbone.blazer.js:373 | A sigil followed by a whole key at the start of the text is one marker without a slash. |
| UrlSegments.StepLeadingByKey | dist/backbone.blazer.js:378 | A marker whose text starts the template and whose value by key is truthy is replaced by the bare value, with no slash. |
| UrlSegments.StepLeadingPositional | dist/backbone.blazer.js:378 | Such a marker taking a non-blank positional value is replaced by the bare value, and the position advances. |
| UrlSegments.StepByKey | dist/backbone.blazer.js:379 | A marker further in whose value by key is truthy is replaced by a slash and the value. |
| UrlSegments.UrlStripParens | dist/backbone.blazer.js:372 | Parentheses make no difference: `url(t, args)` equals `url` of `t` with the parentheses removed, so `users(/:id)` behaves as `users/:id`. |
| UrlSegments.UrlPositionalPartial | dist/backbone.blazer.js:373-380 | With fewer positional values than markers, the first markers take the values, the later markers vanish with their slashes, and the literal segments stay: `url('users/:a/:b/:c', 'foo')` is `users/foo`. |
| UrlSegments.UrlLeadingNamed | dist/backbone.blazer.js:378 | With an object, a template that starts with a marker writes that marker's truthy value without a slash, then the other segments, then the serialized rest when there is a `params` marker. |
| UrlSegments.UrlLeadingPositional | dist/backbone.blazer.js:378 | With positional values, a template that starts with a marker writes the first value without a slash, then the other markers in order. |
| UrlSegments.UrlOneMarker | dist/backbone.blazer.js:373-380 | A plain head followed by one non-`params` marker whose value by key is truthy gives the head, a slash and that value. |
| UrlSegments.UrlArrayMember | dist/backbone.blazer.js:374 | With positional values, a marker named after a built-in array member (`sort`, `filter`, …) is written as that member's text: `url('list/:sort', 'x')` is `list/function sort() { [native code] }`. |
| UrlSegments.UrlObjectMember | dist/backbone.blazer.js:374 | With an object that does not own it, a marker named after an `Object.prototype` member is written as the inherited member's text. |
| Outcomes.EffectOf | dist/backbone.blazer.js:597-603 | A hook redirects if and only if it returned a truthy `redirectFragment`, and it cancels if and only if it returned exactly `false`. |
| Outcomes.SettleOf | dist/backbone.blazer.js:594-605 | The promise `_runHandler` returns rejects if and only if the hook redirected, cancelled or returned a rejected promise. It stays pending if and only if the hook's promise does. |
| Outcomes.ChainStops | dist/backbone.blazer.js:575-583 | A chain resolves if and only if every hook resolves, and then every hook is called. Otherwise it stops at, and ends as, the first hook that does not resolve; all the hooks before it resolved. |
| Outcomes.ChainAppend | dist/backbone.blazer.js:571-583 | A chain over the router's filters followed by the route's runs the second list only when the first resolves. |
| Outcomes.FiltersSettle | dist/backbone.blazer.js:585-591 | `_runFilters` never rejects: it resolves or stays pending. |
| Outcomes.CreateFilter | dist/backbone.blazer.js:614-621 | A named *after* filter is looked up and stored as the *before* hook, replacing the given before. A function before is kept, a named one is looked up, and an unknown name gives nothing. Only a function after becomes the after hook. |
| Outcomes.StageHooksAppend | dist/backbone.blazer.js:571-572 | The hooks of a stage over concatenated filter lists are the hooks of each list in turn. |
| Outcomes.StageHooksMembers | dist/backbone.blazer.js:572 | `_.compact(_.pluck(...))` keeps only the present hooks, each taken from some filter, and gives none when no filter has one. |
| Outcomes.AddFilter | dist/backbone.blazer.js:46-57 | An empty filter leaves the list alone. Otherwise the filter is put first (`unshift`) or last (`push`) and the other filters keep their order. |
| Registry.Dashes | dist/backbone.blazer.js:147 | Replacing `/`, `/:`, `/*` by '-' leaves no '/' and never lengthens the text. |
| Registry.DeriveNameSegments | dist/backbone.blazer.js:147 | The derived name of `head/lit/:a/*b` is the lowercased `head-lit-a-b`. |
| Registry.ReadArgs | dist/backbone.blazer.js:145-150 | Fewer than three arguments with a non-string second one mean (template, config), and the name is derived from a string template or is null. Otherwise the arguments are (name, template, config), and a falsy config becomes `{}`. |
| Registry.Prefixed | dist/backbone.blazer.js:167-175 | A string `path` replaces an empty string template and is joined with '/' to any other. Anything else is left alone. |
| Registry.Find | dist/backbone.blazer.js:284-288 | `get(name)` finds the first entry, in registration order, registered with that name, and finds nothing when there is none. |
| Registry.GetRoute | dist/backbone.blazer.js:290-293 | `getRoute(name)` is the non-empty template of the first entry with that name, and nothing when there is no such entry. |
| Registry.GetHandler | dist/backbone.blazer.js:311-314 | `getHandler(name)` is the handler of the first entry with that name, and nothing when there is no such entry. |
| Registry.FindAppend | dist/backbone.blazer.js:227 | Registering appends: every earlier lookup still finds the same entry, so re-using a name keeps the first registration. |
| Registry.UrlArgs | dist/backbone.blazer.js:299-303 | `getUrl` passes `{}` when given no argument. It completes a leading object with `options.defaults`, then `defaults`, without overriding the object's own values, and passes any other argument unchanged. |
| Registry.JoinRoot | dist/backbone.blazer.js:305-306 | An empty url gives the root. An empty root gives the url. Otherwise the result is root, '/', url. |
| Registry.GetUrl | dist/backbone.blazer.js:295-309 | An unknown name (or one without a template) gives the root. Otherwise the result is the root joined with the url built from the defaulted arguments. |
| Registry.MatchesUrlEquality | dist/backbone.blazer.js:408-420 | `matchesUrl(url)` holds exactly when `url` is the string `current.url`. With no current record it holds only for ''. |
| Registry.ZipGet | dist/backbone.blazer.js:210 | `_.object(keys, values)` gives a key the value at its last position, and `undefined` past the end of the values. |
| Registry.DeserializeUnique | dist/backbone.blazer.js:397-406 | `deserializeParams` always yields an object with distinct keys. |
| Registry.ScanKeysArgs | dist/backbone.blazer.js:202-209 | The scan at match time collects exactly the marker names other than `params`, in template order. |
| Registry.ScanCatchAll | dist/backbone.blazer.js:202-205 | For a template whose only marker is `params`, the bucket is what the first capture deserializes to. |
| Registry.MatchParametersGet | dist/backbone.blazer.js:195-212 | Each parameter of a matched fragment reads as follows. A marker name reads its capture, by position among the non-`params` markers. Any other name reads its default. A value left `undefined` is taken from the deserialized `params` capture, except a built-in name neither the markers nor the defaults own, which `_.defaults` leaves unset. |
| Registry.CatchAllRoundTrip | dist/backbone.blazer.js:195-212 | Round trip through a `params` segment: an object written into the url by `url` comes back as the parameters of the matched fragment, completing the defaults. With no defaults, the parameters are the object itself when none of its keys is a built-in name. |
| Hierarchy.Chain | dist/backbone.blazer.js:440-449 | The names `ancestors` looks up are the dotted prefixes of the name, shortest first. |
| Hierarchy.Ancestors | dist/backbone.blazer.js:431-451 | The while/pop loop followed by the reverse returns exactly the ancestor nodes, root first, for the name and parameters the arguments select. |
| Hierarchy.AncestryMembers | dist/backbone.blazer.js:426-449 | A name is looked up if and only if it is the name itself or a strict dotted prefix of it. |
| Hierarchy.IsAncestorMeaning | dist/backbone.blazer.js:426-429 | `isAncestor(x)` holds exactly when there is a non-empty current name, `x` is a string, and `x` is one of the names `ancestors` looks up other than the current name itself. |
| Hierarchy.AncestorsExact | dist/backbone.blazer.js:431-451 | `ancestors` returns one node for each such name that has a template, and no other node, root first. |
| Hierarchy.ChildrenMembers | dist/backbone.blazer.js:453-470 | `nodes` returns one node per entry whose name has the route name followed by a dot as a prefix, and no other node. |
| Hierarchy.SiblingsMembers | dist/backbone.blazer.js:472-492 | `siblings` returns one node per entry whose name starts with the parent followed by a dot and does not contain the name followed by a dot, and no other node. |
| Hierarchy.SiblingsOfNested | dist/backbone.blazer.js:480-490 | For a nested name, its own entry is among its siblings. `active` is true exactly for that entry, and no descendant is listed. |
| Hierarchy.SiblingsOfTopLevel | dist/backbone.blazer.js:481-483 | For a dotless name the prefix is '.', so only names starting with '.' are listed. |
| Blazer.FirstMatchFirst | dist/backbone.blazer.js:250-257 | The search finds the first entry in registration order that accepts the fragment, and misses only when none does. |
| Blazer.History.LoadUrl | dist/backbone.blazer.js:229-231 | `Backbone.history` stores the fragment, then calls the callback of the newest registered entry that accepts it. It tells whether there was one, and when there was none the fragment is the one given. |
| Blazer.History.Navigate | dist/backbone.blazer.js:276 | The history's `navigate` sets the fragment and, with `trigger`, loads it; the same fragment does nothing. |
| Blazer.History.constructor | dist/backbone.blazer.js:229-231 | The history starts at the given fragment with no entries, no routers, no routes and an empty trace. |
| Blazer.Route.Redirect | dist/backbone.blazer.js:39-43 | `redirect(fragment)` returns a marker that redirects exactly when the fragment is non-empty. |
| Blazer.Route.constructor | dist/backbone.blazer.js:19-24 | A new Route carries its hooks (and, for a Section, its router) and has no filters until `prependFilter`/`appendFilter` adds one. |
| Blazer.Route.PrependFilter | dist/backbone.blazer.js:46-51 | The Route's filters become the created filter followed by the old list, or stay unchanged when the filter is empty. |
| Blazer.Route.AppendFilter | dist/backbone.blazer.js:52-57 | The Route's filters become the old list followed by the created filter, or stay unchanged when the filter is empty. |
| Blazer.FilterRegistry.Register | dist/backbone.blazer.js:610-612 | `registerFilter` records only a function under the name. |
| Blazer.FilterRegistry.constructor | dist/backbone.blazer.js:608 | The shared `filters` registry starts empty. |
| Blazer.Router.constructor | dist/backbone.blazer.js:93-107 | A new router has no handlers, no current or previous record, no filters, and is not stopped. |
| Blazer.Router.Start | dist/backbone.blazer.js:109-111 | `start` clears the stopped flag. |
| Blazer.Router.Stop | dist/backbone.blazer.js:113-115 | `stop` sets the stopped flag. |
| Blazer.Router.PrependFilter | dist/backbone.blazer.js:117-122 | As for a Route, on the router's own filters. |
| Blazer.Router.AppendFilter | dist/backbone.blazer.js:124-129 | As for a Route, on the router's own filters. |
| Blazer.Router.AddRoute | dist/backbone.blazer.js:144-234 | `route` appends one entry with the compiled pattern, the name and the prefixed template, and puts it first among the history's entries unless history is disabled. A configuration object is wrapped in a fresh Route of the router's `routeConstructor`, which joins the history's routes; otherwise the routes stay as they were. A target that is neither a string nor a RegExp adds no entry. |
| Blazer.Router.Section | dist/backbone.blazer.js:229-244 | `section` registers a fresh Section, under the root followed by `(/*path)`. The Section's fresh router has history disabled and the root from the options, the given root or the route name. The parent's entry goes first in the history's entries unless the parent has history disabled; the Section joins the history's routes and its router the history's routers. |
| Blazer.SectionConfig | dist/backbone.blazer.js:60-64 | The router of a Section has history turned off and takes its path, defaults and root from the options. |
| Blazer.Router.Get | dist/backbone.blazer.js:284-288 | `get(name)` is the first registered entry with that name, when there is one. |
| Blazer.Router.MatchesUrl | dist/backbone.blazer.js:408-420 | With a second argument the url is first built by `url(template, params)`, which reads any template as text (`path + ''`). The result is exact equality with `current.url`, or with '' when there is no current record. |
| Blazer.Router.MatchesRoute | dist/backbone.blazer.js:422-424 | `matchesRoute(name, params)` holds exactly when `getUrl(name, params)` is the current url. |
| Blazer.Router.IsAncestor | dist/backbone.blazer.js:426-429 | The argument is a string naming a proper dotted prefix of the current route's non-empty name. |
| Blazer.Router.Ancestors | dist/backbone.blazer.js:431-451 | On the router, `ancestors` defaults to the current name and parameters and returns the ancestor nodes. |
| Blazer.Router.Nodes | dist/backbone.blazer.js:453-470 | `nodes` lists one node for each handler whose name has the subject name followed by a dot as a prefix, and no other node. |
| Blazer.Router.Siblings | dist/backbone.blazer.js:472-492 | `siblings` lists one node for each handler under the subject's parent that is not below the subject, marking active exactly the subject's own entry. |
| Blazer.Router.Navigate | dist/backbone.blazer.js:259-277 | The new records, fragment and trace are exactly those of the `navigate` step function. |
| Blazer.Router.NavigateTo | dist/backbone.blazer.js:279-282 | `navigateTo` navigates to `getUrl(name, params)`. |
| Blazer.Router.ExecuteUrl | dist/backbone.blazer.js:250-257 | `executeUrl` returns whether some entry accepts the fragment, and the new state is that of the callback of the first one. |
| Blazer.Router.ExecuteRoute | dist/backbone.blazer.js:246-248 | `executeRoute` is `executeUrl` on the url `getUrl` builds. |
| Lifecycle.VetoChangesNothing | dist/backbone.blazer.js:259-274 | When `canNavigate` of the router, the previous Route or the current Route returns exactly `false`, `navigate` changes nothing. |
| Lifecycle.NavigateWithoutTrigger | dist/backbone.blazer.js:276 | Without `trigger`, navigation never touches the current/previous records. |
| Lifecycle.NavigateToSameFragment | dist/backbone.blazer.js:276 | Navigating to the current fragment changes neither the records nor the fragment. |
| Lifecycle.NavigateOutOfFuel | dist/backbone.blazer.js:276 | A triggered navigation with no nesting depth left ends in the recursion error. |
| Lifecycle.CancelReverts | dist/backbone.blazer.js:552-560 | `_cancelRoute` emits `before:cancel`, sets current back to previous, navigates to the previous url (or '') with `replace` unless vetoed, and emits `after:cancel`, in this order. |
| Lifecycle.CancelNeedsRoute | dist/backbone.blazer.js:553 | Cancelling for a handler that is not a Route throws a TypeError before anything happens. |
| Lifecycle.PlainHook | dist/backbone.blazer.js:594-605 | A hook that neither redirects nor returns `false` is only called, and settles as its result. |
| Lifecycle.FalseHookCancels | dist/backbone.blazer.js:600-602 | A hook returning `false` is called, cancels the route exactly as `_cancelRoute` does, and rejects. |
| Lifecycle.RedirectNavigates | dist/backbone.blazer.js:597-599 | A redirect marker navigates to its fragment with `trigger` and rejects. |
| Lifecycle.ChainRunsInOrder | dist/backbone.blazer.js:575-583 | A chain of plain hooks calls them in order, up to and including the first that does not resolve, and ends as the chain does. |
| Lifecycle.StageRunsInOrder | dist/backbone.blazer.js:570-592 | `_runFilters` calls the router's then the route's hooks of the stage in order. It resolves when they all resolve and stays pending otherwise. |
| Lifecycle.ExitStep | dist/backbone.blazer.js:499-506 | `before:execute` is emitted on the route and on the router, then the previous Route's `exit` is called (when there is a previous Route). |
| Lifecycle.BeforeFiltersStall | dist/backbone.blazer.js:508-513 | Before filters that do not all resolve leave the lifecycle pending. `enter`, `prepare`, `execute` and `error` are never reached, and the records and fragment are unchanged. |
| Lifecycle.EffectStops | dist/backbone.blazer.js:594-605 | A hook that redirects or returns `false` never resolves: its promise is rejected, or the navigation throws. |
| Lifecycle.ChainStopsAt | dist/backbone.blazer.js:575-583 | After `k` hooks that resolve without effect, a hook that redirects or cancels is the last one called. The chain's step is that hook's step on the world after the first `k` calls, and the chain does not resolve. |
| Lifecycle.BeforeFilterStops | dist/backbone.blazer.js:508-513 | A before filter that redirects or cancels, after quiet ones, ends the lifecycle with its own step. The lifecycle never settles, or throws. `enter`, `prepare`, `execute` and `error` are not run, and no later filter is called. |
| Lifecycle.BeforeFilterCancels | dist/backbone.blazer.js:508-513 | A before filter returning `false` cancels the route. The records go back to the previous route, and the lifecycle never settles. The whole trace is given: nothing else is called. |
| Lifecycle.BeforeFilterRedirects | dist/backbone.blazer.js:508-513 | A before filter redirecting to a non-empty fragment is called right after the quiet filters before it. Its call is followed at once by a triggered navigation to that fragment, and the lifecycle never settles (or throws). |
| Lifecycle.ThenInOrder | dist/backbone.blazer.js:514-526 | While this route is still current: `execute`, the `route` events of `done`, `after:execute`, then the after filters, whose outcome is ignored. |
| Lifecycle.RedirectedAwaySkips | dist/backbone.blazer.js:514-533 | Once another handler is current, the `then` branch after `prepare` resolves and the `fail` branch rejects. Neither changes the world. |
| Lifecycle.EnterInOrder | dist/backbone.blazer.js:510-526 | After the before filters: the `exit` and `enter` events, `prepare`, then the sequence above. |
| Lifecycle.LifecycleInOrder | dist/backbone.blazer.js:494-526 | The whole lifecycle of a route whose hooks all resolve is exit → before filters → enter → prepare → execute → done → after:execute → after filters, exactly, and it leaves the records and fragment alone. |
| Lifecycle.PrepareFailureCancels | dist/backbone.blazer.js:527-548 | A rejected `prepare` while the route is current cancels, then calls `error`. It emits the router's `error` unless `error` returned exactly `true`. |
| Lifecycle.HandleRouteCommits | dist/backbone.blazer.js:316-345 | `handleRoute` moves current to previous and commits the new record before dispatching. A router method runs with `done`, an unknown method name does nothing, and any other handler throws `Incorrectly configured route`. |
| Lifecycle.RecordNames | dist/backbone.blazer.js:322-329 | The record keeps the handler, params and parameters. Its name is '' unless the route name is a string, and its route is '' when there is none. |
| Lifecycle.StoppedRouterCancels | dist/backbone.blazer.js:213-217 | A stopped router emits `route:unhandled` first. It then cancels a Route handler, does nothing for a falsy one, and throws for any other. |
| Lifecycle.LoadPicksNewest | dist/backbone.blazer.js:229-231 | The history stores the fragment and runs the callback of the newest accepting entry; when none accepts, only the fragment changes. |
| Lifecycle.ExecuteUrlPicksFirst | dist/backbone.blazer.js:250-257 | `executeUrl` runs the callback of the first accepting handler in registration order, and does nothing when none accepts. |
| Lifecycle.SectionDelegates | dist/backbone.blazer.js:70-72 | A Section's execute forwards `parameters.path` (or '') to its router's `executeUrl`, which runs the first sub-route accepting it. |
| LegacyUrl.KeyRun | backbone.blazer.js:123 | The key of a marker is the longest run of letters and underscores. |
| LegacyUrl.ParseRender | backbone.blazer.js:123 | Cutting a template into characters and `:key` markers loses nothing. |
| LegacyUrl.ParseKeys | backbone.blazer.js:123 | Every marker key is a non-empty run of letters and underscores. |
| LegacyUrl.NoColonNoMarker | backbone.blazer.js:123 | A template without ':' has no marker, so `*name` and parentheses are plain text. |
| LegacyUrl.Shown | backbone.blazer.js:125 | An `undefined` value is written as '', and any other value as its string. |
| LegacyUrl.Url | backbone.blazer.js:116-127 | With no argument, a template with a marker throws (`params` is undefined), and one without a marker is returned unchanged. |
| LegacyUrl.FillPositional | backbone.blazer.js:122-126 | With positional values and marker keys that are not `length` or a built-in array member, the markers take the values in order, each written as `Shown`. |
| LegacyUrl.FillNamed | backbone.blazer.js:122-126 | With an object whose marker keys are all truthy, each marker is replaced by its named value. |
| LegacyUrl.FillKey | backbone.blazer.js:124-125 | A marker takes its named value when truthy, and otherwise the next positional one (the `\|\|` quirk). |
| LegacyUrl.UrlPositional | backbone.blazer.js:116-127 | `url(t, [v1, v2, …])` substitutes the values in order into the template, when no marker key is `length` or a built-in array member. |
| LegacyUrl.UrlNamed | backbone.blazer.js:116-127 | `url(t, obj)` substitutes each marker's value into the template. |
| LegacyUrl.UrlNoColon | backbone.blazer.js:123 | A template without ':' is returned unchanged for any arguments. |
| LegacyUrl.UrlKeepsSlash | backbone.blazer.js:123-125 | `url('a/:k', {})` is `a/` for a key that is not a built-in name: the slash before a missing value stays. |
| LegacyUrl.UrlFalsyFallsBack | backbone.blazer.js:124 | A falsy `params[key]` (prototype chain included) is replaced by the object's "0" property. |
| LegacyUrl.UrlWritesNull | backbone.blazer.js:125 | A `null` value is written as "null", for a key the array does not answer itself. |
| LegacyUrl.UrlArrayMember | backbone.blazer.js:124 | With a list of values, a marker named after a built-in array member is written as that member's text. |
| LegacyUrl.UrlObjectMember | backbone.blazer.js:124 | With an object that does not own it, a marker named after an `Object.prototype` member is written as the inherited member's text. |
| LegacyBlazer.LegacySettle | backbone.blazer.js:208-217 | A hook's promise rejects if and only if it redirected or returned a rejected promise, and stays pending if and only if its promise does. |
| LegacyBlazer.FalseIsNotSpecial | backbone.blazer.js:211-216 | `false` resolves in this version, where the distributed one rejects it. |
| LegacyBlazer.ChainEndStops | backbone.blazer.js:187-205 | A chain resolves if and only if every hook resolves, and then every hook runs. Otherwise it stops at the first hook that does not resolve. |
| LegacyBlazer.StageW | backbone.blazer.js:199-205 | A filter stage never rejects: it resolves or stays pending. |
| LegacyBlazer.SplatNames | backbone.blazer.js:46 | Name derivation replaces '/' and '/:' only, so `a/*b` gives `a-*b`; the distributed router gives `a-b`. |
| LegacyBlazer.NameOf | backbone.blazer.js:44-47 | Fewer than three arguments always mean (template, handler), and the name is derived from a string template. Otherwise the given name is used. |
| LegacyBlazer.PrefixMatchExtends | backbone.blazer.js:129-132 | `matchesUrl` holds for every extension of the current url, which the distributed router's equality rejects. It holds for anything when the current url is '', and never without one. |
| LegacyBlazer.PrefixMatchMeaning | backbone.blazer.js:131 | The match holds exactly when the url starts with the current url. |
| LegacyBlazer.FirstEntry | backbone.blazer.js:72-75 | The first history entry accepting the fragment, and none only when none accepts. |
| LegacyBlazer.CurrentFor | backbone.blazer.js:99-101 | The record `handleRoute` keeps holds the handler and the route name. There is no url without a name. |
| LegacyBlazer.Route.Redirect | backbone.blazer.js:19-23 | `redirect(fragment)` redirects exactly when the fragment is non-empty. |
| LegacyBlazer.Route.constructor | backbone.blazer.js:3-6 | A new Route carries its hooks and has no filters until one is added. |
| LegacyBlazer.Route.PrependFilter | backbone.blazer.js:24-28 | The created filter goes first unless it is empty. |
| LegacyBlazer.Route.AppendFilter | backbone.blazer.js:29-33 | The created filter goes last unless it is empty. |
| LegacyBlazer.Router.constructor | backbone.blazer.js:37-41 | A new router has empty `namedRoutes` and `routeHandlers` and no current handler, route or url. |
| LegacyBlazer.Router.AddRoute | backbone.blazer.js:43-77 | Only a non-empty name is recorded, overwriting the previous template. `namedRoutes` takes only string templates and `routeHandlers` only Routes. The entry goes first in the history and carries the name only when its recorded template is non-empty. |
| LegacyBlazer.Router.Get | backbone.blazer.js:84-90 | `get(name)` is nothing for an unknown name. It is the raw template without parameters, and the built url with them. |
| LegacyBlazer.Router.HandlerNamed | backbone.blazer.js:92-94 | `handler(name)` is the Route registered under the name, if any. |
| LegacyBlazer.Router.MatchesUrl | backbone.blazer.js:129-132 | A prefix test: true exactly when there is a current url and the (built) url starts with it. |
| LegacyBlazer.Router.Navigate | backbone.blazer.js:212 | The new current fields, fragment and trace are exactly those of the `navigate` step function. |
| LegacyBlazer.Router.NavigateTo | backbone.blazer.js:79-82 | `navigateTo` navigates to `get(name, params)`. |
| LegacyBlazer.Router.HandleRoute | backbone.blazer.js:96-114 | The new state is exactly that of the `handleRoute` step function. |
| LegacyBlazer.Router.LoadUrl | backbone.blazer.js:72-75 | The history stores the fragment, reports whether an entry accepts it and runs the callback of the newest one. When none accepts, the fragment is the one given. |
| LegacyLifecycle.PlainHook | backbone.blazer.js:208-216 | A hook without a redirect marker is only called, and settles as its result. |
| LegacyLifecycle.RedirectRejects | backbone.blazer.js:211-214 | A redirect marker navigates to its fragment with `trigger` and rejects, unless the navigation threw. |
| LegacyLifecycle.NavigateToSameFragment | backbone.blazer.js:81 | Navigating to the current fragment only records the call: the history does not load it again. |
| LegacyLifecycle.ChainRunsInOrder | backbone.blazer.js:187-197 | A chain of plain hooks calls them in order, up to the first that does not resolve. |
| LegacyLifecycle.StageRunsInOrder | backbone.blazer.js:182-206 | The router's then the route's hooks of a stage run in order. The stage resolves when all resolve and stays pending otherwise. |
| LegacyLifecycle.BeforeFiltersStall | backbone.blazer.js:140-141 | A failing before stage never settles, and `prepare`, `execute` and `error` are never called. |
| LegacyLifecycle.ThenInOrder | backbone.blazer.js:142-152 | While still current: `execute`, `after:execute`, then the after filters. |
| LegacyLifecycle.LifecycleInOrder | backbone.blazer.js:134-152 | The whole lifecycle of a resolving route is before:execute → before filters → prepare → execute → after:execute → after filters, exactly. |
| LegacyLifecycle.PrepareFailureReportsError | backbone.blazer.js:153-171 | A rejected `prepare` calls `error` and emits `error` unless it returned exactly `true`. There is no cancel: the current fields and fragment stay. |
| LegacyLifecycle.RedirectedAwaySkips | backbone.blazer.js:143-156 | Once another handler is current, both branches after `prepare` do nothing. |
| LegacyLifecycle.HandleRouteDispatch | backbone.blazer.js:96-114 | `handleRoute` records the handler, name and url first. It then calls a router method by name, a function, or a Route's lifecycle, and throws `Incorrectly configured route` for anything else. |
| LegacyLifecycle.CurrentUrlFromCaptures | backbone.blazer.js:68 | The current url of a named route is its template with the captures substituted in order, when no marker key is `length` or a built-in array member. |
| LegacyLifecycle.LoadPicksNewest | backbone.blazer.js:72-75 | The fragment is stored and the newest entry accepting it has its callback run. |
| LegacyLifecycle.LoadNothing | backbone.blazer.js:72-75 | A fragment no entry accepts changes nothing but the stored fragment. |

## Left out

- JsValues.Val: a number is an integer (`Num(n: int)`). Fractions, `NaN` and the infinities are not modelled, so neither is their text in a url (`1.5`) nor `NaN` being falsy, which makes `params[key] || params[index++]` move on to the next positional value.
- JsValues.Val: there is no array or function value. An array given as a url parameter (`url('a/:id', {id: [1, 2]})`) is written by JavaScript as `a/1,2`; the model has no such value. A function is an object to `_.isObject`, so a function as the first argument of `url` is read by key in JavaScript, while the model's `Scalar` argument is always positional.
- JsValues.Put: keys are kept in insertion order. JavaScript enumerates integer-like keys (`"1"`, `"42"`) first, in ascending numeric order, and only then the other keys in insertion order. The model does not capture that reordering.
- JsValues.PutNew: a new key goes at the end of the model's order even when it is integer-like, where JavaScript would list it before the other keys.
- JsValues.DefaultsFresh: the same holds for the properties `_.defaults` adds, so the key order of the matched parameters built by `_.object`, `_.extend` and `_.defaults` (dist/backbone.blazer.js:202-211) is the model's order, not JavaScript's.
- UrlTemplate.CollectPairs: `deserializeParams("b:x+1:y")` yields `{1: 'y', b: 'x'}` in JavaScript, and `serializeParams` then writes `1:y+b:x`. The model keeps `b` before `1`, so it writes `b:x+1:y`.
- Registry.ReadArgs: a first argument that is not a string gives no name (`None`). In the three-argument form JavaScript keeps it as the name as given, so `route(5, 'a', h)` registers a route named `5`; non-string names are not modelled.
- Outcomes.Lookup: `Router.filters[name]` reads only the registered filters. In JavaScript the registry is a plain object, so a name such as `constructor` or `hasOwnProperty` reads an inherited built-in function, which `_.isFunction` accepts and which then runs as a hook; calling arbitrary built-in functions is not modelled.
- LegacyBlazer.Router.AddRoute: the `namedRoutes[routeName]` test that names the route data reads only recorded templates. A route named after an `Object.prototype` member (`toString`) finds the inherited function there in JavaScript; that is not modelled.
- LegacyBlazer.Router.Get: `namedRoutes[routeName]` for an unrecorded name that is an `Object.prototype` member returns the inherited function in JavaScript; the model returns nothing.
- LegacyBlazer.Router.HandlerNamed: the same holds for `routeHandlers[routeName]`.
- `Backbone.history` is reduced to the calls the router makes:
  - an ordered list of entries, newest first;
  - `navigate`, which sets the fragment and loads it when `trigger` is set;
  - `loadUrl`, which stores the fragment and runs the first accepting callback.

  Root handling and browser location are not modelled.
- Backbone's `_routeToRegExp` and `_extractParameters` are a parameter (`scan`). No round trip between building a url and matching it is claimed.
- jQuery Deferreds are settled synchronously, and hooks are represented by their results. Timing is not modelled. A promise's rejection arguments, and `routeData.error`, are not modelled.
- Events (`Backbone.Events`) are recorded in a trace, not dispatched:
  - the `enter`/`exit` listeners `activate`/`deactivate` are not run;
  - the listener in the Section constructor that sets `ctx.section` is not modelled;
  - the effects of router methods and function handlers are not modelled.
- The UMD loader, the Backbone.Radio channel relay, `addRoutes`, `console.warn`, `Route.extend` and Route `initialize`/`destroy`/`options` are not modelled.
- Section's `activate`/`deactivate`, which forward to the sub-router's current handler, are not modelled.
- The step functions are committed in one assignment per navigation. The model does not capture that JavaScript writes each field as it goes.
- `fuel` bounds the depth of nested navigations (redirects, cancels and section delegation). A run that exceeds it ends in the recursion error.
- `getUrl` passes its defaulted argument object on to `url`. The model does not write the defaults back into the caller's object.
- Registry.Find: a name is a string or `null`. An `undefined` name, which in JavaScript would find the first unnamed entry, is not modelled.
- LegacyBlazer.Router.NavigateTo: an unknown name navigates to '' (JavaScript passes `undefined` on to Backbone, which reads it as '').
- LegacyBlazer.Router.AddRoute: route registration through Backbone's own `routes` option is not modelled. A non-string explicit name counts as absent.
- LegacyBlazer.Router: a single router owns the history state (fragment and entries). With several routers, Backbone's history is shared between them.
- LegacyBlazer.Route.PrependFilter: the filter registry is passed as a map. The earlier `registerFilter` is the same function as the distributed one (Blazer.FilterRegistry.Register).
- Blazer.Router.AddRoute: `routeConstructor` is a tagged variant (none, a Route class, or a function returning one); JavaScript's prototype test is not modelled.
- Blazer.History.LoadUrl: Backbone's `getFragment` clean-up (a leading `#` or `/` and trailing whitespace removed) is not applied; the fragment is stored as given.
- LegacyBlazer.Router.LoadUrl: see Blazer.History.LoadUrl; the fragment is stored as given.
- JsValues.Lower: only ASCII letters are lowered. JavaScript's `toLowerCase` maps every Unicode letter and can change the length (`'\u0130'` becomes two code units); route names are taken to be ASCII.
- JsValues.Put: an assignment to `__proto__` is stored as an own property. In JavaScript a non-object value there is ignored and an object value changes the prototype.
- JsValues.Inherited: the built-in members are those ECMAScript 2023 puts on `Object.prototype` and `Array.prototype`; members that an engine or a library adds, and symbol keys, are not modelled. A built-in function is written as `function name() { [native code] }`, as the common engines print it.
- Registry.CatchAllRoundTrip: with no defaults, the object comes back unchanged only when none of its keys is a built-in name. `_.defaults` skips such keys, because the empty object already reads the inherited member there.
