# Vue's compile-on-mount gate, modelled in Dafny

The full build of Vue (runtime plus template compiler) replaces the runtime's
`$mount` with a wrapper. Before delegating to the original (the *base mount*), the
wrapper does four things:

1. It resolves `el`. A selector string becomes the element it matches. An element passes through.
2. It refuses to mount onto `<html>` or `<body>`.
3. If `$options.render` is unset, it picks one template string. The candidates are an
   `#id` selector resolved through the memoised `idToTemplate`, a literal string, a DOM
   node's `innerHTML`, or the target element's outer HTML.
4. It compiles a non-empty template once and stores `render` and `staticRenderFns` on
   `$options`.

The project has four modules:

- `Wrappers` (wrappers.dfy): an `Option` type, plus JavaScript truthiness for a
  string-or-absent value.
- `Dom` (dom.dfy): elements, the document as a map from selector to element, and
  `querySelector`. It also has a detached wrapper node (`Container`) with
  `appendChild`/`innerHTML`, and `getOuterHTML` as a method proved against its
  specification `OuterHTML`.
- `TemplateCache` (template_cache.dfy): `idToTemplate`. It holds the pure one-call
  specification `Step` and the multi-call `Run`, with lemmas that memoisation never
  changes an answer while the memo agrees with the document, and about how many document queries it costs. The class `IdCache`
  holds the memo table and a query counter. Its `Lookup` method is proved against `Step`.
- `MountGate` (mount_gate.dfy): `$mount`. `MountEffect` is the pure specification of
  one call. It gives the new options, the template passed to the compiler (if any) and
  the base-mount call (if any). The lemmas state each branch's observable result.
  `Component.Mount` is the imperative method. It mutates `Options`, consults the
  `IdCache` and records the collaborator calls, in order, in a `CallLog`, and it is proved to
  follow `MountEffect` exactly.

Some choices in the model:

- The compiler is an arbitrary total function `string -> Compiled` passed in as a
  parameter.
- The base mount is recorded as a call `(el, hydrating)`. Its result is reported
  as `BaseMountResult`, not modelled further.
- Every falsy template value (`undefined`, `null`, `""`) is represented by `""` once
  the template has been chosen. Only truthiness decides what happens next.

## Model

| member | source | states |
|---|---|---|
| `MountGate.Component.Mount` | src/platforms/web/entry-runtime-with-compiler.js:19-102 | new `$options`, the collaborator calls appended to the log (the compiler before the base mount) and the return value are exactly those of `MountEffect` for the resolved target; the cache is consulted (one `Step`) only for an `#id` template of a component without render on an allowed target, and is untouched otherwise |
| `MountGate.ResolveTarget` | src/platforms/web/entry-runtime-with-compiler.js:26 | a non-empty selector becomes the element it matches (none if it matches nothing); an element, an absent `el` and the empty selector `""` pass through unchanged, and the empty selector is the only string that survives |
| `MountGate.ChooseTemplate` | src/platforms/web/entry-runtime-with-compiler.js:44-73 | the template is invalid exactly for a truthy non-string non-node option; an `#id` string gives idToTemplate's answer (falsy as `""`); any other non-empty string is used verbatim; a node gives its `innerHTML`; a falsy option defers to the element |
| `MountGate.FromElement` | src/platforms/web/entry-runtime-with-compiler.js:70-73 | always chooses a template; it is the element's outer HTML when there is an element, and can be non-empty only then |
| `MountGate.MountEffect` | src/platforms/web/entry-runtime-with-compiler.js:26-101 | a compiled template is non-empty and its `render`/`staticRenderFns` are what is stored; without compilation options are unchanged; the template option is never rewritten; the base mount is skipped iff the target is forbidden or the template invalid, and otherwise receives the resolved element and `hydrating` |
| `MountGate.ForbiddenTargetIsInert` | src/platforms/web/entry-runtime-with-compiler.js:26-37 | a `<body>`/`<html>` target leaves options unchanged and calls neither the compiler nor the base mount |
| `MountGate.ExistingRenderSkipsCompilation` | src/platforms/web/entry-runtime-with-compiler.js:43-101 | with `render` already set nothing is compiled, options keep their values, and the base mount gets the resolved element and `hydrating` |
| `MountGate.StringTemplate` | src/platforms/web/entry-runtime-with-compiler.js:47-59 | an `#id` string compiles idToTemplate's result when that is non-empty (else nothing); any other non-empty string compiles verbatim; base mount still called |
| `MountGate.NodeTemplate` | src/platforms/web/entry-runtime-with-compiler.js:60-62 | a node template compiles its `innerHTML` when non-empty; base mount still called |
| `MountGate.InvalidTemplateReturnsEarly` | src/platforms/web/entry-runtime-with-compiler.js:63-69 | a truthy template that is neither string nor node: nothing compiled, options unchanged, base mount not called |
| `MountGate.FalsyTemplateUsesElement` | src/platforms/web/entry-runtime-with-compiler.js:70-73 | a falsy template with an element compiles its truthy `outerHTML`, or else the element's own markup; with no element nothing is compiled and options stay as they were |
| `MountGate.CompilesAtMostOnce` | src/platforms/web/entry-runtime-with-compiler.js:43-89 | after a mount that compiled, any further mount of the same options compiles nothing |
| `MountGate.MissingIdTemplate` | src/platforms/web/entry-runtime-with-compiler.js:44-101 | `template: "#missing"` with no matching element and no cached answer compiles nothing and still calls the base mount with the resolved element |
| `TemplateCache.TemplateById` | src/platforms/web/entry-runtime-with-compiler.js:13-14 | the uncached answer is present exactly when the id matches an element, and is then that element's `innerHTML` |
| `TemplateCache.Step` | src/platforms/web/entry-runtime-with-compiler.js:12-15 | a call queries exactly when the memo holds no truthy value for the id; a hit answers from the memo and leaves it as it was; a miss answers the uncached value and stores it; afterwards the memo holds the returned value, and answers from it next time iff it is truthy |
| `TemplateCache.IdCache.Lookup` | src/platforms/web/entry-runtime-with-compiler.js:12-15 | returns and stores what `Step` gives; counts one document query exactly when the memo held no truthy value for the id |
| `TemplateCache.RepeatedLookup` | src/platforms/web/entry-runtime-with-compiler.js:12-15 | two calls with the same id against an unchanged document return the same value (after a falsy first answer and a changed document the second call queries again and may differ); after a truthy value the second call makes no query, even if the document changed |
| `TemplateCache.StepIsTransparent` | src/platforms/web/entry-runtime-with-compiler.js:12-15 | on a memo that agrees with the document, a call returns the uncached `query(id).innerHTML` and keeps the memo in agreement |
| `TemplateCache.Run` | src/platforms/web/entry-runtime-with-compiler.js:12-15 | n calls give n results and at most n queries; the memo's keys grow by exactly the ids looked up |
| `TemplateCache.RunIsTransparent` | src/platforms/web/entry-runtime-with-compiler.js:12-15 | starting from a memo that agrees with the document (the empty memo does), every result of a sequence of calls equals the uncached lookup and the memo keeps agreeing |
| `TemplateCache.RunQueriesNewIdsOnce` | src/platforms/web/entry-runtime-with-compiler.js:12-15 | when every id selects a non-empty template, the number of queries equals the number of distinct ids the memo could not already answer |
| `Dom.GetOuterHTML` | src/platforms/web/entry-runtime-with-compiler.js:108-116 | returns the truthy `outerHTML` if the engine provides one, else the innerHTML of a fresh wrapper holding a clone, which equals the element's own markup |
| `Dom.Container.AppendChild` | src/platforms/web/entry-runtime-with-compiler.js:112-114 | appending a child adds it last and extends the wrapper's innerHTML by the child's markup |
| `Dom.SerializeAppend` | src/platforms/web/entry-runtime-with-compiler.js:112-114 | the serialisation of children followed by one more child is the old serialisation followed by that child's markup |
| `Wrappers.TextOf` | src/platforms/web/entry-runtime-with-compiler.js:45-74 | the text a possibly-absent template contributes is non-empty exactly when the value is truthy, and is then the value itself |
| `Dom.CloneNode` | src/platforms/web/entry-runtime-with-compiler.js:113 | the clone keeps the element's markup and content and is neither `<body>` nor `<html>` |

## Left out

- `query` (src/platforms/web/util/index.js) is not part of this model. A selector that matches nothing is modelled as resolving to no element, both for `el` and in `idToTemplate`. So in this model `$mount('#nope')` with no template compiles nothing and passes no element to the base mount.
- MountGate.ResolveTarget: does not model a `query` that returns a placeholder element for an unmatched selector. With such a `query`, the gate would compile the placeholder's outer HTML and mount onto it. Inside `idToTemplate` the placeholder's empty `innerHTML` is falsy, so that lookup behaves the same either way.
- `cached` (src/core/util) is not part of this model. The memo answers only from a truthy stored value. An absent or empty entry is queried again. The model does not claim that a miss is cached after one query.
- The compiler's internals and its options (`shouldDecodeNewlines`, `shouldDecodeNewlinesForHref`, `delimiters`, `comments`) are left out. The compiler is an opaque function of the template string.
- The `config.performance` marks and measures (lines 76-79, 92-97) are left out. They are timing side effects only.
- The `warn` diagnostics and the production/development asymmetry (lines 31-34, 52-58, 64-66) are left out. They do not affect control flow.
- The patching of `Vue.prototype.$mount` (lines 17-19) and the `Vue.compile` re-export (line 118) are left out. The base mount is an injected collaborator, recorded in `CallLog`.
- The base mount's own behaviour and return value are left out.
- Element identity is not modelled. `el === document.body` and `el === document.documentElement` are modelled by two flags on the element.
- `hydrating` is a `bool` and is passed through. An `undefined` argument is not told apart from `false`.
