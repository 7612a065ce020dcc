/** The `$mount` override of the full (runtime + compiler) build: it resolves
    the mount target, refuses <html> and <body>, picks a template when the
    component has no render function, compiles a non-empty template once into
    `render`/`staticRenderFns`, and hands over to the runtime-only `$mount`
    (the base mount).  The compiler and the base mount are collaborators: the
    compiler is a function passed in, and both calls are recorded in a log. */
module MountGate {
  import opened Wrappers
  import opened Dom
  import opened TemplateCache

  /** The `el` argument: absent, a selector string, or an element. */
  datatype Target = NoTarget | Selector(selector: string) | Ref(element: Element)

  /** Line 26, `el = el && query(el)`: a non-empty selector becomes the element it
      matches (nothing when none does); everything else stays as it is. */
  function ResolveTarget(doc: Document, el: Target): (r: Target)
    ensures r.Selector? <==> el == Selector("")
    ensures el.Ref? || el.NoTarget? || el == Selector("") ==> r == el
    ensures el.Selector? && el.selector != "" ==>
              (r.Ref? <==> el.selector in doc) && (r.Ref? ==> r.element == doc[el.selector])
  {
    match el
    case Selector(s) =>
      if s == "" then el
      else (match Query(doc, s) case Some(e) => Ref(e) case None => NoTarget)
    case _ => el
  }

  /** `el === document.body || el === document.documentElement` */
  predicate Forbidden(target: Target)
  {
    target.Ref? && (target.element.isBody || target.element.isRoot)
  }

  /** `options.template`: absent or falsy, a string, a DOM node (anything with a
      `nodeType`, reduced to its innerHTML), or any other truthy value. */
  datatype TemplateOption = NoTemplate | Str(s: string) | Node(innerHTML: string) | Other

  /** A string template whose first character is '#'. */
  predicate IsIdTemplate(t: TemplateOption)
  {
    t.Str? && t.s != "" && t.s[0] == '#'
  }

  /** A compiled function; the compiler is opaque, so only its identity matters. */
  datatype RenderFn = RenderFn(code: string)

  /** What compileToFunctions returns. */
  datatype Compiled = Compiled(render: RenderFn, staticRenderFns: seq<RenderFn>)

  /** The part of `this.$options` that `$mount` reads or writes. */
  datatype Config = Config(template: TemplateOption, render: Option<RenderFn>, staticRenderFns: seq<RenderFn>)

  /** A recorded call `mount.call(this, el, hydrating)` of the base mount. */
  datatype BaseMountCall = BaseMountCall(el: Target, hydrating: bool)

  /** The outcome of template selection: `$mount` returns early on an invalid
      template option; otherwise the chosen template, with "" standing for every
      falsy value (undefined, null, ""). */
  datatype Choice = Invalid | Chosen(template: string)

  /** Lines 44-73: the template a component without a render function compiles.
      `byId` is what idToTemplate returned, consulted only for an `#id` string. */
  function ChooseTemplate(src: TemplateOption, target: Target, byId: Option<string>): (c: Choice)
    ensures c.Invalid? <==> src.Other?
    ensures IsIdTemplate(src) ==> c == Chosen(TextOf(byId))
    ensures src.Str? && src.s != "" && !IsIdTemplate(src) ==> c == Chosen(src.s)
    ensures src.Node? ==> c == Chosen(src.innerHTML)
    ensures src.NoTemplate? || src == Str("") ==> c == FromElement(target)
  {
    match src
    case Str(s) =>
      if s == "" then FromElement(target)
      else if s[0] == '#' then Chosen(TextOf(byId))
      else Chosen(s)
    case Node(inner) => Chosen(inner)
    case Other => Invalid
    case NoTemplate => FromElement(target)
  }

  /** Lines 70-73: with no template, the element's outer HTML, if there is an element. */
  function FromElement(target: Target): (c: Choice)
    ensures c.Chosen?
    ensures c.template != "" ==> target.Ref?
    ensures target.Ref? ==> c.template == OuterHTML(target.element)
  {
    if target.Ref? then Chosen(OuterHTML(target.element)) else Chosen("")
  }

  /** Everything one call of `$mount` does, given the resolved target. */
  datatype Effect = Effect(config: Config, compiled: Option<string>, baseMount: Option<BaseMountCall>)

  /** A compiled template is non-empty and its render functions are exactly what
      is stored; without compilation the options are untouched; the template
      option is never rewritten; and the base mount is skipped exactly on a
      forbidden target or an invalid template option, otherwise it receives the
      resolved element and `hydrating`. */
  function MountEffect(cfg: Config, target: Target, hydrating: bool, byId: Option<string>,
                       compile: string -> Compiled): (e: Effect)
    ensures e.config.template == cfg.template
    ensures e.compiled.Some? ==>
              && e.compiled.value != ""
              && cfg.render.None?
              && e.config.render == Some(compile(e.compiled.value).render)
              && e.config.staticRenderFns == compile(e.compiled.value).staticRenderFns
    ensures e.compiled.None? ==> e.config == cfg
    ensures e.baseMount.None? <==> Forbidden(target) || (cfg.render.None? && cfg.template.Other?)
    ensures e.baseMount.Some? ==> e.baseMount.value == BaseMountCall(target, hydrating)
  {
    var call := Some(BaseMountCall(target, hydrating));
    if Forbidden(target) then Effect(cfg, None, None)
    else if cfg.render.Some? then Effect(cfg, None, call)
    else
      match ChooseTemplate(cfg.template, target, byId)
      case Invalid => Effect(cfg, None, None)
      case Chosen(t) =>
        if t == "" then Effect(cfg, None, call)
        else
          var c := compile(t);
          Effect(cfg.(render := Some(c.render), staticRenderFns := c.staticRenderFns), Some(t), call)
  }

  /** The selector `$mount` hands to idToTemplate, if it consults it at all. */
  function CacheKey(cfg: Config, target: Target): Option<string>
  {
    if !Forbidden(target) && cfg.render.None? && IsIdTemplate(cfg.template) then Some(cfg.template.s)
    else None
  }

  /** What idToTemplate returns to `$mount`, computed from the memo before the call. */
  function ByIdResult(cfg: Config, target: Target, memo: Memo, doc: Document): Option<string>
  {
    match CacheKey(cfg, target)
    case Some(id) => Step(memo, doc, id).result
    case None => None
  }

  /** A call made to one of the two collaborators. */
  datatype Event = CompilerCalled(template: string) | BaseMountCalled(call: BaseMountCall)

  /** The collaborator calls of one mount, in the order they happen: the
      compiler (line 82) before the base mount (line 101). */
  function Events(e: Effect): seq<Event>
  {
    (if e.compiled.Some? then [CompilerCalled(e.compiled.value)] else [])
    + (if e.baseMount.Some? then [BaseMountCalled(e.baseMount.value)] else [])
  }

  // ---------------------------------------------------------------------------
  // Properties of one mount

  /** Lines 26-37: a <body> or <html> target changes nothing and calls neither
      the compiler nor the base mount. */
  lemma ForbiddenTargetIsInert(cfg: Config, target: Target, hydrating: bool, byId: Option<string>,
                               compile: string -> Compiled)
    requires Forbidden(target)
    ensures MountEffect(cfg, target, hydrating, byId, compile) == Effect(cfg, None, None)
  {
  }

  /** Lines 43 and 101: an existing render function is kept, nothing is compiled,
      and the base mount still runs with the resolved element. */
  lemma ExistingRenderSkipsCompilation(cfg: Config, target: Target, hydrating: bool,
                                       byId: Option<string>, compile: string -> Compiled)
    requires !Forbidden(target) && cfg.render.Some?
    ensures MountEffect(cfg, target, hydrating, byId, compile)
            == Effect(cfg, None, Some(BaseMountCall(target, hydrating)))
  {
  }

  /** Lines 47-59: an `#id` template compiles what idToTemplate returned, when
      that is non-empty; any other non-empty string compiles as it is. */
  lemma StringTemplate(cfg: Config, target: Target, hydrating: bool, byId: Option<string>,
                       compile: string -> Compiled)
    requires !Forbidden(target) && cfg.render.None? && cfg.template.Str? && cfg.template.s != ""
    ensures var e := MountEffect(cfg, target, hydrating, byId, compile);
            && e.baseMount == Some(BaseMountCall(target, hydrating))
            && (IsIdTemplate(cfg.template) ==>
                  e.compiled == (if Truthy(byId) then Some(byId.value) else None))
            && (!IsIdTemplate(cfg.template) ==> e.compiled == Some(cfg.template.s))
  {
  }

  /** Lines 60-62: a DOM node template compiles its innerHTML, when non-empty. */
  lemma NodeTemplate(cfg: Config, target: Target, hydrating: bool, byId: Option<string>,
                     compile: string -> Compiled)
    requires !Forbidden(target) && cfg.render.None? && cfg.template.Node?
    ensures var e := MountEffect(cfg, target, hydrating, byId, compile);
            && e.baseMount == Some(BaseMountCall(target, hydrating))
            && e.compiled == (if cfg.template.innerHTML != "" then Some(cfg.template.innerHTML) else None)
  {
  }

  /** Lines 63-69: a truthy template that is neither a string nor a node makes
      `$mount` return early: nothing compiled, nothing written, no base mount. */
  lemma InvalidTemplateReturnsEarly(cfg: Config, target: Target, hydrating: bool,
                                    byId: Option<string>, compile: string -> Compiled)
    requires cfg.render.None? && cfg.template.Other?
    ensures MountEffect(cfg, target, hydrating, byId, compile) == Effect(cfg, None, None)
  {
  }

  /** Lines 70-73 and 108-116: with a falsy template the element's outer HTML is
      compiled (its own markup when the engine has no outerHTML); with no
      element either, nothing is compiled and the base mount still runs. */
  lemma FalsyTemplateUsesElement(cfg: Config, target: Target, hydrating: bool,
                                 byId: Option<string>, compile: string -> Compiled)
    requires !Forbidden(target) && cfg.render.None?
    requires cfg.template.NoTemplate? || cfg.template == Str("")
    ensures var e := MountEffect(cfg, target, hydrating, byId, compile);
            && e.baseMount == Some(BaseMountCall(target, hydrating))
            && (target.Ref? && Truthy(target.element.outerHTML) ==>
                  e.compiled == Some(target.element.outerHTML.value))
            && (target.Ref? && !Truthy(target.element.outerHTML) ==>
                  e.compiled == (if target.element.markup != "" then Some(target.element.markup) else None))
            && (!target.Ref? ==> e.compiled == None && e.config == cfg)
  {
  }

  /** A configuration gets its render function at most once: mounting again
      after a compilation never compiles. */
  lemma CompilesAtMostOnce(cfg: Config, target: Target, target': Target, hydrating: bool,
                           hydrating': bool, byId: Option<string>, byId': Option<string>,
                           compile: string -> Compiled)
    ensures var first := MountEffect(cfg, target, hydrating, byId, compile);
            first.compiled.Some? ==>
              MountEffect(first.config, target', hydrating', byId', compile).compiled == None
  {
  }

  /** End to end: `template: "#missing"` with no element for the id compiles
      nothing and still calls the base mount with the resolved element. */
  lemma MissingIdTemplate(cfg: Config, doc: Document, el: Target, hydrating: bool,
                          memo: Memo, compile: string -> Compiled)
    requires IsIdTemplate(cfg.template) && cfg.template.s !in doc && cfg.render.None?
    requires !Hit(memo, cfg.template.s)
    requires !Forbidden(ResolveTarget(doc, el))
    ensures var target := ResolveTarget(doc, el);
            var e := MountEffect(cfg, target, hydrating, ByIdResult(cfg, target, memo, doc), compile);
            e == Effect(cfg, None, Some(BaseMountCall(target, hydrating)))
  {
  }

  // ---------------------------------------------------------------------------
  // The mutable objects

  /** `this.$options` */
  class Options {
    var template: TemplateOption
    var render: Option<RenderFn>
    var staticRenderFns: seq<RenderFn>

    constructor (template: TemplateOption, render: Option<RenderFn>, staticRenderFns: seq<RenderFn>)
      ensures Snapshot() == Config(template, render, staticRenderFns)
    {
      this.template := template;
      this.render := render;
      this.staticRenderFns := staticRenderFns;
    }

    function Snapshot(): Config
      reads this
    {
      Config(template, render, staticRenderFns)
    }
  }

  /** The calls made to the two collaborators, in the order they were made. */
  class CallLog {
    var events: seq<Event>

    constructor ()
      ensures events == []
    {
      events := [];
    }
  }

  /** What `$mount` returns: `this` (early return) or the base mount's result. */
  datatype Returned = This | BaseMountResult

  /** A component instance. */
  class Component {
    const options: Options

    constructor (options: Options)
      ensures this.options == options
    {
      this.options := options;
    }

    /** `$mount(el, hydrating)`, with the document, the idToTemplate cache and
        the compiler passed in and the collaborator calls recorded in `log`. */
    method Mount(el: Target, hydrating: bool, doc: Document, cache: IdCache,
                 compile: string -> Compiled, log: CallLog) returns (r: Returned)
      modifies options`render, options`staticRenderFns, cache, log
      ensures var target := ResolveTarget(doc, el);
              var cfg := old(options.Snapshot());
              var e := MountEffect(cfg, target, hydrating, ByIdResult(cfg, target, old(cache.memo), doc), compile);
              && options.Snapshot() == e.config
              && log.events == old(log.events) + Events(e)
              && (r == BaseMountResult <==> e.baseMount.Some?)
      ensures var key := CacheKey(old(options.Snapshot()), ResolveTarget(doc, el));
              && (key.None? ==> cache.memo == old(cache.memo) && cache.queries == old(cache.queries))
              && (key.Some? ==>
                    var l := Step(old(cache.memo), doc, key.value);
                    cache.memo == l.memo && cache.queries == old(cache.queries) + if l.queried then 1 else 0)
    {
      var target := ResolveTarget(doc, el);
      if Forbidden(target) {
        return This;
      }
      if options.render.None? {
        var template := "";
        var src := options.template;
        if src.Str? && src.s != "" {
          if src.s[0] == '#' {
            var byId := cache.Lookup(doc, src.s);
            template := TextOf(byId);
          } else {
            template := src.s;
          }
        } else if src.Node? {
          template := src.innerHTML;
        } else if src.Other? {
          return This;
        } else if target.Ref? {
          template := GetOuterHTML(target.element);
        }
        if template != "" {
          var c := compile(template);
          log.events := log.events + [CompilerCalled(template)];
          options.render := Some(c.render);
          options.staticRenderFns := c.staticRenderFns;
        }
      }
      log.events := log.events + [BaseMountCalled(BaseMountCall(target, hydrating))];
      r := BaseMountResult;
    }
  }
}
