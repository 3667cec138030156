/**
 * The application layer (app.py): the declaration-time callback registry
 * keyed by component class name, components and their variables, pages
 * built from raw items, the routed Layout of one session, and the App that
 * opens sessions, dispatches events and switches pages.
 *
 * The current session and the current layout (context variables in the
 * source) are explicit: a Session object is passed to what sends, and the
 * App's `layout` slot stands for the `_layout` variable of the running
 * session's task. Callbacks are not run: dispatch returns the sequence of
 * bound callbacks it awaits, in order.
 */
module Apps {
  import opened Common
  import Text
  import Messages
  import Sessions
  import Utils

  // ---------------------------------------------------------------------
  // The message classes app.py declares

  const UpdateLayoutClass := Messages.ClassDecl("UpdateLayout", Messages.CommandBase, ["html", "vars"])
  const SetVarClass := Messages.ClassDecl("SetVar", Messages.CommandBase, ["name", "value"])
  const LayoutUpdatedClass := Messages.ClassDecl("LayoutUpdated", Messages.EventBase, [])
  const VarSetClass := Messages.ClassDecl("VarSet", Messages.EventBase, [])
  const ButtonClickClass := Messages.ClassDecl("ButtonClick", Messages.EventBase, ["button_id"])
  const InputUpdatedClass := Messages.ClassDecl("InputUpdated", Messages.EventBase, ["name", "value"])

  /** Every message class app.py declares, in declaration order. */
  const AppMessages := [UpdateLayoutClass, LayoutUpdatedClass, SetVarClass, VarSetClass,
                        ButtonClickClass, InputUpdatedClass]

  /** The frame `send_update` writes for a page: UpdateLayout with its html and variables. */
  function UpdateLayoutCommand(html: string, vars: Data): (m: Messages.Message)
    ensures Messages.WellFormed(m)
  {
    Messages.Message(UpdateLayoutClass, [Str(html), Dict(vars)])
  }

  function SetVarCommand(name: string, value: Value): (m: Messages.Message)
    ensures Messages.WellFormed(m)
  {
    Messages.Message(SetVarClass, [Str(name), value])
  }

  // ---------------------------------------------------------------------
  // The declaration-time registry `_registry`

  /** One registry entry: the event class a method handles and the method's name. */
  type Entry = (Messages.ClassDecl, string)

  /** `_registry[cls]` of a defaultdict: the entries of `cls`, empty if none. */
  function EntriesFor(entries: map<string, seq<Entry>>, cls: string): seq<Entry>
  {
    if cls in entries then entries[cls] else []
  }

  /**
   * The class `on` files a callback under: its declaring class when the
   * callback is an unbound function defined directly in a class body.
   */
  function DeclaringClass(callback: Utils.Callable): Option<string>
  {
    if Utils.GetSelf(callback).Some? then None
    else match Utils.GetClassName(callback)
      case Success(Some(cls)) => if cls != "" then Some(cls) else None
      case _ => None
  }

  /**
   * `on` accepts exactly the unbound functions whose qualname has one dot,
   * not at its start; the class it files them under is the text before it.
   */
  lemma {:induction false} DeclaringClassSpec(callback: Utils.Callable)
    ensures DeclaringClass(callback).Some? <==>
              && callback.boundSelf.None?
              && Text.Count(callback.qualname, '.') == 1
              && callback.qualname[0] != '.'
    ensures DeclaringClass(callback).Some? ==>
              var cls := DeclaringClass(callback).value;
              callback.qualname == cls + "." + callback.qualname[|cls| + 1..] && '.' !in cls
  {
    var q := callback.qualname;
    var r := Utils.GetClassName(callback);
    if Text.Count(q, '.') == 0 {
      Utils.CountZeroAbsent(q, '.');
    } else if Text.Count(q, '.') == 1 {
      if '.' !in q {
        Text.CountAbsent(q, '.');
      }
      var cls := r.value.value;
      assert q == q[..|cls|] + [q[|cls|]] + q[|cls| + 1..];
      if |cls| == 0 {
        assert q[0] == '.';
      } else {
        assert q[0] == cls[0];
      }
    }
  }

  class ComponentRegistry {
    var entries: map<string, seq<Entry>>

    constructor ()
      ensures entries == map[]
    {
      entries := map[];
    }

    /**
     * `on(event_cls)(callback)`: appends (event class, method name) under
     * the declaring class and returns the callback unchanged; anything
     * else (a bound method, a module-level function, a nested qualname)
     * raises RuntimeError and registers nothing.
     */
    method On(eventCls: Messages.ClassDecl, callback: Utils.Callable) returns (r: Result<Utils.Callable, Exception>)
      modifies this
      ensures r.Success? <==> DeclaringClass(callback).Some?
      ensures r.Success? ==>
                && r.value == callback
                && var cls := DeclaringClass(callback).value;
                entries == old(entries)[cls := EntriesFor(old(entries), cls) + [(eventCls, callback.name)]]
      ensures r.Failure? ==> r.error == RuntimeError && entries == old(entries)
    {
      var owner := Utils.GetSelf(callback);
      var clsName := Utils.GetClassName(callback);
      if clsName.Failure? {
        return Failure(RuntimeError);
      }
      if owner.None? && clsName.value.Some? && clsName.value.value != "" {
        var cls := clsName.value.value;
        entries := entries[cls := EntriesFor(entries, cls) + [(eventCls, callback.name)]];
        r := Success(callback);
      } else {
        r := Failure(RuntimeError);
      }
    }
  }

  // ---------------------------------------------------------------------
  // Components and pages

  /** A component class: its name, its `html` and the defaults of its `Vars` dataclass. */
  datatype ComponentClass = ComponentClass(name: string, html: string, defaults: Data)

  /** An item of a raw page: an HTML string or a component class. */
  datatype RawItem = HtmlItem(html: string) | ClassItem(cls: ComponentClass)

  /** A component instance: its class name, its html and its current variables. */
  datatype Component = Component(className: string, html: string, vars: Data)

  const HtmlComponentName := "HTMLComponent"

  /**
   * A method bound to a component instance. Instances are values here, so
   * the instance is named by its position in its page.
   */
  datatype BoundCallback = BoundCallback(owner: nat, methodName: string)

  /**
   * `Component.callbacks_map`: the registry entries of the component's own
   * class, in registration order, each bound to the instance.
   */
  function ComponentCallbacks(entries: map<string, seq<Entry>>, comp: Component, owner: nat): (r: seq<(Messages.ClassDecl, BoundCallback)>)
  {
    var es := EntriesFor(entries, comp.className);
    seq(|es|, j requires 0 <= j < |es| => (es[j].0, BoundCallback(owner, es[j].1)))
  }

  /** `Page.callbacks_map`: the components' callbacks one component after another. */
  function PageCallbacks(entries: map<string, seq<Entry>>, page: seq<Component>): seq<(Messages.ClassDecl, BoundCallback)>
  {
    if |page| == 0 then []
    else PageCallbacks(entries, page[..|page| - 1]) + ComponentCallbacks(entries, page[|page| - 1], |page| - 1)
  }

  /** The callbacks of component `i` that handle `eventCls`, in registration order. */
  function MatchingOf(entries: map<string, seq<Entry>>, comp: Component, owner: nat, eventCls: Messages.ClassDecl): seq<BoundCallback>
  {
    var es := EntriesFor(entries, comp.className);
    MatchingEntries(es, owner, eventCls)
  }

  function MatchingEntries(es: seq<Entry>, owner: nat, eventCls: Messages.ClassDecl): seq<BoundCallback>
  {
    if |es| == 0 then []
    else MatchingEntries(es[..|es| - 1], owner, eventCls)
         + (if es[|es| - 1].0 == eventCls then [BoundCallback(owner, es[|es| - 1].1)] else [])
  }

  /**
   * What `on_event` must await for an event of class `eventCls`: for each
   * component in page order, the callbacks of its class registered for
   * exactly that class, in registration order.
   */
  function MatchingCallbacks(entries: map<string, seq<Entry>>, page: seq<Component>, eventCls: Messages.ClassDecl): seq<BoundCallback>
  {
    if |page| == 0 then []
    else MatchingCallbacks(entries, page[..|page| - 1], eventCls)
         + MatchingOf(entries, page[|page| - 1], |page| - 1, eventCls)
  }

  /** Keeping the callbacks of one class out of a callbacks map. */
  function KeepKind(cbs: seq<(Messages.ClassDecl, BoundCallback)>, eventCls: Messages.ClassDecl): seq<BoundCallback>
  {
    if |cbs| == 0 then []
    else KeepKind(cbs[..|cbs| - 1], eventCls) + (if cbs[|cbs| - 1].0 == eventCls then [cbs[|cbs| - 1].1] else [])
  }

  lemma {:induction false} KeepKindAppend(a: seq<(Messages.ClassDecl, BoundCallback)>, b: seq<(Messages.ClassDecl, BoundCallback)>, eventCls: Messages.ClassDecl)
    ensures KeepKind(a + b, eventCls) == KeepKind(a, eventCls) + KeepKind(b, eventCls)
    decreases |b|
  {
    if |b| == 0 {
      assert a + b == a;
    } else {
      var b' := b[..|b| - 1];
      assert (a + b)[..|a + b| - 1] == a + b';
      KeepKindAppend(a, b', eventCls);
    }
  }

  lemma {:induction false} KeepKindOfComponent(entries: map<string, seq<Entry>>, comp: Component, owner: nat, eventCls: Messages.ClassDecl, n: nat)
    requires n <= |EntriesFor(entries, comp.className)|
    ensures KeepKind(ComponentCallbacks(entries, comp, owner)[..n], eventCls)
            == MatchingEntries(EntriesFor(entries, comp.className)[..n], owner, eventCls)
  {
    var es := EntriesFor(entries, comp.className);
    var cbs := ComponentCallbacks(entries, comp, owner);
    if n > 0 {
      KeepKindOfComponent(entries, comp, owner, eventCls, n - 1);
      assert cbs[..n][..n - 1] == cbs[..n - 1];
      assert es[..n][..n - 1] == es[..n - 1];
    }
  }

  /** Filtering the flattened callbacks map by kind is the per-component match. */
  /** Filtering a beginning of a callbacks map gives a beginning of the filtered map. */
  lemma {:induction false} KeepKindPrefix(cbs: seq<(Messages.ClassDecl, BoundCallback)>, j: nat, eventCls: Messages.ClassDecl)
    requires j <= |cbs|
    ensures KeepKind(cbs[..j], eventCls) <= KeepKind(cbs, eventCls)
  {
    KeepKindAppend(cbs[..j], cbs[j..], eventCls);
    assert cbs[..j] + cbs[j..] == cbs;
  }

  lemma {:induction false} KeepKindOfPage(entries: map<string, seq<Entry>>, page: seq<Component>, eventCls: Messages.ClassDecl)
    ensures KeepKind(PageCallbacks(entries, page), eventCls) == MatchingCallbacks(entries, page, eventCls)
  {
    if |page| > 0 {
      var n := |page| - 1;
      KeepKindOfPage(entries, page[..n], eventCls);
      KeepKindAppend(PageCallbacks(entries, page[..n]), ComponentCallbacks(entries, page[n], n), eventCls);
      var es := EntriesFor(entries, page[n].className);
      KeepKindOfComponent(entries, page[n], n, eventCls, |es|);
      assert ComponentCallbacks(entries, page[n], n)[..|es|] == ComponentCallbacks(entries, page[n], n);
      assert es[..|es|] == es;
    }
  }

  /** Every awaited callback belongs to a page component whose class registered it for the event class. */
  lemma {:induction false} MatchingCallbacksSound(entries: map<string, seq<Entry>>, page: seq<Component>, eventCls: Messages.ClassDecl, cb: BoundCallback)
    requires cb in MatchingCallbacks(entries, page, eventCls)
    ensures cb.owner < |page|
    ensures (eventCls, cb.methodName) in EntriesFor(entries, page[cb.owner].className)
  {
    var n := |page| - 1;
    if cb in MatchingCallbacks(entries, page[..n], eventCls) {
      MatchingCallbacksSound(entries, page[..n], eventCls, cb);
      assert page[..n][cb.owner] == page[cb.owner];
    } else {
      MatchingEntriesSound(EntriesFor(entries, page[n].className), n, eventCls, cb);
    }
  }

  lemma {:induction false} MatchingEntriesSound(es: seq<Entry>, owner: nat, eventCls: Messages.ClassDecl, cb: BoundCallback)
    requires cb in MatchingEntries(es, owner, eventCls)
    ensures cb.owner == owner && (eventCls, cb.methodName) in es
  {
    var n := |es| - 1;
    if cb in MatchingEntries(es[..n], owner, eventCls) {
      MatchingEntriesSound(es[..n], owner, eventCls, cb);
      assert es[..n] <= es;
    } else {
      assert es[n] == (eventCls, cb.methodName);
    }
  }

  /**
   * `page` is what `convert_to_page` makes of `raw`: one component per raw
   * item, in order; an HTML string becomes an HTMLComponent with that html
   * and no variables, a class is instantiated with its declared html and
   * variable defaults.
   */
  predicate ConvertedFrom(page: seq<Component>, raw: seq<RawItem>)
  {
    && |page| == |raw|
    && (forall i :: 0 <= i < |raw| && raw[i].HtmlItem? ==>
          page[i] == Component(HtmlComponentName, raw[i].html, map[]))
    && (forall i :: 0 <= i < |raw| && raw[i].ClassItem? ==>
          page[i] == Component(raw[i].cls.name, raw[i].cls.html, raw[i].cls.defaults))
  }

  /** `convert_to_page`. */
  method ConvertToPage(raw: seq<RawItem>) returns (page: seq<Component>)
    ensures |page| == |raw|
    ensures forall i :: 0 <= i < |raw| && raw[i].HtmlItem? ==>
              page[i] == Component(HtmlComponentName, raw[i].html, map[])
    ensures forall i :: 0 <= i < |raw| && raw[i].ClassItem? ==>
              page[i] == Component(raw[i].cls.name, raw[i].cls.html, raw[i].cls.defaults)
  {
    page := [];
    for i := 0 to |raw|
      invariant |page| == i
      invariant forall k :: 0 <= k < i && raw[k].HtmlItem? ==>
                  page[k] == Component(HtmlComponentName, raw[k].html, map[])
      invariant forall k :: 0 <= k < i && raw[k].ClassItem? ==>
                  page[k] == Component(raw[k].cls.name, raw[k].cls.html, raw[k].cls.defaults)
    {
      var component;
      match raw[i] {
        case HtmlItem(html) =>
          component := Component(HtmlComponentName, html, map[]);
        case ClassItem(cls) =>
          component := Component(cls.name, cls.html, cls.defaults);
      }
      page := page + [component];
    }
  }

  /** `Layout.html` for a page: the components' html concatenated in page order. */
  function PageHtml(page: seq<Component>): string
  {
    if |page| == 0 then "" else PageHtml(page[..|page| - 1]) + page[|page| - 1].html
  }

  /** The rendering of two pages put together is the two renderings put together. */
  lemma {:induction false} PageHtmlAppend(p: seq<Component>, q: seq<Component>)
    ensures PageHtml(p + q) == PageHtml(p) + PageHtml(q)
    ensures PageHtml([]) == "" && (|q| == 1 ==> PageHtml(q) == q[0].html)
    decreases |q|
  {
    if |q| == 0 {
      assert p + q == p;
    } else {
      var q' := q[..|q| - 1];
      var last := q[|q| - 1];
      assert (p + q)[..|p + q| - 1] == p + q';
      assert (p + q)[|p + q| - 1] == last;
      assert PageHtml(p + q) == PageHtml(p + q') + last.html;
      PageHtmlAppend(p, q');
      Regroup(PageHtml(p), PageHtml(q'), last.html);
      assert PageHtml(q) == PageHtml(q') + last.html;
      if |q| == 1 {
        assert q' == [];
      }
    }
  }

  /** `Layout.vars` for a page: the components' variables merged with `dict.update`, in page order. */
  function PageVars(page: seq<Component>): Data
  {
    if |page| == 0 then map[] else PageVars(page[..|page| - 1]) + page[|page| - 1].vars
  }

  /**
   * The merged variables hold exactly the names some component declares,
   * and each name takes the value of the LAST component declaring it.
   */
  lemma {:induction false} PageVarsLastWins(page: seq<Component>, name: string)
    ensures name in PageVars(page) <==> exists i :: 0 <= i < |page| && name in page[i].vars
    ensures forall i :: 0 <= i < |page| && name in page[i].vars &&
                        (forall j :: i < j < |page| ==> name !in page[j].vars) ==>
              name in PageVars(page) && PageVars(page)[name] == page[i].vars[name]
  {
    if |page| > 0 {
      var n := |page| - 1;
      PageVarsLastWins(page[..n], name);
      if name !in page[n].vars {
        forall i | 0 <= i < n && name in page[i].vars
          ensures name in PageVars(page[..n])
        {
          assert page[..n][i] == page[i];
        }
        if name in PageVars(page[..n]) {
          var i :| 0 <= i < n && name in page[..n][i].vars;
          assert page[..n][i] == page[i];
        }
        forall i | 0 <= i < n && name in page[i].vars && (forall j :: i < j < |page| ==> name !in page[j].vars)
          ensures PageVars(page)[name] == page[i].vars[name]
        {
          assert page[..n][i] == page[i];
          assert forall j :: i < j < n ==> page[..n][j] == page[j];
        }
      }
    }
  }

  // ---------------------------------------------------------------------
  // The routed layout of one session

  /**
   * The route `add_page` leaves current: it changes only while the current
   * route is falsy. A route is a string, or None for the page a layout is
   * constructed with.
   */
  function RouteAfterAdd(current: Option<string>, route: Option<string>): Option<string>
  {
    if current.None? || current == Some("") then route else current
  }

  function RouteAfterAdds(current: Option<string>, routes: seq<string>): Option<string>
  {
    if |routes| == 0 then current
    else RouteAfterAdd(RouteAfterAdds(current, routes[..|routes| - 1]), Some(routes[|routes| - 1]))
  }

  /** Adding pages in order leaves the first route current, unless that route is the empty string. */
  lemma {:induction false} FirstRouteStays(routes: seq<string>)
    requires |routes| > 0 && routes[0] != ""
    ensures RouteAfterAdds(None, routes) == Some(routes[0])
  {
    if |routes| > 1 {
      FirstRouteStays(routes[..|routes| - 1]);
    } else {
      assert routes[..0] == [];
    }
  }

  class Layout {
    var pages: map<Option<string>, seq<Component>>
    var currentRoute: Option<string>

    /**
     * `Layout(raw_page)`: no current route; without a raw page no pages,
     * with one that page converted and stored under the route None.
     */
    constructor (rawPage: Option<seq<RawItem>>)
      ensures currentRoute == None
      ensures rawPage.None? ==> pages == map[]
      ensures rawPage.Some? ==> pages.Keys == {None} && ConvertedFrom(pages[None], rawPage.value)
    {
      pages := map[];
      currentRoute := None;
      new;
      if rawPage.Some? {
        AddPage(None, rawPage.value);
      }
    }

    /**
     * `add_page`: the page is converted and stored under `route`,
     * overwriting any earlier page there; `route` becomes current only if
     * the current route is still falsy.
     */
    method AddPage(route: Option<string>, raw: seq<RawItem>)
      modifies this
      ensures currentRoute == RouteAfterAdd(old(currentRoute), route)
      ensures pages.Keys == old(pages).Keys + {route}
      ensures forall r :: r in old(pages) && r != route ==> pages[r] == old(pages)[r]
      ensures ConvertedFrom(pages[route], raw)
    {
      if currentRoute.None? || currentRoute == Some("") {
        currentRoute := route;
      }
      var page := ConvertToPage(raw);
      pages := pages[route := page];
    }

    /** `Layout.switch_page`: sets the route, unchecked. */
    method SwitchPage(route: Option<string>)
      modifies this
      ensures currentRoute == route && pages == old(pages)
    {
      currentRoute := route;
    }

    /** `current_page`: the page of the current route (None included); KeyError when there is none. */
    function CurrentPage(): (r: Result<seq<Component>, Exception>)
      reads this
      ensures r.Success? <==> currentRoute in pages
      ensures r.Success? ==> r.value == pages[currentRoute]
      ensures r.Failure? ==> r.error.KeyError?
    {
      if currentRoute in pages then Success(pages[currentRoute])
      else Failure(KeyError(if currentRoute.None? then "None" else currentRoute.value))
    }

    /** `Layout.vars`: `update` over the current page's components, in order. */
    method Vars() returns (r: Result<Data, Exception>)
      ensures r.Success? <==> CurrentPage().Success?
      ensures r.Success? ==> r.value == PageVars(CurrentPage().value)
    {
      var current := CurrentPage();
      if current.Failure? {
        return Failure(current.error);
      }
      var page := current.value;
      var result: Data := map[];
      for i := 0 to |page|
        invariant result == PageVars(page[..i])
      {
        assert page[..i + 1][..i] == page[..i];
        result := result + page[i].vars;
      }
      assert page[..|page|] == page;
      r := Success(result);
    }

    /** `Layout.callbacks_map`: `cb_map += component.callbacks_map` over the current page. */
    method CallbacksMap(registry: ComponentRegistry) returns (r: Result<seq<(Messages.ClassDecl, BoundCallback)>, Exception>)
      ensures r.Success? <==> CurrentPage().Success?
      ensures r.Success? ==> r.value == PageCallbacks(registry.entries, CurrentPage().value)
      ensures r.Failure? ==> r.error == CurrentPage().error
    {
      var current := CurrentPage();
      if current.Failure? {
        return Failure(current.error);
      }
      var page := current.value;
      var cbMap := [];
      for i := 0 to |page|
        invariant cbMap == PageCallbacks(registry.entries, page[..i])
      {
        assert page[..i + 1][..i] == page[..i];
        cbMap := cbMap + ComponentCallbacks(registry.entries, page[i], i);
      }
      assert page[..|page|] == page;
      r := Success(cbMap);
    }

    /**
     * `send_update`: one UpdateLayout carrying the current page's html and
     * merged variables is sent to the given (current) session; nothing is
     * sent when there is no current page.
     */
    method SendUpdate(session: Sessions.Session) returns (r: Result<(), Exception>)
      modifies session
      ensures r.Success? <==> CurrentPage().Success?
      ensures r.Success? ==>
                var page := CurrentPage().value;
                session.sent == old(session.sent) +
                  [Sessions.FrameOf("UpdateLayout", session.dumps(map["html" := Str(PageHtml(page)), "vars" := Dict(PageVars(page))]))]
      ensures r.Failure? ==> r.error == CurrentPage().error && session.sent == old(session.sent)
    {
      var current := CurrentPage();
      if current.Failure? {
        return Failure(current.error);
      }
      var vars := Vars();
      var cmd := UpdateLayoutCommand(PageHtml(current.value), vars.value);
      session.SendCommand(cmd);
      assert Messages.DataOf(cmd) == map["html" := Str(PageHtml(current.value)), "vars" := Dict(vars.value)];
      r := Success(());
    }
  }

  /**
   * `Component.update_var`: one SetVar carrying the variable's current value
   * is sent to the given (current) session; AttributeError, and nothing
   * sent, when the component has no such variable.
   */
  method UpdateVar(comp: Component, name: string, session: Sessions.Session) returns (r: Result<(), Exception>)
    modifies session
    ensures r.Success? <==> name in comp.vars
    ensures r.Success? ==>
              session.sent == old(session.sent) +
                [Sessions.FrameOf("SetVar", session.dumps(map["name" := Str(name), "value" := comp.vars[name]]))]
    ensures r.Failure? ==> r.error == AttributeError(name) && session.sent == old(session.sent)
  {
    if name !in comp.vars {
      return Failure(AttributeError(name));
    }
    var cmd := SetVarCommand(name, comp.vars[name]);
    session.SendCommand(cmd);
    assert Messages.DataOf(cmd) == map["name" := Str(name), "value" := comp.vars[name]];
    r := Success(());
  }

  /**
   * The loop of `on_event` over a callbacks map: the callbacks of the
   * event's class are awaited in order until one raises, whose exception
   * ends the loop.
   */
  method AwaitMatching(cbs: seq<(Messages.ClassDecl, BoundCallback)>, eventCls: Messages.ClassDecl,
                       raises: BoundCallback -> bool, errorOf: BoundCallback -> Exception)
    returns (awaited: seq<BoundCallback>, r: Result<(), Exception>)
    ensures awaited == UntilFirst(KeepKind(cbs, eventCls), raises)
    ensures r.Failure? <==> AnyOf(KeepKind(cbs, eventCls), raises)
    ensures r.Failure? ==> |awaited| > 0 && r.error == errorOf(awaited[|awaited| - 1])
  {
    awaited, r := [], Success(());
    for i := 0 to |cbs|
      invariant awaited == KeepKind(cbs[..i], eventCls)
      invariant forall k :: 0 <= k < |awaited| ==> !raises(awaited[k])
    {
      assert cbs[..i + 1][..i] == cbs[..i];
      if cbs[i].0 == eventCls {
        awaited := awaited + [cbs[i].1];
        if raises(cbs[i].1) {
          KeepKindPrefix(cbs, i + 1, eventCls);
          PrefixUntilFirst(awaited, KeepKind(cbs, eventCls), true, raises);
          return awaited, Failure(errorOf(cbs[i].1));
        }
      }
    }
    assert cbs[..|cbs|] == cbs;
    PrefixUntilFirst(awaited, KeepKind(cbs, eventCls), false, raises);
  }

  // ---------------------------------------------------------------------
  // The application

  /** The pages a layout built from `raw` holds: every route's converted page. */
  predicate HoldsPages(pages: map<Option<string>, seq<Component>>, raw: seq<(string, seq<RawItem>)>)
  {
    && pages.Keys == (set k | 0 <= k < |raw| :: Some(raw[k].0))
    && forall k :: 0 <= k < |raw| ==> ConvertedFrom(pages[Some(raw[k].0)], raw[k].1)
  }

  /** The routes of the raw pages, in order. */
  function Routes(raw: seq<(string, seq<RawItem>)>): seq<string>
  {
    seq(|raw|, k requires 0 <= k < |raw| => raw[k].0)
  }

  /** The route keys of the first `n` raw pages. */
  function RouteSet(raw: seq<(string, seq<RawItem>)>): set<Option<string>>
  {
    if |raw| == 0 then {} else RouteSet(raw[..|raw| - 1]) + {Some(raw[|raw| - 1].0)}
  }

  lemma {:induction false} RouteSetSpec(raw: seq<(string, seq<RawItem>)>)
    ensures RouteSet(raw) == (set k | 0 <= k < |raw| :: Some(raw[k].0))
  {
    if |raw| > 0 {
      RouteSetSpec(raw[..|raw| - 1]);
      var n := |raw| - 1;
      assert forall k :: 0 <= k < n ==> raw[..n][k] == raw[k];
    }
  }

  /** The first `n` raw pages are held, converted, under their routes. */
  predicate HoldsFirst(pages: map<Option<string>, seq<Component>>, raw: seq<(string, seq<RawItem>)>, n: nat)
    requires n <= |raw|
  {
    forall k :: 0 <= k < n ==> Some(raw[k].0) in pages && ConvertedFrom(pages[Some(raw[k].0)], raw[k].1)
  }

  /** Adding the next raw page keeps the earlier ones, since their routes differ from its route. */
  lemma {:induction false} HoldsFirstStep(p: map<Option<string>, seq<Component>>, q: map<Option<string>, seq<Component>>,
                                          raw: seq<(string, seq<RawItem>)>, n: nat)
    requires DistinctRoutes(raw) && n < |raw| && HoldsFirst(p, raw, n)
    requires p.Keys <= q.Keys && forall r :: r in p && r != Some(raw[n].0) ==> q[r] == p[r]
    requires Some(raw[n].0) in q && ConvertedFrom(q[Some(raw[n].0)], raw[n].1)
    ensures HoldsFirst(q, raw, n + 1)
  {
    forall k | 0 <= k < n
      ensures Some(raw[k].0) in q && ConvertedFrom(q[Some(raw[k].0)], raw[k].1)
    {
      assert raw[k].0 != raw[n].0;
    }
  }

  /** The loop of `on_session_open`: a fresh layout receiving every raw page in insertion order. */
  method BuildLayout(raw: seq<(string, seq<RawItem>)>) returns (layout: Layout)
    requires DistinctRoutes(raw)
    ensures fresh(layout)
    ensures HoldsPages(layout.pages, raw)
    ensures layout.currentRoute == RouteAfterAdds(None, Routes(raw))
  {
    layout := new Layout(None);
    for i := 0 to |raw|
      invariant fresh(layout)
      invariant layout.pages.Keys == RouteSet(raw[..i])
      invariant HoldsFirst(layout.pages, raw, i)
      invariant layout.currentRoute == RouteAfterAdds(None, Routes(raw)[..i])
    {
      ghost var before := layout.pages;
      layout.AddPage(Some(raw[i].0), raw[i].1);
      HoldsFirstStep(before, layout.pages, raw, i);
      assert raw[..i + 1][..i] == raw[..i];
      assert Routes(raw)[..i + 1][..i] == Routes(raw)[..i];
    }
    assert raw[..|raw|] == raw;
    assert Routes(raw)[..|raw|] == Routes(raw);
    RouteSetSpec(raw);
  }

  /** The markup a raw page declares: each item's html, in order. */
  function RawHtml(raw: seq<RawItem>): string
  {
    if |raw| == 0 then ""
    else
      var item := raw[|raw| - 1];
      RawHtml(raw[..|raw| - 1]) + (if item.HtmlItem? then item.html else item.cls.html)
  }

  /** A converted page renders to exactly the markup its raw page declares. */
  lemma {:induction false} ConvertedPageHtml(page: seq<Component>, raw: seq<RawItem>)
    requires ConvertedFrom(page, raw)
    ensures PageHtml(page) == RawHtml(raw)
  {
    if |raw| > 0 {
      var n := |raw| - 1;
      assert ConvertedFrom(page[..n], raw[..n]);
      ConvertedPageHtml(page[..n], raw[..n]);
    }
  }

  /**
   * After the pages of `raw` are added in order, the first route is current
   * (unless it is the empty string) and its page is the conversion of the
   * first raw page, so that is the page the opening UpdateLayout shows.
   */
  lemma {:induction false} FirstPageCurrent(pages: map<Option<string>, seq<Component>>, raw: seq<(string, seq<RawItem>)>)
    requires HoldsPages(pages, raw) && |raw| > 0 && raw[0].0 != ""
    ensures RouteAfterAdds(None, Routes(raw)) == Some(raw[0].0)
    ensures Some(raw[0].0) in pages && ConvertedFrom(pages[Some(raw[0].0)], raw[0].1)
    ensures PageHtml(pages[Some(raw[0].0)]) == RawHtml(raw[0].1)
  {
    FirstRouteStays(Routes(raw));
    ConvertedPageHtml(pages[Some(raw[0].0)], raw[0].1);
  }

  /** The `_layout` variable of the session's task: never set, or set to a layout or None. */
  datatype LayoutSlot = NotSet | Slot(layout: Layout?)

  /** A dict holds each key once. */
  predicate DistinctRoutes(raw: seq<(string, seq<RawItem>)>)
  {
    forall i, j :: 0 <= i < j < |raw| ==> raw[i].0 != raw[j].0
  }

  class App {
    /** `raw_pages`, a dict: routes in insertion order, each once. */
    const rawPages: seq<(string, seq<RawItem>)>
    var slot: LayoutSlot

    constructor (rawPages: seq<(string, seq<RawItem>)>)
      requires DistinctRoutes(rawPages)
      ensures this.rawPages == rawPages && slot == NotSet
    {
      this.rawPages := rawPages;
      slot := NotSet;
    }

    predicate HasRoute(route: string)
      reads this
    {
      exists k :: 0 <= k < |rawPages| && rawPages[k].0 == route
    }

    /**
     * `on_session_open`: a fresh layout receives every raw page in
     * insertion order, becomes the session's layout, and sends its first
     * UpdateLayout to the session.
     */
    method OnSessionOpen(session: Sessions.Session) returns (r: Result<(), Exception>)
      requires DistinctRoutes(rawPages)
      modifies this, session
      ensures slot.Slot? && slot.layout != null && fresh(slot.layout)
      ensures HoldsPages(slot.layout.pages, rawPages)
      ensures slot.layout.currentRoute == RouteAfterAdds(None, Routes(rawPages))
      ensures r.Success? <==> slot.layout.CurrentPage().Success?
      ensures r.Success? ==>
                var page := slot.layout.CurrentPage().value;
                session.sent == old(session.sent) +
                  [Sessions.FrameOf("UpdateLayout", session.dumps(map["html" := Str(PageHtml(page)), "vars" := Dict(PageVars(page))]))]
      ensures r.Failure? ==> session.sent == old(session.sent)
    {
      var layout := BuildLayout(rawPages);
      slot := Slot(layout);
      r := layout.SendUpdate(session);
    }

    /** `on_session_close`: the layout slot is reset to None. */
    method OnSessionClose()
      modifies this
      ensures slot == Slot(null)
    {
      slot := Slot(null);
    }

    /** `self.layout`: LookupError before any session opened, AttributeError on None. */
    function CurrentLayout(): (r: Result<Layout, Exception>)
      reads this
      ensures r.Success? <==> slot.Slot? && slot.layout != null
      ensures r.Success? ==> r.value == slot.layout
    {
      match slot
      case NotSet => Failure(LookupError)
      case Slot(l) => if l == null then Failure(AttributeError("layout")) else Success(l)
    }

    /**
     * `on_event`: walks the current page's callbacks map and awaits, once
     * each and in page-then-registration order, the callbacks registered
     * for the event's own class, until one raises (`raises`), which ends
     * the walk with that callback's exception (`errorOf`). LookupError or
     * AttributeError when there is no layout, KeyError when it has no
     * current page; nothing is awaited then.
     */
    method OnEvent(registry: ComponentRegistry, eventCls: Messages.ClassDecl,
                   raises: BoundCallback -> bool, errorOf: BoundCallback -> Exception)
      returns (awaited: seq<BoundCallback>, r: Result<(), Exception>)
      ensures !(CurrentLayout().Success? && CurrentLayout().value.CurrentPage().Success?) ==> r.Failure? && awaited == []
      ensures CurrentLayout().Failure? ==> r == Failure(CurrentLayout().error)
      ensures CurrentLayout().Success? && CurrentLayout().value.CurrentPage().Failure? ==>
                r == Failure(CurrentLayout().value.CurrentPage().error)
      ensures CurrentLayout().Success? && CurrentLayout().value.CurrentPage().Success? ==>
                var matching := MatchingCallbacks(registry.entries, CurrentLayout().value.CurrentPage().value, eventCls);
                && awaited == UntilFirst(matching, raises)
                && (r.Failure? <==> AnyOf(matching, raises))
                && (r.Failure? ==> r.error == errorOf(awaited[|awaited| - 1]))
    {
      awaited := [];
      var layout := CurrentLayout();
      if layout.Failure? {
        return awaited, Failure(layout.error);
      }
      var cbMap := layout.value.CallbacksMap(registry);
      if cbMap.Failure? {
        return awaited, Failure(cbMap.error);
      }
      KeepKindOfPage(registry.entries, layout.value.CurrentPage().value, eventCls);
      awaited, r := AwaitMatching(cbMap.value, eventCls, raises, errorOf);
    }

    /**
     * `App.switch_page`: a route not in `raw_pages` raises ValueError and
     * leaves the layout untouched; with no layout the lookup fails;
     * otherwise the layout switches to the route and sends one
     * UpdateLayout for its page, or fails with KeyError when the layout
     * has no page there. The layout's pages never change.
     */
    method SwitchPage(route: string, session: Sessions.Session) returns (r: Result<(), Exception>)
      modifies session, if slot.Slot? && slot.layout != null then {slot.layout} else {}
      ensures slot == old(slot)
      ensures slot.Slot? && slot.layout != null ==> slot.layout.pages == old(slot.layout.pages)
      ensures !HasRoute(route) ==> r == Failure(ValueError(route)) && session.sent == old(session.sent)
      ensures !HasRoute(route) && slot.Slot? && slot.layout != null ==>
                slot.layout.currentRoute == old(slot.layout.currentRoute)
      ensures HasRoute(route) && CurrentLayout().Failure? ==>
                r == Failure(CurrentLayout().error) && session.sent == old(session.sent)
      ensures HasRoute(route) && CurrentLayout().Success? ==>
                && CurrentLayout().value.currentRoute == Some(route)
                && (r.Success? <==> Some(route) in old(CurrentLayout().value.pages))
                && (r.Failure? ==> r == Failure(KeyError(route)) && session.sent == old(session.sent))
      ensures HasRoute(route) && CurrentLayout().Success? && r.Success? ==>
                var page := old(CurrentLayout().value.pages)[Some(route)];
                session.sent == old(session.sent) +
                  [Sessions.FrameOf("UpdateLayout", session.dumps(map["html" := Str(PageHtml(page)), "vars" := Dict(PageVars(page))]))]
    {
      if !HasRoute(route) {
        return Failure(ValueError(route));
      }
      var layout := CurrentLayout();
      if layout.Failure? {
        return Failure(layout.error);
      }
      layout.value.SwitchPage(Some(route));
      r := layout.value.SendUpdate(session);
    }
  }
}
