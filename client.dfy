/**
 * The browser client (web/client.js), reduced to its string logic: how an
 * incoming frame is split into a name and a JSON payload, which names it
 * acts on, how the layout template is rendered by substituting the first
 * `{{ key }}` placeholder of each variable, and the frames it sends back.
 *
 * The `#app` element is a `Page` object: the stored template (`app.__html`)
 * and variables (`app.__vars`), which are undefined until the first
 * layout arrives, the markup shown (`innerHTML`) and the frames sent over
 * the socket, in order. `JSON.parse` is a parameter.
 *
 * `set_var` as written re-renders from the stored template with only the
 * updated variable substituted (`Page.SetVarAsWritten`); `Page.SetVar`
 * re-renders with every stored variable, which keeps the page consistent.
 */
module Client {
  import opened Common
  import Text
  import Messages
  import Sessions
  import Apps

  /**
   * A JavaScript value: a string, an object (its keys in order), `null`,
   * `undefined` (what reading an absent property yields), or another
   * primitive with its text.
   */
  datatype Js =
    | JStr(s: string)
    | JObj(fields: seq<(string, Js)>)
    | JNull
    | JUndefined
    | JPrim(text: string)

  type Fields = seq<(string, Js)>

  /** `String(v)`: the text a value becomes when it replaces a placeholder. */
  function JsString(v: Js): string
  {
    match v
    case JStr(s) => s
    case JPrim(t) => t
    case JNull => "null"
    case JUndefined => "undefined"
    case JObj(_) => "[object Object]"
  }

  /** `obj[key]`: the value stored under `key`, if any. */
  function Get(fields: Fields, key: string): (r: Option<Js>)
    ensures r.None? <==> forall k :: 0 <= k < |fields| ==> fields[k].0 != key
    ensures r.Some? ==> exists k :: 0 <= k < |fields| && fields[k] == (key, r.value)
  {
    if |fields| == 0 then None
    else if fields[0].0 == key then
      assert fields[0] == (key, fields[0].1);
      Some(fields[0].1)
    else
      var r := Get(fields[1..], key);
      assert forall k :: 0 <= k < |fields[1..]| ==> fields[1..][k] == fields[k + 1];
      r
  }

  /**
   * `obj[key] = value`: an existing key keeps its place and gets the new
   * value; a new key goes last.
   */
  function Assign(fields: Fields, key: string, value: Js): (r: Fields)
    ensures Get(r, key) == Some(value)
    ensures forall k :: k != key ==> Get(r, k) == Get(fields, k)
    ensures Get(fields, key).Some? ==> |r| == |fields|
    ensures Get(fields, key).None? ==> r == fields + [(key, value)]
  {
    if |fields| == 0 then [(key, value)]
    else if fields[0].0 == key then [(key, value)] + fields[1..]
    else
      assert [fields[0]] + (fields[1..] + [(key, value)]) == fields + [(key, value)];
      [fields[0]] + Assign(fields[1..], key, value)
  }

  /** `JSON.parse(text)`: the empty text is never JSON; otherwise the parser decides. */
  function ParseJson(parse: string -> Option<Js>, text: string): Option<Js>
  {
    if text == "" then None else parse(text)
  }

  // ---------------------------------------------------------------------
  // Incoming frames

  /**
   * `let [name, ...data] = frame.split(' '); data = data.join(' ')`: the
   * text before the first space, and everything after it with its spaces;
   * a frame without a space is all name, with an empty payload.
   */
  function SplitFrame(frame: string): (r: (string, string))
    ensures ' ' !in frame ==> r == (frame, "")
    ensures ' ' in frame ==> ' ' !in r.0 && frame == r.0 + " " + r.1
  {
    var parts := Text.Split(frame, ' ');
    Text.SplitCount(frame, ' ');
    match Text.FirstIndex(frame, ' ')
    case None =>
      assert parts == [frame];
      (frame, "")
    case Some(i) =>
      assert parts == [frame[..i]] + Text.Split(frame[i + 1..], ' ');
      assert parts[1..] == Text.Split(frame[i + 1..], ' ');
      Text.JoinSplit(frame[i + 1..], ' ');
      assert frame == frame[..i] + [' '] + frame[i + 1..];
      (parts[0], Text.Join(" ", parts[1..]))
  }

  /** The client's split inverts the server's framing `<name> <payload>`. */
  lemma {:induction false} SplitFrameOfFrame(name: string, payload: string)
    requires ' ' !in name
    ensures SplitFrame(Sessions.FrameOf(name, payload)) == (name, payload)
  {
    var frame := Sessions.FrameOf(name, payload);
    assert frame == name + [' '] + payload;
    assert frame[|name|] == ' ';
    var r := SplitFrame(frame);
    Text.SplitFirstOfConcat(name, ' ', payload);
    Text.SplitFirstOfConcat(r.0, ' ', r.1);
  }

  /** The names `onmessage` acts on. */
  const ClearLayoutName := "ClearLayout"
  const UpdateLayoutName := "UpdateLayout"
  const SetVarName := "SetVar"

  /** How handling one frame ends. */
  datatype Outcome =
    | Handled
    /** The name is none of the three: reported with `console.error`, nothing else. */
    | DispatchError
    | Threw(error: Exception)

  /** `{{ key }}`. */
  function Placeholder(key: string): string
  {
    "{{ " + key + " }}"
  }

  /**
   * The template with, for each variable in order, the first occurrence of
   * its placeholder (in the text as rewritten so far) replaced by the
   * variable's text.
   */
  function Substitute(html: string, vars: Fields): string
  {
    if |vars| == 0 then html
    else
      var n := |vars| - 1;
      Text.ReplaceFirst(Substitute(html, vars[..n]), Placeholder(vars[n].0), JsString(vars[n].1))
  }

  /** The rendering loop of `update_layout`, proved to compute the substitution. */
  method Render(html: string, vars: Fields) returns (r: string)
    ensures r == Substitute(html, vars)
  {
    r := html;
    var i := 0;
    while i < |vars|
      invariant 0 <= i <= |vars|
      invariant r == Substitute(html, vars[..i])
    {
      assert vars[..i + 1][..i] == vars[..i];
      r := Text.ReplaceFirst(r, Placeholder(vars[i].0), JsString(vars[i].1));
      i := i + 1;
    }
    assert vars[..i] == vars;
  }

  /** The `html` and `vars` of an UpdateLayout payload, when they are a string and an object. */
  function LayoutPayload(data: Js): (r: Option<(string, Fields)>)
    ensures r.Some? ==> data.JObj? && Get(data.fields, "html") == Some(JStr(r.value.0))
                        && Get(data.fields, "vars") == Some(JObj(r.value.1))
    ensures data.JObj? && Get(data.fields, "html").Some? && Get(data.fields, "html").value.JStr?
            && Get(data.fields, "vars").Some? && Get(data.fields, "vars").value.JObj? ==>
              r == Some((Get(data.fields, "html").value.s, Get(data.fields, "vars").value.fields))
  {
    if !data.JObj? then None
    else
      match (Get(data.fields, "html"), Get(data.fields, "vars"))
      case (Some(JStr(html)), Some(JObj(vars))) => Some((html, vars))
      case _ => None
  }

  /**
   * `v.key` on a value that is neither `null` nor `undefined`: an object's
   * field, and `undefined` when the object has no such field or the value
   * is a primitive.
   */
  function Property(v: Js, key: string): Js
  {
    if v.JObj? && Get(v.fields, key).Some? then Get(v.fields, key).value else JUndefined
  }

  /**
   * `data.name` (as a property key) and `data.value` of a SetVar payload.
   * Reading a property of `null` or `undefined` throws; any other payload
   * has both, a missing one being `undefined`.
   */
  function VarPayload(data: Js): (r: Option<(string, Js)>)
    ensures r.None? <==> data.JNull? || data.JUndefined?
    ensures r.Some? && data.JObj? && Get(data.fields, "name").Some? ==> r.value.0 == JsString(Get(data.fields, "name").value)
    ensures r.Some? && (!data.JObj? || Get(data.fields, "name").None?) ==> r.value.0 == "undefined"
    ensures r.Some? && data.JObj? && Get(data.fields, "value").Some? ==> r.value.1 == Get(data.fields, "value").value
    ensures r.Some? && (!data.JObj? || Get(data.fields, "value").None?) ==> r.value.1 == JUndefined
  {
    if data.JNull? || data.JUndefined? then None
    else Some((JsString(Property(data, "name")), Property(data, "value")))
  }

  // ---------------------------------------------------------------------
  // Outgoing frames

  const LayoutCleanFrame := Sessions.FrameOf("LayoutClean", "{}")
  const LayoutUpdatedFrame := Sessions.FrameOf("LayoutUpdated", "{}")
  const VarSetFrame := Sessions.FrameOf("VarSet", "{}")

  function ButtonClickPayload(id: string): string
  {
    "{\"button_id\": \"" + id + "\"}"
  }

  function InputUpdatedPayload(name: string, value: string): string
  {
    "{\"name\": \"" + name + "\", \"value\": \"" + value + "\"}"
  }

  class Page {
    /** `app.__html`: None while undefined. */
    var template: Option<string>
    /** `app.__vars`: None while undefined. */
    var vars: Option<Fields>
    /** `app.innerHTML`. */
    var shown: string
    /** Every frame passed to `socket.send`, in order. */
    var sent: seq<string>

    constructor (initial: string)
      ensures template.None? && vars.None? && shown == initial && sent == []
    {
      template, vars, shown, sent := None, None, initial, [];
    }

    /** What is shown is the stored template with every stored variable substituted. */
    predicate Consistent()
      reads this
    {
      template.Some? && vars.Some? && shown == Substitute(template.value, vars.value)
    }

    /** `clear_layout`: the markup is emptied and LayoutClean is sent; the stored template and variables stay. */
    method ClearLayout()
      modifies this
      ensures shown == "" && sent == old(sent) + [LayoutCleanFrame]
      ensures template == old(template) && vars == old(vars)
    {
      shown := "";
      sent := sent + [LayoutCleanFrame];
    }

    /**
     * `update_layout`: the payload's template and variables are stored, the
     * template is rendered with each variable's first placeholder
     * substituted, and LayoutUpdated is sent. The markup is cleared first,
     * so a payload refused with TypeError (`null`, or one without a string
     * `html` and an object `vars`) leaves the page empty and sends nothing.
     */
    method UpdateLayout(data: Js) returns (outcome: Outcome)
      modifies this
      ensures outcome.Handled? <==> LayoutPayload(data).Some?
      ensures outcome.Handled? ==>
                && template == Some(LayoutPayload(data).value.0) && vars == Some(LayoutPayload(data).value.1)
                && shown == Substitute(template.value, vars.value)
                && sent == old(sent) + [LayoutUpdatedFrame]
      ensures outcome.Handled? ==> Consistent()
      ensures !outcome.Handled? ==> outcome == Threw(TypeError) && shown == "" && sent == old(sent)
      ensures data.JNull? || data.JUndefined? ==> template == old(template) && vars == old(vars)
    {
      shown := "";
      match LayoutPayload(data)
      case None =>
        outcome := Threw(TypeError);
      case Some((html, fields)) =>
        template := Some(html);
        vars := Some(fields);
        var rendered := Render(html, fields);
        shown := rendered;
        sent := sent + [LayoutUpdatedFrame];
        outcome := Handled;
    }

    /**
     * `set_var` as written: the variable is stored, then the markup becomes
     * the stored template with only that variable's first placeholder
     * substituted. TypeError when the payload is `null` or `undefined` or
     * no variables are stored yet (nothing changed), or when no template is
     * (the variable is stored by then). A payload without a `name` or a
     * `value` stores and shows `undefined` for it.
     */
    method SetVarAsWritten(data: Js) returns (outcome: Outcome)
      modifies this
      ensures VarPayload(data).None? || old(vars).None? ==> outcome == Threw(TypeError) && unchanged(this)
      ensures VarPayload(data).Some? && old(vars).Some? ==>
                vars == Some(Assign(old(vars).value, VarPayload(data).value.0, VarPayload(data).value.1))
                && template == old(template)
      ensures outcome.Handled? <==> VarPayload(data).Some? && old(vars).Some? && old(template).Some?
      ensures outcome.Handled? ==>
                shown == Text.ReplaceFirst(template.value, Placeholder(VarPayload(data).value.0), JsString(VarPayload(data).value.1))
                && sent == old(sent) + [VarSetFrame]
      ensures !outcome.Handled? ==> outcome == Threw(TypeError) && shown == old(shown) && sent == old(sent)
    {
      match VarPayload(data)
      case None =>
        outcome := Threw(TypeError);
      case Some((key, value)) =>
        if vars.None? {
          return Threw(TypeError);
        }
        vars := Some(Assign(vars.value, key, value));
        if template.None? {
          return Threw(TypeError);
        }
        shown := Text.ReplaceFirst(template.value, Placeholder(key), JsString(value));
        sent := sent + [VarSetFrame];
        outcome := Handled;
    }

    /**
     * `set_var` as evidently intended: as written, except that the markup is
     * re-rendered from the stored template with every stored variable, so
     * the page stays consistent.
     */
    method SetVar(data: Js) returns (outcome: Outcome)
      modifies this
      ensures VarPayload(data).None? || old(vars).None? ==> outcome == Threw(TypeError) && unchanged(this)
      ensures VarPayload(data).Some? && old(vars).Some? ==>
                vars == Some(Assign(old(vars).value, VarPayload(data).value.0, VarPayload(data).value.1))
                && template == old(template)
      ensures outcome.Handled? <==> VarPayload(data).Some? && old(vars).Some? && old(template).Some?
      ensures outcome.Handled? ==> Consistent() && sent == old(sent) + [VarSetFrame]
      ensures !outcome.Handled? ==> outcome == Threw(TypeError) && shown == old(shown) && sent == old(sent)
    {
      match VarPayload(data)
      case None =>
        outcome := Threw(TypeError);
      case Some((key, value)) =>
        if vars.None? {
          return Threw(TypeError);
        }
        vars := Some(Assign(vars.value, key, value));
        if template.None? {
          return Threw(TypeError);
        }
        var rendered := Render(template.value, vars.value);
        shown := rendered;
        sent := sent + [VarSetFrame];
        outcome := Handled;
    }

    /**
     * `onmessage`: the frame is split, its payload parsed (a SyntaxError
     * before any dispatch when it is not JSON, as for a frame without a
     * space), then ClearLayout, UpdateLayout and SetVar (`set_var` as
     * written) are acted on and any other name is a dispatching error that
     * changes nothing.
     */
    method OnMessage(frame: string, parse: string -> Option<Js>) returns (outcome: Outcome)
      modifies this
      ensures outcome == Threw(JsSyntaxError) <==> ParseJson(parse, SplitFrame(frame).1).None?
      ensures ' ' !in frame ==> outcome == Threw(JsSyntaxError)
      ensures outcome == DispatchError <==>
                ParseJson(parse, SplitFrame(frame).1).Some?
                && SplitFrame(frame).0 !in {ClearLayoutName, UpdateLayoutName, SetVarName}
      ensures outcome == Threw(JsSyntaxError) || outcome == DispatchError ==> unchanged(this)
      ensures outcome.Handled? && SplitFrame(frame).0 == ClearLayoutName ==>
                shown == "" && sent == old(sent) + [LayoutCleanFrame]
      ensures outcome.Handled? && SplitFrame(frame).0 == UpdateLayoutName ==> Consistent()
      ensures outcome.Handled? && SplitFrame(frame).0 == SetVarName ==>
                && VarPayload(ParseJson(parse, SplitFrame(frame).1).value).Some?
                && old(vars).Some? && old(template).Some?
                && var v := VarPayload(ParseJson(parse, SplitFrame(frame).1).value).value;
                && vars == Some(Assign(old(vars).value, v.0, v.1))
                && template == old(template)
                && shown == Text.ReplaceFirst(template.value, Placeholder(v.0), JsString(v.1))
                && sent == old(sent) + [VarSetFrame]
      ensures ParseJson(parse, SplitFrame(frame).1).Some? && SplitFrame(frame).0 == ClearLayoutName ==>
                && outcome == Handled
                && shown == "" && sent == old(sent) + [LayoutCleanFrame]
                && template == old(template) && vars == old(vars)
      ensures ParseJson(parse, SplitFrame(frame).1).Some? && SplitFrame(frame).0 == UpdateLayoutName ==>
                var d := ParseJson(parse, SplitFrame(frame).1).value;
                && (outcome.Handled? <==> LayoutPayload(d).Some?)
                && (outcome.Handled? ==>
                      && template == Some(LayoutPayload(d).value.0) && vars == Some(LayoutPayload(d).value.1)
                      && shown == Substitute(template.value, vars.value)
                      && sent == old(sent) + [LayoutUpdatedFrame])
                && (!outcome.Handled? ==> outcome == Threw(TypeError) && shown == "" && sent == old(sent))
                && (d.JNull? || d.JUndefined? ==> template == old(template) && vars == old(vars))
      ensures ParseJson(parse, SplitFrame(frame).1).Some? && SplitFrame(frame).0 == SetVarName ==>
                var v := VarPayload(ParseJson(parse, SplitFrame(frame).1).value);
                && (outcome.Handled? <==> v.Some? && old(vars).Some? && old(template).Some?)
                && (v.None? || old(vars).None? ==> unchanged(this))
                && (v.Some? && old(vars).Some? ==>
                      vars == Some(Assign(old(vars).value, v.value.0, v.value.1)) && template == old(template))
                && (!outcome.Handled? ==> outcome == Threw(TypeError) && shown == old(shown) && sent == old(sent))
    {
      var (name, text) := SplitFrame(frame);
      var data := ParseJson(parse, text);
      if data.None? {
        return Threw(JsSyntaxError);
      }
      if name == ClearLayoutName {
        ClearLayout();
        outcome := Handled;
      } else if name == UpdateLayoutName {
        outcome := UpdateLayout(data.value);
      } else if name == SetVarName {
        outcome := SetVarAsWritten(data.value);
      } else {
        outcome := DispatchError;
      }
    }

    /** A click on a rendered button sends ButtonClick with the button's id. */
    method ButtonClicked(id: string)
      modifies this
      ensures sent == old(sent) + [Sessions.FrameOf("ButtonClick", ButtonClickPayload(id))]
      ensures template == old(template) && vars == old(vars) && shown == old(shown)
    {
      sent := sent + [Sessions.FrameOf("ButtonClick", ButtonClickPayload(id))];
    }

    /** A change of a rendered input sends InputUpdated with its name and value. */
    method InputChanged(name: string, value: string)
      modifies this
      ensures sent == old(sent) + [Sessions.FrameOf("InputUpdated", InputUpdatedPayload(name, value))]
      ensures template == old(template) && vars == old(vars) && shown == old(shown)
    {
      sent := sent + [Sessions.FrameOf("InputUpdated", InputUpdatedPayload(name, value))];
    }
  }

  // ---------------------------------------------------------------------
  // Properties of rendering

  /** Only the first placeholder of a variable is substituted; a second one stays as it was. */
  lemma {:induction false} OnlyFirstPlaceholder(key: string, value: Js)
    ensures Substitute(Placeholder(key) + Placeholder(key), [(key, value)])
            == JsString(value) + Placeholder(key)
  {
    var p := Placeholder(key);
    var s := p + p;
    assert [(key, value)][..0] == [];
    assert s[0..|p|] == p;
    assert Text.OccursAt(s, p, 0);
    assert s[|p|..] == p;
  }

  /** Variables whose placeholders do not occur leave the template as it is. */
  lemma {:induction false} SubstituteAbsent(html: string, vars: Fields)
    requires forall k, j :: 0 <= k < |vars| && 0 <= j <= |html| ==> !Text.OccursAt(html, Placeholder(vars[k].0), j)
    ensures Substitute(html, vars) == html
  {
    if |vars| > 0 {
      var n := |vars| - 1;
      SubstituteAbsent(html, vars[..n]);
      assert forall j :: 0 <= j <= |html| ==> !Text.OccursAt(html, Placeholder(vars[n].0), j);
    }
  }

  /** The first `{{ key }}` in `s` is at `|pre|` when `pre` holds no `{`. */
  lemma {:induction false} FirstOccurrenceAfter(pre: string, key: string, post: string)
    requires '{' !in pre
    ensures Text.OccursAt(pre + Placeholder(key) + post, Placeholder(key), |pre|)
    ensures forall j :: 0 <= j < |pre| ==> !Text.OccursAt(pre + Placeholder(key) + post, Placeholder(key), j)
  {
    var p := Placeholder(key);
    var s := pre + p + post;
    assert s[|pre|..|pre| + |p|] == p;
    assert p[0] == '{';
    forall j | 0 <= j < |pre|
      ensures !Text.OccursAt(s, p, j)
    {
      assert s[j] == pre[j] != p[0];
    }
  }

  /** Replacing the first `{{ key }}` when it comes right after `pre`, which holds no `{`. */
  lemma {:induction false} ReplaceAfter(pre: string, key: string, post: string, value: string)
    requires '{' !in pre
    ensures Text.ReplaceFirst(pre + Placeholder(key) + post, Placeholder(key), value) == pre + value + post
  {
    FirstOccurrenceAfter(pre, key, post);
    var s := pre + Placeholder(key) + post;
    assert s[..|pre|] == pre;
    assert s[|pre| + |Placeholder(key)|..] == post;
  }

  /** Substituting two variables: the first one's placeholder, then the second one's. */
  lemma {:induction false} SubstituteTwo(html: string, v: (string, Js), w: (string, Js))
    ensures Substitute(html, [v, w]) ==
            Text.ReplaceFirst(Text.ReplaceFirst(html, Placeholder(v.0), JsString(v.1)), Placeholder(w.0), JsString(w.1))
  {
    var vs := [v, w];
    assert vs[..1] == [v];
    assert [v][..0] == [];
    assert Substitute(html, []) == html;
    assert Substitute(html, [v]) == Text.ReplaceFirst(html, Placeholder(v.0), JsString(v.1));
  }

  /** Setting the first of two stored variables replaces its value in place. */
  lemma {:induction false} AssignFirstOfTwo(a: string, b: string, x: Js, y: Js, z: Js)
    requires a != b
    ensures Assign([(a, x), (b, y)], a, z) == [(a, z), (b, y)]
  {
  }

  /** The placeholder text starts with `{`, so it differs from any text that does not. */
  lemma {:induction false} PlaceholderDiffers(key: string, z: string, y: string)
    requires '{' !in y
    ensures z + Placeholder(key) != z + y
  {
    var p := Placeholder(key);
    assert p[0] == '{';
    if |y| == |p| {
      assert (z + p)[|z|] == p[0];
      assert (z + y)[|z|] == y[0];
    }
  }

  /**
   * As written, `set_var` loses the other variables: with template
   * `{{ a }}{{ b }}` and `a`, `b` stored as `x`, `y`, setting `a` to `z`
   * shows `z{{ b }}`, while the consistent rendering is `zy`.
   */
  lemma {:induction false} SetVarAsWrittenLosesOthers(a: string, b: string, x: string, y: string, z: string)
    requires a != b && '{' !in y && '{' !in z
    ensures Text.ReplaceFirst(Placeholder(a) + Placeholder(b), Placeholder(a), z) == z + Placeholder(b)
    ensures Substitute(Placeholder(a) + Placeholder(b), Assign([(a, JStr(x)), (b, JStr(y))], a, JStr(z))) == z + y
    ensures z + Placeholder(b) != z + y
  {
    AsWrittenTwo(a, b, z);
    ConsistentTwo(a, b, x, y, z);
    PlaceholderDiffers(b, z, y);
  }

  /** Re-rendering the raw two-placeholder template for `a` fills `a` only. */
  lemma {:induction false} AsWrittenTwo(a: string, b: string, z: string)
    ensures Text.ReplaceFirst(Placeholder(a) + Placeholder(b), Placeholder(a), z) == z + Placeholder(b)
  {
    var pa, pb := Placeholder(a), Placeholder(b);
    var s := pa + pb;
    assert s[0..|pa|] == pa;
    assert Text.FindFrom(s, pa, 0) == Some(0);
    assert s[|pa|..] == pb;
  }

  /** Rendering the two-placeholder template from the updated variables fills both. */
  lemma {:induction false} ConsistentTwo(a: string, b: string, x: string, y: string, z: string)
    requires a != b && '{' !in y && '{' !in z
    ensures Substitute(Placeholder(a) + Placeholder(b), Assign([(a, JStr(x)), (b, JStr(y))], a, JStr(z))) == z + y
  {
    var pa, pb := Placeholder(a), Placeholder(b);
    AssignFirstOfTwo(a, b, JStr(x), JStr(y), JStr(z));
    SubstituteTwo(pa + pb, (a, JStr(z)), (b, JStr(y)));
    AsWrittenTwo(a, b, z);
    var once := Text.ReplaceFirst(pa + pb, pa, z);
    assert once == z + pb;
    ReplaceAfter(z, b, [], y);
    assert z + pb + [] == z + pb && z + y + [] == z + y;
    assert Text.ReplaceFirst(once, pb, y) == z + y;
  }

  // ---------------------------------------------------------------------
  // The frames the client sends, as the server reads them

  /** No two message classes of the app share a name. */
  lemma {:induction false} AppNamesDistinct()
    ensures forall i, j :: 0 <= i < j < |Apps.AppMessages| ==> Apps.AppMessages[i].name != Apps.AppMessages[j].name
  {
  }

  /**
   * The server resolves the frame of an app event class to that event,
   * when the payload decodes to the event's fields.
   */
  lemma {:induction false} AppEventFrameParses(k: nat, loads: string -> Option<Value>, event: Messages.Message, payload: string)
    requires k < |Apps.AppMessages| && Apps.AppMessages[k].base == Messages.EventBase
    requires ' ' !in Apps.AppMessages[k].name
    requires event.cls == Apps.AppMessages[k] && Messages.WellFormed(event)
    requires loads(payload) == Some(Dict(Messages.DataOf(event)))
    ensures Sessions.ParseEvent(Apps.AppMessages, loads, Sessions.FrameOf(Apps.AppMessages[k].name, payload)) == Success(event)
  {
    AppNamesDistinct();
    var table := Apps.AppMessages;
    forall c | c in table && c.base == Messages.EventBase && c.name == table[k].name
      ensures c == table[k]
    {
      var i :| 0 <= i < |table| && table[i] == c;
      assert i == k;
    }
    Sessions.ParseEventOfFrame(table, loads, event, payload);
  }

  /** A ButtonClick frame whose payload decodes as written parses on the server to ButtonClick with that id. */
  lemma {:induction false} ButtonClickFrameParses(id: string, loads: string -> Option<Value>)
    requires loads(ButtonClickPayload(id)) == Some(Dict(map["button_id" := Str(id)]))
    ensures Sessions.ParseEvent(Apps.AppMessages, loads, Sessions.FrameOf("ButtonClick", ButtonClickPayload(id)))
            == Success(Messages.Message(Apps.ButtonClickClass, [Str(id)]))
  {
    var event := Messages.Message(Apps.ButtonClickClass, [Str(id)]);
    assert Apps.AppMessages[4] == Apps.ButtonClickClass;
    assert Messages.DataOf(event) == map["button_id" := Str(id)];
    AppEventFrameParses(4, loads, event, ButtonClickPayload(id));
  }

  /** An InputUpdated frame whose payload decodes as written parses on the server to InputUpdated with that name and value. */
  lemma {:induction false} InputUpdatedFrameParses(name: string, value: string, loads: string -> Option<Value>)
    requires loads(InputUpdatedPayload(name, value)) == Some(Dict(map["name" := Str(name), "value" := Str(value)]))
    ensures Sessions.ParseEvent(Apps.AppMessages, loads, Sessions.FrameOf("InputUpdated", InputUpdatedPayload(name, value)))
            == Success(Messages.Message(Apps.InputUpdatedClass, [Str(name), Str(value)]))
  {
    var event := Messages.Message(Apps.InputUpdatedClass, [Str(name), Str(value)]);
    assert Apps.AppMessages[5] == Apps.InputUpdatedClass;
    assert Messages.DataOf(event) == map["name" := Str(name), "value" := Str(value)];
    AppEventFrameParses(5, loads, event, InputUpdatedPayload(name, value));
  }

  /** The layout acknowledgement parses as a LayoutUpdated event when `{}` decodes to the empty dict. */
  lemma {:induction false} LayoutUpdatedFrameParses(loads: string -> Option<Value>)
    requires loads("{}") == Some(Dict(map[]))
    ensures Sessions.ParseEvent(Apps.AppMessages, loads, LayoutUpdatedFrame) == Success(Messages.Message(Apps.LayoutUpdatedClass, []))
  {
    var event := Messages.Message(Apps.LayoutUpdatedClass, []);
    assert Apps.AppMessages[1] == Apps.LayoutUpdatedClass;
    assert Messages.DataOf(event) == map[];
    AppEventFrameParses(1, loads, event, "{}");
  }

  /** The variable acknowledgement parses as a VarSet event when `{}` decodes to the empty dict. */
  lemma {:induction false} VarSetFrameParses(loads: string -> Option<Value>)
    requires loads("{}") == Some(Dict(map[]))
    ensures Sessions.ParseEvent(Apps.AppMessages, loads, VarSetFrame) == Success(Messages.Message(Apps.VarSetClass, []))
  {
    var event := Messages.Message(Apps.VarSetClass, []);
    assert Apps.AppMessages[3] == Apps.VarSetClass;
    assert Messages.DataOf(event) == map[];
    AppEventFrameParses(3, loads, event, "{}");
  }

  /** LayoutClean names no event class of the app, so the server fails to parse it with KeyError. */
  lemma {:induction false} LayoutCleanUnknown(loads: string -> Option<Value>)
    ensures Sessions.ParseEvent(Apps.AppMessages, loads, LayoutCleanFrame) == Failure(KeyError("LayoutClean"))
  {
    Sessions.ParseEventUnknownName(Apps.AppMessages, loads, "LayoutClean", "{}");
  }
}
