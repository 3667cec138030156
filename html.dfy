/**
 * The HTML tag helpers (html.py). A tag is a `str.format` template with a
 * `{params}` slot and either an `{items}` slot (container tags: `table`,
 * `tr`) or an `{inner}` slot (text tags: `button`, `th`, `td`). Keyword
 * arguments become the params text.
 *
 * `_html_params` as written emits the literal text `{k}={v} ` once per
 * keyword argument, because its string has no `f` prefix;
 * `HtmlParamsAsWritten` models that and `HtmlParams` the evidently
 * intended `name=value ` form, which the tag helpers use.
 */
module Html {
  import opened Common
  import Text

  /** One part of a format template: literal text or a named replacement field. */
  datatype Piece = Lit(text: string) | Field(name: string)

  type Tag = seq<Piece>

  /** The keyword arguments, in call order: each name with its value as `str` renders it. */
  type Params = seq<(string, string)>

  const BUTTON: Tag := [Lit("<button "), Field("params"), Lit(">"), Field("inner"), Lit("</button>")]
  const TABLE: Tag := [Lit("<table "), Field("params"), Lit(">"), Field("items"), Lit("</table>")]
  const TR: Tag := [Lit("<tr "), Field("params"), Lit(">"), Field("items"), Lit("</tr>")]
  const TH: Tag := [Lit("<th "), Field("params"), Lit(">"), Field("inner"), Lit("</th>")]
  const TD: Tag := [Lit("<td "), Field("params"), Lit(">"), Field("inner"), Lit("</td>")]

  /** A field of the template that the arguments do not name. */
  predicate Missing(tag: Tag, args: map<string, string>, k: int)
  {
    0 <= k < |tag| && tag[k].Field? && tag[k].name !in args
  }

  /**
   * `tag.format(**args)`: the literal text and the named arguments in
   * template order, each argument inserted verbatim; KeyError naming the
   * first field the arguments lack.
   */
  function Format(tag: Tag, args: map<string, string>): (r: Result<string, Exception>)
    ensures r.Failure? <==> exists k :: Missing(tag, args, k)
    ensures r.Failure? ==> exists k :: Missing(tag, args, k) && r.error == KeyError(tag[k].name)
                                        && forall j :: 0 <= j < k ==> !Missing(tag, args, j)
  {
    if |tag| == 0 then Success("")
    else if tag[0].Field? && tag[0].name !in args then
      assert Missing(tag, args, 0);
      Failure(KeyError(tag[0].name))
    else
      var text := if tag[0].Lit? then tag[0].text else args[tag[0].name];
      match Format(tag[1..], args)
      case Failure(e) =>
        FirstMissingShift(tag, args, e);
        Failure(e)
      case Success(rest) =>
        assert forall k :: Missing(tag, args, k) ==> k > 0 && Missing(tag[1..], args, k - 1);
        Success(text + rest)
  }

  /** A missing field found after the first piece, which is not missing, is the first missing one overall. */
  lemma {:induction false} FirstMissingShift(tag: Tag, args: map<string, string>, e: Exception)
    requires |tag| > 0 && !Missing(tag, args, 0)
    requires exists k :: Missing(tag[1..], args, k) && e == KeyError(tag[1..][k].name)
                         && forall j :: 0 <= j < k ==> !Missing(tag[1..], args, j)
    ensures exists k :: Missing(tag, args, k) && e == KeyError(tag[k].name)
                        && forall j :: 0 <= j < k ==> !Missing(tag, args, j)
  {
    var k :| Missing(tag[1..], args, k) && e == KeyError(tag[1..][k].name)
             && forall j :: 0 <= j < k ==> !Missing(tag[1..], args, j);
    assert Missing(tag, args, k + 1);
    forall j | 0 <= j < k + 1
      ensures !Missing(tag, args, j)
    {
      if j > 0 {
        assert !Missing(tag[1..], args, j - 1);
      }
    }
  }

  /** `_html_params` as written: the literal `{k}={v} ` once per keyword argument. */
  function HtmlParamsAsWritten(params: Params): string
  {
    Text.Concat(seq(|params|, k requires 0 <= k < |params| => "{k}={v} "))
  }

  /** One keyword argument as `name=value `. */
  function ParamText(p: (string, string)): string
  {
    p.0 + "=" + p.1 + " "
  }

  /** `_html_params` as evidently intended: `name=value ` per keyword argument, in order. */
  function HtmlParams(params: Params): string
  {
    Text.Concat(seq(|params|, k requires 0 <= k < |params| => ParamText(params[k])))
  }

  /** The body of `container_tag` once the params text is rendered. */
  function FillContainer(tag: Tag, items: seq<string>, paramsText: string): Result<string, Exception>
  {
    Format(tag, map["items" := Text.Concat(items), "params" := paramsText])
  }

  /** The body of `text_tag` once the params text is rendered. */
  function FillText(tag: Tag, inner: string, paramsText: string): Result<string, Exception>
  {
    Format(tag, map["inner" := inner, "params" := paramsText])
  }

  /** `container_tag`: the items joined in order fill `{items}`, the params fill `{params}`. */
  function ContainerTag(tag: Tag, items: seq<string>, params: Params): Result<string, Exception>
  {
    FillContainer(tag, items, HtmlParams(params))
  }

  /** `text_tag`: `inner` fills `{inner}` verbatim, the params fill `{params}`. */
  function TextTag(tag: Tag, inner: string, params: Params): Result<string, Exception>
  {
    FillText(tag, inner, HtmlParams(params))
  }

  /** A template with a params slot and one content slot between literal text. */
  lemma {:induction false} FormatTwoSlots(before: string, mid: string, after: string, slot: string, args: map<string, string>)
    requires "params" in args && slot in args
    ensures Format([Lit(before), Field("params"), Lit(mid), Field(slot), Lit(after)], args)
            == Success(before + args["params"] + mid + args[slot] + after)
  {
    var tag := [Lit(before), Field("params"), Lit(mid), Field(slot), Lit(after)];
    assert Format(tag[4..], args) == Success(after) by {
      assert tag[4..][1..] == [];
      assert Format(tag[4..][1..], args) == Success("");
      assert after + "" == after;
    }
    assert tag[3..][1..] == tag[4..];
    assert tag[2..][1..] == tag[3..];
    assert tag[1..][1..] == tag[2..];
    assert Format(tag[3..], args) == Success(args[slot] + after);
    assert Format(tag[2..], args) == Success(mid + (args[slot] + after));
    assert Format(tag[1..], args) == Success(args["params"] + (mid + (args[slot] + after)));
    assert before + (args["params"] + (mid + (args[slot] + after))) == before + args["params"] + mid + args[slot] + after;
  }

  /** `button`: the params and the inner text inside one button element. */
  function Button(inner: string, params: Params): (r: string)
    ensures r == "<button " + HtmlParams(params) + ">" + inner + "</button>"
  {
    FormatTwoSlots("<button ", ">", "</button>", "inner", map["inner" := inner, "params" := HtmlParams(params)]);
    TextTag(BUTTON, inner, params).value
  }

  /** `th`: the params and the inner text inside one header cell. */
  function Th(inner: string, params: Params): (r: string)
    ensures r == "<th " + HtmlParams(params) + ">" + inner + "</th>"
  {
    FormatTwoSlots("<th ", ">", "</th>", "inner", map["inner" := inner, "params" := HtmlParams(params)]);
    TextTag(TH, inner, params).value
  }

  /** `td`: the params and the inner text inside one data cell. */
  function Td(inner: string, params: Params): (r: string)
    ensures r == "<td " + HtmlParams(params) + ">" + inner + "</td>"
  {
    FormatTwoSlots("<td ", ">", "</td>", "inner", map["inner" := inner, "params" := HtmlParams(params)]);
    TextTag(TD, inner, params).value
  }

  /** `table`: the params and the in-order concatenation of the items inside one table. */
  function Table(items: seq<string>, params: Params): (r: string)
    ensures r == "<table " + HtmlParams(params) + ">" + Text.Concat(items) + "</table>"
  {
    FormatTwoSlots("<table ", ">", "</table>", "items", map["items" := Text.Concat(items), "params" := HtmlParams(params)]);
    ContainerTag(TABLE, items, params).value
  }

  /** `tr`: the params and the in-order concatenation of the items inside one row. */
  function Tr(items: seq<string>, params: Params): (r: string)
    ensures r == "<tr " + HtmlParams(params) + ">" + Text.Concat(items) + "</tr>"
  {
    FormatTwoSlots("<tr ", ">", "</tr>", "items", map["items" := Text.Concat(items), "params" := HtmlParams(params)]);
    ContainerTag(TR, items, params).value
  }

  /** The two families are not interchangeable: a text tag over a container template lacks `items`. */
  lemma {:induction false} TextTagOverContainer(inner: string, params: Params)
    ensures TextTag(TABLE, inner, params) == Failure(KeyError("items"))
    ensures TextTag(TR, inner, params) == Failure(KeyError("items"))
  {
    assert Missing(TABLE, map["inner" := inner, "params" := HtmlParams(params)], 3);
    assert Missing(TR, map["inner" := inner, "params" := HtmlParams(params)], 3);
  }

  /** ... and a container tag over a text template lacks `inner`. */
  lemma {:induction false} ContainerTagOverText(items: seq<string>, params: Params)
    ensures ContainerTag(BUTTON, items, params) == Failure(KeyError("inner"))
  {
    assert Missing(BUTTON, map["items" := Text.Concat(items), "params" := HtmlParams(params)], 3);
  }

  /** Without keyword arguments the params slot is empty: `button('x')` is `<button >x</button>`. */
  lemma {:induction false} ButtonWithoutParams()
    ensures Button("x", []) == "<button >x</button>"
  {
    assert HtmlParams([]) == "";
  }

  // ---------------------------------------------------------------------
  // Reading the params back

  /** The `name=value ` entries making up all of `s`. */
  function DecodeParams(s: string): Option<Params>
    decreases |s|
  {
    if s == "" then Some([])
    else
      match Text.SplitFirst(s, ' ')
      case None => None
      case Some((entry, rest)) =>
        match Text.SplitFirst(entry, '=')
        case None => None
        case Some((name, value)) =>
          match DecodeParams(rest)
          case None => None
          case Some(ps) => Some([(name, value)] + ps)
  }

  /** Names without `=` or spaces and values without spaces: what a decoder can split apart. */
  predicate PlainParams(params: Params)
  {
    forall k :: 0 <= k < |params| ==> '=' !in params[k].0 && ' ' !in params[k].0 && ' ' !in params[k].1
  }

  lemma {:induction false} ParamTextDecodes(p: (string, string), rest: string)
    requires '=' !in p.0 && ' ' !in p.0 && ' ' !in p.1
    ensures Text.SplitFirst(ParamText(p) + rest, ' ') == Some((p.0 + "=" + p.1, rest))
    ensures Text.SplitFirst(p.0 + "=" + p.1, '=') == Some((p.0, p.1))
  {
    var entry := p.0 + "=" + p.1;
    assert ' ' !in entry by {
      forall i | 0 <= i < |entry| ensures entry[i] != ' ' {
        if i < |p.0| { assert entry[i] == p.0[i]; }
        else if i > |p.0| { assert entry[i] == p.1[i - |p.0| - 1]; }
      }
    }
    assert ParamText(p) + rest == entry + [' '] + rest;
    Text.SplitFirstOfConcat(entry, ' ', rest);
    assert entry == p.0 + ['='] + p.1;
    Text.SplitFirstOfConcat(p.0, '=', p.1);
  }

  lemma {:induction false} HtmlParamsFront(params: Params)
    requires |params| > 0
    ensures HtmlParams(params) == ParamText(params[0]) + HtmlParams(params[1..])
  {
    var texts := seq(|params|, k requires 0 <= k < |params| => ParamText(params[k]));
    Text.ConcatFront(texts);
    assert texts[1..] == seq(|params[1..]|, k requires 0 <= k < |params[1..]| => ParamText(params[1..][k]));
  }

  /** One entry at the front is decoded, and decoding goes on after it. */
  lemma {:induction false} DecodeParamsStep(p: (string, string), rest: string)
    requires Text.SplitFirst(ParamText(p) + rest, ' ') == Some((p.0 + "=" + p.1, rest))
    requires Text.SplitFirst(p.0 + "=" + p.1, '=') == Some((p.0, p.1))
    ensures DecodeParams(ParamText(p) + rest) ==
              if DecodeParams(rest).Some? then Some([p] + DecodeParams(rest).value) else None
  {
    assert ParamText(p) + rest != "" by {
      assert |ParamText(p)| > 0;
    }
  }

  lemma {:induction false} PlainParamsTail(params: Params)
    requires |params| > 0 && PlainParams(params)
    ensures PlainParams(params[1..])
  {
    forall k | 0 <= k < |params[1..]|
      ensures '=' !in params[1..][k].0 && ' ' !in params[1..][k].0 && ' ' !in params[1..][k].1
    {
      assert params[1..][k] == params[k + 1];
    }
  }

  /** With the intended `_html_params`, every keyword argument can be read back, in order. */
  lemma {:induction false} DecodeParamsRoundTrip(params: Params)
    requires PlainParams(params)
    ensures DecodeParams(HtmlParams(params)) == Some(params)
  {
    if |params| == 0 {
      assert HtmlParams(params) == "";
    } else {
      var rest := HtmlParams(params[1..]);
      HtmlParamsFront(params);
      ParamTextDecodes(params[0], rest);
      DecodeParamsStep(params[0], rest);
      PlainParamsTail(params);
      DecodeParamsRoundTrip(params[1..]);
      assert [params[0]] + params[1..] == params;
    }
  }

  /** As written, the params text depends only on how many keyword arguments there are. */
  lemma {:induction false} ParamsIgnoredAsWritten(ps: Params, qs: Params)
    requires |ps| == |qs|
    ensures HtmlParamsAsWritten(ps) == HtmlParamsAsWritten(qs)
  {
    assert seq(|ps|, k requires 0 <= k < |ps| => "{k}={v} ") == seq(|qs|, k requires 0 <= k < |qs| => "{k}={v} ");
  }

  /** As written, one keyword argument renders as the placeholder text, whatever its name and value. */
  lemma {:induction false} AsWrittenOne(p: (string, string))
    ensures HtmlParamsAsWritten([p]) == "{k}={v} "
  {
    var lit := seq(1, k requires 0 <= k < 1 => "{k}={v} ");
    assert lit == ["{k}={v} "];
    Text.ConcatSingle("{k}={v} ");
  }

  /**
   * As written, `button(inner, name=value)` renders `<button {k}={v} >inner</button>`:
   * the argument is lost.
   */
  lemma {:induction false} ButtonAsWritten(inner: string, name: string, value: string)
    ensures FillText(BUTTON, inner, HtmlParamsAsWritten([(name, value)])) == Success("<button " + "{k}={v} " + ">" + inner + "</button>")
  {
    AsWrittenOne((name, value));
    FormatTwoSlots("<button ", ">", "</button>", "inner", map["inner" := inner, "params" := "{k}={v} "]);
  }

  /** The intended rendering of the same call keeps the argument as `name=value `. */
  lemma {:induction false} ButtonIntended(inner: string, name: string, value: string)
    ensures Button(inner, [(name, value)]) == "<button " + (name + "=" + value + " ") + ">" + inner + "</button>"
  {
    HtmlParamsFront([(name, value)]);
    assert [(name, value)][1..] == [];
    assert HtmlParams([]) == "";
  }

  lemma {:induction false} DecodeOne(name: string, value: string)
    requires PlainParams([(name, value)])
    ensures DecodeParams(name + "=" + value + " ") == Some([(name, value)])
  {
    DecodeParamsRoundTrip([(name, value)]);
    HtmlParamsFront([(name, value)]);
    assert [(name, value)][1..] == [];
    assert HtmlParams([]) == "";
  }

  /**
   * As written, reading the params back gives the placeholders instead of
   * the argument, so the round trip fails for every other argument.
   */
  lemma {:induction false} DecodeAsWritten(p: (string, string))
    ensures DecodeParams(HtmlParamsAsWritten([p])) == Some([("{k}", "{v}")])
  {
    AsWrittenOne(p);
    PlaceholdersPlain();
    DecodeOne("{k}", "{v}");
    assert "{k}" + "=" + "{v}" + " " == "{k}={v} ";
  }

  /** The placeholder texts contain neither `=` nor a space. */
  lemma {:induction false} PlaceholdersPlain()
    ensures PlainParams([("{k}", "{v}")])
  {
    var k, v := "{k}", "{v}";
    assert forall i :: 0 <= i < |k| ==> k[i] != '=' && k[i] != ' ';
    assert forall i :: 0 <= i < |v| ==> v[i] != ' ';
  }
}
