/** The fixed result template and its execution against a string map
    (markets/widget.go:116-121, 138-140, 143-145). The template is a constant, so it
    is held here already split into its literal text and its `{{.field}}` actions,
    and executing it is direct substitution. */
module Template {

  /** A piece of a template: literal text, or a `{{.name}}` action that prints the
      map entry `name`. */
  datatype Segment = Text(text: string) | Field(name: string)

  /** What executing a `{{.name}}` action prints when the map has no entry `name`:
      the template library's default for a missing map key, which is not an error. */
  const NoValue: string := "<no value>"

  /** The template text a segment is written as. */
  function SegmentSource(s: Segment): string
  {
    match s
    case Text(text) => text
    case Field(name) => "{{." + name + "}}"
  }

  /** The template text of a whole template. */
  function Source(t: seq<Segment>): string
  {
    if t == [] then [] else SegmentSource(t[0]) + Source(t[1..])
  }

  /** The entry `name` of the map, or the missing-key placeholder. */
  function Lookup(ctx: map<string, string>, name: string): string
  {
    if name in ctx then ctx[name] else NoValue
  }

  /** What one segment prints. */
  function Expand(s: Segment, ctx: map<string, string>): string
  {
    match s
    case Text(text) => text
    case Field(name) => Lookup(ctx, name)
  }

  /** What executing the template against `ctx` writes to the buffer. */
  function Execute(t: seq<Segment>, ctx: map<string, string>): (out: string)
    ensures (forall i :: 0 <= i < |t| ==> t[i].Text?) ==> out == Source(t)
  {
    if t == [] then [] else Expand(t[0], ctx) + Execute(t[1..], ctx)
  }

  /** Executing a concatenation writes one output after the other. */
  lemma {:induction false} ExecuteAppend(a: seq<Segment>, b: seq<Segment>, ctx: map<string, string>)
    ensures Execute(a + b, ctx) == Execute(a, ctx) + Execute(b, ctx)
  {
    if a == [] {
      assert a + b == b;
    } else {
      assert (a + b)[0] == a[0];
      assert (a + b)[1..] == a[1..] + b;
      ExecuteAppend(a[1..], b, ctx);
    }
  }

  /** The text of a concatenation is the concatenation of the texts. */
  lemma {:induction false} SourceAppend(a: seq<Segment>, b: seq<Segment>)
    ensures Source(a + b) == Source(a) + Source(b)
  {
    if a == [] {
      assert a + b == b;
    } else {
      assert (a + b)[0] == a[0];
      assert (a + b)[1..] == a[1..] + b;
      SourceAppend(a[1..], b);
    }
  }

  /** One output line as the widget shows it: the caption in the name colour, then
      the instrument's entry in the value colour. */
  function RenderedLine(ctx: map<string, string>, caption: string, key: string): string
  {
    " [" + Lookup(ctx, "nameColor") + "]" + caption + ": [" + Lookup(ctx, "valueColor") + "]"
      + Lookup(ctx, key) + "\n"
  }

  lemma SourceCons(s: Segment, rest: seq<Segment>)
    ensures Source([s] + rest) == SegmentSource(s) + Source(rest)
  {
    assert ([s] + rest)[1..] == rest;
  }

  lemma ExecuteCons(s: Segment, rest: seq<Segment>, ctx: map<string, string>)
    ensures Execute([s] + rest, ctx) == Expand(s, ctx) + Execute(rest, ctx)
  {
    assert ([s] + rest)[1..] == rest;
  }

  /** One line of the template: a caption and the map key of the instrument shown
      after it. Its text is exactly the formatted string the source builds, and
      executing it yields the rendered line. */
  function FormatableText(caption: string, key: string): (t: seq<Segment>)
    ensures Source(t) == " [{{.nameColor}}]" + caption + ": [{{.valueColor}}]{{." + key + "}}\n"
    ensures forall ctx :: Execute(t, ctx) == RenderedLine(ctx, caption, key)
  {
    var t6 := [Text("\n")];
    var t5 := [Field(key)] + t6;
    var t4 := [Text("]")] + t5;
    var t3 := [Field("valueColor")] + t4;
    var t2 := [Text("]" + caption + ": [")] + t3;
    var t1 := [Field("nameColor")] + t2;
    var t := [Text(" [")] + t1;
    LineSource(caption, key, t, t1, t2, t3, t4, t5, t6);
    assert forall ctx :: Execute(t, ctx) == RenderedLine(ctx, caption, key) by {
      forall ctx ensures Execute(t, ctx) == RenderedLine(ctx, caption, key) {
        LineExecute(caption, key, ctx, t, t1, t2, t3, t4, t5, t6);
      }
    }
    t
  }

  lemma LineSource(caption: string, key: string, t: seq<Segment>, t1: seq<Segment>, t2: seq<Segment>,
                   t3: seq<Segment>, t4: seq<Segment>, t5: seq<Segment>, t6: seq<Segment>)
    requires t6 == [Text("\n")] && t5 == [Field(key)] + t6 && t4 == [Text("]")] + t5
    requires t3 == [Field("valueColor")] + t4 && t2 == [Text("]" + caption + ": [")] + t3
    requires t1 == [Field("nameColor")] + t2 && t == [Text(" [")] + t1
    ensures Source(t) == " [{{.nameColor}}]" + caption + ": [{{.valueColor}}]{{." + key + "}}\n"
  {
    SourceCons(Text("\n"), []);
    SourceCons(Field(key), t6);
    SourceCons(Text("]"), t5);
    SourceCons(Field("valueColor"), t4);
    SourceCons(Text("]" + caption + ": ["), t3);
    SourceCons(Field("nameColor"), t2);
    SourceCons(Text(" ["), t1);
    assert Source(t) == " [" + (SegmentSource(Field("nameColor")) + ("]" + caption + ": [" +
                        (SegmentSource(Field("valueColor")) + ("]" + (SegmentSource(Field(key)) + ("\n" + []))))));
    LineText(caption, key);
  }

  lemma LineText(caption: string, key: string)
    ensures " [" + (("{{." + "nameColor" + "}}") + ("]" + caption + ": [" +
                   (("{{." + "valueColor" + "}}") + ("]" + (("{{." + key + "}}") + ("\n" + []))))))
         == " [{{.nameColor}}]" + caption + ": [{{.valueColor}}]{{." + key + "}}\n"
  {
  }

  lemma LineExecute(caption: string, key: string, ctx: map<string, string>, t: seq<Segment>, t1: seq<Segment>,
                    t2: seq<Segment>, t3: seq<Segment>, t4: seq<Segment>, t5: seq<Segment>, t6: seq<Segment>)
    requires t6 == [Text("\n")] && t5 == [Field(key)] + t6 && t4 == [Text("]")] + t5
    requires t3 == [Field("valueColor")] + t4 && t2 == [Text("]" + caption + ": [")] + t3
    requires t1 == [Field("nameColor")] + t2 && t == [Text(" [")] + t1
    ensures Execute(t, ctx) == RenderedLine(ctx, caption, key)
  {
    ExecuteCons(Text("\n"), [], ctx);
    ExecuteCons(Field(key), t6, ctx);
    ExecuteCons(Text("]"), t5, ctx);
    ExecuteCons(Field("valueColor"), t4, ctx);
    ExecuteCons(Text("]" + caption + ": ["), t3, ctx);
    ExecuteCons(Field("nameColor"), t2, ctx);
    ExecuteCons(Text(" ["), t1, ctx);
    var a, b, c := Lookup(ctx, "nameColor"), Lookup(ctx, "valueColor"), Lookup(ctx, key);
    assert Execute(t, ctx) == " [" + (a + ("]" + caption + ": [" + (b + ("]" + (c + ("\n" + []))))));
    LineConcat(caption, a, b, c);
  }

  lemma LineConcat(caption: string, a: string, b: string, c: string)
    ensures " [" + (a + ("]" + caption + ": [" + (b + ("]" + (c + ("\n" + []))))))
         == " [" + a + "]" + caption + ": [" + b + "]" + c + "\n"
  {
  }

  const GoldLabel: string := "Gram Altin "
  const UsdLabel: string := "USD\t\t"
  const EurLabel: string := "EUR\t\t"
  const GbpLabel: string := "GBP\t\t"

  const GoldKey: string := "gramaltin"
  const UsdKey: string := "amerikandolari"
  const EurKey: string := "euro"
  const GbpKey: string := "sterlin"

  /** The four lines in their fixed order: gram gold, US dollar, euro, pound. */
  function ResultTemplate(): seq<Segment>
  {
    FormatableText(GoldLabel, GoldKey) + FormatableText(UsdLabel, UsdKey)
      + FormatableText(EurLabel, EurKey) + FormatableText(GbpLabel, GbpKey)
  }

  /** The result template's text is the four formatted lines one after another. */
  lemma ResultTemplateSource()
    ensures Source(ResultTemplate())
         == Source(FormatableText(GoldLabel, GoldKey)) + Source(FormatableText(UsdLabel, UsdKey))
          + Source(FormatableText(EurLabel, EurKey)) + Source(FormatableText(GbpLabel, GbpKey))
  {
    var g, u, e, p := FormatableText(GoldLabel, GoldKey), FormatableText(UsdLabel, UsdKey),
                      FormatableText(EurLabel, EurKey), FormatableText(GbpLabel, GbpKey);
    SourceAppend(g + u + e, p);
    SourceAppend(g + u, e);
    SourceAppend(g, u);
  }

  /** Executing the result template yields the four rendered lines in the fixed
      order; a missing instrument key shows as the placeholder on its line. */
  lemma RenderLines(ctx: map<string, string>)
    ensures Execute(ResultTemplate(), ctx)
         == RenderedLine(ctx, GoldLabel, GoldKey) + RenderedLine(ctx, UsdLabel, UsdKey)
          + RenderedLine(ctx, EurLabel, EurKey) + RenderedLine(ctx, GbpLabel, GbpKey)
  {
    var g, u, e, p := FormatableText(GoldLabel, GoldKey), FormatableText(UsdLabel, UsdKey),
                      FormatableText(EurLabel, EurKey), FormatableText(GbpLabel, GbpKey);
    ExecuteAppend(g + u + e, p, ctx);
    ExecuteAppend(g + u, e, ctx);
    ExecuteAppend(g, u, ctx);
  }
}
