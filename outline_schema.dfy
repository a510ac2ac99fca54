/**
 * The outline a provider returns: JSON values, the `Slide`/`OutlineModel`
 * shape ({"slides": [{"title": string, "bullets": [string]}]}), its dump to
 * JSON and the reading of JSON against that shape.
 */
module OutlineSchema {
  import opened Wrappers

  /** A decoded JSON value. Numbers are kept as exact decimals. */
  datatype Json =
    | JNull
    | JBool(b: bool)
    | JNum(n: real)
    | JStr(s: string)
    | JArr(items: seq<Json>)
    | JObj(fields: map<string, Json>)

  /** One slide: a title and its bullet strings, both kept verbatim. */
  datatype Slide = Slide(title: string, bullets: seq<string>)

  /** The presentation outline: slides in order. */
  datatype OutlineModel = OutlineModel(slides: seq<Slide>)

  function DumpStrings(ss: seq<string>): seq<Json>
  {
    if ss == [] then [] else [JStr(ss[0])] + DumpStrings(ss[1..])
  }

  function DumpSlide(slide: Slide): Json
  {
    JObj(map["title" := JStr(slide.title), "bullets" := JArr(DumpStrings(slide.bullets))])
  }

  function DumpSlides(slides: seq<Slide>): seq<Json>
  {
    if slides == [] then [] else [DumpSlide(slides[0])] + DumpSlides(slides[1..])
  }

  /**
   * `OutlineModel.model_dump()`: the outline as a JSON object whose only key
   * is "slides"; it conforms to the schema and reads back as the same outline.
   */
  function ModelDump(outline: OutlineModel): (r: Json)
    ensures r.JObj? && r.fields.Keys == {"slides"}
    ensures ReadOutline(r) == Some(outline)
  {
    ReadDumpSlides(outline.slides);
    JObj(map["slides" := JArr(DumpSlides(outline.slides))])
  }

  /** Reads a JSON array whose every item is a string. */
  function ReadStrings(items: seq<Json>): (r: Option<seq<string>>)
    ensures r.Some? ==> |r.value| == |items|
    ensures r.Some? <==> forall i :: 0 <= i < |items| ==> items[i].JStr?
    ensures r.Some? ==> forall i :: 0 <= i < |items| ==> items[i] == JStr(r.value[i])
  {
    if items == [] then Some([])
    else match (items[0], ReadStrings(items[1..]))
      case (JStr(s), Some(rest)) => Some([s] + rest)
      case _ => None
  }

  /** Reads one slide object; keys other than "title" and "bullets" are ignored. */
  function ReadSlide(j: Json): (r: Option<Slide>)
    ensures r.Some? <==>
              && j.JObj? && "title" in j.fields && j.fields["title"].JStr?
              && "bullets" in j.fields && j.fields["bullets"].JArr?
              && forall i :: 0 <= i < |j.fields["bullets"].items| ==> j.fields["bullets"].items[i].JStr?
    ensures r.Some? ==>
              && j.fields["title"] == JStr(r.value.title)
              && |r.value.bullets| == |j.fields["bullets"].items|
              && forall i :: 0 <= i < |r.value.bullets| ==> j.fields["bullets"].items[i] == JStr(r.value.bullets[i])
  {
    match j
    case JObj(f) =>
      if "title" in f && f["title"].JStr? && "bullets" in f && f["bullets"].JArr? then
        match ReadStrings(f["bullets"].items)
        case Some(bullets) => Some(Slide(f["title"].s, bullets))
        case None => None
      else None
    case _ => None
  }

  /** Reads the slide objects of an array, in order; `None` when any item is not a slide. */
  function ReadSlides(items: seq<Json>): (r: Option<seq<Slide>>)
    ensures r.Some? ==> |r.value| == |items|
    ensures r.Some? <==> forall i :: 0 <= i < |items| ==> ReadSlide(items[i]).Some?
    ensures r.Some? ==> forall i :: 0 <= i < |items| ==> ReadSlide(items[i]) == Some(r.value[i])
  {
    if items == [] then Some([])
    else match (ReadSlide(items[0]), ReadSlides(items[1..]))
      case (Some(slide), Some(rest)) => Some([slide] + rest)
      case _ => None
  }

  /** Reads a JSON value against the outline schema; `None` when it does not conform. */
  function ReadOutline(j: Json): (r: Option<OutlineModel>)
    ensures r.Some? <==>
              && j.JObj? && "slides" in j.fields && j.fields["slides"].JArr?
              && forall i :: 0 <= i < |j.fields["slides"].items| ==> ReadSlide(j.fields["slides"].items[i]).Some?
    ensures r.Some? ==>
              && |r.value.slides| == |j.fields["slides"].items|
              && forall i :: 0 <= i < |r.value.slides| ==> ReadSlide(j.fields["slides"].items[i]) == Some(r.value.slides[i])
  {
    match j
    case JObj(f) =>
      if "slides" in f && f["slides"].JArr? then
        match ReadSlides(f["slides"].items)
        case Some(slides) => Some(OutlineModel(slides))
        case None => None
      else None
    case _ => None
  }

  lemma {:induction false} ReadDumpStrings(ss: seq<string>)
    ensures ReadStrings(DumpStrings(ss)) == Some(ss)
  {
    if ss != [] {
      var d := DumpStrings(ss);
      ReadDumpStrings(ss[1..]);
      assert d[0] == JStr(ss[0]) && d[1..] == DumpStrings(ss[1..]);
      assert [ss[0]] + ss[1..] == ss;
    }
  }

  lemma {:induction false} ReadDumpSlides(slides: seq<Slide>)
    ensures ReadSlides(DumpSlides(slides)) == Some(slides)
  {
    if slides != [] {
      ReadDumpStrings(slides[0].bullets);
      ReadDumpSlides(slides[1..]);
      var d := DumpSlides(slides);
      assert d[0] == DumpSlide(slides[0]) && d[1..] == DumpSlides(slides[1..]);
      assert ReadSlide(d[0]) == Some(slides[0]);
      assert [slides[0]] + slides[1..] == slides;
    }
  }
}
