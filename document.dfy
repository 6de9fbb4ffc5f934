/** The exported word-processor document of `crear_documento_word`
    (app.py:88-110), as the sequence of elements appended to it. Fonts,
    styles' looks and the saved bytes are not part of the model. */
module Document {
  import opened PyValues

  /** The text of an element.
      - `Lit(s)`: a string the code builds itself.
      - `Field(v)`: a value of the answer, passed as the text unchanged.
      - `Line(caption, v)`: the f-string `f"{caption}{v}"` over a value of the answer. */
  datatype Text = Lit(s: string) | Field(value: Json) | Line(caption: string, shown: Json)

  /** The two paragraph styles the export uses. */
  datatype ParagraphStyle = NormalStyle | Heading2Style

  datatype Element =
    | Paragraph(text: Text, style: ParagraphStyle)
    | Heading(text: Text, level: nat)
    | PageBreak

  const RecipientLabel := "致 (To): "
  const ContentHeading := "書狀內容 (Content):"
  const AnalysisHeading := "附件：AI 策略分析 (Inventio Analysis)"
  const StatusLabel := "爭點狀態 (Status): "
  const StrategyLabel := "防禦策略 (Strategy): "
  const BasisLabel := "核心法源 (Legal Basis): "
  /** Shown for an analysis entry the answer does not have. */
  const NotAvailable := "N/A"

  /** A document being written: the elements added so far, in order. */
  class WordDocument {
    var elements: seq<Element>

    /** `Document()` */
    constructor ()
      ensures elements == []
    {
      elements := [];
    }

    /** `doc.add_paragraph(text, style=...)` */
    method AddParagraph(text: Text, style: ParagraphStyle)
      modifies this
      ensures elements == old(elements) + [Paragraph(text, style)]
    {
      elements := elements + [Paragraph(text, style)];
    }

    /** `doc.add_heading(text, level)` */
    method AddHeading(text: Text, level: nat)
      modifies this
      ensures elements == old(elements) + [Heading(text, level)]
    {
      elements := elements + [Heading(text, level)];
    }

    /** `doc.add_page_break()` */
    method AddPageBreak()
      modifies this
      ensures elements == old(elements) + [PageBreak]
    {
      elements := elements + [PageBreak];
    }
  }

  /** The value an analysis line shows: the entry, or "N/A" when absent. */
  function AnalysisEntry(analisis: map<string, Json>, key: string): Json
  {
    Get(analisis, key, JString(NotAvailable))
  }

  /** The layout the export writes. */
  function Layout(titulo: Json, cuerpo: Json, analisis: map<string, Json>, receptor: string): seq<Element>
  {
    [Paragraph(Lit(RecipientLabel + receptor), Heading2Style),
     Heading(Field(titulo), 0),
     Heading(Lit(ContentHeading), 1),
     Paragraph(Field(cuerpo), NormalStyle),
     PageBreak,
     Heading(Lit(AnalysisHeading), 1),
     Paragraph(Line(StatusLabel, AnalysisEntry(analisis, "status_causae")), NormalStyle),
     Paragraph(Line(StrategyLabel, AnalysisEntry(analisis, "estrategia_defensa")), NormalStyle),
     Paragraph(Line(BasisLabel, AnalysisEntry(analisis, "puntos_clave")), NormalStyle)]
  }

  /** `crear_documento_word(titulo, cuerpo, analisis, receptor)`: a new
      document written by successive appends. */
  method CreateDocument(titulo: Json, cuerpo: Json, analisis: map<string, Json>, receptor: string)
    returns (doc: WordDocument)
    ensures fresh(doc)
    ensures doc.elements == Layout(titulo, cuerpo, analisis, receptor)
  {
    doc := new WordDocument();
    doc.AddParagraph(Lit(RecipientLabel + receptor), Heading2Style);
    doc.AddHeading(Field(titulo), 0);
    doc.AddHeading(Lit(ContentHeading), 1);
    doc.AddParagraph(Field(cuerpo), NormalStyle);
    doc.AddPageBreak();
    doc.AddHeading(Lit(AnalysisHeading), 1);
    doc.AddParagraph(Line(StatusLabel, AnalysisEntry(analisis, "status_causae")), NormalStyle);
    doc.AddParagraph(Line(StrategyLabel, AnalysisEntry(analisis, "estrategia_defensa")), NormalStyle);
    doc.AddParagraph(Line(BasisLabel, AnalysisEntry(analisis, "puntos_clave")), NormalStyle);
  }

  /** The shape of every exported document: the recipient line first, the
      title as the one and only level-0 heading, the body under the content
      heading, one page break, and after it the analysis appendix whose three
      lines show each entry of the analysis or "N/A" when it is missing. */
  lemma LayoutStructure(titulo: Json, cuerpo: Json, analisis: map<string, Json>, receptor: string)
    ensures var l := Layout(titulo, cuerpo, analisis, receptor);
      |l| == 9
      && (forall i :: 0 <= i < |l| ==> (l[i].PageBreak? <==> i == 4))
      && (forall i :: 0 <= i < |l| ==> (l[i].Heading? && l[i].level == 0 <==> i == 1))
      && l[0] == Paragraph(Lit(RecipientLabel + receptor), Heading2Style)
      && l[1] == Heading(Field(titulo), 0)
      && l[2] == Heading(Lit(ContentHeading), 1)
      && l[3] == Paragraph(Field(cuerpo), NormalStyle)
      && l[5] == Heading(Lit(AnalysisHeading), 1)
      && (forall i :: 5 < i < |l| ==> l[i].Paragraph? && l[i].style == NormalStyle && l[i].text.Line?)
      && l[6].text.caption == StatusLabel && l[7].text.caption == StrategyLabel && l[8].text.caption == BasisLabel
      && l[6].text.shown == (if "status_causae" in analisis then analisis["status_causae"] else JString(NotAvailable))
      && l[7].text.shown == (if "estrategia_defensa" in analisis then analisis["estrategia_defensa"] else JString(NotAvailable))
      && l[8].text.shown == (if "puntos_clave" in analisis then analisis["puntos_clave"] else JString(NotAvailable))
  {
  }
}
