/** The user prompt that `generar_escrito` sends to the text-generation
    service: an f-string over the request record `datos`, with fixed
    fallback phrases for the two optional citation fields. */
module Prompt {

  /** The request record `datos` (app.py:228-232). */
  datatype CaseRequest = CaseRequest(
    receptor: string,
    tono: string,
    hechos: string,
    leyes: string,
    jurisprudencia: string,
    pruebas: string,
    contraparte: string,
    objetivo: string)

  /** Used in place of an empty `leyes` ("the system decides the applicable statutes"). */
  const NoStatutes := "由系統自行判斷適用法條"
  /** Used in place of an empty `jurisprudencia` ("no specific citation"). */
  const NoCaseLaw := "無特定引用"

  // The literal text of the template, cut at its placeholders. Each piece is
  // named after the field it introduces; indentation and trailing blanks are
  // those of the triple-quoted f-string.
  const RecipientIntro := "\n    請根據以下資訊撰寫法律書狀 (Draft request):\n\n    --- 基本設定 (Settings) ---\n    【致送機關 (Recipient)】: "
  const ToneIntro := "\n    【語氣風格 (Tone)】: "
  const FactsIntro := " \n    (Instruction: Strictly adapt the writing style to this tone.)\n\n    --- 案件內容 (Case Details) ---\n    1. 【案情事實 (Hechos)】: \n    "
  const StatutesIntro := "\n    \n    2. 【引用法條 (Leyes)】: \n    "
  const CaseLawIntro := "\n\n    3. 【引用實務見解 (Jurisprudencia)】: \n    "
  const EvidenceIntro := "\n\n    4. 【關鍵證據 (Pruebas)】: \n    "
  const OpposingIntro := "\n    \n    5. 【對造主張 (Contraparte)】: \n    "
  const ObjectiveIntro := "\n    \n    6. 【訴之聲明/目標 (Objetivo)】: \n    "
  const Closing := "\n    "

  /** Python's `s if s else fallback` on a string. */
  function OrElse(s: string, fallback: string): string
  {
    if s != "" then s else fallback
  }

  /** The text shown in the statutes section. */
  function StatutesShown(d: CaseRequest): string
  {
    OrElse(d.leyes, NoStatutes)
  }

  /** The text shown in the case-law section. */
  function CaseLawShown(d: CaseRequest): string
  {
    OrElse(d.jurisprudencia, NoCaseLaw)
  }

  /** The pieces of `user_prompt` (app.py:130-156) in order: the literal
      text of the template alternating with the replacement fields. */
  function PromptPieces(d: CaseRequest): seq<string>
  {
    [RecipientIntro, d.receptor,
     ToneIntro, d.tono,
     FactsIntro, d.hechos,
     StatutesIntro, StatutesShown(d),
     CaseLawIntro, CaseLawShown(d),
     EvidenceIntro, d.pruebas,
     OpposingIntro, d.contraparte,
     ObjectiveIntro, d.objetivo,
     Closing]
  }

  /** The pieces written one after the other, as an f-string evaluates. */
  function Join(pieces: seq<string>): string
  {
    if pieces == [] then "" else pieces[0] + Join(pieces[1..])
  }

  /** `user_prompt` (app.py:130-156). */
  function UserPrompt(d: CaseRequest): string
  {
    Join(PromptPieces(d))
  }

  /** `needle` sits in `hay` starting at index `i`. */
  ghost predicate At(needle: string, hay: string, i: int)
  {
    0 <= i && i + |needle| <= |hay| && hay[i..i + |needle|] == needle
  }

  /** `needle` is a contiguous part of `hay` (Python's `needle in hay`). */
  ghost predicate Occurs(needle: string, hay: string)
  {
    exists i :: At(needle, hay, i)
  }

  lemma AtShift(needle: string, prefix: string, hay: string, i: int)
    requires At(needle, hay, i)
    ensures At(needle, prefix + hay, |prefix| + i)
  {
    assert (prefix + hay)[|prefix| + i..|prefix| + i + |needle|] == hay[i..i + |needle|];
  }

  lemma JoinFront(a: string, b: string, c: string, rest: seq<string>)
    ensures Join([a, b, c] + rest) == (a + b + c) + Join(rest)
  {
    var p := [a, b, c] + rest;
    assert p[1..] == [b, c] + rest;
    assert ([b, c] + rest)[1..] == [c] + rest;
    assert ([c] + rest)[1..] == rest;
    assert Join([c] + rest) == c + Join(rest);
    assert Join([b, c] + rest) == b + (c + Join(rest));
    assert Join(p) == a + (b + (c + Join(rest)));
  }

  /** Any three consecutive pieces appear, joined, in the joined text. */
  lemma {:induction false} JoinWindow(pieces: seq<string>, k: nat)
    requires k + 2 < |pieces|
    ensures Occurs(pieces[k] + pieces[k + 1] + pieces[k + 2], Join(pieces))
  {
    var w := pieces[k] + pieces[k + 1] + pieces[k + 2];
    if k == 0 {
      assert pieces == [pieces[0], pieces[1], pieces[2]] + pieces[3..];
      JoinFront(pieces[0], pieces[1], pieces[2], pieces[3..]);
      assert At(w, Join(pieces), 0);
    } else {
      JoinWindow(pieces[1..], k - 1);
      var i :| At(w, Join(pieces[1..]), i);
      AtShift(w, pieces[0], Join(pieces[1..]), i);
    }
  }

  /** Each section of the prompt, from its label to the next label, holds
      exactly the field it is labelled with, verbatim: nothing is escaped,
      trimmed or dropped. The two citation sections hold the field when it
      is non-empty and the fixed fallback phrase otherwise. */
  lemma UserPromptSections(d: CaseRequest)
    ensures Occurs(RecipientIntro + d.receptor + ToneIntro, UserPrompt(d))
    ensures Occurs(ToneIntro + d.tono + FactsIntro, UserPrompt(d))
    ensures Occurs(FactsIntro + d.hechos + StatutesIntro, UserPrompt(d))
    ensures d.leyes != "" ==> Occurs(StatutesIntro + d.leyes + CaseLawIntro, UserPrompt(d))
    ensures d.leyes == "" ==> Occurs(StatutesIntro + NoStatutes + CaseLawIntro, UserPrompt(d))
    ensures d.jurisprudencia != "" ==> Occurs(CaseLawIntro + d.jurisprudencia + EvidenceIntro, UserPrompt(d))
    ensures d.jurisprudencia == "" ==> Occurs(CaseLawIntro + NoCaseLaw + EvidenceIntro, UserPrompt(d))
    ensures Occurs(EvidenceIntro + d.pruebas + OpposingIntro, UserPrompt(d))
    ensures Occurs(OpposingIntro + d.contraparte + ObjectiveIntro, UserPrompt(d))
    ensures Occurs(ObjectiveIntro + d.objetivo + Closing, UserPrompt(d))
  {
    var p := PromptPieces(d);
    JoinWindow(p, 0);
    JoinWindow(p, 2);
    JoinWindow(p, 4);
    JoinWindow(p, 6);
    JoinWindow(p, 8);
    JoinWindow(p, 10);
    JoinWindow(p, 12);
    JoinWindow(p, 14);
  }

  /** A part of a part of `hay` is a part of `hay`. */
  lemma OccursInOccurs(before: string, needle: string, after: string, hay: string)
    requires Occurs(before + needle + after, hay)
    ensures Occurs(needle, hay)
  {
    var outer := before + needle + after;
    var i :| At(outer, hay, i);
    var j := i + |before|;
    assert hay[j..j + |needle|] == outer[|before|..|before| + |needle|];
    assert At(needle, hay, j);
  }

  /** Every field reaches the prompt verbatim; a blank citation field is
      replaced by its fallback phrase. */
  lemma UserPromptContainsFields(d: CaseRequest)
    ensures Occurs(d.receptor, UserPrompt(d)) && Occurs(d.tono, UserPrompt(d))
    ensures Occurs(d.hechos, UserPrompt(d)) && Occurs(d.pruebas, UserPrompt(d))
    ensures Occurs(d.contraparte, UserPrompt(d)) && Occurs(d.objetivo, UserPrompt(d))
    ensures Occurs(if d.leyes != "" then d.leyes else NoStatutes, UserPrompt(d))
    ensures Occurs(if d.jurisprudencia != "" then d.jurisprudencia else NoCaseLaw, UserPrompt(d))
  {
    UserPromptSections(d);
    OccursInOccurs(RecipientIntro, d.receptor, ToneIntro, UserPrompt(d));
    OccursInOccurs(ToneIntro, d.tono, FactsIntro, UserPrompt(d));
    OccursInOccurs(FactsIntro, d.hechos, StatutesIntro, UserPrompt(d));
    OccursInOccurs(StatutesIntro, StatutesShown(d), CaseLawIntro, UserPrompt(d));
    OccursInOccurs(CaseLawIntro, CaseLawShown(d), EvidenceIntro, UserPrompt(d));
    OccursInOccurs(EvidenceIntro, d.pruebas, OpposingIntro, UserPrompt(d));
    OccursInOccurs(OpposingIntro, d.contraparte, ObjectiveIntro, UserPrompt(d));
    OccursInOccurs(ObjectiveIntro, d.objetivo, Closing, UserPrompt(d));
  }
}
