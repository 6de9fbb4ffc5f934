/** What the form hands over on submission, the required-field check and
    the tone default (app.py:190-232). */
module Form {
  import opened PyValues
  import opened Prompt

  /** The text of the form's eight inputs; an untouched input is `""`. */
  datatype FormInput = FormInput(
    receptor: string,
    tono: string,
    hechos: string,
    objetivo: string,
    leyes: string,
    jurisprudencia: string,
    pruebas: string,
    contraparte: string)

  /** The tone used when the tone input is left empty ("professional, solemn"). */
  const DefaultTone := "專業、莊重"

  /** The form may go ahead: none of recipient, facts and objective is empty
      (the negation of the guard at app.py:222). Python treats only `""` as
      false, so a blank-only input passes. */
  predicate HasRequiredFields(f: FormInput)
  {
    f.hechos != "" && f.objetivo != "" && f.receptor != ""
  }

  /** The request record `datos` built from an accepted form: `None` when a
      required field is missing (no request is built then), otherwise every
      field copied and the empty tone replaced by the default. */
  function ToRequest(f: FormInput): (r: Option<CaseRequest>)
    ensures r.Some? <==> HasRequiredFields(f)
    ensures r.Some? ==> r.value.tono != ""
    ensures r.Some? && f.tono != "" ==> r.value.tono == f.tono
    ensures r.Some? && f.tono == "" ==> r.value.tono == DefaultTone
    ensures r.Some? ==> r.value.receptor != "" && r.value.hechos != "" && r.value.objetivo != ""
    ensures r.Some? ==> r.value.receptor == f.receptor && r.value.hechos == f.hechos
                        && r.value.objetivo == f.objetivo && r.value.leyes == f.leyes
                        && r.value.jurisprudencia == f.jurisprudencia
                        && r.value.pruebas == f.pruebas && r.value.contraparte == f.contraparte
  {
    if f.hechos == "" || f.objetivo == "" || f.receptor == "" then None
    else
      var tonoFinal := if f.tono != "" then f.tono else DefaultTone;
      Some(CaseRequest(f.receptor, tonoFinal, f.hechos, f.leyes, f.jurisprudencia,
                       f.pruebas, f.contraparte, f.objetivo))
  }
}
