/** What the page does with the value `generar_escrito` returned
    (app.py:235-247): the error path, or the fields pulled out for the
    preview and the export, each with its default. */
module Results {
  import opened PyValues

  /** Title used when the answer has none ("legal brief"). */
  const DefaultTitle := "法律書狀"

  /** The outcome of handling one result.
      - `ShowError`: `st.error` shows the value under `"error"`; nothing is exported.
      - `Crash`: the handling itself raises (the result, `documento_final` or
        `analisis_estrategico` is not a dict), outside any `try`.
      - `Extracted`: the title, the body text and the analysis dict passed on
        to the preview and to the export. */
  datatype Handled =
    | ShowError(message: Json)
    | Crash
    | Extracted(titulo: Json, texto: Json, analisis: map<string, Json>)

  /** `d.get(key, {})` when it is a dict, `None` when it is something else. */
  function SubObject(fields: map<string, Json>, key: string): Option<map<string, Json>>
  {
    match Get(fields, key, EmptyObject)
    case JObject(m) => Some(m)
    case _ => None
  }

  /** The branch at app.py:235 and the `.get` calls of app.py:238-247. */
  function HandleResult(resultado: Json): (h: Handled)
    // the error path is taken exactly for a dict with an "error" key
    ensures h.ShowError? <==> resultado.JObject? && "error" in resultado.fields
    ensures h.ShowError? ==> h.message == resultado.fields["error"]
    // anything that is not a dict makes the page raise, and so does a dict
    // whose `documento_final` or `analisis_estrategico` is there but not a dict
    ensures !resultado.JObject? ==> h.Crash?
    ensures resultado.JObject? && "error" !in resultado.fields ==>
              var fields := resultado.fields;
              (h.Crash? <==> ("documento_final" in fields && !fields["documento_final"].JObject?)
                             || ("analisis_estrategico" in fields && !fields["analisis_estrategico"].JObject?))
    // an extraction only comes from a dict without "error"
    ensures h.Extracted? ==> resultado.JObject? && "error" !in resultado.fields
    // missing parts default to empty dicts, a missing title and text to fixed values
    ensures resultado.JObject? && "error" !in resultado.fields
            && "documento_final" !in resultado.fields && "analisis_estrategico" !in resultado.fields
            ==> h == Extracted(JString(DefaultTitle), JString(""), map[])
    ensures h.Extracted? ==>
              var doc := resultado.fields;
              ("analisis_estrategico" in doc ==> doc["analisis_estrategico"] == JObject(h.analisis))
              && ("analisis_estrategico" !in doc ==> h.analisis == map[])
    ensures h.Extracted? && "documento_final" in resultado.fields ==>
              resultado.fields["documento_final"].JObject?
              && var m := resultado.fields["documento_final"].fields;
              h.titulo == (if "titulo" in m then m["titulo"] else JString(DefaultTitle))
              && h.texto == (if "texto_completo" in m then m["texto_completo"] else JString(""))
    ensures h.Extracted? && "documento_final" !in resultado.fields ==>
              h.titulo == JString(DefaultTitle) && h.texto == JString("")
  {
    match resultado
    case JObject(fields) =>
      if "error" in fields then ShowError(fields["error"])
      else
        var docFinal := SubObject(fields, "documento_final");
        var analisis := SubObject(fields, "analisis_estrategico");
        if analisis.None? || docFinal.None? then Crash
        else
          Extracted(Get(docFinal.value, "titulo", JString(DefaultTitle)),
                    Get(docFinal.value, "texto_completo", JString("")),
                    analisis.value)
    case _ => Crash
  }
}
