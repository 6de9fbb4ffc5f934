/** One press of the form's submit button (app.py:221-262): the
    required-field check, the generation call, the handling of its result
    and the export. Rendering calls are not modelled; what the page ends up
    showing is summarised as a `Screen`. */
module Frontend {
  import opened PyValues
  import opened Prompt
  import opened Form
  import opened Quota
  import opened Results
  import opened Document

  /** What a submission ends with.
      - `MissingFields`: the warning about the required fields; nothing is generated.
      - `ErrorShown(message)`: `st.error` with the value under `"error"`.
      - `Crashed`: handling the result raised.
      - `Exported(...)`: the preview is shown and the document is offered. */
  datatype Screen =
    | MissingFields
    | ErrorShown(message: Json)
    | Crashed
    | Exported(titulo: Json, texto: Json, analisis: map<string, Json>, document: seq<Element>)

  /** A submission's screen, the prompt sent (if any) and the counter afterwards. */
  datatype Submission = Submission(screen: Screen, sent: Option<string>, calls: nat)

  /** A submission with the counter at `calls`. */
  function Submit(calls: nat, form: FormInput, remote: RemoteOutcome,
                  parse: string -> Attempt<Json>): (s: Submission)
    // no request and no quota without the three required fields
    ensures !HasRequiredFields(form) ==> s == Submission(MissingFields, None, calls)
    ensures s.sent.Some? ==> HasRequiredFields(form) && calls < MaxCalls
    ensures s.sent.Some? ==> s.sent.value == UserPrompt(ToRequest(form).value)
    ensures calls <= s.calls <= calls + 1
    ensures calls <= MaxCalls ==> s.calls <= MaxCalls
    // a document is exported only from an answer that was read, parsed to a
    // dict and has no "error" key, and that answer cost one call
    ensures s.screen.Exported? ==>
              HasRequiredFields(form) && calls < MaxCalls && s.calls == calls + 1
              && remote.Returned? && remote.text.Value? && parse(remote.text.value).Value?
              && var v := parse(remote.text.value).value;
              v.JObject? && "error" !in v.fields
    // and it is laid out from the extracted fields and the recipient typed in
    ensures s.screen.Exported? ==>
              s.screen.document == Layout(s.screen.titulo, s.screen.texto, s.screen.analisis, form.receptor)
    // a complete form runs the generation call once, and its result decides
    // the screen: its error is shown, its crash crashes the page, and its
    // extracted fields are what is previewed and exported
    ensures HasRequiredFields(form) ==>
              var step := GenerateStep(calls, ToRequest(form).value, remote, parse);
              var handled := HandleResult(step.result);
              s.sent == step.sent && s.calls == step.calls
              && (handled.ShowError? ==> s.screen == ErrorShown(handled.message))
              && (handled.Crash? ==> s.screen == Crashed)
              && (s.screen.Exported? <==> handled.Extracted?)
              && (s.screen.Exported? ==>
                    handled == Extracted(s.screen.titulo, s.screen.texto, s.screen.analisis))
  {
    match ToRequest(form)
    case None => Submission(MissingFields, None, calls)
    case Some(d) =>
      var step := GenerateStep(calls, d, remote, parse);
      match HandleResult(step.result)
      case ShowError(message) => Submission(ErrorShown(message), step.sent, step.calls)
      case Crash => Submission(Crashed, step.sent, step.calls)
      case Extracted(titulo, texto, analisis) =>
        Submission(Exported(titulo, texto, analisis, Layout(titulo, texto, analisis, form.receptor)),
                   step.sent, step.calls)
  }

  /** The submission as the script runs it against the session. */
  method SubmitForm(session: Session, form: FormInput, remote: RemoteOutcome,
                    parse: string -> Attempt<Json>)
    returns (screen: Screen, sent: Option<string>)
    requires session.Valid()
    modifies session
    ensures session.Valid()
    ensures Submission(screen, sent, session.apiCalls) == Submit(old(session.apiCalls), form, remote, parse)
  {
    var request := ToRequest(form);
    if request.None? {
      return MissingFields, None;
    }
    var resultado;
    resultado, sent := session.Generate(request.value, remote, parse);
    var handled := HandleResult(resultado);
    match handled {
      case ShowError(message) =>
        screen := ErrorShown(message);
      case Crash =>
        screen := Crashed;
      case Extracted(titulo, texto, analisis) =>
        var doc := CreateDocument(titulo, texto, analisis, form.receptor);
        screen := Exported(titulo, texto, analisis, doc.elements);
    }
  }

  /** With the quota used up, a complete form gets the limit message, sends
      nothing and leaves the counter as it is. */
  lemma QuotaExhausted(calls: nat, form: FormInput, remote: RemoteOutcome, parse: string -> Attempt<Json>)
    requires HasRequiredFields(form) && calls >= MaxCalls
    ensures Submit(calls, form, remote, parse) == Submission(ErrorShown(JString(LimitMessage)), None, calls)
  {
  }

  /** A service that raises (a timeout, say) shows its description after
      the fixed prefix, exports nothing and costs no call. */
  lemma ServiceRaised(calls: nat, form: FormInput, cause: string, parse: string -> Attempt<Json>)
    requires HasRequiredFields(form) && calls < MaxCalls
    ensures Submit(calls, form, Failed(cause), parse).screen == ErrorShown(JString(SystemErrorPrefix + cause))
    ensures Submit(calls, form, Failed(cause), parse).calls == calls
  {
  }

  /** An answer that is not JSON (`not valid json`, say) is an error shown
      to the user, never an empty document, and it has cost one call. */
  lemma AnswerNotJson(calls: nat, form: FormInput, text: string, parse: string -> Attempt<Json>)
    requires HasRequiredFields(form) && calls < MaxCalls && parse(text).Raised?
    ensures Submit(calls, form, Returned(Value(text)), parse).screen
              == ErrorShown(JString(SystemErrorPrefix + parse(text).cause))
    ensures Submit(calls, form, Returned(Value(text)), parse).calls == calls + 1
  {
  }

  /** An answer that parses to a dict with an "error" key takes the same
      error path as the pipeline's own errors. */
  lemma AnswerCarriesError(calls: nat, form: FormInput, text: string, parse: string -> Attempt<Json>)
    requires HasRequiredFields(form) && calls < MaxCalls
    requires parse(text).Value? && parse(text).value.JObject? && "error" in parse(text).value.fields
    ensures Submit(calls, form, Returned(Value(text)), parse).screen
              == ErrorShown(parse(text).value.fields["error"])
  {
  }

  /** An answer that is read, decoded and extracted without error is
      previewed and exported with exactly the extracted title, text and
      analysis, laid out for the recipient typed in; the prompt was sent and
      one call is charged. */
  lemma AnswerExported(calls: nat, form: FormInput, text: string, parse: string -> Attempt<Json>,
                       titulo: Json, texto: Json, analisis: map<string, Json>)
    requires HasRequiredFields(form) && calls < MaxCalls
    requires parse(text).Value? && HandleResult(parse(text).value) == Extracted(titulo, texto, analisis)
    ensures Submit(calls, form, Returned(Value(text)), parse)
              == Submission(Exported(titulo, texto, analisis, Layout(titulo, texto, analisis, form.receptor)),
                            Some(UserPrompt(ToRequest(form).value)), calls + 1)
  {
  }

  /** Recipient, facts and objective filled in, everything else empty: the
      prompt carries the facts and the objective as typed, the default tone,
      and the two fallback phrases for the citations. */
  lemma LoanScenario()
    ensures var form := FormInput("Taipei District Court, Civil Division", "",
                                  "Defendant failed to repay loan of X", "Dismiss plaintiff's claim",
                                  "", "", "", "");
      ToRequest(form).Some?
      && var p := UserPrompt(ToRequest(form).value);
      Occurs("Defendant failed to repay loan of X", p)
      && Occurs("Dismiss plaintiff's claim", p)
      && Occurs(DefaultTone, p)
      && Occurs(NoStatutes, p) && Occurs(NoCaseLaw, p)
  {
    var form := FormInput("Taipei District Court, Civil Division", "",
                          "Defendant failed to repay loan of X", "Dismiss plaintiff's claim",
                          "", "", "", "");
    UserPromptContainsFields(ToRequest(form).value);
  }
}
