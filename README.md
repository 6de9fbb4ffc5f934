# Organon Iudiciale submission pipeline, modelled in Dafny

Organon Iudiciale is a single Streamlit page that drafts Taiwanese legal
briefs. A user fills in a form: recipient, tone, facts, objective, statutes,
case law, evidence and the opposing side's claims. The page checks that the
required fields are there and fills in a default tone. It then builds a
prompt and asks a text-generation service (Gemini) for a JSON answer. The
answer is shown, or its error is shown. A successful answer is also offered
as a Word document. A per-session counter, `api_calls`, limits every session
to `MAX_CALLS = 10` answered requests.

This project models that pipeline from `app.py`:

- `py_values.dfy` (module `PyValues`): `Json`, the values `json.loads`
  returns; `Attempt`, an expression that yields a value or raises with the
  text of `str(e)`; and `dict.get`.
- `prompt.dfy` (module `Prompt`): the request record `datos` and the
  f-string `user_prompt`. The template is a list of pieces, literal text
  alternating with fields, and the prompt is that list joined. The fallback
  phrases for empty statutes and case law are constants.
- `form.dfy` (module `Form`): the form's inputs, the required-field check
  and the default tone `專業、莊重`.
- `quota.dfy` (module `Quota`): `MAX_CALLS` and the two error messages.
  `GenerateStep` is the pure meaning of one `generar_escrito` call. The class
  `Session` holds `api_calls` as a field, and its `Generate` method performs
  the call step by step. `CallsAfter` is the counter after a whole session
  of requests.
- `results.dfy` (module `Results`): the `"error"` branch. When it is not
  taken, the `.get` calls pull out the title, body and analysis, each with
  its default.
- `document.dfy` (module `Document`): `crear_documento_word`. A
  `WordDocument` object grows its element sequence through
  `add_paragraph`, `add_heading` and `add_page_break`.
- `frontend.dfy` (module `Frontend`): one press of the submit button, from
  the form to the screen the page ends on.

The remote service is a parameter of type `RemoteOutcome`. It either raises
(`Failed(cause)`) or returns a response whose `.text` may itself raise
(`Returned(text)`). `json.loads` is a parameter `parse: string -> Attempt<Json>`.
Neither is modelled further.

Two behaviours of the code shape the model:

- The counter is increased on app.py:160, after `generate_content` has
  returned and before `.text` is read and parsed. Only answered requests are
  charged: a service that raises costs no quota, while an answer that cannot
  be read or parsed costs one call.
- The answer is not checked against a schema. A result that is not a dict,
  or whose `documento_final` or `analisis_estrategico` is not a dict, makes
  the page raise outside any `try`. The model records this as `Crash` /
  `Crashed`. Missing keys fall back to their defaults.

## Model

| member | source | states |
|---|---|---|
| `Form.ToRequest` | app.py:222-232 | A request is built exactly when recipient, facts and objective are all non-empty. Every field is copied unchanged, except the tone. An empty tone becomes `專業、莊重`, any other is kept, so the request's tone is never empty. |
| `Prompt.UserPromptSections` | app.py:130-156 | Between each section label and the next label, the prompt holds exactly the field for that label. Statutes and case law hold the field when it is non-empty and otherwise the fixed phrases `由系統自行判斷適用法條` and `無特定引用`. |
| `Prompt.UserPromptContainsFields` | app.py:134-155 | Recipient, tone, facts, evidence, opposing claims and objective all appear in the prompt verbatim. So does each citation field, or its fallback phrase when the field is empty. |
| `Prompt.JoinWindow` | app.py:130-156 | Any three consecutive template pieces appear, joined, in the joined prompt. Every section property above is built on this. |
| `Quota.GenerateStep` | app.py:113-163 | A request is sent iff the counter is below `MAX_CALLS`, and what is sent is the assembled prompt. When no request is sent, the result is the limit error and the counter is unchanged. The counter grows by one exactly when the service returned, and stays within `MAX_CALLS`. A raising service gives the prefixed cause. An unreadable or unparsable answer gives a prefixed error, never a result. Otherwise the result is exactly the decoded value. |
| `Quota.Session.constructor` | app.py:83-85 | A new session starts with `api_calls == 0`, within the ceiling. |
| `Quota.Session.Generate` | app.py:113-163 | The call runs in the source's order and its outcome equals `GenerateStep` on the old counter. The counter stays ≤ `MAX_CALLS`, never decreases and grows by at most one. |
| `Quota.CallsAfterExact` | app.py:83-163 | From any counter within the quota, after a run of requests the counter is the old value plus the number of answered requests, capped at `MAX_CALLS`. So it never decreases, never passes the ceiling and grows by at most one per request. |
| `Quota.EleventhRequestRefused` | app.py:114-115 | After ten answered requests in a fresh session, the counter is 10. The eleventh request sends nothing and returns the limit error. |
| `Results.HandleResult` | app.py:235-247 | The error path is taken iff the result is a dict with an `"error"` key, and it shows that key's value. A non-dict result crashes. A dict without `"error"` crashes iff `documento_final` or `analisis_estrategico` is present but not a dict. Otherwise a missing analysis becomes `{}`, a missing title becomes `法律書狀` and a missing text becomes `''`. Present values are passed on unchanged. |
| `Document.WordDocument.constructor` | app.py:89 | A new document has no elements. |
| `Document.WordDocument.AddParagraph` | app.py:95 | Appends one paragraph with the given text and style and changes nothing else. |
| `Document.WordDocument.AddHeading` | app.py:96-98 | Appends one heading with the given text and level. |
| `Document.WordDocument.AddPageBreak` | app.py:101 | Appends one page break. |
| `Document.CreateDocument` | app.py:88-110 | Builds a fresh document, by successive appends, whose elements are exactly the export layout for the given title, body, analysis and recipient. |
| `Document.LayoutStructure` | app.py:95-105 | The document has nine elements in this order: the recipient line in Heading 2 style; the title, the only level-0 heading; the content heading `書狀內容 (Content):` at level 1; the body; the only page break; the analysis heading at level 1; then the status, strategy and legal-basis lines in Normal style, each showing its analysis entry or `N/A` when the entry is missing. |
| `Frontend.Submit` | app.py:221-262 | An incomplete form gives the warning, sends nothing and leaves the counter unchanged. A request is sent only for a complete form under the quota, and it is the assembled prompt. The counter grows by at most one and stays within the ceiling. A document is exported only from an answer that was read, parsed to a dict without `"error"` and charged one call. For a complete form, the sent prompt and the new counter are those of the generation call, and the screen follows `HandleResult` of its result: its error is shown, its crash crashes the page, and a document is exported exactly when it extracts fields. The document shows the extracted title, text and analysis, laid out for the recipient typed in. |
| `Frontend.SubmitForm` | app.py:221-262 | Running a submission against a session gives the screen, the sent prompt and the new counter of `Submit`, and keeps the session's invariant. |
| `Frontend.QuotaExhausted` | app.py:114-115 | With the quota used up, a complete form shows the limit message. It sends nothing and leaves the counter unchanged. |
| `Frontend.ServiceRaised` | app.py:158-163 | A raising service (a timeout, for example) shows `系統發生錯誤 (System Error): ` followed by its cause. It exports nothing and does not change the counter. |
| `Frontend.AnswerNotJson` | app.py:159-163 | An answer that `json.loads` rejects is shown as an error with the prefixed cause, never as an empty document. It still costs one call. |
| `Frontend.AnswerCarriesError` | app.py:235-236 | A decoded answer that is a dict with an `"error"` key is shown as that error. |
| `Frontend.AnswerExported` | app.py:237-262 | An answer that is read, decoded and extracted without error is exported with exactly the extracted title, text and analysis, laid out for the recipient typed in. The prompt was sent and one call is charged. |
| `Frontend.LoanScenario` | app.py:222-232 | Take a form with only recipient, facts and objective filled in. Its prompt contains the facts and the objective verbatim, the default tone, and both fallback phrases. |

## Left out

- Page configuration, CSS, the header and disclaimer, the form widgets, the spinner and the status caption (app.py:14-70, 167-219, 264-265): presentation only.
- The preview markdown (app.py:241-251) and the download button with its file name `f"{titulo}.docx"` (app.py:253-262): rendering only. The model stops at the extracted values and the document elements.
- Reading the API key, `genai.configure` and `st.stop` (app.py:75-80): configuration I/O at start-up.
- Building the Gemini model and its generation settings (temperature 0.4, top_p 0.95, 8192 output tokens, JSON response type; app.py:117-128), and the network call itself (app.py:159): a foreign client, replaced by the `RemoteOutcome` parameter. The prompt that would be sent is returned as `sent`.
- The internals of `json.loads`: replaced by the `parse` parameter. JSON numbers are kept only as their literal text, and Python dict ordering is not modelled (`map`).
- The system instruction from organon_prompts.py and the import fallback (app.py:8-11): a constant natural-language text with no logic. organon_prompts.py is not part of this model.
- python-docx fonts, styles and the `BytesIO` save and seek (app.py:89-93, 107-110): a foreign library and byte serialisation. Only the element sequence is modelled.
- `Document.LayoutStructure`: does not model how `str()` renders a non-string value inside the f-string lines, or what python-docx does with a non-string title or body. The elements keep the decoded value.
- Concurrent use of `st.session_state`: the model assumes one submission at a time per session.
