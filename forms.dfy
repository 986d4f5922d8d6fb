/** What the two list pages' form handlers share: the add guard, the
    delete-selection guard, and the mapping of empty form fields to
    `undefined`. */
module Forms {
  import opened Common
  import opened Text

  /** The result of a form handler: nothing dispatched, or the request sent
      and the form state set after it succeeds. */
  datatype Step<Dto, Form> = Ignored | Submitted(dto: Dto, after: Form)

  /** `!form.name.trim() || form.amount <= 0` stops `handleAdd`: it goes on
      exactly for a name that is not all whitespace and a positive amount. */
  function AddAllowed(name: string, amount: int): (ok: bool)
    ensures ok <==> !IsBlank(name) && amount > 0
  {
    Trim(name) != "" && amount > 0
  }

  /** `handleDeleteSelected`: nothing for an empty selection; otherwise the
      selection is sent and, after success, emptied. */
  function HandleDeleteSelected(selected: seq<string>): (r: Step<seq<string>, seq<string>>)
    ensures r.Ignored? <==> |selected| == 0
    ensures r.Submitted? ==> r.dto == selected && r.after == []
  {
    if |selected| == 0 then Ignored else Submitted(selected, [])
  }

  /** `value || undefined` */
  function TextOrUndefined(s: string): (r: Option<string>)
    ensures r.None? <==> s == ""
    ensures r.Some? ==> r.value == s
  {
    if s == "" then None else Some(s)
  }

  /** `value ? Number(value) : undefined`; `otherwise` is what `Number` gives
      for text that is not a whole number (see `NumberOf`). */
  function NumberOrUndefined(s: string, otherwise: JsNumber): (r: Option<JsNumber>)
    ensures r.None? <==> s == ""
    ensures r.Some? ==> r.value == NumberOf(s, otherwise)
  {
    if s == "" then None else Some(NumberOf(s, otherwise))
  }
}
