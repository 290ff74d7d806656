/** The validation rules the pages' forms register with react-hook-form. */
module FormRules {
  import opened Wrappers

  /** `required: message`: the rule rejects the empty string, and only it, with its message. */
  function Required(value: string, message: string): (e: Option<string>)
    ensures e.Some? <==> value == ""
    ensures e.Some? ==> e.value == message
  {
    if value == "" then Some(message) else None
  }
}
