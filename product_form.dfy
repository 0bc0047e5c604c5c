/**
 * The product creation form: one record of two fields, overwritten by each
 * field's change handler and handed to the page's submit handler. The
 * browser's constraint validation of the form's inputs decides whether the
 * submit handler runs at all. Submitting is split at its await: the call with
 * the current fields, then the outcome of that asynchronous handler, an
 * input. When it resolves the form is reset; when it rejects the rejection
 * leaves the submit handler before the reset. Edits and further submits may
 * come between the two halves.
 */
module ProductForm {
  import opened Types

  /** The form fields; `price` is the number the price input produced. */
  datatype FormData = FormData(name: string, price: real)

  const InitialForm: FormData := FormData("", 0.0)

  /** Constraint validation of the form: the name input is `required`, and
      the number input has `min="0"` and no `step`, so its step is 1 counted
      from 0 and only whole non-negative prices pass. A form that fails
      blocks the submit event, and the handler never runs. */
  predicate Submittable(f: FormData) {
    f.name != "" && f.price >= 0.0 && f.price == f.price.Floor as real
  }

  /** An empty name, a negative price or a fractional price is refused;
      a named form with a whole price passes. */
  lemma ValidationExamples()
    ensures !Submittable(InitialForm)
    ensures !Submittable(FormData("Widget", -1.0))
    ensures !Submittable(FormData("Widget", 10.5))
    ensures Submittable(FormData("Widget", 10.0))
  {
  }

  /** How the awaited submit handler settled. */
  datatype HandlerOutcome = Resolved | Rejected

  class FormState {
    var formData: FormData

    constructor ()
      ensures formData == InitialForm
    {
      formData := InitialForm;
    }

    /** The name input's change handler. */
    method EditName(name: string)
      modifies this
      ensures formData == old(formData).(name := name)
    {
      formData := formData.(name := name);
    }

    /** The price input's change handler, given the parsed number. */
    method EditPrice(price: real)
      modifies this
      ensures formData == old(formData).(price := price)
    {
      formData := formData.(price := price);
    }

    /** A click on the submit button, up to the handler's await: when the
        fields pass validation the handler is called once with the fields as
        they are now, otherwise the submit is blocked and nothing is sent.
        Nothing changes yet either way. The inputs and the submit button stay
        live while the call is pending. */
    method BeginSubmit() returns (submitted: Option<FormData>)
      ensures submitted.Some? <==> Submittable(formData)
      ensures submitted.Some? ==> submitted.value == formData
    {
      if Submittable(formData) {
        submitted := Some(formData);
      } else {
        submitted := None;
      }
    }

    /** The submit handler after its await: once the handler resolves the
        form is reset, whatever was typed in the meantime; a rejection leaves
        the handler before the reset, so the fields stay as they are. */
    method SettleSubmit(outcome: HandlerOutcome)
      modifies this
      ensures formData == if outcome == Resolved then InitialForm else old(formData)
    {
      if outcome == Resolved {
        formData := InitialForm;
      }
    }
  }

  /** A name edit followed by a price edit submits both values when they
      pass validation and nothing otherwise. Once a handler call resolves the
      form is empty again, and a further click is blocked until a name is
      typed. */
  method SubmitScenario(name: string, price: real) returns (submitted: Option<FormData>, after: FormData, again: Option<FormData>)
    ensures submitted == if Submittable(FormData(name, price)) then Some(FormData(name, price)) else None
    ensures submitted.Some? ==> after == InitialForm && again == None
    ensures submitted.None? ==> after == FormData(name, price)
  {
    var form := new FormState();
    form.EditName(name);
    form.EditPrice(price);
    submitted := form.BeginSubmit();
    if submitted.Some? {
      form.SettleSubmit(Resolved);
    }
    after := form.formData;
    again := form.BeginSubmit();
  }

  /** A name typed while the handler is pending is not what was submitted;
      it is wiped when the handler resolves and kept when it rejects. */
  method EditWhilePendingScenario(first: string, second: string, outcome: HandlerOutcome)
    returns (submitted: Option<FormData>, after: FormData)
    requires first != ""
    ensures submitted == Some(FormData(first, 0.0))
    ensures after == if outcome == Resolved then InitialForm else FormData(second, 0.0)
  {
    var form := new FormState();
    form.EditName(first);
    submitted := form.BeginSubmit();
    form.EditName(second);
    form.SettleSubmit(outcome);
    after := form.formData;
  }

  /** Two submits while the first call is pending send the same fields
      twice. */
  method DoubleSubmitScenario(name: string) returns (first: Option<FormData>, second: Option<FormData>)
    requires name != ""
    ensures first == second == Some(FormData(name, 0.0))
  {
    var form := new FormState();
    form.EditName(name);
    first := form.BeginSubmit();
    second := form.BeginSubmit();
    form.SettleSubmit(Resolved);
    form.SettleSubmit(Resolved);
  }
}
