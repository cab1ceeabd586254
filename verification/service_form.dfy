/**
 * The admin's package form: name, base price, description and a free-form
 * list of option rows. Rows can be added, edited and removed without any
 * check: names may repeat and prices may be negative.
 */
module ServiceFormModal {
  import opened Types

  /** The form's contents: a package without its id. */
  datatype ServiceForm = ServiceForm(name: string, price: int, desc: string, options: seq<ServiceOption>)

  /** One edit of an option row: `handleOptionChange(i, 'name', v)` or `(i, 'price', v)`. */
  datatype OptionEdit = SetName(name: string) | SetPrice(price: int)

  /** What the form shows when it opens: the package being edited, or blanks for a new one. */
  function LoadForm(service: Option<StudioService>): (f: ServiceForm)
    ensures service.None? ==> f == ServiceForm("", 0, "", [])
    ensures service.Some? ==>
      && f.name == service.value.name && f.price == service.value.price
      && f.desc == service.value.desc && f.options == service.value.options
  {
    match service
    case None => ServiceForm("", 0, "", [])
    case Some(s) => ServiceForm(s.name, s.price, s.desc, s.options)
  }

  /** `handleAddOption`: a blank row (empty name, price 0) at the end. */
  function AddOption(f: ServiceForm): (r: ServiceForm)
    ensures |r.options| == |f.options| + 1
    ensures r.options[..|f.options|] == f.options
    ensures r.options[|f.options|] == ServiceOption("", 0)
    ensures r.(options := f.options) == f
  {
    f.(options := f.options + [ServiceOption("", 0)])
  }

  /** `handleOptionChange`: one field of row `i` takes the new value. */
  function ChangeOption(f: ServiceForm, i: int, edit: OptionEdit): (r: ServiceForm)
    requires 0 <= i < |f.options|
    ensures |r.options| == |f.options|
    ensures forall k :: 0 <= k < |f.options| && k != i ==> r.options[k] == f.options[k]
    ensures edit.SetName? ==> r.options[i] == f.options[i].(name := edit.name)
    ensures edit.SetPrice? ==> r.options[i] == f.options[i].(price := edit.price)
    ensures r.(options := f.options) == f
  {
    var row := match edit
      case SetName(n) => f.options[i].(name := n)
      case SetPrice(p) => f.options[i].(price := p);
    f.(options := f.options[i := row])
  }

  /**
   * `options.filter((_, k) => k !== i)`: the row at index `i` is dropped, if
   * there is one; an index out of range removes nothing.
   */
  function DropIndex(rows: seq<ServiceOption>, i: int): (r: seq<ServiceOption>)
    ensures 0 <= i < |rows| ==> |r| == |rows| - 1 && r == rows[..i] + rows[i + 1..]
    ensures !(0 <= i < |rows|) ==> r == rows
    decreases |rows|
  {
    if |rows| == 0 then []
    else if i == 0 then rows[1..]
    else [rows[0]] + DropIndex(rows[1..], i - 1)
  }

  /** `handleRemoveOption`. */
  function RemoveOption(f: ServiceForm, i: int): (r: ServiceForm)
    ensures !(0 <= i < |f.options|) ==> r == f
    ensures 0 <= i < |f.options| ==> |r.options| == |f.options| - 1
    ensures forall k :: 0 <= k < i && k < |f.options| ==> r.options[k] == f.options[k]
    ensures forall k :: i <= k < |f.options| - 1 && 0 <= i ==> r.options[k] == f.options[k + 1]
    ensures r.(options := f.options) == f
  {
    f.(options := DropIndex(f.options, i))
  }

  /**
   * `handleSubmit`: the edited package keeps its id when it has a non-empty
   * one; otherwise the caller-supplied fresh id is used. The rest comes from
   * the form.
   */
  function SubmitForm(service: Option<StudioService>, f: ServiceForm, freshId: string): (s: StudioService)
    ensures service.Some? && service.value.id != "" ==> s.id == service.value.id
    ensures service.None? || service.value.id == "" ==> s.id == freshId
    ensures s.name == f.name && s.price == f.price && s.desc == f.desc && s.options == f.options
  {
    var id := if service.Some? && service.value.id != "" then service.value.id else freshId;
    StudioService(id, f.name, f.price, f.desc, f.options)
  }

  /** Opening a package for edit and submitting it untouched gives back the same package. */
  lemma LoadSubmitRoundTrip(service: StudioService, freshId: string)
    requires service.id != ""
    ensures SubmitForm(Some(service), LoadForm(Some(service)), freshId) == service
  {}

  /** Adding a row and removing it again restores the form. */
  lemma AddThenRemove(f: ServiceForm)
    ensures RemoveOption(AddOption(f), |f.options|) == f
  {
    assert AddOption(f).options[..|f.options|] == f.options;
  }

  /** Editing a row and then putting back its old value restores the form. */
  lemma ChangeThenRestore(f: ServiceForm, i: int, edit: OptionEdit)
    requires 0 <= i < |f.options|
    ensures var prior := f.options[i];
      var undo := if edit.SetName? then SetName(prior.name) else SetPrice(prior.price);
      ChangeOption(ChangeOption(f, i, edit), i, undo) == f
  {
    var g := ChangeOption(f, i, edit);
    var undo := if edit.SetName? then SetName(f.options[i].name) else SetPrice(f.options[i].price);
    var h := ChangeOption(g, i, undo);
    assert h.options == f.options;
  }
}
