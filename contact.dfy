/** The Contact page form: a four-field record that each input's change
    event rewrites one field of, and a submit handler that reads it. */
module ContactPage {

  /** The form's fields, keyed by the `name` attribute of its inputs. */
  type Form = map<string, string>

  /** The `name` attributes of the page's four inputs. */
  const InputNames: set<string> := {"name", "email", "subject", "message"}

  /** The form as it starts: the four fields, all empty. */
  const InitialForm: Form := map["name" := "", "email" := "", "subject" := "", "message" := ""]

  /** The starting form has exactly the four input names as keys, and every
      value is empty. */
  lemma InitialFormFields()
    ensures InitialForm.Keys == InputNames
    ensures forall k :: k in InitialForm ==> InitialForm[k] == ""
  {
  }

  /** `{...formData, [name]: value}`: the named field gets the new value and
      every other field keeps its own. */
  function Change(form: Form, name: string, value: string): (r: Form)
    ensures r.Keys == form.Keys + {name}
    ensures r[name] == value
    ensures forall k :: k in form && k != name ==> r[k] == form[k]
  {
    form[name := value]
  }

  /** A change through one of the four inputs keeps the key set the four. */
  lemma ChangeKeepsFields(form: Form, name: string, value: string)
    requires form.Keys == InputNames && name in InputNames
    ensures Change(form, name, value).Keys == InputNames
  {
  }

  /** Repeating a change changes nothing more. */
  lemma ChangeIdempotent(form: Form, name: string, value: string)
    ensures Change(Change(form, name, value), name, value) == Change(form, name, value)
  {
  }

  /** Of two changes to the same field, the later one wins. */
  lemma LastChangeWins(form: Form, name: string, first: string, second: string)
    ensures Change(Change(form, name, first), name, second) == Change(form, name, second)
  {
  }

  /** Changes to two different fields can happen in either order. */
  lemma ChangesCommute(form: Form, n1: string, v1: string, n2: string, v2: string)
    requires n1 != n2
    ensures Change(Change(form, n1, v1), n2, v2) == Change(Change(form, n2, v2), n1, v1)
  {
  }

  /** One change event: the input's `name` and its new `value`. */
  datatype Edit = Edit(name: string, value: string)

  /** The form after a run of change events, oldest first. */
  function Replay(form: Form, edits: seq<Edit>): (r: Form)
    ensures form.Keys <= r.Keys
    decreases |edits|
  {
    if edits == [] then form
    else Replay(Change(form, edits[0].name, edits[0].value), edits[1..])
  }

  /** What a field holds after a run of edits: the value of the last edit to
      it, or what it held before when no edit names it. */
  function LastValue(before: string, edits: seq<Edit>, name: string): string
  {
    if edits == [] then before
    else if edits[|edits| - 1].name == name then edits[|edits| - 1].value
    else LastValue(before, edits[..|edits| - 1], name)
  }

  lemma ReplaySnoc(form: Form, edits: seq<Edit>, e: Edit)
    ensures Replay(form, edits + [e]) == Change(Replay(form, edits), e.name, e.value)
    decreases |edits|
  {
    if edits != [] {
      assert (edits + [e])[1..] == edits[1..] + [e];
      ReplaySnoc(Change(form, edits[0].name, edits[0].value), edits[1..], e);
    }
  }

  /** Any run of edits through the four inputs keeps the key set the four. */
  lemma {:induction false} ReplayKeepsFields(form: Form, edits: seq<Edit>)
    requires form.Keys == InputNames
    requires forall i :: 0 <= i < |edits| ==> edits[i].name in InputNames
    ensures Replay(form, edits).Keys == InputNames
    decreases |edits|
  {
    if edits != [] {
      ChangeKeepsFields(form, edits[0].name, edits[0].value);
      ReplayKeepsFields(Change(form, edits[0].name, edits[0].value), edits[1..]);
    }
  }

  /** After a run of edits, every field holds the value of the last edit
      naming it, or its old value when none does. */
  lemma {:induction false} ReplayLastValue(form: Form, edits: seq<Edit>, name: string)
    requires name in form
    ensures name in Replay(form, edits)
    ensures Replay(form, edits)[name] == LastValue(form[name], edits, name)
    decreases |edits|
  {
    if edits != [] {
      var init, e := edits[..|edits| - 1], edits[|edits| - 1];
      assert edits == init + [e];
      ReplaySnoc(form, init, e);
      ReplayLastValue(form, init, name);
    }
  }

  /** The page's form state. */
  class ContactForm {
    var formData: Form

    constructor ()
      ensures formData == InitialForm
    {
      formData := InitialForm;
    }

    /** The change handler shared by the four inputs. */
    method HandleChange(name: string, value: string)
      modifies this
      ensures formData == Change(old(formData), name, value)
      ensures old(formData.Keys) == InputNames && name in InputNames ==> formData.Keys == InputNames
    {
      formData := formData[name := value];
    }

    /** The submit handler: it hands the form to the console and changes no
        state; the form it logs is returned. */
    method HandleSubmit() returns (logged: Form)
      ensures logged == formData
    {
      logged := formData;
    }
  }
}
