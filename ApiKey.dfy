/** The API-key form (components/ApiKeyModal.tsx). Saving itself (`onSave`) belongs to the caller. */
module ApiKey {
  import opened Wrappers
  import opened JsText

  /** The submit button is disabled when the trimmed input is empty. */
  predicate SubmitDisabled(input: string) {
    Trim(input) == ""
  }

  /** The form's two state hooks. */
  class ApiKeyForm {
    var inputValue: string
    var showKey: bool

    constructor ()
      ensures inputValue == "" && !showKey
    {
      inputValue := "";
      showKey := false;
    }

    /** The pre-fill effect, run when `isOpen` or `existingKey` changes: an existing key replaces the input. */
    method Prefill(isOpen: bool, existingKey: Option<string>)
      modifies this
      ensures inputValue == if isOpen && Truthy(existingKey) then existingKey.value else old(inputValue)
      ensures showKey == old(showKey)
    {
      if isOpen && Truthy(existingKey) {
        inputValue := existingKey.value;
      }
    }

    /** Typing into the field. */
    method Edit(value: string)
      modifies this
      ensures inputValue == value && showKey == old(showKey)
    {
      inputValue := value;
    }

    /** The show/hide button: flips `showKey`, never touches the input. */
    method ToggleShowKey()
      modifies this
      ensures showKey == !old(showKey) && inputValue == old(inputValue)
    {
      showKey := !showKey;
    }

    /**
      Submitting the form: returns the value handed to `onSave`, if any. Only a
      non-blank input is saved, and what is saved is the trimmed input, which
      has no white space at either end and is its own trim.
    */
    method Submit() returns (saved: Option<string>)
      ensures saved.None? <==> SubmitDisabled(inputValue)
      ensures saved.None? <==> AllSpaces(inputValue)
      ensures saved.Some? ==> saved.value == Trim(inputValue) && saved.value != ""
      ensures saved.Some? ==> Trimmed(saved.value) && Trim(saved.value) == saved.value
    {
      var trimmed := Trim(inputValue);
      TrimEmptyIff(inputValue);
      if trimmed != "" {
        TrimIdempotent(inputValue);
        saved := Some(trimmed);
      } else {
        saved := None;
      }
    }
  }

  /** What the open form shows. */
  datatype FormView = FormView(closeButton: bool, inputType: string, value: string, submitDisabled: bool)

  /** A closed form renders nothing; the close button is offered only when a key already exists. */
  function Render(isOpen: bool, existingKey: Option<string>, inputValue: string, showKey: bool): (v: Option<FormView>)
    ensures v.None? <==> !isOpen
    ensures v.Some? ==> (v.value.closeButton <==> Truthy(existingKey))
    ensures v.Some? ==> v.value.value == inputValue
    ensures v.Some? ==> (v.value.inputType == "text" <==> showKey)
    ensures v.Some? ==> (v.value.submitDisabled <==> AllSpaces(inputValue))
  {
    TrimEmptyIff(inputValue);
    if !isOpen then None
    else Some(FormView(Truthy(existingKey), if showKey then "text" else "password", inputValue, SubmitDisabled(inputValue)))
  }
}
