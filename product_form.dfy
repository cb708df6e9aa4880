/** The React add-product form: two text fields, validated and cleared on submit. */
module ProductFormComponent {
  import opened Wrappers
  import opened JsValues
  import opened FormChecks

  /** A call `onAddProduct(name, price)` handed to the products page. */
  datatype AddCall = AddCall(name: string, price: string)

  class Form {
    var name: string
    var price: string

    constructor ()
      ensures name == "" && price == ""
    {
      name := "";
      price := "";
    }

    /** The name input's `onChange`. */
    method ChangeName(value: string)
      modifies this`name
      ensures name == value
    {
      name := value;
    }

    /** The price input's `onChange`. */
    method ChangePrice(value: string)
      modifies this`price
      ensures price == value
    {
      price := value;
    }

    /**
     * `handleSubmit`: a filled form is handed on as typed (the name is not
     * trimmed) and both fields are cleared; otherwise nothing happens.
     */
    method Submit() returns (call: Option<AddCall>)
      modifies this
      ensures ProductFieldsFilled(old(name), Str(old(price))) ==>
        call == Some(AddCall(old(name), old(price))) && name == "" && price == ""
      ensures !ProductFieldsFilled(old(name), Str(old(price))) ==>
        call == None && name == old(name) && price == old(price)
    {
      if !ProductFieldsFilled(name, Str(price)) {
        return None;
      }
      call := Some(AddCall(name, price));
      name := "";
      price := "";
    }
  }
}
