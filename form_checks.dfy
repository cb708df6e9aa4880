/**
 * The product-form check shared by both clients: a name that is not all
 * white space and a truthy price.
 */
module FormChecks {
  import opened JsValues
  import opened JsStrings

  /** `!name.trim() || !price` is false: the form may be sent. */
  predicate ProductFieldsFilled(name: string, price: JsValue) {
    Trim(name) != "" && Truthy(price)
  }

  /**
   * The form is accepted exactly when the name has a character that is not
   * white space and the price is truthy.
   */
  lemma FilledIff(name: string, price: JsValue)
    ensures ProductFieldsFilled(name, price) <==> !Blank(name) && Truthy(price)
  {
    TrimEmptyIffBlank(name);
  }
}
