/** One React product row: shown, or being edited with its own name and price buffers. */
module ProductItemComponent {
  import opened JsValues
  import opened JsStrings
  import opened ProductSchema
  import opened FormChecks

  /** A call `onUpdateProduct(product._id, editName, editPrice)` handed to the products page. */
  datatype UpdateCall = UpdateCall(id: string, name: string, price: JsValue)

  /**
   * What a click on Save did: nothing (a blank name or a falsy price), threw
   * (the name buffer holds no string, so `trim` is not a function), or handed
   * an update on.
   */
  datatype SaveOutcome = Ignored | Threw | Saved(call: UpdateCall)

  class Item {
    var product: Product
    var isEditing: bool
    var editName: JsValue
    var editPrice: JsValue

    /** The buffers start as the product's own name and price. */
    constructor (p: Product)
      ensures product == p && !isEditing && editName == p.name && editPrice == p.price
    {
      product := p;
      isEditing := false;
      editName := p.name;
      editPrice := p.price;
    }

    /**
     * A new `product` prop for the same row (the list is keyed by id); the
     * buffers keep their state.
     */
    method Receive(p: Product)
      requires p.id == product.id
      modifies this`product
      ensures product == p
    {
      product := p;
    }

    /** `handleEdit`. */
    method Edit()
      modifies this`isEditing
      ensures isEditing
    {
      isEditing := true;
    }

    /** The name input's `onChange`. */
    method ChangeName(value: string)
      modifies this`editName
      ensures editName == Str(value)
    {
      editName := Str(value);
    }

    /** The price input's `onChange`. */
    method ChangePrice(value: string)
      modifies this`editPrice
      ensures editPrice == Str(value)
    {
      editPrice := Str(value);
    }

    /** `handleSave`: a filled edit is handed on untrimmed and editing ends; otherwise nothing changes. */
    method Save() returns (outcome: SaveOutcome)
      modifies this`isEditing
      ensures !editName.Str? ==> outcome == Threw && isEditing == old(isEditing)
      ensures editName.Str? && !ProductFieldsFilled(editName.s, editPrice) ==>
        outcome == Ignored && isEditing == old(isEditing)
      ensures editName.Str? && ProductFieldsFilled(editName.s, editPrice) ==>
        outcome == Saved(UpdateCall(product.id, editName.s, editPrice)) && !isEditing
    {
      if !editName.Str? {
        return Threw;
      }
      if Trim(editName.s) == "" || !Truthy(editPrice) {
        return Ignored;
      }
      outcome := Saved(UpdateCall(product.id, editName.s, editPrice));
      isEditing := false;
    }

    /** `handleCancel`: editing ends and the buffers go back to the product's values. */
    method Cancel()
      modifies this`isEditing, this`editName, this`editPrice
      ensures !isEditing && editName == product.name && editPrice == product.price
    {
      isEditing := false;
      editName := product.name;
      editPrice := product.price;
    }
  }
}
