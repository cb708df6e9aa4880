/**
 * The React products page: the list of products and the status message, and
 * how each server reply changes them. The network call itself is an input:
 * what `fetch` and `response.json()` produced.
 */
module ProductsView {
  import opened Wrappers
  import opened JsValues
  import opened ProductSchema

  /**
   * The outcome of one request: `fetch` or `response.json()` threw (with the
   * error's message), the response was not ok, or the JSON reply arrived with
   * the truthiness of its `success`, its `data` and its `message`.
   */
  datatype Fetch<T> = Threw(error: string) | NotOk | Replied(success: bool, data: T, message: JsValue)

  /** The message shown after a failed request; `notOk` is the text of the error thrown for `!response.ok`. */
  function FailureMessage<T>(reply: Fetch<T>, notOk: string): JsValue {
    match reply
    case Threw(e) => Str(e)
    case NotOk => Str(notOk)
    case Replied(_, _, m) => m
  }

  /** What the authentication effect does once its inputs change. */
  datatype EffectAction = Wait | GoToLogin | LoadProducts

  /** The effect on `[isAuthenticated, loading]`: nothing while loading, else redirect or load. */
  function AuthEffect(loading: bool, isAuthenticated: bool): (a: EffectAction)
    ensures a == GoToLogin <==> !loading && !isAuthenticated
    ensures a == LoadProducts <==> !loading && isAuthenticated
  {
    if loading then Wait
    else if !isAuthenticated then GoToLogin
    else LoadProducts
  }

  /** `products.map(p => p._id === id ? { ...p, name, price } : p)`. */
  function WithEdit(products: seq<Product>, id: string, name: string, price: JsValue): (r: seq<Product>)
    ensures |r| == |products|
    ensures forall i :: 0 <= i < |products| && products[i].id == id ==>
      r[i] == products[i].(name := Str(name), price := price)
    ensures forall i :: 0 <= i < |products| && products[i].id != id ==> r[i] == products[i]
  {
    if products == [] then []
    else
      var p := products[0];
      [if p.id == id then p.(name := Str(name), price := price) else p] + WithEdit(products[1..], id, name, price)
  }

  /** Editing an id that no product has leaves the list as it was. */
  lemma WithEditAbsent(products: seq<Product>, id: string, name: string, price: JsValue)
    requires forall i :: 0 <= i < |products| ==> products[i].id != id
    ensures WithEdit(products, id, name, price) == products
  {
  }

  /** `products.filter(p => p._id !== id)`. */
  function Without(products: seq<Product>, id: string): (r: seq<Product>)
    ensures |r| <= |products|
    ensures forall p :: p in r <==> p in products && p.id != id
  {
    if products == [] then []
    else if products[0].id == id then Without(products[1..], id)
    else [products[0]] + Without(products[1..], id)
  }

  /** Filtering works piece by piece, so the products that stay keep their relative order. */
  lemma {:induction false} WithoutConcat(xs: seq<Product>, ys: seq<Product>, id: string)
    ensures Without(xs + ys, id) == Without(xs, id) + Without(ys, id)
  {
    if xs == [] {
      assert xs + ys == ys;
    } else {
      assert (xs + ys)[0] == xs[0] && (xs + ys)[1..] == xs[1..] + ys;
      WithoutConcat(xs[1..], ys, id);
      if xs[0].id != id {
        assert [xs[0]] + (Without(xs[1..], id) + Without(ys, id))
            == ([xs[0]] + Without(xs[1..], id)) + Without(ys, id);
      }
    }
  }

  /** Deleting an id that no product has leaves the list as it was. */
  lemma {:induction false} WithoutAbsent(products: seq<Product>, id: string)
    requires forall i :: 0 <= i < |products| ==> products[i].id != id
    ensures Without(products, id) == products
  {
    if products != [] {
      WithoutAbsent(products[1..], id);
      assert [products[0]] + products[1..] == products;
    }
  }

  /** The state of one products page. */
  class Page {
    var products: seq<Product>
    var message: JsValue
    var messageType: string

    constructor ()
      ensures products == [] && message == Str("") && messageType == ""
    {
      products := [];
      message := Str("");
      messageType := "";
    }

    /** Records a failed request: the list stays, the message becomes an error. */
    method Fail(m: JsValue)
      modifies this`message, this`messageType
      ensures message == m && messageType == "error"
    {
      message := m;
      messageType := "error";
    }

    /** `loadProducts`: a successful reply replaces the list with the server's data. */
    method Load(reply: Fetch<seq<Product>>)
      modifies this
      ensures reply.Replied? && reply.success ==>
        products == reply.data && message == old(message) && messageType == old(messageType)
      ensures !(reply.Replied? && reply.success) ==>
        products == old(products) && message == FailureMessage(reply, "Failed to load products")
        && messageType == "error"
    {
      if reply.Replied? && reply.success {
        products := reply.data;
      } else {
        Fail(FailureMessage(reply, "Failed to load products"));
      }
    }

    /** `handleAddProduct`: the product the server returns is appended. */
    method Add(reply: Fetch<Option<Product>>)
      modifies this
      ensures reply.Replied? && reply.success && reply.data.Some? ==>
        products == old(products) + [reply.data.value]
        && message == Str("Product added successfully") && messageType == "success"
      ensures !(reply.Replied? && reply.success && reply.data.Some?) ==>
        products == old(products) && message == FailureMessage(reply, "Failed to add product")
        && messageType == "error"
    {
      if reply.Replied? && reply.success && reply.data.Some? {
        products := products + [reply.data.value];
        message := Str("Product added successfully");
        messageType := "success";
      } else {
        Fail(FailureMessage(reply, "Failed to add product"));
      }
    }

    /** `handleUpdateProduct`: on success the products with that id take the new name and price. */
    method Update(id: string, name: string, price: JsValue, reply: Fetch<()>)
      modifies this
      ensures reply.Replied? && reply.success ==>
        products == WithEdit(old(products), id, name, price)
        && message == Str("Product updated successfully") && messageType == "success"
      ensures !(reply.Replied? && reply.success) ==>
        products == old(products) && message == FailureMessage(reply, "Failed to update product")
        && messageType == "error"
    {
      if reply.Replied? && reply.success {
        products := WithEdit(products, id, name, price);
        message := Str("Product updated successfully");
        messageType := "success";
      } else {
        Fail(FailureMessage(reply, "Failed to update product"));
      }
    }

    /** `handleDeleteProduct`: nothing happens unless confirmed; on success the products with that id go. */
    method Delete(id: string, confirmed: bool, reply: Fetch<()>)
      modifies this
      ensures !confirmed ==>
        products == old(products) && message == old(message) && messageType == old(messageType)
      ensures confirmed && reply.Replied? && reply.success ==>
        products == Without(old(products), id)
        && message == Str("Product deleted successfully") && messageType == "success"
      ensures confirmed && !(reply.Replied? && reply.success) ==>
        products == old(products) && message == FailureMessage(reply, "Failed to delete product")
        && messageType == "error"
    {
      if !confirmed {
        return;
      }
      if reply.Replied? && reply.success {
        products := Without(products, id);
        message := Str("Product deleted successfully");
        messageType := "success";
      } else {
        Fail(FailureMessage(reply, "Failed to delete product"));
      }
    }
  }
}
