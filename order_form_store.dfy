/**
 * The admin order-form store of src/store/orderFormStore.ts: a `form` object
 * that `setField`, `reset` and `loadOrder` overwrite. The form is a map from
 * its keys to JavaScript values, so that a missing `id` and an `id` that is
 * present but undefined stay distinct, as they are in the store.
 */
module OrderFormStore {
  import opened Wrappers

  datatype FormKey = Id | CustomerName | Phone | Total | Status

  /** A value a form field can hold (`setField` accepts any value). */
  datatype JsValue = Undefined | Str(s: string) | Num(n: int)

  type Form = map<FormKey, JsValue>

  /** The default form: `{customer_name: '', phone: '', total: 0, status: 'pending'}`, without `id`. */
  function DefaultForm(): (f: Form)
    ensures Id !in f && f.Keys == {CustomerName, Phone, Total, Status}
    ensures f[CustomerName] == Str("") && f[Phone] == Str("") && f[Total] == Num(0) && f[Status] == Str("pending")
  {
    map[CustomerName := Str(""), Phone := Str(""), Total := Num(0), Status := Str("pending")]
  }

  /** `Partial<Order>` as `loadOrder` reads it. */
  datatype OrderPatch = OrderPatch(
    id: Option<string>,
    customer_name: Option<string>,
    phone: Option<string>,
    total: Option<int>,
    status: Option<string>)

  /** `s || fallback` for an optional string: undefined and '' are falsy. */
  function OrString(s: Option<string>, fallback: string): (r: string)
    ensures s.None? || s == Some("") ==> r == fallback
    ensures s.Some? && s.value != "" ==> r == s.value
  {
    if s.Some? && s.value != "" then s.value else fallback
  }

  /** `n || fallback` for an optional number: undefined and 0 are falsy. */
  function OrNumber(n: Option<int>, fallback: int): (r: int)
    ensures n.None? || n == Some(0) ==> r == fallback
    ensures n.Some? && n.value != 0 ==> r == n.value
  {
    if n.Some? && n.value != 0 then n.value else fallback
  }

  /** The form `loadOrder` writes: `id` as given (possibly undefined), defaults for falsy fields. */
  function Loaded(order: OrderPatch): (f: Form)
    ensures f.Keys == DefaultForm().Keys + {Id}
    ensures f[Id] == (if order.id.Some? then Str(order.id.value) else Undefined)
    ensures f[CustomerName] == Str(OrString(order.customer_name, ""))
    ensures f[Phone] == Str(OrString(order.phone, ""))
    ensures f[Total] == Num(OrNumber(order.total, 0))
    ensures f[Status] == Str(OrString(order.status, "pending"))
  {
    map[Id := if order.id.Some? then Str(order.id.value) else Undefined,
        CustomerName := Str(OrString(order.customer_name, "")),
        Phone := Str(OrString(order.phone, "")),
        Total := Num(OrNumber(order.total, 0)),
        Status := Str(OrString(order.status, "pending"))]
  }

  class OrderFormState {
    var form: Form

    /** The store is created holding the default form. */
    constructor ()
      ensures form == DefaultForm()
    {
      form := DefaultForm();
    }

    /** `setField(key, value)`: `{ ...state.form, [key]: value }` */
    method SetField(key: FormKey, value: JsValue)
      modifies this
      ensures form == old(form)[key := value]
      ensures form[key] == value
      ensures forall k :: k != key ==> (k in form <==> k in old(form)) && (k in form ==> form[k] == old(form)[k])
    {
      form := form[key := value];
    }

    /** `reset()` */
    method Reset()
      modifies this
      ensures form == DefaultForm()
      ensures Id !in form
    {
      form := DefaultForm();
    }

    /** `loadOrder(order)`: the whole form is replaced, nothing of the previous one survives. */
    method LoadOrder(order: OrderPatch)
      modifies this
      ensures form == Loaded(order)
    {
      form := Loaded(order);
    }
  }

  /** Loading an order whose every field is falsy gives the default form plus an undefined `id`. */
  lemma LoadEmptyIsDefault()
    ensures Loaded(OrderPatch(None, None, None, None, None)) == DefaultForm()[Id := Undefined]
  {
    var l := Loaded(OrderPatch(None, None, None, None, None));
    var d := DefaultForm()[Id := Undefined];
    assert l.Keys == d.Keys;
    assert forall k :: k in l ==> l[k] == d[k];
  }

  /** Whatever was loaded, every field but `id` holds a string or number, never undefined. */
  lemma LoadedFieldsDefined(order: OrderPatch)
    ensures forall k :: k in Loaded(order) && k != Id ==> !Loaded(order)[k].Undefined?
  {
  }
}
