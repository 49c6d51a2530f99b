/**
 * The order validators of src/features/orders/order.validators.ts. Each fills an
 * `errors` record key by key and reports `valid` when no key was written.
 */
module OrderValidators {
  import opened JsText
  import opened OrderTypes
  import PhoneNumber

  const NameMessage := "Имя должно содержать минимум 2 символа."
  const PhoneMessage := "Введите корректный казахстанский номер телефона."
  const AddressMessage := "Адрес должен содержать минимум 5 символов."
  const DeliveryMessage := "Необходимо выбрать способ доставки."
  const PaymentMessage := "Необходимо выбрать способ оплаты."
  const ItemsMessage := "Список товаров не может быть пустым."
  const ItemMessage := "У товара отсутствуют обязательные поля."
  const IdMessage := "ID заказа обязателен."
  const StatusMessage := "Недопустимый статус."

  /** The keys `validateOrderCreate` and `validateOrderStatusUpdate` write. */
  datatype ErrorKey =
    | CustomerName | Phone | Address | DeliveryMethod | PaymentMethod | Items
    | Item(idx: nat)
    | Id | Status

  /** The key as it appears in the returned record, e.g. `items[3]` for `Item(3)`. */
  function KeyName(key: ErrorKey): string {
    match key
    case CustomerName => "customer_name"
    case Phone => "phone"
    case Address => "address"
    case DeliveryMethod => "delivery_method"
    case PaymentMethod => "payment_method"
    case Items => "items"
    case Item(idx) => "items[" + NatToString(idx) + "]"
    case Id => "id"
    case Status => "status"
  }

  /** Distinct keys have distinct names, so a record over ErrorKey is the source's string-keyed record. */
  lemma KeyNameInjective(a: ErrorKey, b: ErrorKey)
    requires KeyName(a) == KeyName(b)
    ensures a == b
  {
    var ka, kb := KeyName(a), KeyName(b);
    if a.Item? && b.Item? {
      assert ka[6..|ka| - 1] == NatToString(a.idx);
      assert kb[6..|kb| - 1] == NatToString(b.idx);
      NatToStringInjective(a.idx, b.idx);
    } else if a.Item? || b.Item? {
      ItemKeyShape(if a.Item? then a.idx else b.idx);
      assert false;
    }
  }

  /** Only an item key is longer than six characters with '[' at index 5. */
  lemma ItemKeyShape(idx: nat)
    ensures var k := KeyName(Item(idx)); |k| >= 7 && k[5] == '['
  {
  }

  predicate IsFieldKey(key: ErrorKey) {
    key.CustomerName? || key.Phone? || key.Address? || key.DeliveryMethod? || key.PaymentMethod? || key.Items?
  }

  // The conditions as the source writes them; an empty string is JavaScript's falsy string.

  predicate NameRejected(p: OrderCreateInput) {
    p.customer_name == "" || |Trim(p.customer_name)| < 2
  }

  predicate AddressRejected(p: OrderCreateInput) {
    p.address == "" || |Trim(p.address)| < 5
  }

  /** `!i.id || !i.name || !i.price || !i.qty`: a zero price or quantity counts as missing. */
  predicate ItemIncomplete(i: OrderItem) {
    i.id == "" || i.name == "" || i.price == 0 || i.qty == 0
  }

  /** The keys the item loop writes after visiting the first n items. */
  function ItemErrorKeys(items: seq<OrderItem>, n: nat): set<ErrorKey>
    requires n <= |items|
  {
    set j | 0 <= j < n && ItemIncomplete(items[j]) :: Item(j)
  }

  /** The message each key carries. */
  function MessageFor(key: ErrorKey): string {
    match key
    case CustomerName => NameMessage
    case Phone => PhoneMessage
    case Address => AddressMessage
    case DeliveryMethod => DeliveryMessage
    case PaymentMethod => PaymentMessage
    case Items => ItemsMessage
    case Item(_) => ItemMessage
    case Id => IdMessage
    case Status => StatusMessage
  }

  /** Every check of `validateOrderCreate` passes. */
  predicate OrderCreateAccepted(p: OrderCreateInput) {
    && !NameRejected(p)
    && PhoneNumber.IsValidKazakhPhone(p.phone)
    && !AddressRejected(p)
    && p.delivery_method != ""
    && p.payment_method != ""
    && p.items != []
    && forall idx :: 0 <= idx < |p.items| ==> !ItemIncomplete(p.items[idx])
  }

  /** Whether `validateOrderCreate` writes `key` for payload p. */
  predicate CreateRejects(p: OrderCreateInput, key: ErrorKey) {
    match key
    case CustomerName => NameRejected(p)
    case Phone => !PhoneNumber.IsValidKazakhPhone(p.phone)
    case Address => AddressRejected(p)
    case DeliveryMethod => p.delivery_method == ""
    case PaymentMethod => p.payment_method == ""
    case Items => p.items == []
    case Item(idx) => idx < |p.items| && ItemIncomplete(p.items[idx])
    case Id => false
    case Status => false
  }

  /** The keys `validateOrderCreate` can write for payload p. */
  function CreateKeys(p: OrderCreateInput): set<ErrorKey> {
    {CustomerName, Phone, Address, DeliveryMethod, PaymentMethod, Items} + set idx | 0 <= idx < |p.items| :: Item(idx)
  }

  /** The record `validateOrderCreate` returns: each rejecting key with its message. */
  function CreateErrors(p: OrderCreateInput): map<ErrorKey, string> {
    map key | key in CreateKeys(p) && CreateRejects(p, key) :: MessageFor(key)
  }

  /** `validateOrderCreate` */
  method ValidateOrderCreate(payload: OrderCreateInput) returns (valid: bool, errors: map<ErrorKey, string>)
    ensures errors == CreateErrors(payload)
    ensures valid <==> errors == map[]
    ensures valid <==> OrderCreateAccepted(payload)
    ensures CustomerName in errors <==> NameRejected(payload)
    ensures Phone in errors <==> !PhoneNumber.IsValidKazakhPhone(payload.phone)
    ensures Address in errors <==> AddressRejected(payload)
    ensures DeliveryMethod in errors <==> payload.delivery_method == ""
    ensures PaymentMethod in errors <==> payload.payment_method == ""
    ensures Items in errors <==> payload.items == []
    ensures forall idx :: 0 <= idx < |payload.items| ==>
      (Item(idx) in errors <==> ItemIncomplete(payload.items[idx]))
    ensures forall key :: key in errors ==>
      IsFieldKey(key) || (key.Item? && key.idx < |payload.items|)
    ensures forall key :: key in errors ==> errors[key] == MessageFor(key)
  {
    errors := CheckFields(payload);
    errors := CheckItems(payload.items, errors);
    valid := |errors| == 0;
    IsCreateErrors(payload, errors);
  }

  /** A record holding exactly the rejecting keys, each with its message, is `CreateErrors`. */
  lemma IsCreateErrors(p: OrderCreateInput, errors: map<ErrorKey, string>)
    requires forall key :: IsFieldKey(key) ==> (key in errors <==> CreateRejects(p, key))
    requires forall idx :: 0 <= idx < |p.items| ==> (Item(idx) in errors <==> ItemIncomplete(p.items[idx]))
    requires forall key :: key in errors ==> IsFieldKey(key) || (key.Item? && key.idx < |p.items|)
    requires forall key :: key in errors ==> errors[key] == MessageFor(key)
    ensures errors == CreateErrors(p)
  {
    var expected := CreateErrors(p);
    forall key
      ensures key in errors <==> key in expected
    {
      if key.Item? && key.idx < |p.items| {
        assert key in CreateKeys(p);
      }
    }
    assert errors.Keys == expected.Keys;
  }

  /** The straight-line part of `validateOrderCreate`: one key per failing field. */
  method CheckFields(payload: OrderCreateInput) returns (errors: map<ErrorKey, string>)
    ensures forall key :: key in errors ==> IsFieldKey(key)
    ensures CustomerName in errors <==> NameRejected(payload)
    ensures Phone in errors <==> !PhoneNumber.IsValidKazakhPhone(payload.phone)
    ensures Address in errors <==> AddressRejected(payload)
    ensures DeliveryMethod in errors <==> payload.delivery_method == ""
    ensures PaymentMethod in errors <==> payload.payment_method == ""
    ensures Items in errors <==> payload.items == []
    ensures forall key :: key in errors ==> errors[key] == MessageFor(key)
  {
    errors := map[];
    if NameRejected(payload) {
      errors := errors[CustomerName := NameMessage];
    }
    if !PhoneNumber.IsValidKazakhPhone(payload.phone) {
      errors := errors[Phone := PhoneMessage];
    }
    if AddressRejected(payload) {
      errors := errors[Address := AddressMessage];
    }
    if payload.delivery_method == "" {
      errors := errors[DeliveryMethod := DeliveryMessage];
    }
    if payload.payment_method == "" {
      errors := errors[PaymentMethod := PaymentMessage];
    }
    if payload.items == [] {
      errors := errors[Items := ItemsMessage];
    }
  }

  /** The `items.forEach` loop: one `items[idx]` key per incomplete item, added to the field errors. */
  method CheckItems(items: seq<OrderItem>, fieldErrors: map<ErrorKey, string>) returns (errors: map<ErrorKey, string>)
    requires forall key :: key in fieldErrors ==> IsFieldKey(key)
    ensures forall key :: IsFieldKey(key) ==> (key in errors <==> key in fieldErrors)
    ensures forall idx :: 0 <= idx < |items| ==> (Item(idx) in errors <==> ItemIncomplete(items[idx]))
    ensures forall key :: key in errors ==>
      IsFieldKey(key) || (key.Item? && key.idx < |items|)
    ensures forall key :: key in fieldErrors ==> key in errors && errors[key] == fieldErrors[key]
    ensures forall key :: key in errors && !IsFieldKey(key) ==> errors[key] == ItemMessage
  {
    errors := fieldErrors;
    var idx := 0;
    while idx < |items|
      invariant 0 <= idx <= |items|
      invariant errors.Keys == fieldErrors.Keys + ItemErrorKeys(items, idx)
      invariant forall key :: key in fieldErrors ==> errors[key] == fieldErrors[key]
      invariant forall key :: key in errors && !IsFieldKey(key) ==> errors[key] == ItemMessage
    {
      if ItemIncomplete(items[idx]) {
        errors := errors[Item(idx) := ItemMessage];
      }
      idx := idx + 1;
    }
  }

  /** `validateOrderStatusUpdate` */
  method ValidateOrderStatusUpdate(payload: OrderUpdateStatusInput) returns (valid: bool, errors: map<ErrorKey, string>)
    ensures valid <==> payload.id != "" && payload.status in Statuses
    ensures valid <==> errors == map[]
    ensures Id in errors <==> payload.id == ""
    ensures Status in errors <==> payload.status !in Statuses
    ensures forall key :: key in errors ==> key == Id || key == Status
  {
    errors := map[];
    if payload.id == "" {
      errors := errors[Id := IdMessage];
    }
    if payload.status !in Statuses {
      errors := errors[Status := StatusMessage];
    }
    valid := |errors| == 0;
  }
}
