/** Values shared by the order-entry form: the options of the fragrance dropdown,
    the order draft a user fills in, the toast notification, and the fixed texts
    the form shows. */
module Values {

  datatype Option<+T> = None | Some(value: T)

  /** An entry of the multi-select fragrance dropdown: `value` is what an order
      carries, `labelText` (the source's `label`, a reserved word in Dafny) what
      the user sees. */
  datatype FragranceOption = FragranceOption(value: string, labelText: string)

  /** The four inputs of an order, as the form holds them between events. */
  datatype Draft = Draft(firstName: string, lastName: string, quantity: int, selected: seq<FragranceOption>)

  /** The draft the form starts with and returns to after a created order. */
  const EmptyDraft := Draft("", "", 0, [])

  /** The toast's `type`: `Unset` is the empty string it starts with, `Positive`
      and `Negative` the strings "positive" and "negative". */
  datatype ToastType = Unset | Positive | Negative

  /** The feedback toast: whether it is shown, its text and its type. */
  datatype Toast = Toast(open: bool, message: string, kind: ToastType)

  const InitialToast := Toast(false, "", Unset)

  /** A toast that is shown always carries a text and a type; one that was never
      shown has neither. */
  predicate ToastConsistent(t: Toast) {
    (t.kind == Unset <==> t.message == "") && (t.open ==> t.kind != Unset)
  }

  /** The largest number of fragrances one order may name. */
  const MaxFragrances := 3

  const FillOutAllFields := "Please fill out all fields."
  const SelectAFragrance := "Please select a fragrance."
  const TooManyFragrances := "You can only select up to 3 fragrances."
  const OrderCreated := "Your order has been successfully created."
  const OrderFailed := "There was an error creating your order. Please try again."
}
