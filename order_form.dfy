/** The order-entry form's controller (src/App.js:11-122, 137-192): the catalog of
    fragrance records, the order draft and the toast as fields of one object, and
    one method per event the page reacts to. The network's answers are
    parameters: a catalog response for the mount-time fetch, and whether the
    order request came back for the submission. */
module OrderForm {
  import opened Values
  import opened OrderText

  // ---------------------------------------------------------------------------
  // Validation (src/App.js:42-58)

  /** Every text field is filled in and the quantity is not zero. */
  predicate FieldsComplete(d: Draft)
  {
    d.firstName != "" && d.lastName != "" && d.quantity != 0
  }

  /** A draft that may be sent: complete fields and at least one fragrance. */
  predicate Submittable(d: Draft)
  {
    FieldsComplete(d) && d.selected != []
  }

  /** The message validation shows for a draft, or None when it passes. The
      field check comes first, so a draft with incomplete fields and no
      fragrance gets only the "fill out all fields" message. */
  function ValidationMessage(d: Draft): (message: Option<string>)
    ensures message == None <==> Submittable(d)
    ensures message == Some(FillOutAllFields) <==> !FieldsComplete(d)
    ensures message == Some(SelectAFragrance) <==> FieldsComplete(d) && d.selected == []
  {
    if d.firstName == "" || d.lastName == "" || d.quantity == 0 then Some(FillOutAllFields)
    else if |d.selected| == 0 then Some(SelectAFragrance)
    else None
  }

  // ---------------------------------------------------------------------------
  // The fragrance catalog (src/App.js:24-40)

  /** A record of the fragrance endpoint's answer. The loader gives it `value`
      and `label` copies of its `name` in place; `labelText` is the source's
      `label`, a reserved word in Dafny. */
  class FragranceRecord {
    var name: string
    var value: string
    var labelText: string

    constructor (name: string, value: string, labelText: string)
      ensures this.name == name && this.value == value && this.labelText == labelText
    {
      this.name := name;
      this.value := value;
      this.labelText := labelText;
    }
  }

  /** What the catalog fetch produced: the parsed records, or an exception from
      the request or from reading its body. */
  datatype CatalogResponse = Received(records: seq<FragranceRecord>) | Unavailable

  /** The records a response hands over, none for a failed fetch. */
  function Delivered(response: CatalogResponse): seq<FragranceRecord>
  {
    if response.Received? then response.records else []
  }

  /** Sets each record's `value` and `label` to its `name`, one record at a time
      (src/App.js:31-34). Names, count and order are left as they are. */
  method AdaptRecords(records: seq<FragranceRecord>)
    modifies set r | r in records
    ensures forall i :: 0 <= i < |records| ==> records[i].name == old(records[i].name)
    ensures forall i :: 0 <= i < |records| ==>
              records[i].value == records[i].name && records[i].labelText == records[i].name
  {
    for k := 0 to |records|
      invariant forall i :: 0 <= i < |records| ==> records[i].name == old(records[i].name)
      invariant forall i :: 0 <= i < k ==>
                  records[i].value == records[i].name && records[i].labelText == records[i].name
    {
      records[k].value := records[k].name;
      records[k].labelText := records[k].name;
    }
  }

  // ---------------------------------------------------------------------------
  // The controller

  /** What the order request came to: a response that was read (`Created`), or
      an exception from the request or from reading its body (`Failed`). */
  datatype SubmitOutcome = Created | Failed

  /** The page's state: one field per `useState` slot (src/App.js:12-22). */
  class Form {
    var fragrances: seq<FragranceRecord>
    var firstName: string
    var lastName: string
    var quantity: int
    var selectedFragrance: seq<FragranceOption>
    var toastOpen: bool
    var toastMessage: string
    var toastType: ToastType

    /** The order being edited. */
    function CurrentDraft(): Draft
      reads this
    {
      Draft(firstName, lastName, quantity, selectedFragrance)
    }

    /** The notification as it stands. */
    function CurrentToast(): Toast
      reads this
    {
      Toast(toastOpen, toastMessage, toastType)
    }

    /** No more than three fragrances are ever selected, and a shown toast has
        a message and a type. */
    predicate Valid()
      reads this
    {
      |selectedFragrance| <= MaxFragrances && ToastConsistent(CurrentToast())
    }

    /** The dropdown is rendered, rather than "Loading...", once the catalog has
        records (src/App.js:159-182). */
    predicate SelectorShown()
      reads this
    {
      |fragrances| > 0
    }

    /** The state the page is created in (src/App.js:12-22). */
    constructor ()
      ensures Valid()
      ensures fragrances == [] && CurrentDraft() == EmptyDraft && CurrentToast() == InitialToast
    {
      fragrances := [];
      firstName, lastName, quantity, selectedFragrance := "", "", 0, [];
      toastOpen, toastMessage, toastType := false, "", Unset;
    }

    /** The catalog fetch's outcome (src/App.js:24-40): received records are
        adapted in place and become the catalog; on failure the catalog is left
        as it was. */
    method LoadCatalog(response: CatalogResponse)
      requires Valid()
      modifies this, set r | r in Delivered(response)
      ensures Valid()
      ensures response.Received? ==> fragrances == response.records
      ensures response.Received? ==> forall i :: 0 <= i < |fragrances| ==>
                fragrances[i].name == old(response.records[i].name) &&
                fragrances[i].value == fragrances[i].name && fragrances[i].labelText == fragrances[i].name
      ensures response.Unavailable? ==> fragrances == old(fragrances)
      ensures CurrentDraft() == old(CurrentDraft()) && CurrentToast() == old(CurrentToast())
    {
      if response.Received? {
        AdaptRecords(response.records);
        fragrances := response.records;
      }
    }

    /** The first-name text field's edit (src/App.js:137). */
    method SetFirstName(value: string)
      requires Valid()
      modifies this
      ensures Valid()
      ensures CurrentDraft() == old(CurrentDraft()).(firstName := value)
      ensures CurrentToast() == old(CurrentToast()) && fragrances == old(fragrances)
    {
      firstName := value;
    }

    /** The last-name text field's edit (src/App.js:145). */
    method SetLastName(value: string)
      requires Valid()
      modifies this
      ensures Valid()
      ensures CurrentDraft() == old(CurrentDraft()).(lastName := value)
      ensures CurrentToast() == old(CurrentToast()) && fragrances == old(fragrances)
    {
      lastName := value;
    }

    /** The quantity field's edit (src/App.js:154). */
    method SetQuantity(value: int)
      requires Valid()
      modifies this
      ensures Valid()
      ensures CurrentDraft() == old(CurrentDraft()).(quantity := value)
      ensures CurrentToast() == old(CurrentToast()) && fragrances == old(fragrances)
    {
      quantity := value;
    }

    /** The dropdown's change (src/App.js:169-177): more than three fragrances
        are refused with a negative toast and the old selection kept; otherwise
        the new selection replaces the old one. */
    method ChangeSelection(selected: seq<FragranceOption>)
      requires Valid() && SelectorShown()
      modifies this
      ensures Valid()
      ensures |selected| > MaxFragrances ==>
                CurrentDraft() == old(CurrentDraft()) &&
                CurrentToast() == Toast(true, TooManyFragrances, Negative)
      ensures |selected| <= MaxFragrances ==>
                CurrentDraft() == old(CurrentDraft()).(selected := selected) &&
                CurrentToast() == old(CurrentToast())
      ensures fragrances == old(fragrances)
    {
      if |selected| > MaxFragrances {
        toastOpen := true;
        toastMessage := TooManyFragrances;
        toastType := Negative;
        return;
      }
      selectedFragrance := selected;
    }

    /** `validateFields` (src/App.js:42-58): true exactly when the draft may be
        sent; otherwise a negative toast with the first failing check's message.
        The draft itself is never touched. */
    method ValidateFields() returns (ok: bool)
      requires Valid()
      modifies this
      ensures Valid()
      ensures ok <==> Submittable(old(CurrentDraft()))
      ensures CurrentDraft() == old(CurrentDraft()) && fragrances == old(fragrances)
      ensures ok ==> CurrentToast() == old(CurrentToast())
      ensures !ok ==> CurrentToast() == Toast(true, ValidationMessage(old(CurrentDraft())).value, Negative)
    {
      if firstName == "" || lastName == "" || quantity == 0 {
        toastOpen := true;
        toastMessage := FillOutAllFields;
        toastType := Negative;
        return false;
      }
      if |selectedFragrance| == 0 {
        toastOpen := true;
        toastMessage := SelectAFragrance;
        toastType := Negative;
        return false;
      }
      return true;
    }

    /** `createOrder` (src/App.js:60-122). A draft that fails validation
        builds no request and stays as it is. Otherwise `query` is the mutation
        text sent for the draft, dated from `isoNow` (the clock's ISO
        timestamp); a `Created` outcome shows the success toast and empties the
        draft, a `Failed` one shows the error toast and keeps the draft for a
        retry. */
    method CreateOrder(outcome: SubmitOutcome, isoNow: string) returns (query: Option<string>)
      requires Valid()
      modifies this
      ensures Valid()
      ensures query.Some? <==> Submittable(old(CurrentDraft()))
      ensures query.Some? ==> query.value == OrderMutation(old(CurrentDraft()), isoNow)
      ensures query.None? ==>
                CurrentDraft() == old(CurrentDraft()) &&
                CurrentToast() == Toast(true, ValidationMessage(old(CurrentDraft())).value, Negative)
      ensures query.Some? && outcome == Created ==>
                CurrentDraft() == EmptyDraft && CurrentToast() == Toast(true, OrderCreated, Positive)
      ensures query.Some? && outcome == Failed ==>
                CurrentDraft() == old(CurrentDraft()) && CurrentToast() == Toast(true, OrderFailed, Negative)
      ensures fragrances == old(fragrances)
    {
      var ok := ValidateFields();
      if !ok {
        return None;
      }
      var fragrancesToSend := FormatFragrances(selectedFragrance);
      var item := ItemName(firstName, lastName);
      var columns := ColumnValues(quantity, fragrancesToSend, DatePart(isoNow));
      query := Some(Mutation(item, columns));
      match outcome {
        case Created =>
          toastOpen := true;
          toastMessage := OrderCreated;
          toastType := Positive;
          firstName := "";
          lastName := "";
          quantity := 0;
          selectedFragrance := [];
        case Failed =>
          toastOpen := true;
          toastMessage := OrderFailed;
          toastType := Negative;
      }
    }

    /** The toast's close (src/App.js:192): hidden, its message and type kept. */
    method CloseToast()
      requires Valid()
      modifies this
      ensures Valid()
      ensures CurrentToast() == old(CurrentToast()).(open := false)
      ensures CurrentDraft() == old(CurrentDraft()) && fragrances == old(fragrances)
    {
      toastOpen := false;
    }
  }

  /** The page's mount (src/App.js:11-22, 124-126): a fresh form that loads the
      catalog once, adapting the delivered records in place. When the fetch
      fails the catalog stays empty and the dropdown is never shown. */
  method Mount(response: CatalogResponse) returns (form: Form)
    modifies set r | r in Delivered(response)
    ensures fresh(form) && form.Valid()
    ensures form.CurrentDraft() == EmptyDraft && form.CurrentToast() == InitialToast
    ensures form.fragrances == Delivered(response)
    ensures forall i :: 0 <= i < |Delivered(response)| ==>
              Delivered(response)[i].name == old(Delivered(response)[i].name) &&
              Delivered(response)[i].value == Delivered(response)[i].name &&
              Delivered(response)[i].labelText == Delivered(response)[i].name
    ensures response.Unavailable? ==> !form.SelectorShown()
  {
    form := new Form();
    form.LoadCatalog(response);
  }
}
