/**
  The trip creation wizard: five tabs walked with "Next" and "Previous", a
  list of stops the user grows, shrinks and edits, and a submit that turns
  the inputs into a create request and empties the form again.
 */
module CreateTripFormModel {
  import opened Wrappers
  import opened Numbers
  import opened Trips

  /** The wizard's tabs. */
  datatype Tab = OrderDetails | StopsTab | Shipment | Reference | Notes

  /** The tabs in the order the sidebar lists them and "Next" walks them. */
  const Tabs: seq<Tab> := [OrderDetails, StopsTab, Shipment, Reference, Notes]

  /** The position of a tab in `Tabs` (what `findIndex` finds). */
  function TabIndex(t: Tab): (i: nat)
    ensures i < |Tabs| && Tabs[i] == t
    ensures forall j :: 0 <= j < |Tabs| && Tabs[j] == t ==> j == i
  {
    match t
    case OrderDetails => 0
    case StopsTab => 1
    case Shipment => 2
    case Reference => 3
    case Notes => 4
  }

  /** The tab "Next" leads to: the following one, or the same on the last tab. */
  function NextTab(t: Tab): (r: Tab)
    ensures TabIndex(t) < |Tabs| - 1 ==> TabIndex(r) == TabIndex(t) + 1
    ensures TabIndex(t) == |Tabs| - 1 ==> r == t
  {
    var i := TabIndex(t);
    if i < |Tabs| - 1 then Tabs[i + 1] else t
  }

  /** The tab "Previous" leads to: the preceding one, or the same on the first tab. */
  function PreviousTab(t: Tab): (r: Tab)
    ensures TabIndex(t) > 0 ==> TabIndex(r) == TabIndex(t) - 1
    ensures TabIndex(t) == 0 ==> r == t
  {
    var i := TabIndex(t);
    if i > 0 then Tabs[i - 1] else t
  }

  /** "Previous" undoes "Next" everywhere but on the last tab, and the other way round but on the first. */
  lemma NextPreviousInverse(t: Tab)
    ensures t != Notes ==> PreviousTab(NextTab(t)) == t
    ensures t != OrderDetails ==> NextTab(PreviousTab(t)) == t
  {
  }

  /** Walking "Next" four times from the first tab reaches the last one, and one more step stays there. */
  lemma NextWalksAllTabs()
    ensures NextTab(NextTab(NextTab(NextTab(OrderDetails)))) == Notes
    ensures NextTab(Notes) == Notes && PreviousTab(OrderDetails) == OrderDetails
  {
  }

  /** The five always-sent text inputs of the first tab. */
  datatype RequiredText = PickupLocationText | DeliveryLocationText | PickupDateText | DeliveryDateText | CargoTypeText

  /** The five inputs of a stop card. */
  datatype StopField = LocationField | StopTypeField | ScheduledTimeField | ContactPersonField | ContactPhoneField

  /** What the stop card shows in one of its inputs. */
  function StopInput(s: Stop, field: StopField): string {
    match field
    case LocationField => s.location
    case StopTypeField => s.stopType
    case ScheduledTimeField => s.scheduledTime
    case ContactPersonField => s.contactPerson
    case ContactPhoneField => s.contactPhone
  }

  /** A stop card with one input changed: that input shows `value`, the others and the number stay. */
  function EditedStop(s: Stop, field: StopField, value: string): (r: Stop)
    ensures StopInput(r, field) == value
    ensures forall g :: g != field ==> StopInput(r, g) == StopInput(s, g)
    ensures r.sequence == s.sequence
  {
    match field
    case LocationField => s.(location := value)
    case StopTypeField => s.(stopType := value)
    case ScheduledTimeField => s.(scheduledTime := value)
    case ContactPersonField => s.(contactPerson := value)
    case ContactPhoneField => s.(contactPhone := value)
  }

  /** The blank pickup stop the form starts with. */
  const FirstStop := Stop("", "pickup", "", "", "", 1)

  /** The blank delivery stop "Add Stop" appends. */
  function BlankDelivery(sequence: int): Stop {
    Stop("", "delivery", "", "", "", sequence)
  }

  /** The stops numbered from 1 by position, as the submitted request numbers them. */
  predicate Numbered(stops: seq<Stop>) {
    forall i :: 0 <= i < |stops| ==> stops[i].sequence == i + 1
  }

  /** The stops from `first` on, each with its `sequence` set to its number and all else kept. */
  function Renumber(stops: seq<Stop>, first: int): (r: seq<Stop>)
    ensures |r| == |stops|
    ensures forall i :: 0 <= i < |r| ==> r[i] == stops[i].(sequence := first + i)
    decreases |stops|
  {
    if stops == [] then [] else [stops[0].(sequence := first)] + Renumber(stops[1..], first + 1)
  }

  /** `stops.map((stop, index) => ({...stop, sequence: index + 1}))`. */
  function Resequence(stops: seq<Stop>): seq<Stop> {
    Renumber(stops, 1)
  }

  /** Resequenced stops are numbered 1..n and differ from the inputs in nothing but the number. */
  lemma ResequenceNumbers(stops: seq<Stop>)
    ensures Numbered(Resequence(stops)) && |Resequence(stops)| == |stops|
    ensures forall i :: 0 <= i < |stops| ==> Resequence(stops)[i].(sequence := 0) == stops[i].(sequence := 0)
  {
  }

  /** Stops that are already numbered come out unchanged; so resequencing twice is resequencing once. */
  lemma {:induction false} ResequenceFixesNumbered(stops: seq<Stop>)
    requires Numbered(stops)
    ensures Resequence(stops) == stops
  {
    var r := Resequence(stops);
    assert |r| == |stops|;
    forall i | 0 <= i < |r|
      ensures r[i] == stops[i]
    {
      assert r[i] == stops[i].(sequence := 1 + i);
    }
  }

  lemma ResequenceIdempotent(stops: seq<Stop>)
    ensures Resequence(Resequence(stops)) == Resequence(stops)
  {
    ResequenceNumbers(stops);
    ResequenceFixesNumbered(Resequence(stops));
  }

  /** `stops.filter((_, i) => i !== index)`: every stop but the one at `index`. */
  function WithoutIndex(stops: seq<Stop>, index: int): (r: seq<Stop>)
    ensures 0 <= index < |stops| ==> r == stops[..index] + stops[index + 1..]
    ensures !(0 <= index < |stops|) ==> r == stops
    decreases |stops|
  {
    if stops == [] then []
    else
      var rest := WithoutIndex(stops[1..], index - 1);
      if index == 0 then rest
      else
        assert 0 < index < |stops| ==> stops[1..][..index - 1] == stops[1..index];
        [stops[0]] + rest
  }

  /** The request's optional columns: a non-empty input is sent as it is, an empty one is left out. */
  function Submitted(texts: map<OptText, string>): (r: map<OptText, string>)
    ensures forall k :: k in r <==> k in texts && texts[k] != ""
    ensures forall k :: k in r ==> r[k] == texts[k]
  {
    map k | k in texts && texts[k] != "" :: texts[k]
  }

  /**
    The inverse of `Submitted` on complete input maps: a column left out of the
    request stands for an empty input. It is not an operation of the form; it
    states what `Submitted` keeps.
   */
  function Restored(sent: map<OptText, string>): (texts: map<OptText, string>)
    ensures forall k :: k in texts
  {
    map k: OptText :: if k in sent then sent[k] else ""
  }

  /** Reading the sent columns back into inputs gives the inputs again: leaving out the empty ones loses nothing. */
  lemma {:induction false} SubmittedRoundTrip(texts: map<OptText, string>)
    requires forall k :: k in texts
    ensures Restored(Submitted(texts)) == texts
  {
    var back := Restored(Submitted(texts));
    forall k
      ensures back[k] == texts[k]
    {
      if texts[k] == "" {
        assert k !in Submitted(texts);
      } else {
        assert k in Submitted(texts);
      }
    }
    assert back.Keys == texts.Keys;
  }

  /** Every optional input empty, as the form starts and as `resetForm` leaves it. */
  const EmptyTexts: map<OptText, string> := map k: OptText :: ""

  class CreateTripForm {
    var activeTab: Tab
    /** The chosen customer's id; 0 is the "Select a customer" choice. */
    var selectedCustomerId: int
    /** The customer ids the select offers, in the order the API listed them. */
    var customers: seq<int>
    var pickupLocation: string
    var deliveryLocation: string
    var pickupDate: string
    var deliveryDate: string
    var cargoType: string
    /** What the number input produced; NaN once it has been cleared. */
    var weight: Num
    /** The fourteen optional text inputs of the other tabs, by column. */
    var texts: map<OptText, string>
    var stops: seq<Stop>

    /**
      Every optional input exists, and there is always at least one stop: the
      remove button of a stop card is shown only while there are two or more.
     */
    predicate Valid()
      reads this
    {
      (forall k :: k in texts) && |stops| >= 1
    }

    /** The inputs as the form opens and as `resetForm` leaves them (the customer choice is not one of them). */
    predicate Blank()
      reads this
    {
      && activeTab == OrderDetails
      && pickupLocation == "" && deliveryLocation == "" && pickupDate == "" && deliveryDate == ""
      && cargoType == "" && weight == Finite(0.0)
      && texts == EmptyTexts
      && stops == [FirstStop]
    }

    /** The request "Submit Trip" sends for the current inputs. */
    function Request(): (r: TripCreate)
      reads this
      ensures r.status == "pending" && r.customerId == selectedCustomerId && r.weight == weight
      ensures r.quoteAmount == QuoteAbsent
      ensures Numbered(r.stops) && |r.stops| == |stops|
      ensures forall k :: k in r.optional <==> k in texts && texts[k] != ""
    {
      ResequenceNumbers(stops);
      TripCreate(selectedCustomerId, pickupLocation, deliveryLocation, pickupDate, deliveryDate,
                 cargoType, weight, Submitted(texts), QuoteAbsent, "pending", Resequence(stops))
    }

    constructor ()
      ensures Valid() && Blank() && selectedCustomerId == 0 && customers == []
    {
      activeTab := OrderDetails;
      selectedCustomerId := 0;
      customers := [];
      pickupLocation, deliveryLocation, pickupDate, deliveryDate, cargoType := "", "", "", "", "";
      weight := Finite(0.0);
      texts := EmptyTexts;
      stops := [FirstStop];
    }

    /** `loadCustomers`: a fetched list replaces the options and selects the first customer; a failure changes nothing. */
    method LoadCustomers(fetched: Option<seq<int>>)
      requires Valid()
      modifies this`customers, this`selectedCustomerId
      ensures Valid()
      ensures fetched.None? ==> customers == old(customers) && selectedCustomerId == old(selectedCustomerId)
      ensures fetched.Some? ==> customers == fetched.value
      ensures fetched.Some? && |fetched.value| > 0 ==> selectedCustomerId == fetched.value[0]
      ensures fetched.Some? && |fetched.value| == 0 ==> selectedCustomerId == old(selectedCustomerId)
    {
      if fetched.Some? {
        customers := fetched.value;
        if |fetched.value| > 0 {
          selectedCustomerId := fetched.value[0];
        }
      }
    }

    /** Choosing in the customer select. */
    method SelectCustomer(id: int)
      requires Valid()
      modifies this`selectedCustomerId
      ensures Valid() && selectedCustomerId == id
    {
      selectedCustomerId := id;
    }

    /** Typing into one of the first tab's text inputs. */
    method EditRequired(field: RequiredText, value: string)
      requires Valid()
      modifies this`pickupLocation, this`deliveryLocation, this`pickupDate, this`deliveryDate, this`cargoType
      ensures Valid()
      ensures pickupLocation == if field == PickupLocationText then value else old(pickupLocation)
      ensures deliveryLocation == if field == DeliveryLocationText then value else old(deliveryLocation)
      ensures pickupDate == if field == PickupDateText then value else old(pickupDate)
      ensures deliveryDate == if field == DeliveryDateText then value else old(deliveryDate)
      ensures cargoType == if field == CargoTypeText then value else old(cargoType)
    {
      match field
      case PickupLocationText => pickupLocation := value;
      case DeliveryLocationText => deliveryLocation := value;
      case PickupDateText => pickupDate := value;
      case DeliveryDateText => deliveryDate := value;
      case CargoTypeText => cargoType := value;
    }

    /** Typing into an optional input. */
    method EditOptional(field: OptText, value: string)
      requires Valid()
      modifies this`texts
      ensures Valid() && texts == old(texts)[field := value]
    {
      texts := texts[field := value];
    }

    /** The weight input: `parseFloat` of its text. */
    method EditWeight(text: string)
      requires Valid()
      modifies this`weight
      ensures Valid() && weight == ParseFloat(text)
    {
      weight := ParseFloat(text);
    }

    /** `handleNext`. */
    method HandleNext()
      requires Valid()
      modifies this`activeTab
      ensures Valid() && activeTab == NextTab(old(activeTab))
    {
      var current := TabIndex(activeTab);
      if current < |Tabs| - 1 {
        activeTab := Tabs[current + 1];
      }
    }

    /** `handlePrevious`. */
    method HandlePrevious()
      requires Valid()
      modifies this`activeTab
      ensures Valid() && activeTab == PreviousTab(old(activeTab))
    {
      var current := TabIndex(activeTab);
      if current > 0 {
        activeTab := Tabs[current - 1];
      }
    }

    /** A sidebar button: any tab can be opened directly, in any order. */
    method SelectTab(tab: Tab)
      requires Valid()
      modifies this`activeTab
      ensures Valid() && activeTab == tab
    {
      activeTab := tab;
    }

    /** `addStop`: one blank delivery stop at the end, numbered one past the old count. */
    method AddStop()
      requires Valid()
      modifies this`stops
      ensures Valid()
      ensures stops == old(stops) + [BlankDelivery(|old(stops)| + 1)]
      ensures Numbered(old(stops)) ==> Numbered(stops)
    {
      stops := stops + [BlankDelivery(|stops| + 1)];
    }

    /**
      A click on the remove button of the stop card at `index`. The button is
      shown only while there are two or more stops, so the last stop can never
      be removed; otherwise `removeStop(index)` drops the stop at `index`.
     */
    method RemoveStop(index: int)
      requires Valid()
      modifies this`stops
      ensures Valid()
      ensures |old(stops)| <= 1 ==> stops == old(stops)
      ensures |old(stops)| > 1 ==> stops == WithoutIndex(old(stops), index)
      ensures |old(stops)| > 1 && 0 <= index < |old(stops)| ==> |stops| == |old(stops)| - 1
    {
      if |stops| > 1 {
        stops := WithoutIndex(stops, index);
      }
    }

    /** Typing into an input of the stop card at `index`; the other cards keep their values. */
    method EditStop(index: int, field: StopField, value: string)
      requires Valid() && 0 <= index < |stops|
      modifies this`stops
      ensures Valid()
      ensures stops == old(stops)[index := EditedStop(old(stops)[index], field, value)]
    {
      stops := stops[index := EditedStop(stops[index], field, value)];
    }

    /** `resetForm`: every input back to how the form opened, except the chosen customer. */
    method ResetForm()
      modifies this
      ensures Valid() && Blank()
      ensures selectedCustomerId == old(selectedCustomerId) && customers == old(customers)
    {
      pickupLocation, deliveryLocation, pickupDate, deliveryDate, cargoType := "", "", "", "", "";
      weight := Finite(0.0);
      texts := EmptyTexts;
      stops := [FirstStop];
      activeTab := OrderDetails;
    }

    /**
      `handleSubmit`: with no customer chosen nothing is sent and the inputs
      stay; otherwise the request for the current inputs is handed to
      `onSubmit` and the form is reset.
     */
    method HandleSubmit() returns (sent: Option<TripCreate>)
      requires Valid()
      modifies this
      ensures old(selectedCustomerId) == 0 <==> sent.None?
      ensures sent.None? ==> unchanged(this)
      ensures sent.Some? ==> sent.value == old(Request()) && Valid() && Blank()
      ensures selectedCustomerId == old(selectedCustomerId) && customers == old(customers)
    {
      if selectedCustomerId == 0 {
        return None;
      }
      var trip := Request();
      sent := Some(trip);
      ResetForm();
    }
  }

  /** A fresh form with a customer chosen sends one blank pickup stop numbered 1 and no optional column. */
  lemma BlankFormRequest(form: CreateTripForm)
    requires form.Blank()
    ensures form.Request().stops == [FirstStop]
    ensures form.Request().optional == map[]
  {
    ResequenceFixesNumbered([FirstStop]);
  }
}
