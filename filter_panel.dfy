/**
  The filter side panel of the trip list: nine text inputs and a switch that
  shows the advanced ones. "Apply" turns the inputs into a partial filter
  record and closes the panel; "Clear all" empties every input.
 */
module FilterPanelModel {
  import opened Wrappers
  import opened Numbers

  /**
    The partial filter record handed to the trip list; `None` is a key that
    is absent. The two weights are whatever `parseFloat` made of the text.
   */
  datatype FilterValues = FilterValues(
    availableDate: Option<string>,
    timeWindow: Option<string>,
    pickupCity: Option<string>,
    deliveryCity: Option<string>,
    equipment: Option<string>,
    shipper: Option<string>,
    cargoType: Option<string>,
    weightMin: Option<Num>,
    weightMax: Option<Num>)

  /** The empty record `{}`. */
  const NoFilters := FilterValues(None, None, None, None, None, None, None, None, None)

  /** The equipment choice that stands for "no equipment filter". */
  const AllTypes := "All types"
  /** The shipper choice that stands for "no shipper filter". */
  const AllShippers := "All shippers"

  /** The panel's text inputs. */
  datatype PanelField =
    | AvailableDateField | TimeWindowField | PickupCityField | DeliveryCityField
    | EquipmentField | ShipperField | CargoTypeField | WeightMinField | WeightMaxField

  /** What the panel asks of the page, in the order it asks. */
  datatype PanelCallback = ApplyFilters(filters: FilterValues) | Close

  /**
    A text key of the record: present exactly when the input is non-empty and
    not the input's "any" choice, and then carrying the input unchanged.
   */
  predicate TextKey(text: string, any: Option<string>, key: Option<string>) {
    (key.Some? <==> text != "" && Some(text) != any) && (key.Some? ==> key.value == text)
  }

  /** A weight key: present exactly when the input is non-empty, holding its parsed number. */
  predicate WeightKey(text: string, key: Option<Num>) {
    (key.Some? <==> text != "") && (key.Some? ==> key.value == ParseFloat(text))
  }

  class FilterPanel {
    var availableDate: string
    var timeWindow: string
    var pickupCity: string
    var deliveryCity: string
    var equipment: string
    var shipper: string
    var cargoType: string
    var weightMin: string
    var weightMax: string
    var showAdvanced: bool

    /** Every input is empty. */
    predicate Cleared()
      reads this
    {
      availableDate == "" && timeWindow == "" && pickupCity == "" && deliveryCity == ""
      && equipment == "" && shipper == "" && cargoType == "" && weightMin == "" && weightMax == ""
    }

    /** The record "Apply" hands over for the current inputs. */
    predicate Describes(f: FilterValues)
      reads this
    {
      && TextKey(availableDate, None, f.availableDate)
      && TextKey(timeWindow, None, f.timeWindow)
      && TextKey(pickupCity, None, f.pickupCity)
      && TextKey(deliveryCity, None, f.deliveryCity)
      && TextKey(equipment, Some(AllTypes), f.equipment)
      && TextKey(shipper, Some(AllShippers), f.shipper)
      && TextKey(cargoType, None, f.cargoType)
      && WeightKey(weightMin, f.weightMin)
      && WeightKey(weightMax, f.weightMax)
    }

    constructor ()
      ensures Cleared() && !showAdvanced
    {
      availableDate, timeWindow, pickupCity, deliveryCity := "", "", "", "";
      equipment, shipper, cargoType, weightMin, weightMax := "", "", "", "", "";
      showAdvanced := false;
    }

    /** Typing into or choosing in one input; the others keep their text. */
    method Edit(field: PanelField, value: string)
      modifies this
      ensures showAdvanced == old(showAdvanced)
      ensures availableDate == if field == AvailableDateField then value else old(availableDate)
      ensures timeWindow == if field == TimeWindowField then value else old(timeWindow)
      ensures pickupCity == if field == PickupCityField then value else old(pickupCity)
      ensures deliveryCity == if field == DeliveryCityField then value else old(deliveryCity)
      ensures equipment == if field == EquipmentField then value else old(equipment)
      ensures shipper == if field == ShipperField then value else old(shipper)
      ensures cargoType == if field == CargoTypeField then value else old(cargoType)
      ensures weightMin == if field == WeightMinField then value else old(weightMin)
      ensures weightMax == if field == WeightMaxField then value else old(weightMax)
    {
      match field
      case AvailableDateField => availableDate := value;
      case TimeWindowField => timeWindow := value;
      case PickupCityField => pickupCity := value;
      case DeliveryCityField => deliveryCity := value;
      case EquipmentField => equipment := value;
      case ShipperField => shipper := value;
      case CargoTypeField => cargoType := value;
      case WeightMinField => weightMin := value;
      case WeightMaxField => weightMax := value;
    }

    /** The "Advanced filters" switch; the inputs keep their text while hidden. */
    method ToggleAdvanced()
      modifies this`showAdvanced
      ensures showAdvanced == !old(showAdvanced)
    {
      showAdvanced := !showAdvanced;
    }

    /**
      "Clear all": the nine inputs become empty and the advanced switch stays
      as it was; an "Apply" right after hands over the empty record.
     */
    method HandleClearAll()
      modifies this
      ensures Cleared() && showAdvanced == old(showAdvanced)
      ensures Describes(NoFilters)
    {
      availableDate := "";
      timeWindow := "";
      pickupCity := "";
      deliveryCity := "";
      equipment := "";
      shipper := "";
      cargoType := "";
      weightMin := "";
      weightMax := "";
    }

    /**
      "Apply": builds the record key by key, skipping empty inputs and the
      "any" choices of equipment and shipper, then asks the page to apply it
      once and to close the panel. The inputs are left as they are.
     */
    method HandleApply() returns (calls: seq<PanelCallback>)
      ensures |calls| == 2 && calls[0].ApplyFilters? && calls[1] == Close
      ensures Describes(calls[0].filters)
      ensures Cleared() ==> calls[0].filters == NoFilters
    {
      var date, window, pickup, delivery, kind, shipperKey, cargo := None, None, None, None, None, None, None;
      var minWeight, maxWeight := None, None;
      if availableDate != "" { date := Some(availableDate); }
      assert TextKey(availableDate, None, date);
      if timeWindow != "" { window := Some(timeWindow); }
      assert TextKey(timeWindow, None, window);
      if pickupCity != "" { pickup := Some(pickupCity); }
      assert TextKey(pickupCity, None, pickup);
      if deliveryCity != "" { delivery := Some(deliveryCity); }
      assert TextKey(deliveryCity, None, delivery);
      if equipment != "" && equipment != AllTypes { kind := Some(equipment); }
      assert TextKey(equipment, Some(AllTypes), kind);
      if shipper != "" && shipper != AllShippers { shipperKey := Some(shipper); }
      assert TextKey(shipper, Some(AllShippers), shipperKey);
      if cargoType != "" { cargo := Some(cargoType); }
      assert TextKey(cargoType, None, cargo);
      if weightMin != "" { minWeight := Some(ParseFloat(weightMin)); }
      assert WeightKey(weightMin, minWeight);
      if weightMax != "" { maxWeight := Some(ParseFloat(weightMax)); }
      assert WeightKey(weightMax, maxWeight);
      var filters := FilterValues(date, window, pickup, delivery, kind, shipperKey, cargo, minWeight, maxWeight);
      calls := [ApplyFilters(filters), Close];
    }
  }

  /** The record the inputs describe is unique: "Apply" has exactly one answer for given inputs. */
  lemma DescribedRecordIsUnique(p: FilterPanel, f: FilterValues, g: FilterValues)
    requires p.Describes(f) && p.Describes(g)
    ensures f == g
  {
  }
}
