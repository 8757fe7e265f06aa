/**
 * Charger (power adapter) details, normalised from the "AdapterDetails"
 * dictionary of the battery telemetry, and the USB high-voltage-charging
 * options the adapter advertises.
 */
module RawAdapter {
  import opened Wrappers
  import opened Variant

  /** One entry of the adapter's handshake menu; every field defaults to 0. */
  datatype UsbHvcOption = UsbHvcOption(index: int, maxCurrent: int, maxVoltage: int)

  datatype AdapterDetails = AdapterDetails(
    adapterID: Option<int>,
    adapterVoltage: Option<int>,
    current: Option<int>,
    description: Option<string>,
    familyCode: Option<string>,
    isWireless: Option<bool>,
    pmuConfiguration: Option<int>,
    sharedSource: Option<bool>,
    source: Option<int>,
    usbHvcHvcIndex: Option<int>,
    usbHvcMenu: seq<UsbHvcOption>,
    voltage: Option<int>,
    watts: Option<int>,
    name: Option<string>,
    manufacturer: Option<string>,
    model: Option<string>,
    serialString: Option<string>,
    hwVersion: Option<string>,
    fwVersion: Option<string>)

  /** `UsbHvcOption(dict:)`: each field is the Int under its key, or 0. */
  function ParseUsbHvcOption(d: Dict): (r: UsbHvcOption) {
    UsbHvcOption(IntAt(d, "Index").GetOr(0), IntAt(d, "MaxCurrent").GetOr(0), IntAt(d, "MaxVoltage").GetOr(0))
  }

  /** The menu: empty unless "UsbHvcMenu" holds an array of dictionaries. */
  function ParseUsbHvcMenu(d: Dict): (r: seq<UsbHvcOption>) {
    match DictArrayAt(d, "UsbHvcMenu")
    case Some(options) => seq(|options|, k requires 0 <= k < |options| => ParseUsbHvcOption(options[k]))
    case None => []
  }

  /** `AdapterDetails(dict:)`: total, field by field. */
  function ParseAdapterDetails(d: Dict): (r: AdapterDetails) {
    AdapterDetails(
      adapterID := IntAt(d, "AdapterID"),
      adapterVoltage := IntAt(d, "AdapterVoltage"),
      current := IntAt(d, "Current"),
      description := StringAt(d, "Description"),
      familyCode := StringAt(d, "FamilyCode"),
      isWireless := Some(IsOneAt(d, "IsWireless")),
      pmuConfiguration := IntAt(d, "PMUConfiguration"),
      sharedSource := Some(IsOneAt(d, "SharedSource")),
      source := IntAt(d, "Source"),
      usbHvcHvcIndex := IntAt(d, "UsbHvcHvcIndex"),
      usbHvcMenu := ParseUsbHvcMenu(d),
      voltage := IntAt(d, "Voltage"),
      watts := IntAt(d, "Watts"),
      name := StringAt(d, "Name"),
      manufacturer := StringAt(d, "Manufacturer"),
      model := StringAt(d, "Model"),
      serialString := StringAt(d, "SerialString"),
      hwVersion := StringAt(d, "HwVersion"),
      fwVersion := StringAt(d, "FwVersion"))
  }

  /** A field holds the dictionary's Int under `key` when it is one, and is absent otherwise. */
  ghost predicate CopiesInt(field: Option<int>, d: Dict, key: string) {
    (field.Some? <==> key in d && d[key].IntV?) && (field.Some? ==> d[key] == IntV(field.value))
  }

  /** A field holds the dictionary's String under `key` when it is one, and is absent otherwise. */
  ghost predicate CopiesString(field: Option<string>, d: Dict, key: string) {
    (field.Some? <==> key in d && d[key].StrV?) && (field.Some? ==> d[key] == StrV(field.value))
  }

  lemma AdapterScalarFields(d: Dict)
    ensures var a := ParseAdapterDetails(d);
      && CopiesInt(a.adapterID, d, "AdapterID")
      && CopiesInt(a.adapterVoltage, d, "AdapterVoltage")
      && CopiesInt(a.current, d, "Current")
      && CopiesString(a.description, d, "Description")
      && CopiesString(a.familyCode, d, "FamilyCode")
      && CopiesInt(a.pmuConfiguration, d, "PMUConfiguration")
      && CopiesInt(a.source, d, "Source")
      && CopiesInt(a.usbHvcHvcIndex, d, "UsbHvcHvcIndex")
      && CopiesInt(a.voltage, d, "Voltage")
      && CopiesInt(a.watts, d, "Watts")
      && CopiesString(a.name, d, "Name")
      && CopiesString(a.manufacturer, d, "Manufacturer")
      && CopiesString(a.model, d, "Model")
      && CopiesString(a.serialString, d, "SerialString")
      && CopiesString(a.hwVersion, d, "HwVersion")
      && CopiesString(a.fwVersion, d, "FwVersion")
  {
  }

  /** The two flags are never absent: true exactly when the key holds the Int 1. */
  lemma AdapterFlags(d: Dict)
    ensures var a := ParseAdapterDetails(d);
      && a.isWireless.Some? && a.sharedSource.Some?
      && (a.isWireless.value <==> "IsWireless" in d && d["IsWireless"] == IntV(1))
      && (a.sharedSource.value <==> "SharedSource" in d && d["SharedSource"] == IntV(1))
  {
  }

  /**
   * The menu is empty unless "UsbHvcMenu" is an array of dictionaries; then it
   * has one option per element, in the same order.
   */
  lemma UsbHvcMenuShape(d: Dict)
    ensures var menu := ParseAdapterDetails(d).usbHvcMenu;
      && (!("UsbHvcMenu" in d && d["UsbHvcMenu"].ArrayV? && AllDicts(d["UsbHvcMenu"].elems)) ==> menu == [])
      && ("UsbHvcMenu" in d && d["UsbHvcMenu"].ArrayV? && AllDicts(d["UsbHvcMenu"].elems) ==>
            |menu| == |d["UsbHvcMenu"].elems| &&
            forall k :: 0 <= k < |menu| ==> menu[k] == ParseUsbHvcOption(d["UsbHvcMenu"].elems[k].d))
  {
  }

  /** A missing or mistyped option field reads as 0; an Int is copied. */
  lemma UsbHvcOptionDefaults(d: Dict)
    ensures var o := ParseUsbHvcOption(d);
      && o.index == (if "Index" in d && d["Index"].IntV? then d["Index"].i else 0)
      && o.maxCurrent == (if "MaxCurrent" in d && d["MaxCurrent"].IntV? then d["MaxCurrent"].i else 0)
      && o.maxVoltage == (if "MaxVoltage" in d && d["MaxVoltage"].IntV? then d["MaxVoltage"].i else 0)
  {
  }

  /** "AdapterVoltage" and "Voltage" feed separate fields: rewriting one leaves the other alone. */
  lemma AdapterVoltageIndependent(d: Dict, v: Value)
    ensures ParseAdapterDetails(d["Voltage" := v]).adapterVoltage == ParseAdapterDetails(d).adapterVoltage
    ensures ParseAdapterDetails(d["AdapterVoltage" := v]).voltage == ParseAdapterDetails(d).voltage
  {
  }
}
