/**
 * One displayed fact.  Its text is kept as a token: a localisation key and,
 * for formatted texts, the argument substituted into it.  Localised wording is
 * not part of the model.
 */
module InfoItem {
  import opened Wrappers

  /**
   * One handshake option as displayed: its 1-based number, then the voltage
   * and the current given in milli-units; the voltage is shown with two
   * decimals and the current rounded to whole amperes.
   */
  datatype PowerOptionText = PowerOptionText(number: int, milliVolts: int, milliAmps: int)

  /** The argument of a formatted text. */
  datatype Arg =
    | Num(n: int)                                  // `String(n)`
    | Word(s: string)                              // a string shown as it is
    | Msg(key: string)                             // a localised message ("Unknown", "Yes", ...)
    | Scaled(value: int, divisor: int)             // `"%.2f"` of value / divisor
    | Product(milliVolts: int, milliAmps: int)     // `"%.2f"` of the power in watts
    | TwoDecimalPercent(nominal: int, design: int) // `"%.2f"` of nominal / design * 100
    | PowerOption(option: PowerOptionText)         // one "PowerOptionDetail" line
    | PowerOptionList(options: seq<PowerOptionText>) // one line per option, after a line break
    | Blank                                        // the empty string

  datatype Text = Message(key: string) | Formatted(key: string, arg: Arg)

  datatype InfoItem = InfoItem(id: int, text: Text, detailText: Option<Text>, sort: int)

  /** `InfoItem(id:text:)`: the sort key is the id. */
  function NewItem(id: int, text: Text): (r: InfoItem)
    ensures r.id == id && r.text == text && r.sort == id && r.detailText == None
  {
    InfoItem(id, text, None, id)
  }

  /** `InfoItem(id:text:sort:)` */
  function NewSortedItem(id: int, text: Text, sort: int): (r: InfoItem)
    ensures r.id == id && r.text == text && r.sort == sort && r.detailText == None
  {
    InfoItem(id, text, None, sort)
  }

  /** `InfoItem(id:text:detailText:sort:)`: the detail text is the only way to set one. */
  function NewDetailedItem(id: int, text: Text, detailText: Option<Text>, sort: int): (r: InfoItem)
    ensures r.id == id && r.text == text && r.sort == sort && r.detailText == detailText
  {
    InfoItem(id, text, detailText, sort)
  }

  /** The ids of a list of items, in order. */
  function Ids(items: seq<InfoItem>): (r: seq<int>)
    ensures |r| == |items| && forall k :: 0 <= k < |items| ==> r[k] == items[k].id
  {
    seq(|items|, k requires 0 <= k < |items| => items[k].id)
  }
}
