/** What the colour and header option editors share: reading their initial value, and the
    price check of their validators. */
module OptionLists {
  import opened Js

  /** `parseInitial(data)`: an array is used as it is; a string is parsed with `JSON.parse`,
      the empty string standing for `"[]"`, and anything that is not an array, or does not
      parse, gives the empty list; every other value gives the empty list too. */
  function ParseInitial<T>(data: Initial<T>, parse: JsonParse<T>): (r: seq<T>)
    ensures data.InitArray? ==> r == data.items
    ensures data == InitString("") || data.InitOther? ==> r == []
    ensures data.InitString? && data.s != "" && parse(data.s).JsonArray? ==> r == parse(data.s).items
    ensures data.InitString? && data.s != "" && !parse(data.s).JsonArray? ==> r == []
  {
    match data
    case InitArray(items) => items
    case InitString(s) =>
      if s == "" then []
      else
        (match parse(s)
         case JsonArray(items) => items
         case _ => [])
    case InitOther => []
  }

  /** `!isNaN(parseFloat(price))`: the price reads as a number, finite or infinite. */
  predicate PriceIsNumeric(price: JsValue, pf: ParseFloat) {
    !ParseFloatOf(price, pf).NaN?
  }

  /** The message shared by both editors for a price that is not a number. */
  const PriceNotNumeric := "Fiyat say\U{0131}sal olmal\U{0131}"
}
