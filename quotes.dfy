/** `getStockQuote`'s reading of a `GLOBAL_QUOTE` response: the zero quote
    when the response has no usable `Global Quote` member, otherwise each
    field read and defaulted on its own. */
module Quotes {
  import opened Wrappers
  import opened JsonValues
  import Numbers

  /** The normalised quote. `changePercent` is whatever truthy value the
      provider sent (a string such as `"1.25%"`), or the string `"0%"`. */
  datatype Quote = Quote(price: real, change: real, changePercent: Json, volume: int, high: real, low: real)

  /** `getEmptyQuote()`. */
  const EmptyQuote: Quote := Quote(0.0, 0.0, Str("0%"), 0, 0.0, 0.0)

  /** `parseFloat(quote[name]) || 0`. */
  function NumberField(quote: Json, name: string): real {
    ParseFloatOf(Get(quote, name)).GetOr(0.0)
  }

  /** `quote[name] || '0%'`. */
  function TextField(quote: Json, name: string): Json {
    match Get(quote, name)
    case Some(v) => if Truthy(v) then v else Str("0%")
    case None => Str("0%")
  }

  /** The `Global Quote` member is absent, falsy or has no keys. */
  predicate NoQuote(data: Json) {
    match Get(data, "Global Quote")
    case None => true
    case Some(q) => !Truthy(q) || KeyCount(q) == 0
  }

  /** The quote built from a validated response (`src/lib/api.ts`, after
      `makeRequest` returns). */
  function NormalizeQuote(data: Json): (r: Quote)
    ensures NoQuote(data) ==> r == EmptyQuote
    ensures Truthy(r.changePercent)
  {
    if NoQuote(data) then EmptyQuote
    else
      var q := Get(data, "Global Quote").value;
      Quote(
        NumberField(q, "05. price"),
        NumberField(q, "09. change"),
        TextField(q, "10. change percent"),
        ParseIntOf(Get(q, "06. volume")).GetOr(0),
        NumberField(q, "03. high"),
        NumberField(q, "04. low"))
  }

  /** A decimal numeral as the provider writes prices and changes
      (`"189.8400"`, `"-1.2300"`): an optional minus sign, the whole part, a
      point and the fraction digits. */
  datatype Numeral = Numeral(negative: bool, whole: nat, fraction: string)

  predicate ValidNumeral(n: Numeral) {
    Numbers.AllDigits(n.fraction)
  }

  function NumeralText(n: Numeral): string {
    (if n.negative then "-" else "") + Numbers.Decimal(n.whole) + "." + n.fraction
  }

  /** The value a numeral denotes. */
  function NumeralValue(n: Numeral): real
    requires ValidNumeral(n)
  {
    var x := Numbers.FractionValue(n.whole, n.fraction);
    if n.negative then -x else x
  }

  lemma NumeralParses(n: Numeral)
    requires ValidNumeral(n)
    ensures Numbers.ParseFloat(NumeralText(n)) == Some(NumeralValue(n))
  {
    if n.negative {
      Numbers.ParseFloatFractionNegated(n.whole, n.fraction);
    } else {
      assert NumeralText(n) == Numbers.Decimal(n.whole) + "." + n.fraction;
      Numbers.ParseFloatFraction(n.whole, n.fraction);
    }
  }

  /** A `GLOBAL_QUOTE` response: prices and the change as decimal numerals,
      the volume as a whole number. */
  function QuotePayload(price: Numeral, change: Numeral, percent: string, volume: nat, high: Numeral, low: Numeral): Json {
    Obj([("Global Quote", Obj(
      [("03. high", Str(NumeralText(high)))] +
      [("04. low", Str(NumeralText(low)))] +
      [("05. price", Str(NumeralText(price)))] +
      [("06. volume", Str(Numbers.Decimal(volume)))] +
      [("09. change", Str(NumeralText(change)))] +
      [("10. change percent", Str(percent))]))])
  }

  /** The response holds a usable `Global Quote` member `q`. */
  predicate UsableQuote(data: Json, q: Json) {
    Get(data, "Global Quote") == Some(q) && Truthy(q) && KeyCount(q) > 0
  }

  /** Each field is read from its own member alone: two usable quotes that
      agree on a member give the same value for its field, whatever their
      other members hold. */
  lemma QuoteFieldsIndependent(data1: Json, q1: Json, data2: Json, q2: Json)
    requires UsableQuote(data1, q1) && UsableQuote(data2, q2)
    ensures var r1 := NormalizeQuote(data1); var r2 := NormalizeQuote(data2);
      && (Get(q1, "05. price") == Get(q2, "05. price") ==> r1.price == r2.price)
      && (Get(q1, "09. change") == Get(q2, "09. change") ==> r1.change == r2.change)
      && (Get(q1, "10. change percent") == Get(q2, "10. change percent") ==> r1.changePercent == r2.changePercent)
      && (Get(q1, "06. volume") == Get(q2, "06. volume") ==> r1.volume == r2.volume)
      && (Get(q1, "03. high") == Get(q2, "03. high") ==> r1.high == r2.high)
      && (Get(q1, "04. low") == Get(q2, "04. low") ==> r1.low == r2.low)
  {
  }

  /** A member that is absent, `null`, or text that is not a number. */
  predicate Unreadable(member: Option<Json>) {
    match member
    case None => true
    case Some(Null) => true
    case Some(Str(t)) => Numbers.ParseFloat(t) == None
    case Some(_) => false
  }

  /** The same for `parseInt`. */
  predicate UnreadableInt(member: Option<Json>) {
    match member
    case None => true
    case Some(Null) => true
    case Some(Str(t)) => Numbers.ParseInt(t) == None
    case Some(_) => false
  }

  /** Each field of a usable quote defaults on its own: an unreadable member
      reads 0 (or `"0%"` for a falsy change percent), a numeral reads its
      value and a truthy change percent is passed on as sent. */
  lemma QuoteFieldDefaults(data: Json, q: Json)
    requires UsableQuote(data, q)
    ensures var r := NormalizeQuote(data);
      && (Unreadable(Get(q, "05. price")) ==> r.price == 0.0)
      && (Unreadable(Get(q, "09. change")) ==> r.change == 0.0)
      && (Unreadable(Get(q, "03. high")) ==> r.high == 0.0)
      && (Unreadable(Get(q, "04. low")) ==> r.low == 0.0)
      && (UnreadableInt(Get(q, "06. volume")) ==> r.volume == 0)
      && (Get(q, "10. change percent").None? || !Truthy(Get(q, "10. change percent").value) ==> r.changePercent == Str("0%"))
      && (Get(q, "10. change percent").Some? && Truthy(Get(q, "10. change percent").value) ==> r.changePercent == Get(q, "10. change percent").value)
  {
    UsableQuoteFields(data, q);
  }

  lemma UsableQuoteFields(data: Json, q: Json)
    requires UsableQuote(data, q)
    ensures NormalizeQuote(data) == Quote(NumberField(q, "05. price"), NumberField(q, "09. change"),
      TextField(q, "10. change percent"), ParseIntOf(Get(q, "06. volume")).GetOr(0),
      NumberField(q, "03. high"), NumberField(q, "04. low"))
  {
  }

  lemma NumberFieldOf(q: Json, name: string, text: string, x: real)
    requires Get(q, name) == Some(Str(text)) && Numbers.ParseFloat(text) == Some(x)
    ensures NumberField(q, name) == x
  {
  }

  lemma IntFieldOf(q: Json, name: string, text: string, n: int)
    requires Get(q, name) == Some(Str(text)) && Numbers.ParseInt(text) == Some(n)
    ensures ParseIntOf(Get(q, name)).GetOr(0) == n
  {
  }

  /** Reading a complete quote response gives back every value it carries. */
  lemma QuoteRoundTrip(price: Numeral, change: Numeral, percent: string, volume: nat, high: Numeral, low: Numeral)
    requires ValidNumeral(price) && ValidNumeral(change) && ValidNumeral(high) && ValidNumeral(low)
    requires percent != ""
    ensures NormalizeQuote(QuotePayload(price, change, percent, volume, high, low))
         == Quote(NumeralValue(price), NumeralValue(change), Str(percent), volume, NumeralValue(high), NumeralValue(low))
  {
    var data := QuotePayload(price, change, percent, volume, high, low);
    var m0 := ("03. high", Str(NumeralText(high)));
    var m1 := ("04. low", Str(NumeralText(low)));
    var m2 := ("05. price", Str(NumeralText(price)));
    var m3 := ("06. volume", Str(Numbers.Decimal(volume)));
    var m4 := ("09. change", Str(NumeralText(change)));
    var m5 := ("10. change percent", Str(percent));
    var p1 := [m0];
    var p2 := p1 + [m1];
    var p3 := p2 + [m2];
    var p4 := p3 + [m3];
    var p5 := p4 + [m4];
    var fields := p5 + [m5];
    var q := Obj(fields);
    assert data == Obj([("Global Quote", q)]);
    KeysOfObject(fields);
    UsableQuoteFields(data, q);
    // Each name is found by stepping back over the members after it.
    LookupHit([], m0);
    LookupHit(p1, m1);
    LookupHit(p2, m2);
    LookupHit(p3, m3);
    LookupHit(p4, m4);
    LookupHit(p5, m5);
    LookupSkip(p5, m5, "09. change");
    LookupSkip(p5, m5, "06. volume");
    LookupSkip(p4, m4, "06. volume");
    LookupSkip(p5, m5, "05. price");
    LookupSkip(p4, m4, "05. price");
    LookupSkip(p3, m3, "05. price");
    LookupSkip(p5, m5, "04. low");
    LookupSkip(p4, m4, "04. low");
    LookupSkip(p3, m3, "04. low");
    LookupSkip(p2, m2, "04. low");
    LookupSkip(p5, m5, "03. high");
    LookupSkip(p4, m4, "03. high");
    LookupSkip(p3, m3, "03. high");
    LookupSkip(p2, m2, "03. high");
    LookupSkip(p1, m1, "03. high");
    NumeralParses(price);
    NumeralParses(high);
    NumeralParses(low);
    NumeralParses(change);
    Numbers.ParseIntDecimal(volume);
    NumberFieldOf(q, "05. price", NumeralText(price), NumeralValue(price));
    NumberFieldOf(q, "03. high", NumeralText(high), NumeralValue(high));
    NumberFieldOf(q, "04. low", NumeralText(low), NumeralValue(low));
    NumberFieldOf(q, "09. change", NumeralText(change), NumeralValue(change));
    assert Truthy(Str(percent));
    IntFieldOf(q, "06. volume", Numbers.Decimal(volume), volume);
  }

  /** Fields default one by one: a quote carrying only a price keeps that
      price and reads zero for the rest, which is not the zero quote. */
  lemma PartialQuote(price: nat)
    requires price > 0
    ensures var r := NormalizeQuote(Obj([("Global Quote", Obj([("05. price", Str(Numbers.Decimal(price)))]))]));
      && r == EmptyQuote.(price := price as real)
      && r != EmptyQuote
  {
    var member := ("05. price", Str(Numbers.Decimal(price)));
    var fields := [member];
    var q := Obj(fields);
    var data := Obj([("Global Quote", q)]);
    LookupHit([], ("Global Quote", q));
    assert [] + [("Global Quote", q)] == [("Global Quote", q)] && [] + fields == fields;
    KeysOfObject(fields);
    assert UsableQuote(data, q);
    UsableQuoteFields(data, q);
    LookupHit([], member);
    Numbers.ParseFloatDecimal(price);
    NumberFieldOf(q, "05. price", Numbers.Decimal(price), price as real);
    QuoteFieldDefaults(data, q);
  }
}
