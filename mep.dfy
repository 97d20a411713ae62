/**
 * Reshaping of the dollar-MEP quote document: three sections (open, close,
 * overnight), each with five fields renamed to the library's own names.
 * A missing section or field gives `None`; a value that is not an object where
 * one is subscripted raises a TypeError, as subscripting `None` does.
 */
module MepData {
  import opened Wrappers
  import opened Common

  const SECTIONS: seq<string> := ["open", "close", "overnight"]
  const SOURCE_FIELDS: seq<string> := ["short_ticker", "ask", "bid", "settlementForBuy", "settlementForSell"]
  const TARGET_FIELDS: seq<string> := ["ticker", "ask", "bid", "settlement_buy", "settlement_sell"]

  predicate HasAllFields(src: map<string, Json>) {
    forall f :: f in SOURCE_FIELDS ==> f in src
  }

  /** One section with its fields renamed; fields the section has beyond the five are dropped. */
  function Quote(src: map<string, Json>): (r: map<string, Json>)
    requires HasAllFields(src)
    ensures r.Keys == set f | f in TARGET_FIELDS
    ensures "settlementForBuy" !in r && "settlementForSell" !in r && "short_ticker" !in r
  {
    assert SOURCE_FIELDS[0] in SOURCE_FIELDS && SOURCE_FIELDS[3] in SOURCE_FIELDS && SOURCE_FIELDS[4] in SOURCE_FIELDS;
    map["ticker" := src["short_ticker"], "ask" := src["ask"], "bid" := src["bid"],
        "settlement_buy" := src["settlementForBuy"], "settlement_sell" := src["settlementForSell"]]
  }

  /** Field `i` of the library's names holds the value of field `i` of the source's names. */
  lemma QuoteRenames(src: map<string, Json>, i: nat)
    requires HasAllFields(src) && i < |TARGET_FIELDS|
    ensures TARGET_FIELDS[i] in Quote(src) && SOURCE_FIELDS[i] in src
    ensures Quote(src)[TARGET_FIELDS[i]] == src[SOURCE_FIELDS[i]]
  {
    assert SOURCE_FIELDS[i] in SOURCE_FIELDS;
  }

  /** Section `name` of `data` is present, is an object and holds all five fields. */
  predicate SectionOk(data: Json, name: string) {
    data.JObj? && name in data.fields && data.fields[name].JObj? && HasAllFields(data.fields[name].fields)
  }

  /** Section `name` of `data`, if present, is an object. */
  predicate SectionIsObject(data: Json, name: string) {
    data.JObj? && (name in data.fields ==> data.fields[name].JObj?)
  }

  /** Reads section `name` of `data`: TypeError on a non-object, `None` when a key is missing. */
  function Section(data: Json, name: string): (r: Result<Option<map<string, Json>>, Exc>)
    ensures r.Failure? <==> !SectionIsObject(data, name)
    ensures r.Failure? ==> r.error == TypeError
    ensures (r.Success? && r.value.Some?) <==> SectionOk(data, name)
    ensures r.Success? && r.value.Some? ==> r.value.value == Quote(data.fields[name].fields)
  {
    if !data.JObj? then Failure(TypeError)
    else if name !in data.fields then Success(None)
    else
      var v := data.fields[name];
      if !v.JObj? then Failure(TypeError)
      else if HasAllFields(v.fields) then Success(Some(Quote(v.fields)))
      else Success(None)
  }

  /** `data` is an object whose three sections are present, are objects and hold all five fields. */
  predicate WellFormed(data: Json) {
    SectionOk(data, "open") && SectionOk(data, "close") && SectionOk(data, "overnight")
  }

  /** Every section that is present is an object, so no subscript can raise. */
  predicate SectionsAreObjects(data: Json) {
    SectionIsObject(data, "open") && SectionIsObject(data, "close") && SectionIsObject(data, "overnight")
  }

  /** The reshaped document holds exactly the three sections. */
  lemma SectionKeys(o: Json, c: Json, n: Json)
    ensures map["open" := o, "close" := c, "overnight" := n].Keys == set s | s in SECTIONS
  {
    var keys := map["open" := o, "close" := c, "overnight" := n].Keys;
    assert forall s :: s in keys <==> s in SECTIONS;
  }

  /** Three well-formed sections make a well-formed document, each section reshaped in place. */
  lemma Assembled(data: Json, o: map<string, Json>, c: map<string, Json>, n: map<string, Json>)
    requires Section(data, "open") == Success(Some(o))
    requires Section(data, "close") == Success(Some(c))
    requires Section(data, "overnight") == Success(Some(n))
    ensures WellFormed(data)
    ensures var out := map["open" := JObj(o), "close" := JObj(c), "overnight" := JObj(n)];
            forall s :: s in SECTIONS ==> s in out && SectionOk(data, s) && out[s] == JObj(Quote(data.fields[s].fields))
  {
    var out := map["open" := JObj(o), "close" := JObj(c), "overnight" := JObj(n)];
    assert SECTIONS == ["open", "close", "overnight"];
    forall s | s in SECTIONS
      ensures s in out && SectionOk(data, s) && out[s] == JObj(Quote(data.fields[s].fields))
    {
      assert s == "open" || s == "close" || s == "overnight";
    }
  }

  /** The reshaped document: sections read in the order open, close, overnight. */
  function ProcessMepData(data: Json): (r: Result<Option<Json>, Exc>)
    ensures r.Failure? ==> r.error == TypeError
    ensures !data.JObj? ==> r == Failure(TypeError)
    ensures (r.Success? && r.value.Some?) <==> WellFormed(data)
    ensures r.Success? && r.value.Some? ==>
              var out := r.value.value;
              out.JObj? && out.fields.Keys == set s | s in SECTIONS
              && forall s :: s in SECTIONS ==> s in out.fields && SectionOk(data, s) && out.fields[s] == JObj(Quote(data.fields[s].fields))
    ensures SectionsAreObjects(data) && !WellFormed(data) ==> r == Success(None)
  {
    match Section(data, "open")
    case Failure(e) => Failure(e)
    case Success(None) => Success(None)
    case Success(Some(o)) =>
      match Section(data, "close")
      case Failure(e) => Failure(e)
      case Success(None) => Success(None)
      case Success(Some(c)) =>
        match Section(data, "overnight")
        case Failure(e) => Failure(e)
        case Success(None) => Success(None)
        case Success(Some(n)) =>
          SectionKeys(JObj(o), JObj(c), JObj(n));
          Assembled(data, o, c, n);
          Success(Some(JObj(map["open" := JObj(o), "close" := JObj(c), "overnight" := JObj(n)])))
  }

  /** Nothing passed at all is a TypeError, and an empty object has no sections. */
  lemma MepEdgeInputs()
    ensures ProcessMepData(JNull) == Failure(TypeError)
    ensures ProcessMepData(JObj(map[])) == Success(None)
  {
  }

  /** Zero, empty-string and any other values are carried over unchanged to their renamed field. */
  lemma MepValuesPreserved(data: Json, s: string, i: nat)
    requires WellFormed(data) && s in SECTIONS && i < |TARGET_FIELDS|
    ensures ProcessMepData(data).value.value.fields[s].fields[TARGET_FIELDS[i]]
            == data.fields[s].fields[SOURCE_FIELDS[i]]
  {
    assert SectionOk(data, s);
    QuoteRenames(data.fields[s].fields, i);
  }
}
