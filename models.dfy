/** The wire side of src/models.rs: the response envelope, the enums with
    their serde names, the untagged `NumberOrAuto`, and the query and body
    structs with their field renames and the omit-if-`None` rule. A struct
    is written out as the members of a JSON object (serde's field order,
    flattened pagination in place) and read back the way serde's derived
    `Deserialize` reads it: by key, ignoring unknown keys, with `null` or a
    missing key giving `None`. */
module Models {
  import opened Wrappers
  import opened Text
  import opened JsonValues

  /** `RateLimit` */
  datatype RateLimit = RateLimit(limit: U32, used: U32, remaining: U32)

  /** `ApiResponse<T>`: the decoded body and the rate-limit snapshot, if the
      response carried a complete one. */
  datatype ApiResponse<T> = ApiResponse(data: T, rateLimit: Option<RateLimit>)

  // ---------------------------------------------------------------------
  // Currency

  datatype Currency = Usd | Gbp | Eur | Cad | Aud | Jpy | Chf | Mxn | Brl | Nzd | Sek | Zar

  /** The Rust variant name; serde's `rename_all = "UPPERCASE"` upper-cases it. */
  function CurrencyVariantName(c: Currency): string {
    match c
    case Usd => "Usd"
    case Gbp => "Gbp"
    case Eur => "Eur"
    case Cad => "Cad"
    case Aud => "Aud"
    case Jpy => "Jpy"
    case Chf => "Chf"
    case Mxn => "Mxn"
    case Brl => "Brl"
    case Nzd => "Nzd"
    case Sek => "Sek"
    case Zar => "Zar"
  }

  /** `Currency::as_code` */
  function AsCode(c: Currency): (code: string)
    ensures |code| == 3 && forall i :: 0 <= i < 3 ==> 'A' <= code[i] <= 'Z'
  {
    match c
    case Usd => "USD"
    case Gbp => "GBP"
    case Eur => "EUR"
    case Cad => "CAD"
    case Aud => "AUD"
    case Jpy => "JPY"
    case Chf => "CHF"
    case Mxn => "MXN"
    case Brl => "BRL"
    case Nzd => "NZD"
    case Sek => "SEK"
    case Zar => "ZAR"
  }

  /** `as_code` agrees with the serde form, so a currency sent as a query
      value and one sent in a JSON body read the same. */
  lemma AsCodeIsSerdeName(c: Currency)
    ensures AsCode(c) == ToAsciiUpper(CurrencyVariantName(c))
  {
  }

  /** serde's derived `Deserialize` for `Currency` */
  function ParseCurrency(s: string): (r: Option<Currency>)
    ensures r.Some? ==> AsCode(r.value) == s
  {
    if s == "USD" then Some(Usd)
    else if s == "GBP" then Some(Gbp)
    else if s == "EUR" then Some(Eur)
    else if s == "CAD" then Some(Cad)
    else if s == "AUD" then Some(Aud)
    else if s == "JPY" then Some(Jpy)
    else if s == "CHF" then Some(Chf)
    else if s == "MXN" then Some(Mxn)
    else if s == "BRL" then Some(Brl)
    else if s == "NZD" then Some(Nzd)
    else if s == "SEK" then Some(Sek)
    else if s == "ZAR" then Some(Zar)
    else None
  }

  /** Decoding accepts exactly the twelve codes, each for its own currency. */
  lemma CurrencyCodec(c: Currency, s: string)
    ensures ParseCurrency(s) == Some(c) <==> AsCode(c) == s
  {
    match c
    case Usd =>
    case Gbp =>
    case Eur =>
    case Cad =>
    case Aud =>
    case Jpy =>
    case Chf =>
    case Mxn =>
    case Brl =>
    case Nzd =>
    case Sek =>
    case Zar =>
  }

  lemma AsCodeInjective(c: Currency, d: Currency)
    ensures AsCode(c) == AsCode(d) ==> c == d
  {
    CurrencyCodec(c, AsCode(c));
    CurrencyCodec(d, AsCode(c));
  }

  // ---------------------------------------------------------------------
  // Enums renamed to lower case

  datatype SortOrder = Asc | Desc

  function SortOrderVariantName(o: SortOrder): string {
    match o
    case Asc => "Asc"
    case Desc => "Desc"
  }

  /** The serde form of a sort order (`rename_all = "lowercase"`). */
  function SortOrderLabel(o: SortOrder): (s: string)
    ensures s == ToAsciiLower(SortOrderVariantName(o))
  {
    match o
    case Asc => "asc"
    case Desc => "desc"
  }

  function ParseSortOrder(s: string): (r: Option<SortOrder>)
    ensures r.Some? ==> SortOrderLabel(r.value) == s
  {
    if s == "asc" then Some(Asc) else if s == "desc" then Some(Desc) else None
  }

  lemma SortOrderCodec(o: SortOrder, s: string)
    ensures ParseSortOrder(s) == Some(o) <==> SortOrderLabel(o) == s
  {
    match o
    case Asc =>
    case Desc =>
  }

  datatype SearchType = Release | Master | Artist | Label

  function SearchTypeVariantName(t: SearchType): string {
    match t
    case Release => "Release"
    case Master => "Master"
    case Artist => "Artist"
    case Label => "Label"
  }

  /** The serde form of a search type (`rename_all = "lowercase"`). */
  function SearchTypeLabel(t: SearchType): (s: string)
    ensures s == ToAsciiLower(SearchTypeVariantName(t))
  {
    match t
    case Release => "release"
    case Master => "master"
    case Artist => "artist"
    case Label => "label"
  }

  function ParseSearchType(s: string): (r: Option<SearchType>)
    ensures r.Some? ==> SearchTypeLabel(r.value) == s
  {
    if s == "release" then Some(Release)
    else if s == "master" then Some(Master)
    else if s == "artist" then Some(Artist)
    else if s == "label" then Some(Label)
    else None
  }

  lemma SearchTypeCodec(t: SearchType, s: string)
    ensures ParseSearchType(s) == Some(t) <==> SearchTypeLabel(t) == s
  {
    match t
    case Release =>
    case Master =>
    case Artist =>
    case Label =>
  }

  // ---------------------------------------------------------------------
  // Enums under their own names or explicit renames

  datatype DatabaseStatus = Accepted | Draft | Deleted | Rejected

  /** No rename: the variant name itself. */
  function DatabaseStatusLabel(d: DatabaseStatus): (text: string)
    ensures |text| >= 5 && 'A' <= text[0] <= 'Z' && forall i :: 1 <= i < |text| ==> 'a' <= text[i] <= 'z'
  {
    match d
    case Accepted => "Accepted"
    case Draft => "Draft"
    case Deleted => "Deleted"
    case Rejected => "Rejected"
  }

  function ParseDatabaseStatus(s: string): (r: Option<DatabaseStatus>)
    ensures r.Some? ==> DatabaseStatusLabel(r.value) == s
  {
    if s == "Accepted" then Some(Accepted)
    else if s == "Draft" then Some(DatabaseStatus.Draft)
    else if s == "Deleted" then Some(Deleted)
    else if s == "Rejected" then Some(Rejected)
    else None
  }

  lemma DatabaseStatusCodec(d: DatabaseStatus, s: string)
    ensures ParseDatabaseStatus(s) == Some(d) <==> DatabaseStatusLabel(d) == s
  {
    match d
    case Accepted =>
    case Draft =>
    case Deleted =>
    case Rejected =>
  }

  datatype SaleStatus = Draft | ForSale | Expired

  function SaleStatusLabel(s: SaleStatus): (text: string)
    ensures ' ' in text <==> s == ForSale
  {
    match s
    case Draft => "Draft"
    case ForSale => "For Sale"
    case Expired => "Expired"
  }

  function ParseSaleStatus(s: string): (r: Option<SaleStatus>)
    ensures r.Some? ==> SaleStatusLabel(r.value) == s
  {
    if s == "Draft" then Some(SaleStatus.Draft)
    else if s == "For Sale" then Some(ForSale)
    else if s == "Expired" then Some(Expired)
    else None
  }

  /** `ForSale` travels as `For Sale`; the Rust name `ForSale` is not
      accepted. */
  lemma SaleStatusCodec(st: SaleStatus, s: string)
    ensures ParseSaleStatus(s) == Some(st) <==> SaleStatusLabel(st) == s
    ensures ParseSaleStatus("ForSale") == None
  {
    match st
    case Draft =>
    case ForSale =>
    case Expired =>
  }

  datatype MediaCondition = Mint | NearMint | VeryGoodPlus | VeryGood | GoodPlus | Good | Fair | Poor

  function MediaConditionLabel(m: MediaCondition): (text: string)
    ensures |text| >= 3 && text[|text| - 1] == ')'
  {
    match m
    case Mint => "Mint (M)"
    case NearMint => "Near Mint (NM or M-)"
    case VeryGoodPlus => "Very Good Plus (VG+)"
    case VeryGood => "Very Good (VG)"
    case GoodPlus => "Good Plus (G+)"
    case Good => "Good (G)"
    case Fair => "Fair (F)"
    case Poor => "Poor (P)"
  }

  function ParseMediaCondition(s: string): (r: Option<MediaCondition>)
    ensures r.Some? ==> MediaConditionLabel(r.value) == s
  {
    if s == "Mint (M)" then Some(MediaCondition.Mint)
    else if s == "Near Mint (NM or M-)" then Some(MediaCondition.NearMint)
    else if s == "Very Good Plus (VG+)" then Some(MediaCondition.VeryGoodPlus)
    else if s == "Very Good (VG)" then Some(MediaCondition.VeryGood)
    else if s == "Good Plus (G+)" then Some(MediaCondition.GoodPlus)
    else if s == "Good (G)" then Some(MediaCondition.Good)
    else if s == "Fair (F)" then Some(MediaCondition.Fair)
    else if s == "Poor (P)" then Some(MediaCondition.Poor)
    else None
  }

  lemma MediaConditionCodec(m: MediaCondition, s: string)
    ensures ParseMediaCondition(s) == Some(m) <==> MediaConditionLabel(m) == s
  {
    match m
    case Mint =>
    case NearMint =>
    case VeryGoodPlus =>
    case VeryGood =>
    case GoodPlus =>
    case Good =>
    case Fair =>
    case Poor =>
  }

  datatype SleeveCondition =
    Mint | NearMint | VeryGoodPlus | VeryGood | GoodPlus | Good | Fair | Poor | Generic | NotGraded | NoCover

  function SleeveConditionLabel(c: SleeveCondition): (text: string)
    ensures |text| >= 1 && (text[|text| - 1] == ')' <==> c !in {Generic, NotGraded, NoCover})
  {
    match c
    case Mint => "Mint (M)"
    case NearMint => "Near Mint (NM or M-)"
    case VeryGoodPlus => "Very Good Plus (VG+)"
    case VeryGood => "Very Good (VG)"
    case GoodPlus => "Good Plus (G+)"
    case Good => "Good (G)"
    case Fair => "Fair (F)"
    case Poor => "Poor (P)"
    case Generic => "Generic"
    case NotGraded => "Not Graded"
    case NoCover => "No Cover"
  }

  function ParseSleeveCondition(s: string): (r: Option<SleeveCondition>)
    ensures r.Some? ==> SleeveConditionLabel(r.value) == s
  {
    if s == "Mint (M)" then Some(SleeveCondition.Mint)
    else if s == "Near Mint (NM or M-)" then Some(SleeveCondition.NearMint)
    else if s == "Very Good Plus (VG+)" then Some(SleeveCondition.VeryGoodPlus)
    else if s == "Very Good (VG)" then Some(SleeveCondition.VeryGood)
    else if s == "Good Plus (G+)" then Some(SleeveCondition.GoodPlus)
    else if s == "Good (G)" then Some(SleeveCondition.Good)
    else if s == "Fair (F)" then Some(SleeveCondition.Fair)
    else if s == "Poor (P)" then Some(SleeveCondition.Poor)
    else if s == "Generic" then Some(Generic)
    else if s == "Not Graded" then Some(NotGraded)
    else if s == "No Cover" then Some(NoCover)
    else None
  }

  lemma SleeveConditionCodec(c: SleeveCondition, s: string)
    ensures ParseSleeveCondition(s) == Some(c) <==> SleeveConditionLabel(c) == s
  {
    match c
    case Mint =>
    case NearMint =>
    case VeryGoodPlus =>
    case VeryGood =>
    case GoodPlus =>
    case Good =>
    case Fair =>
    case Poor =>
    case Generic =>
    case NotGraded =>
    case NoCover =>
  }

  /** The grade of a record as a sleeve grade. */
  function SleeveGrade(m: MediaCondition): SleeveCondition {
    match m
    case Mint => SleeveCondition.Mint
    case NearMint => SleeveCondition.NearMint
    case VeryGoodPlus => SleeveCondition.VeryGoodPlus
    case VeryGood => SleeveCondition.VeryGood
    case GoodPlus => SleeveCondition.GoodPlus
    case Good => SleeveCondition.Good
    case Fair => SleeveCondition.Fair
    case Poor => SleeveCondition.Poor
  }

  /** A media grade written as a sleeve grade has the same label. */
  lemma SleeveGradeKeepsLabel(m: MediaCondition)
    ensures SleeveConditionLabel(SleeveGrade(m)) == MediaConditionLabel(m)
  {
  }

  /** The sleeve labels are the eight media labels plus `Generic`,
      `Not Graded` and `No Cover`, which are not media grades. */
  lemma SleeveOnlyLabels(c: SleeveCondition)
    ensures ParseMediaCondition(SleeveConditionLabel(c)).None? <==> c in {Generic, NotGraded, NoCover}
  {
    match c
    case Mint =>
    case NearMint =>
    case VeryGoodPlus =>
    case VeryGood =>
    case GoodPlus =>
    case Good =>
    case Fair =>
    case Poor =>
    case Generic =>
    case NotGraded =>
    case NoCover =>
  }

  datatype OrderStatus =
    | NewOrder | BuyerContacted | InvoiceSent | PaymentPending | PaymentReceived | Shipped | RefundSent
    | CancelledNonPayingBuyer | CancelledItemUnavailable | CancelledByBuyerRequest

  function OrderStatusLabel(o: OrderStatus): (text: string)
    ensures StartsWith(text, "Cancelled (") <==>
              o in {CancelledNonPayingBuyer, CancelledItemUnavailable, CancelledByBuyerRequest}
  {
    assert "Cancelled ("[0] == 'C' && "Cancelled ("[1] == 'a';
    match o
    case NewOrder => "New Order"
    case BuyerContacted => "Buyer Contacted"
    case InvoiceSent => "Invoice Sent"
    case PaymentPending => "Payment Pending"
    case PaymentReceived => "Payment Received"
    case Shipped => "Shipped"
    case RefundSent => "Refund Sent"
    case CancelledNonPayingBuyer => "Cancelled (Non-Paying Buyer)"
    case CancelledItemUnavailable => "Cancelled (Item Unavailable)"
    case CancelledByBuyerRequest => "Cancelled (Per Buyer's Request)"
  }

  function ParseOrderStatus(s: string): (r: Option<OrderStatus>)
    ensures r.Some? ==> OrderStatusLabel(r.value) == s
  {
    if s == "New Order" then Some(NewOrder)
    else if s == "Buyer Contacted" then Some(BuyerContacted)
    else if s == "Invoice Sent" then Some(InvoiceSent)
    else if s == "Payment Pending" then Some(PaymentPending)
    else if s == "Payment Received" then Some(PaymentReceived)
    else if s == "Shipped" then Some(Shipped)
    else if s == "Refund Sent" then Some(RefundSent)
    else if s == "Cancelled (Non-Paying Buyer)" then Some(CancelledNonPayingBuyer)
    else if s == "Cancelled (Item Unavailable)" then Some(CancelledItemUnavailable)
    else if s == "Cancelled (Per Buyer's Request)" then Some(CancelledByBuyerRequest)
    else None
  }

  lemma OrderStatusCodec(o: OrderStatus, s: string)
    ensures ParseOrderStatus(s) == Some(o) <==> OrderStatusLabel(o) == s
  {
    match o
    case NewOrder =>
    case BuyerContacted =>
    case InvoiceSent =>
    case PaymentPending =>
    case PaymentReceived =>
    case Shipped =>
    case RefundSent =>
    case CancelledNonPayingBuyer =>
    case CancelledItemUnavailable =>
    case CancelledByBuyerRequest =>
  }

  // ---------------------------------------------------------------------
  // NumberOrAuto

  /** `NumberOrAuto`, `#[serde(untagged)]`. */
  datatype NumberOrAuto = Number(n: U32) | Auto(s: string)

  function NumberOrAutoToJson(x: NumberOrAuto): (j: Json)
    ensures x.Number? <==> j.Number?
  {
    match x
    case Number(n) => Json.Number(n)
    case Auto(s) => Str(s)
  }

  /** Untagged decoding tries the variants in order: a JSON number that fits
      a `u32`, else a JSON string; anything else is rejected. */
  function NumberOrAutoFromJson(j: Json): (r: Option<NumberOrAuto>)
    ensures r.Some? ==> NumberOrAutoToJson(r.value) == j
  {
    match j
    case Number(n) => if 0 <= n <= U32_MAX then Some(NumberOrAuto.Number(n)) else None
    case Str(s) => Some(Auto(s))
    case _ => None
  }

  lemma NumberOrAutoRoundTrip(x: NumberOrAuto)
    ensures NumberOrAutoFromJson(NumberOrAutoToJson(x)) == Some(x)
  {
  }

  // ---------------------------------------------------------------------
  // Structs as JSON objects

  /** No key occurs twice. */
  predicate DistinctKeys(keys: seq<string>) {
    forall i, j :: 0 <= i < j < |keys| ==> keys[i] != keys[j]
  }

  /** What serde writes for a struct whose fields, in order, are called
      `keys` and hold `vals`: the fields that are `None` are skipped
      (`skip_serializing_if = "Option::is_none"`), the rest keep their order. */
  function Entries(keys: seq<string>, vals: seq<Option<Json>>): (r: seq<(string, Json)>)
    requires |keys| == |vals|
    ensures |r| <= |keys|
    ensures forall m :: m in r ==> m.0 in keys
  {
    if keys == [] then []
    else
      var rest := Entries(keys[1..], vals[1..]);
      if vals[0].Some? then [(keys[0], vals[0].value)] + rest else rest
  }

  /** Reading a struct back: each field is looked up by its key; unknown
      keys are ignored. */
  function Lookups(keys: seq<string>, members: seq<(string, Json)>): (r: seq<Option<Json>>)
    ensures |r| == |keys|
    ensures forall i :: 0 <= i < |keys| ==> r[i] == Member(members, keys[i])
  {
    if keys == [] then [] else [Member(members, keys[0])] + Lookups(keys[1..], members)
  }

  /** A written field is found under its key with its value, and a skipped
      field is absent. */
  lemma {:induction false} MemberOfEntries(keys: seq<string>, vals: seq<Option<Json>>, i: nat)
    requires |keys| == |vals| && DistinctKeys(keys) && i < |keys|
    ensures Member(Entries(keys, vals), keys[i]) == vals[i]
  {
    var rest := Entries(keys[1..], vals[1..]);
    if i == 0 {
      assert keys[0] !in keys[1..];
    } else {
      assert DistinctKeys(keys[1..]) by {
        forall a, b | 0 <= a < b < |keys[1..]| ensures keys[1..][a] != keys[1..][b] {
          assert keys[a + 1] != keys[b + 1];
        }
      }
      MemberOfEntries(keys[1..], vals[1..], i - 1);
      assert keys[0] != keys[i];
    }
  }

  /** Writing a struct and reading it back by key gives the same fields. */
  lemma LookupsOfEntries(keys: seq<string>, vals: seq<Option<Json>>)
    requires |keys| == |vals| && DistinctKeys(keys)
    ensures Lookups(keys, Entries(keys, vals)) == vals
  {
    forall i | 0 <= i < |keys| ensures Lookups(keys, Entries(keys, vals))[i] == vals[i] {
      MemberOfEntries(keys, vals, i);
    }
  }

  /** A JSON `null` reads as an absent field. */
  function NonNull(v: Option<Json>): Option<Json> {
    if v == Some(Null) then None else v
  }

  function OptStr(o: Option<string>): Option<Json> {
    if o.Some? then Some(Str(o.value)) else None
  }

  function OptNum(o: Option<U32>): Option<Json> {
    if o.Some? then Some(Json.Number(o.value)) else None
  }

  function OptBool(o: Option<bool>): Option<Json> {
    if o.Some? then Some(Bool(o.value)) else None
  }

  function OptSortOrder(o: Option<SortOrder>): Option<Json> {
    if o.Some? then Some(Str(SortOrderLabel(o.value))) else None
  }

  /** Field decoders, for `Option` fields: an absent field or `null` is
      `None`, a value of the right kind is `Some`, anything else fails (the
      outer `None`). */
  function StrField(v: Option<Json>): (r: Option<Option<string>>)
    ensures r.Some? ==> OptStr(r.value) == NonNull(v)
    ensures v.None? || v == Some(Null) ==> r == Some(None)
  {
    match v
    case None => Some(None)
    case Some(j) => if j.Null? then Some(None) else if j.Str? then Some(Some(j.s)) else None
  }

  function NumField(v: Option<Json>): (r: Option<Option<U32>>)
    ensures r.Some? ==> OptNum(r.value) == NonNull(v)
    ensures v.None? || v == Some(Null) ==> r == Some(None)
  {
    match v
    case None => Some(None)
    case Some(j) =>
      if j.Null? then Some(None) else if j.Number? && 0 <= j.n <= U32_MAX then Some(Some(j.n)) else None
  }

  function BoolField(v: Option<Json>): (r: Option<Option<bool>>)
    ensures r.Some? ==> OptBool(r.value) == NonNull(v)
    ensures v.None? || v == Some(Null) ==> r == Some(None)
  {
    match v
    case None => Some(None)
    case Some(j) => if j.Null? then Some(None) else if j.Bool? then Some(Some(j.b)) else None
  }

  function SortOrderField(v: Option<Json>): (r: Option<Option<SortOrder>>)
    ensures r.Some? ==> OptSortOrder(r.value) == NonNull(v)
    ensures v.None? || v == Some(Null) ==> r == Some(None)
  {
    match v
    case None => Some(None)
    case Some(j) =>
      if j.Null? then Some(None)
      else if j.Str? && ParseSortOrder(j.s).Some? then Some(Some(ParseSortOrder(j.s).value))
      else None
  }

  /** Each field decoder inverts its encoder. */
  lemma FieldsRoundTrip(s: Option<string>, n: Option<U32>, b: Option<bool>, o: Option<SortOrder>)
    ensures StrField(OptStr(s)) == Some(s) && NumField(OptNum(n)) == Some(n)
    ensures BoolField(OptBool(b)) == Some(b) && SortOrderField(OptSortOrder(o)) == Some(o)
  {
    if o.Some? {
      SortOrderCodec(o.value, SortOrderLabel(o.value));
    }
  }

  // ---------------------------------------------------------------------
  // PaginationParams and the queries that flatten it

  /** `PaginationParams` */
  datatype PaginationParams = PaginationParams(page: Option<U32>, perPage: Option<U32>)

  const PAGINATION_KEYS := ["page", "per_page"]

  function PaginationValues(p: PaginationParams): (v: seq<Option<Json>>)
    ensures |v| == |PAGINATION_KEYS|
  {
    [OptNum(p.page), OptNum(p.perPage)]
  }

  function PaginationToJson(p: PaginationParams): (j: Json)
    ensures j.Object?
    ensures forall m :: m in j.members ==> m.0 in PAGINATION_KEYS
  {
    Object(Entries(PAGINATION_KEYS, PaginationValues(p)))
  }

  function PaginationFromValues(v: seq<Option<Json>>): Option<PaginationParams>
    requires |v| == |PAGINATION_KEYS|
  {
    var page := NumField(v[0]);
    var perPage := NumField(v[1]);
    if page.Some? && perPage.Some? then Some(PaginationParams(page.value, perPage.value)) else None
  }

  function PaginationFromJson(j: Json): (r: Option<PaginationParams>)
    ensures r.Some? ==> j.Object?
  {
    if j.Object? then PaginationFromValues(Lookups(PAGINATION_KEYS, j.members)) else None
  }

  lemma PaginationRoundTrip(p: PaginationParams)
    ensures PaginationFromJson(PaginationToJson(p)) == Some(p)
  {
    LookupsOfEntries(PAGINATION_KEYS, PaginationValues(p));
    FieldsRoundTrip(None, p.page, None, None);
    FieldsRoundTrip(None, p.perPage, None, None);
  }

  /** `SearchQuery`: the text fields and the search type in declaration
      order, then the flattened pagination. */
  datatype SearchQuery = SearchQuery(
    query: Option<string>, queryType: Option<SearchType>,
    title: Option<string>, releaseTitle: Option<string>, credit: Option<string>,
    artist: Option<string>, anv: Option<string>, labelName: Option<string>, genre: Option<string>,
    style: Option<string>, country: Option<string>, year: Option<string>, format: Option<string>,
    catno: Option<string>, barcode: Option<string>, track: Option<string>,
    submitter: Option<string>, contributor: Option<string>,
    pagination: PaginationParams)

  /** `query` is renamed `q` and `query_type` is renamed `type`. */
  const SEARCH_KEYS := [
    "q", "type", "title", "release_title", "credit", "artist", "anv", "label", "genre", "style",
    "country", "year", "format", "catno", "barcode", "track", "submitter", "contributor",
    "page", "per_page"]

  function OptSearchType(o: Option<SearchType>): Option<Json> {
    if o.Some? then Some(Str(SearchTypeLabel(o.value))) else None
  }

  function SearchTypeField(v: Option<Json>): (r: Option<Option<SearchType>>)
    ensures r.Some? ==> OptSearchType(r.value) == NonNull(v)
    ensures v.None? || v == Some(Null) ==> r == Some(None)
  {
    match v
    case None => Some(None)
    case Some(j) =>
      if j.Null? then Some(None)
      else if j.Str? && ParseSearchType(j.s).Some? then Some(Some(ParseSearchType(j.s).value))
      else None
  }

  function SearchQueryValues(q: SearchQuery): (v: seq<Option<Json>>)
    ensures |v| == |SEARCH_KEYS|
  {
    [OptStr(q.query), OptSearchType(q.queryType), OptStr(q.title), OptStr(q.releaseTitle),
     OptStr(q.credit), OptStr(q.artist), OptStr(q.anv), OptStr(q.labelName), OptStr(q.genre),
     OptStr(q.style), OptStr(q.country), OptStr(q.year), OptStr(q.format), OptStr(q.catno),
     OptStr(q.barcode), OptStr(q.track), OptStr(q.submitter), OptStr(q.contributor),
     OptNum(q.pagination.page), OptNum(q.pagination.perPage)]
  }

  /** serde's `Serialize` for `SearchQuery`. */
  function SearchQueryToJson(q: SearchQuery): (j: Json)
    ensures j.Object?
    ensures forall m :: m in j.members ==> m.0 in SEARCH_KEYS
  {
    Object(Entries(SEARCH_KEYS, SearchQueryValues(q)))
  }

  /** serde's `Deserialize` for `SearchQuery`, given what was found under
      each key. */
  function SearchQueryFromValues(v: seq<Option<Json>>): Option<SearchQuery>
    requires |v| == |SEARCH_KEYS|
  {
    var q := StrField(v[0]);
    var t := SearchTypeField(v[1]);
    var title := StrField(v[2]);
    var releaseTitle := StrField(v[3]);
    var credit := StrField(v[4]);
    var artist := StrField(v[5]);
    var anv := StrField(v[6]);
    var labelName := StrField(v[7]);
    var genre := StrField(v[8]);
    var style := StrField(v[9]);
    var country := StrField(v[10]);
    var year := StrField(v[11]);
    var format := StrField(v[12]);
    var catno := StrField(v[13]);
    var barcode := StrField(v[14]);
    var track := StrField(v[15]);
    var submitter := StrField(v[16]);
    var contributor := StrField(v[17]);
    var page := NumField(v[18]);
    var perPage := NumField(v[19]);
    if q.Some? && t.Some? && title.Some? && releaseTitle.Some? && credit.Some? && artist.Some?
       && anv.Some? && labelName.Some? && genre.Some? && style.Some? && country.Some? && year.Some?
       && format.Some? && catno.Some? && barcode.Some? && track.Some? && submitter.Some?
       && contributor.Some? && page.Some? && perPage.Some?
    then Some(SearchQuery(
      q.value, t.value, title.value, releaseTitle.value, credit.value, artist.value, anv.value,
      labelName.value, genre.value, style.value, country.value, year.value, format.value,
      catno.value, barcode.value, track.value, submitter.value, contributor.value,
      PaginationParams(page.value, perPage.value)))
    else None
  }

  /** serde's `Deserialize` for `SearchQuery`. */
  function SearchQueryFromJson(j: Json): (r: Option<SearchQuery>)
    ensures r.Some? ==> j.Object?
  {
    if j.Object? then SearchQueryFromValues(Lookups(SEARCH_KEYS, j.members)) else None
  }

  /** Keys of different lengths differ; the keys of equal length differ in
      their first or last letter. */
  lemma SearchKeysDistinct()
    ensures DistinctKeys(SEARCH_KEYS)
  {
    var k := SEARCH_KEYS;
    forall i, j | 0 <= i < j < |k| ensures k[i] != k[j] {
      assert KeySignature(k[i]) != KeySignature(k[j]) by { SearchKeySignatures(); }
    }
  }

  /** A key's length, first and last letter, as one number. */
  function KeySignature(key: string): nat {
    if key == [] then 0 else |key| * 0x1_0000_0000 + key[0] as nat * 0x1_0000 + key[|key| - 1] as nat
  }

  const SEARCH_KEY_SIGNATURES: seq<nat> := [
    0x1_0071_0071, 0x4_0074_0065, 0x5_0074_0065, 0xD_0072_0065, 0x6_0063_0074, 0x6_0061_0074, 0x3_0061_0076,
    0x5_006C_006C, 0x5_0067_0065, 0x5_0073_0065, 0x7_0063_0079, 0x4_0079_0072, 0x6_0066_0074, 0x5_0063_006F,
    0x7_0062_0065, 0x5_0074_006B, 0x9_0073_0072, 0xB_0063_0072, 0x4_0070_0065, 0x8_0070_0065]

  lemma SearchKeySignatures()
    ensures forall i, j :: 0 <= i < j < |SEARCH_KEYS| ==> KeySignature(SEARCH_KEYS[i]) != KeySignature(SEARCH_KEYS[j])
  {
    SearchKeySignatureTable();
    SearchKeySignaturesDistinct();
  }

  lemma SearchKeySignatureTable()
    ensures |SEARCH_KEY_SIGNATURES| == |SEARCH_KEYS|
    ensures forall i :: 0 <= i < |SEARCH_KEYS| ==> KeySignature(SEARCH_KEYS[i]) == SEARCH_KEY_SIGNATURES[i]
  {
  }

  lemma SearchKeySignaturesDistinct()
    ensures forall i, j :: 0 <= i < j < |SEARCH_KEY_SIGNATURES| ==> SEARCH_KEY_SIGNATURES[i] != SEARCH_KEY_SIGNATURES[j]
  {
  }

  lemma SearchQueryFromItsValues(q: SearchQuery)
    ensures SearchQueryFromValues(SearchQueryValues(q)) == Some(q)
  {
    FieldsRoundTrip(q.query, q.pagination.page, None, None);
    FieldsRoundTrip(q.title, q.pagination.perPage, None, None);
    FieldsRoundTrip(q.releaseTitle, None, None, None);
    FieldsRoundTrip(q.credit, None, None, None);
    FieldsRoundTrip(q.artist, None, None, None);
    FieldsRoundTrip(q.anv, None, None, None);
    FieldsRoundTrip(q.labelName, None, None, None);
    FieldsRoundTrip(q.genre, None, None, None);
    FieldsRoundTrip(q.style, None, None, None);
    FieldsRoundTrip(q.country, None, None, None);
    FieldsRoundTrip(q.year, None, None, None);
    FieldsRoundTrip(q.format, None, None, None);
    FieldsRoundTrip(q.catno, None, None, None);
    FieldsRoundTrip(q.barcode, None, None, None);
    FieldsRoundTrip(q.track, None, None, None);
    FieldsRoundTrip(q.submitter, None, None, None);
    FieldsRoundTrip(q.contributor, None, None, None);
    if q.queryType.Some? {
      SearchTypeCodec(q.queryType.value, SearchTypeLabel(q.queryType.value));
    }
  }

  /** A search query survives writing and reading back, whatever fields are
      set. */
  lemma SearchQueryRoundTrip(q: SearchQuery)
    ensures SearchQueryFromJson(SearchQueryToJson(q)) == Some(q)
  {
    SearchKeysDistinct();
    LookupsOfEntries(SEARCH_KEYS, SearchQueryValues(q));
    SearchQueryFromItsValues(q);
  }

  /** A field that is `None` is left out of the written object, and one that
      is set appears under its wire name: this is the omit-if-`None` rule. */
  lemma SearchQueryOmitsNone(q: SearchQuery, i: nat)
    requires i < |SEARCH_KEYS|
    ensures Member(SearchQueryToJson(q).members, SEARCH_KEYS[i]) == SearchQueryValues(q)[i]
  {
    SearchKeysDistinct();
    MemberOfEntries(SEARCH_KEYS, SearchQueryValues(q), i);
  }

  /** `query` travels as `q` and `query_type` as `type`, under its
      lower-case label. */
  lemma SearchQueryRenames(q: SearchQuery)
    ensures var j := SearchQueryToJson(q);
      Get(j, "q") == OptStr(q.query) && Get(j, "type") == OptSearchType(q.queryType)
  {
    assert SEARCH_KEYS[0] == "q" && SEARCH_KEYS[1] == "type";
    SearchQueryOmitsNone(q, 0);
    SearchQueryOmitsNone(q, 1);
  }

  /** The pagination fields sit in the search object itself. */
  lemma SearchQueryFlattensPagination(q: SearchQuery)
    ensures var j := SearchQueryToJson(q);
      Get(j, "page") == OptNum(q.pagination.page) && Get(j, "per_page") == OptNum(q.pagination.perPage)
  {
    assert SEARCH_KEYS[18] == "page" && SEARCH_KEYS[19] == "per_page";
    SearchQueryOmitsNone(q, 18);
    SearchQueryOmitsNone(q, 19);
  }

  /** `OrdersQuery`: the pagination sits between `archived` and `sort`. */
  datatype OrdersQuery = OrdersQuery(
    status: Option<OrderStatus>, createdAfter: Option<string>, createdBefore: Option<string>,
    archived: Option<bool>, pagination: PaginationParams,
    sort: Option<string>, sortOrder: Option<SortOrder>)

  const ORDERS_KEYS := ["status", "created_after", "created_before", "archived", "page", "per_page", "sort", "sort_order"]

  function OptOrderStatus(o: Option<OrderStatus>): Option<Json> {
    if o.Some? then Some(Str(OrderStatusLabel(o.value))) else None
  }

  function OrderStatusField(v: Option<Json>): (r: Option<Option<OrderStatus>>)
    ensures r.Some? ==> OptOrderStatus(r.value) == NonNull(v)
    ensures v.None? || v == Some(Null) ==> r == Some(None)
  {
    match v
    case None => Some(None)
    case Some(j) =>
      if j.Null? then Some(None)
      else if j.Str? && ParseOrderStatus(j.s).Some? then Some(Some(ParseOrderStatus(j.s).value))
      else None
  }

  function OrdersQueryValues(q: OrdersQuery): (v: seq<Option<Json>>)
    ensures |v| == |ORDERS_KEYS|
  {
    [OptOrderStatus(q.status), OptStr(q.createdAfter), OptStr(q.createdBefore), OptBool(q.archived),
     OptNum(q.pagination.page), OptNum(q.pagination.perPage), OptStr(q.sort), OptSortOrder(q.sortOrder)]
  }

  function OrdersQueryToJson(q: OrdersQuery): (j: Json)
    ensures j.Object?
    ensures forall m :: m in j.members ==> m.0 in ORDERS_KEYS
  {
    Object(Entries(ORDERS_KEYS, OrdersQueryValues(q)))
  }

  function OrdersQueryFromValues(v: seq<Option<Json>>): Option<OrdersQuery>
    requires |v| == |ORDERS_KEYS|
  {
    var status := OrderStatusField(v[0]);
    var after := StrField(v[1]);
    var before := StrField(v[2]);
    var archived := BoolField(v[3]);
    var page := NumField(v[4]);
    var perPage := NumField(v[5]);
    var sort := StrField(v[6]);
    var order := SortOrderField(v[7]);
    if status.Some? && after.Some? && before.Some? && archived.Some? && page.Some? && perPage.Some?
       && sort.Some? && order.Some?
    then Some(OrdersQuery(status.value, after.value, before.value, archived.value,
                          PaginationParams(page.value, perPage.value), sort.value, order.value))
    else None
  }

  function OrdersQueryFromJson(j: Json): (r: Option<OrdersQuery>)
    ensures r.Some? ==> j.Object?
  {
    if j.Object? then OrdersQueryFromValues(Lookups(ORDERS_KEYS, j.members)) else None
  }

  lemma OrdersKeysDistinct()
    ensures DistinctKeys(ORDERS_KEYS)
  {
  }

  lemma OrdersQueryFromItsValues(q: OrdersQuery)
    ensures OrdersQueryFromValues(OrdersQueryValues(q)) == Some(q)
  {
    FieldsRoundTrip(q.createdAfter, q.pagination.page, q.archived, q.sortOrder);
    FieldsRoundTrip(q.createdBefore, q.pagination.perPage, None, None);
    FieldsRoundTrip(q.sort, None, None, None);
    if q.status.Some? {
      OrderStatusCodec(q.status.value, OrderStatusLabel(q.status.value));
    }
  }

  lemma OrdersQueryRoundTrip(q: OrdersQuery)
    ensures OrdersQueryFromJson(OrdersQueryToJson(q)) == Some(q)
  {
    OrdersKeysDistinct();
    LookupsOfEntries(ORDERS_KEYS, OrdersQueryValues(q));
    OrdersQueryFromItsValues(q);
  }

  /** A set field of an orders query is written under its wire name, and a
      field that is `None` is left out. */
  lemma OrdersQueryOmitsNone(q: OrdersQuery, i: nat)
    requires i < |ORDERS_KEYS|
    ensures Member(OrdersQueryToJson(q).members, ORDERS_KEYS[i]) == OrdersQueryValues(q)[i]
  {
    OrdersKeysDistinct();
    MemberOfEntries(ORDERS_KEYS, OrdersQueryValues(q), i);
  }

  lemma OrdersKeyNames()
    ensures ORDERS_KEYS[0] == "status" && ORDERS_KEYS[1] == "created_after"
    ensures ORDERS_KEYS[2] == "created_before" && ORDERS_KEYS[3] == "archived"
    ensures ORDERS_KEYS[4] == "page" && ORDERS_KEYS[5] == "per_page"
    ensures ORDERS_KEYS[6] == "sort" && ORDERS_KEYS[7] == "sort_order"
  {
  }

  /** The orders query of the serde round-trip test (there with two
      timestamps and the sort key `id`) is written with the expected member
      under each key: the status and the sort order under their labels
      (`Payment Received`, `desc`), the pagination flattened. */
  lemma OrdersQueryExample(after: string, before: string, sortKey: string)
    ensures var j := OrdersQueryToJson(OrdersQuery(
              Some(PaymentReceived), Some(after), Some(before),
              Some(false), PaginationParams(Some(3), Some(100)), Some(sortKey), Some(Desc)));
      && Get(j, "status") == Some(Str(OrderStatusLabel(PaymentReceived)))
      && Get(j, "created_after") == Some(Str(after))
      && Get(j, "created_before") == Some(Str(before))
      && Get(j, "archived") == Some(Bool(false))
      && Get(j, "page") == Some(Json.Number(3))
      && Get(j, "per_page") == Some(Json.Number(100))
      && Get(j, "sort") == Some(Str(sortKey))
      && Get(j, "sort_order") == Some(Str(SortOrderLabel(Desc)))
  {
    var q := OrdersQuery(
      Some(PaymentReceived), Some(after), Some(before),
      Some(false), PaginationParams(Some(3), Some(100)), Some(sortKey), Some(Desc));
    OrdersKeyNames();
    OrdersQueryOmitsNone(q, 0);
    OrdersQueryOmitsNone(q, 1);
    OrdersQueryOmitsNone(q, 2);
    OrdersQueryOmitsNone(q, 3);
    OrdersQueryOmitsNone(q, 4);
    OrdersQueryOmitsNone(q, 5);
    OrdersQueryOmitsNone(q, 6);
    OrdersQueryOmitsNone(q, 7);
  }

  /** The query of `get_artist_releases` and of a collection folder's
      release list (`ArtistReleasesQuery`, `CollectionReleasesQuery`, which
      have the same fields). */
  datatype SortedPageQuery = SortedPageQuery(pagination: PaginationParams, sort: Option<string>, sortOrder: Option<SortOrder>)

  const SORTED_PAGE_KEYS := ["page", "per_page", "sort", "sort_order"]

  function SortedPageQueryValues(q: SortedPageQuery): (v: seq<Option<Json>>)
    ensures |v| == |SORTED_PAGE_KEYS|
  {
    [OptNum(q.pagination.page), OptNum(q.pagination.perPage), OptStr(q.sort), OptSortOrder(q.sortOrder)]
  }

  function SortedPageQueryToJson(q: SortedPageQuery): (j: Json)
    ensures j.Object?
    ensures forall m :: m in j.members ==> m.0 in SORTED_PAGE_KEYS
  {
    Object(Entries(SORTED_PAGE_KEYS, SortedPageQueryValues(q)))
  }

  function SortedPageQueryFromValues(v: seq<Option<Json>>): Option<SortedPageQuery>
    requires |v| == |SORTED_PAGE_KEYS|
  {
    var page := NumField(v[0]);
    var perPage := NumField(v[1]);
    var sort := StrField(v[2]);
    var order := SortOrderField(v[3]);
    if page.Some? && perPage.Some? && sort.Some? && order.Some?
    then Some(SortedPageQuery(PaginationParams(page.value, perPage.value), sort.value, order.value))
    else None
  }

  function SortedPageQueryFromJson(j: Json): (r: Option<SortedPageQuery>)
    ensures r.Some? ==> j.Object?
  {
    if j.Object? then SortedPageQueryFromValues(Lookups(SORTED_PAGE_KEYS, j.members)) else None
  }

  lemma SortedPageKeysDistinct()
    ensures DistinctKeys(SORTED_PAGE_KEYS)
  {
  }

  lemma SortedPageQueryRoundTrip(q: SortedPageQuery)
    ensures SortedPageQueryFromJson(SortedPageQueryToJson(q)) == Some(q)
  {
    SortedPageKeysDistinct();
    LookupsOfEntries(SORTED_PAGE_KEYS, SortedPageQueryValues(q));
    FieldsRoundTrip(q.sort, q.pagination.page, None, q.sortOrder);
    FieldsRoundTrip(None, q.pagination.perPage, None, None);
  }

  /** `MasterVersionsQuery` */
  datatype MasterVersionsQuery = MasterVersionsQuery(
    pagination: PaginationParams, format: Option<string>, labelName: Option<string>,
    released: Option<string>, country: Option<string>, sort: Option<string>, sortOrder: Option<SortOrder>)

  const MASTER_VERSIONS_KEYS := ["page", "per_page", "format", "label", "released", "country", "sort", "sort_order"]

  function MasterVersionsQueryValues(q: MasterVersionsQuery): (v: seq<Option<Json>>)
    ensures |v| == |MASTER_VERSIONS_KEYS|
  {
    [OptNum(q.pagination.page), OptNum(q.pagination.perPage), OptStr(q.format), OptStr(q.labelName),
     OptStr(q.released), OptStr(q.country), OptStr(q.sort), OptSortOrder(q.sortOrder)]
  }

  function MasterVersionsQueryToJson(q: MasterVersionsQuery): (j: Json)
    ensures j.Object?
    ensures forall m :: m in j.members ==> m.0 in MASTER_VERSIONS_KEYS
  {
    Object(Entries(MASTER_VERSIONS_KEYS, MasterVersionsQueryValues(q)))
  }

  function MasterVersionsQueryFromValues(v: seq<Option<Json>>): Option<MasterVersionsQuery>
    requires |v| == |MASTER_VERSIONS_KEYS|
  {
    var page := NumField(v[0]);
    var perPage := NumField(v[1]);
    var format := StrField(v[2]);
    var labelName := StrField(v[3]);
    var released := StrField(v[4]);
    var country := StrField(v[5]);
    var sort := StrField(v[6]);
    var order := SortOrderField(v[7]);
    if page.Some? && perPage.Some? && format.Some? && labelName.Some? && released.Some?
       && country.Some? && sort.Some? && order.Some?
    then Some(MasterVersionsQuery(PaginationParams(page.value, perPage.value), format.value,
                                  labelName.value, released.value, country.value, sort.value, order.value))
    else None
  }

  function MasterVersionsQueryFromJson(j: Json): (r: Option<MasterVersionsQuery>)
    ensures r.Some? ==> j.Object?
  {
    if j.Object? then MasterVersionsQueryFromValues(Lookups(MASTER_VERSIONS_KEYS, j.members)) else None
  }

  lemma MasterVersionsKeysDistinct()
    ensures DistinctKeys(MASTER_VERSIONS_KEYS)
  {
  }

  lemma MasterVersionsQueryRoundTrip(q: MasterVersionsQuery)
    ensures MasterVersionsQueryFromJson(MasterVersionsQueryToJson(q)) == Some(q)
  {
    MasterVersionsKeysDistinct();
    LookupsOfEntries(MASTER_VERSIONS_KEYS, MasterVersionsQueryValues(q));
    FieldsRoundTrip(q.format, q.pagination.page, None, q.sortOrder);
    FieldsRoundTrip(q.labelName, q.pagination.perPage, None, None);
    FieldsRoundTrip(q.released, None, None, None);
    FieldsRoundTrip(q.country, None, None, None);
    FieldsRoundTrip(q.sort, None, None, None);
  }

  // ---------------------------------------------------------------------
  // Optional query structs as handed to the transport: `None` sends no
  // query at all, `Some(q)` sends q's written members, which read back as q.

  function WrittenPagination(q: Option<PaginationParams>): (w: Option<seq<(string, Json)>>)
    ensures w.Some? <==> q.Some?
    ensures q.Some? ==> PaginationFromJson(Object(w.value)) == q
  {
    if q.None? then None else PaginationRoundTrip(q.value); Some(PaginationToJson(q.value).members)
  }

  function WrittenSortedPageQuery(q: Option<SortedPageQuery>): (w: Option<seq<(string, Json)>>)
    ensures w.Some? <==> q.Some?
    ensures q.Some? ==> SortedPageQueryFromJson(Object(w.value)) == q
  {
    if q.None? then None else SortedPageQueryRoundTrip(q.value); Some(SortedPageQueryToJson(q.value).members)
  }

  function WrittenMasterVersionsQuery(q: Option<MasterVersionsQuery>): (w: Option<seq<(string, Json)>>)
    ensures w.Some? <==> q.Some?
    ensures q.Some? ==> MasterVersionsQueryFromJson(Object(w.value)) == q
  {
    if q.None? then None else MasterVersionsQueryRoundTrip(q.value); Some(MasterVersionsQueryToJson(q.value).members)
  }

  function WrittenSearchQuery(q: Option<SearchQuery>): (w: Option<seq<(string, Json)>>)
    ensures w.Some? <==> q.Some?
    ensures q.Some? ==> SearchQueryFromJson(Object(w.value)) == q
  {
    if q.None? then None else SearchQueryRoundTrip(q.value); Some(SearchQueryToJson(q.value).members)
  }

  // ---------------------------------------------------------------------
  // Query strings

  /** How a scalar JSON value is written into a query string
      (`serde_urlencoded`): text as is, numbers in decimal, booleans as
      `true`/`false`. Percent-encoding is the transport's business. */
  function QueryText(j: Json): (r: string)
    ensures j.Str? ==> r == j.s
    ensures j.Number? && j.n >= 0 ==> r == DecimalString(j.n)
    ensures j.Bool? ==> r == if j.b then "true" else "false"
  {
    match j
    case Str(s) => s
    case Number(n) => IntString(n)
    case Bool(b) => if b then "true" else "false"
    case _ => Render(j)
  }

  /** A written `page` travels as the first query pair, and the server's
      `u32` parse of its text gives the page back. */
  lemma PageQueryPairReadsBack(p: PaginationParams)
    requires p.page.Some?
    ensures var pairs := QueryPairs(PaginationToJson(p).members);
      |pairs| >= 1 && pairs[0].0 == "page" && ParseU32(pairs[0].1) == Some(p.page.value)
  {
    ParseU32OfDecimal(p.page.value);
  }

  /** The query pairs of a written struct, in field order. */
  function QueryPairs(members: seq<(string, Json)>): (r: seq<(string, string)>)
    ensures |r| == |members|
    ensures forall i :: 0 <= i < |members| ==> r[i] == (members[i].0, QueryText(members[i].1))
  {
    if members == [] then [] else [(members[0].0, QueryText(members[0].1))] + QueryPairs(members[1..])
  }

  // ---------------------------------------------------------------------
  // Request bodies

  /** `AddFolderRequest` */
  datatype AddFolderRequest = AddFolderRequest(name: string)

  function AddFolderRequestToJson(r: AddFolderRequest): (j: Json)
    ensures Get(j, "name") == Some(Str(r.name))
  {
    Object([("name", Str(r.name))])
  }

  /** `EditCollectionReleaseRequest`: both fields are optional and skipped
      when `None`. */
  datatype EditCollectionReleaseRequest = EditCollectionReleaseRequest(rating: Option<U8>, folderId: Option<U64>)

  const EDIT_RELEASE_KEYS := ["rating", "folder_id"]

  function OptNat(o: Option<nat>): Option<Json> {
    if o.Some? then Some(Json.Number(o.value)) else None
  }

  function EditCollectionReleaseRequestToJson(r: EditCollectionReleaseRequest): (j: Json)
    ensures j.Object?
    ensures Get(j, "rating") == OptNat(r.rating) && Get(j, "folder_id") == OptNat(r.folderId)
  {
    LookupsOfEntries(EDIT_RELEASE_KEYS, [OptNat(r.rating), OptNat(r.folderId)]);
    MemberOfEntries(EDIT_RELEASE_KEYS, [OptNat(r.rating), OptNat(r.folderId)], 0);
    MemberOfEntries(EDIT_RELEASE_KEYS, [OptNat(r.rating), OptNat(r.folderId)], 1);
    Object(Entries(EDIT_RELEASE_KEYS, [OptNat(r.rating), OptNat(r.folderId)]))
  }

  /** `EditInstanceNoteRequest` */
  datatype EditInstanceNoteRequest = EditInstanceNoteRequest(value: string)

  function EditInstanceNoteRequestToJson(r: EditInstanceNoteRequest): (j: Json)
    ensures Get(j, "value") == Some(Str(r.value))
  {
    Object([("value", Str(r.value))])
  }
}
