/** The SSLCommerz initiation payload `/create-payment` posts to the gateway,
    and the gateway's answer as the handler sees it. */
module Gateway {
  import opened Documents

  /** The environment the handlers read: `SSL_STORE_ID`,
      `SSL_STORE_PASSWORD`, `BACKEND_URL` and `FRONTEND_URL`. */
  datatype Config = Config(storeId: string, storePassword: string, backendUrl: string, frontendUrl: string)

  /** The request body of `/create-payment`, each field as its text, `None`
      when absent or null. */
  datatype PaymentInfo = PaymentInfo(
    amount: Option<string>,
    customerName: Option<string>,
    customerEmail: Option<string>,
    customerAddress: Option<string>,
    customerCity: Option<string>,
    customerState: Option<string>,
    customerPostcode: Option<string>,
    customerCountry: Option<string>,
    customerPhone: Option<string>,
    valueA: Option<string>,
    valueB: Option<string>,
    valueC: Option<string>,
    valueD: Option<string>,
    selectedAppointments: Option<seq<string>>)

  /** The `initiateData` form posted to the gateway. */
  datatype InitiateData = InitiateData(
    storeId: string,
    storePasswd: string,
    totalAmount: Option<string>,
    currency: string,
    tranId: string,
    successUrl: string,
    failUrl: string,
    cancelUrl: string,
    cusName: string,
    cusEmail: string,
    cusAdd1: string,
    cusCity: string,
    cusState: string,
    cusPostcode: string,
    cusCountry: string,
    cusPhone: string,
    shippingMethod: string,
    productName: string,
    productCategory: string,
    productProfile: string,
    multiCardName: string,
    valueA: string,
    valueB: string,
    valueC: string,
    valueD: string)

  /** The gateway call: the POST fails and axios throws, or it answers and the
      body may or may not carry a `GatewayPageURL`. */
  datatype GatewayReply = Unreachable | Replied(gatewayPageUrl: Option<string>)

  /** A supplied text is one JavaScript's `||` keeps: present and not "". */
  predicate Supplied(v: Option<string>) {
    v.Some? && v.value != ""
  }

  /** `supplied || fallback` on a text field: the result is one of the two
      texts, never empty while the fallback is not, and the supplied text
      whenever JavaScript treats it as truthy. */
  function OrDefault(supplied: Option<string>, fallback: string): (r: string)
    ensures r == fallback || Some(r) == supplied
    ensures fallback != "" ==> r != ""
    ensures Supplied(supplied) ==> r == supplied.value
  {
    if supplied.Some? && supplied.value != "" then supplied.value else fallback
  }

  /** Applying the default to its own result changes nothing: once filled, a
      field stays as it is. */
  lemma OrDefaultIdempotent(supplied: Option<string>, fallback: string)
    requires fallback != ""
    ensures OrDefault(Some(OrDefault(supplied, fallback)), fallback) == OrDefault(supplied, fallback)
  {
  }

  /** Every customer and pass-through field of the payload is non-empty. */
  predicate CustomerFieldsFilled(d: InitiateData) {
    && d.cusName != "" && d.cusEmail != "" && d.cusAdd1 != "" && d.cusCity != ""
    && d.cusState != "" && d.cusPostcode != "" && d.cusCountry != "" && d.cusPhone != ""
    && d.valueA != "" && d.valueB != "" && d.valueC != "" && d.valueD != ""
  }

  /** `initiateData` of `/create-payment`, for the freshly generated
      transaction id. */
  function BuildInitiateData(cfg: Config, info: PaymentInfo, tranId: string): (d: InitiateData)
    ensures d.tranId == tranId && d.currency == "BDT" && d.totalAmount == info.amount
    ensures d.storeId == cfg.storeId && d.storePasswd == cfg.storePassword
    ensures d.successUrl == cfg.backendUrl + "/success-payment"
    ensures d.failUrl == cfg.backendUrl + "/fail-payment"
    ensures d.cancelUrl == cfg.backendUrl + "/cancel-payment"
    ensures d.cusName == OrDefault(info.customerName, "Customer Name")
    ensures d.cusEmail == OrDefault(info.customerEmail, "cust@example.com")
    ensures d.cusAdd1 == OrDefault(info.customerAddress, "Dhaka")
    ensures d.cusCity == OrDefault(info.customerCity, "Dhaka")
    ensures d.cusState == OrDefault(info.customerState, "Dhaka")
    ensures d.cusPostcode == OrDefault(info.customerPostcode, "1000")
    ensures d.cusCountry == OrDefault(info.customerCountry, "Bangladesh")
    ensures d.cusPhone == OrDefault(info.customerPhone, "01711111111")
    ensures d.valueA == OrDefault(info.valueA, "ref001_A")
    ensures d.valueB == OrDefault(info.valueB, "ref002_B")
    ensures d.valueC == OrDefault(info.valueC, "ref003_C")
    ensures d.valueD == OrDefault(info.valueD, "ref004_D")
    ensures d.shippingMethod == "NO" && d.productName == "Appointment"
    ensures d.productCategory == "Appointment" && d.productProfile == "non-physical-goods"
    ensures d.multiCardName == "mastercard,visacard,amexcard"
    ensures CustomerFieldsFilled(d)
  {
    InitiateData(
      storeId := cfg.storeId,
      storePasswd := cfg.storePassword,
      totalAmount := info.amount,
      currency := "BDT",
      tranId := tranId,
      successUrl := cfg.backendUrl + "/success-payment",
      failUrl := cfg.backendUrl + "/fail-payment",
      cancelUrl := cfg.backendUrl + "/cancel-payment",
      cusName := OrDefault(info.customerName, "Customer Name"),
      cusEmail := OrDefault(info.customerEmail, "cust@example.com"),
      cusAdd1 := OrDefault(info.customerAddress, "Dhaka"),
      cusCity := OrDefault(info.customerCity, "Dhaka"),
      cusState := OrDefault(info.customerState, "Dhaka"),
      cusPostcode := OrDefault(info.customerPostcode, "1000"),
      cusCountry := OrDefault(info.customerCountry, "Bangladesh"),
      cusPhone := OrDefault(info.customerPhone, "01711111111"),
      shippingMethod := "NO",
      productName := "Appointment",
      productCategory := "Appointment",
      productProfile := "non-physical-goods",
      multiCardName := "mastercard,visacard,amexcard",
      valueA := OrDefault(info.valueA, "ref001_A"),
      valueB := OrDefault(info.valueB, "ref002_B"),
      valueC := OrDefault(info.valueC, "ref003_C"),
      valueD := OrDefault(info.valueD, "ref004_D"))
  }

  /** A request body that supplies the customer fields of a payload. */
  function InfoFrom(d: InitiateData, selected: Option<seq<string>>): PaymentInfo {
    PaymentInfo(d.totalAmount, Some(d.cusName), Some(d.cusEmail), Some(d.cusAdd1), Some(d.cusCity),
                Some(d.cusState), Some(d.cusPostcode), Some(d.cusCountry), Some(d.cusPhone),
                Some(d.valueA), Some(d.valueB), Some(d.valueC), Some(d.valueD), selected)
  }

  /** Defaults only stand in for what is missing: posting a built payload's
      own customer fields again rebuilds the same payload. */
  lemma RebuildIsFixpoint(cfg: Config, info: PaymentInfo, tranId: string)
    ensures var d := BuildInitiateData(cfg, info, tranId);
      BuildInitiateData(cfg, InfoFrom(d, info.selectedAppointments), tranId) == d
  {
    OrDefaultIdempotent(info.customerName, "Customer Name");
    OrDefaultIdempotent(info.customerEmail, "cust@example.com");
    OrDefaultIdempotent(info.customerAddress, "Dhaka");
    OrDefaultIdempotent(info.customerCity, "Dhaka");
    OrDefaultIdempotent(info.customerState, "Dhaka");
    OrDefaultIdempotent(info.customerPostcode, "1000");
    OrDefaultIdempotent(info.customerCountry, "Bangladesh");
    OrDefaultIdempotent(info.customerPhone, "01711111111");
    OrDefaultIdempotent(info.valueA, "ref001_A");
    OrDefaultIdempotent(info.valueB, "ref002_B");
    OrDefaultIdempotent(info.valueC, "ref003_C");
    OrDefaultIdempotent(info.valueD, "ref004_D");
  }
}
