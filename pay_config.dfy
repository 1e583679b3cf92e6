/**
 * `iziConfigFuntion`: the configuration object handed to the Izipay checkout. The
 * members of `Izipay.enums` it names are opaque constants of the SDK.
 */
module PayConfig {

  /** The `Izipay.enums` members the configuration uses. */
  datatype IzipayEnum =
    | PayActionPay               // Izipay.enums.payActions.PAY
    | ProcessTypeAuthorization   // Izipay.enums.processType.AUTHORIZATION
    | ShowMethodYape             // Izipay.enums.showMethods.YAPE
    | DocumentTypeDni            // Izipay.enums.documentType.DNI
    | TypeFormPopUp              // Izipay.enums.typeForm.POP_UP

  /** The function's named arguments. */
  datatype ConfigArgs = ConfigArgs(
    transactionId: string,
    merchantCode: string,
    orderNumber: string,
    orderCurrency: string,
    orderAmount: string,
    currentTimeUnix: int)

  datatype Order = Order(
    orderNumber: string,
    currency: string,
    amount: string,
    processType: IzipayEnum,
    merchantBuyerId: string,
    dateTimeTransaction: int,
    payMethod: IzipayEnum)

  datatype Billing = Billing(
    firstName: string, lastName: string, email: string, phoneNumber: string,
    street: string, city: string, state: string, country: string,
    postalCode: string, document: string, documentType: IzipayEnum)

  datatype Render = Render(typeForm: IzipayEnum, showButtonProcessForm: bool)

  datatype Appearance = Appearance(logo: string)

  datatype Config = Config(
    transactionId: string,
    action: IzipayEnum,
    merchantCode: string,
    order: Order,
    billing: Billing,
    render: Render,
    appearance: Appearance)

  /** The returned object `{ config: { ... } }`. */
  datatype IziConfig = IziConfig(config: Config)

  const FixedBilling := Billing(
    "Juan", "Wick", "jwick@izipay.pe", "989339999",
    "calle el demo", "lima", "lima", "PE",
    "00001", "12345678", DocumentTypeDni)
  const FixedRender := Render(TypeFormPopUp, false)
  const FixedAppearance := Appearance("https://www.cinergia.lat/_next/static/media/cinergiaLogoWeb1.ae313dc1.svg")
  const MerchantBuyerId := "mc1768"

  /** Where each argument lands in the configuration: read back, the configuration yields its arguments. */
  function ArgsOf(c: IziConfig): ConfigArgs {
    ConfigArgs(c.config.transactionId, c.config.merchantCode, c.config.order.orderNumber,
               c.config.order.currency, c.config.order.amount, c.config.order.dateTimeTransaction)
  }

  /** The constant part of every configuration: the action, the process type, the pay method and the fixed blocks. */
  predicate HasFixedParts(c: IziConfig) {
    && c.config.action == PayActionPay
    && c.config.order.processType == ProcessTypeAuthorization
    && c.config.order.payMethod == ShowMethodYape
    && c.config.order.merchantBuyerId == MerchantBuyerId
    && c.config.billing == FixedBilling
    && c.config.render == FixedRender
    && c.config.appearance == FixedAppearance
  }

  /**
   * `iziConfigFuntion`: every argument is passed through unchanged to its own field,
   * and everything else is the same constant for every input.
   */
  function IziConfigFunction(args: ConfigArgs): (r: IziConfig)
    ensures ArgsOf(r) == args
    ensures HasFixedParts(r)
  {
    IziConfig(Config(
      args.transactionId,
      PayActionPay,
      args.merchantCode,
      Order(args.orderNumber, args.orderCurrency, args.orderAmount, ProcessTypeAuthorization,
            MerchantBuyerId, args.currentTimeUnix, ShowMethodYape),
      FixedBilling,
      FixedRender,
      FixedAppearance))
  }

  /** A configuration is determined by its arguments, and two inputs differ only in the passed-through fields. */
  lemma ConfigDeterminedByArgs(a: ConfigArgs, b: ConfigArgs)
    ensures IziConfigFunction(a) == IziConfigFunction(b) <==> a == b
    ensures IziConfigFunction(a).config.billing == IziConfigFunction(b).config.billing
    ensures IziConfigFunction(a).config.render == IziConfigFunction(b).config.render
    ensures IziConfigFunction(a).config.appearance == IziConfigFunction(b).config.appearance
    ensures IziConfigFunction(a).config.action == IziConfigFunction(b).config.action
  {
  }
}
