/** The control logic of the embeddable checkout SDK
    (checkout-widget/src/sdk/PaymentGateway.js): option validation and
    defaults, the iframe address, and the effect of `open`, `close` and
    `handleMessage` on the modal reference, the page and the sequence of
    callback invocations. The markup, styles and listener wiring are not
    modelled. */
module PaymentGateway {
  import opened Wrappers

  const DefaultCheckoutUrl: string := "http://localhost:3001"
  const CheckoutPath: string := "/checkout?order_id="
  const EmbeddedFlag: string := "&embedded=true"

  const ApiKeyRequired: string := "API key is required"
  const OrderIdRequired: string := "Order ID is required"

  /** A merchant callback, named by an opaque handle, or the empty function
      that stands in for a missing one. */
  datatype Handler = NoOp | Provided(handle: nat)

  /** The constructor's `options`. Absent fields, and `null`, are `None`. */
  datatype Options = Options(
    key: Option<string>,
    orderId: Option<string>,
    onSuccess: Option<nat>,
    onFailure: Option<nat>,
    onClose: Option<nat>,
    checkoutUrl: Option<string>)

  /** JavaScript truthiness of an optional string: present and non-empty. */
  predicate Truthy(s: Option<string>) {
    s.Some? && s.value != ""
  }

  datatype Config = Config(
    key: string,
    orderId: string,
    onSuccess: Handler,
    onFailure: Handler,
    onClose: Handler,
    checkoutUrl: string)

  /** The modal the SDK holds a reference to (`this.modal`). */
  datatype Modal = Modal(iframeSrc: string)

  datatype Gateway = Gateway(config: Config, modal: Option<Modal>)

  /** The page as the SDK affects it: how many SDK overlays are attached to
      the body, and the body's `overflow` style. */
  datatype Page = Page(overlays: nat, overflow: string)

  /** One invocation of a configured callback, with its argument. */
  datatype Call =
    | SuccessCall(handler: Handler, data: Option<string>)
    | FailureCall(handler: Handler, data: Option<string>)
    | CloseCall(handler: Handler)

  /** A gateway on a page, with every callback invocation so far. */
  datatype Session = Session(gw: Gateway, page: Page, trace: seq<Call>)

  // ------------------------------------------------------------ construction

  function HandlerOr(h: Option<nat>): Handler {
    match h
    case Some(n) => Provided(n)
    case None => NoOp
  }

  /** `new PaymentGateway(options)`: the key is checked first, then the
      order id; a missing callback becomes the empty function and a missing
      checkout URL the local default. */
  function New(options: Option<Options>): (r: Result<Gateway, string>)
    ensures r.Failure? <==> options.None? || !Truthy(options.value.key) || !Truthy(options.value.orderId)
    ensures r.Failure? ==>
      (r.error == ApiKeyRequired <==> options.None? || !Truthy(options.value.key))
    ensures r.Failure? ==> r.error == ApiKeyRequired || r.error == OrderIdRequired
    ensures r.Success? ==>
      && r.value.modal.None?
      && Some(r.value.config.key) == options.value.key
      && Some(r.value.config.orderId) == options.value.orderId
      && (options.value.onSuccess.None? <==> r.value.config.onSuccess == NoOp)
      && (options.value.onFailure.None? <==> r.value.config.onFailure == NoOp)
      && (options.value.onClose.None? <==> r.value.config.onClose == NoOp)
      && (options.value.onSuccess.Some? ==> r.value.config.onSuccess == Provided(options.value.onSuccess.value))
      && (options.value.onFailure.Some? ==> r.value.config.onFailure == Provided(options.value.onFailure.value))
      && (options.value.onClose.Some? ==> r.value.config.onClose == Provided(options.value.onClose.value))
      && r.value.config.checkoutUrl == (if Truthy(options.value.checkoutUrl) then options.value.checkoutUrl.value else DefaultCheckoutUrl)
  {
    if options.None? || !Truthy(options.value.key) then
      Failure(ApiKeyRequired)
    else if !Truthy(options.value.orderId) then
      Failure(OrderIdRequired)
    else
      var o := options.value;
      Success(Gateway(
        Config(o.key.value, o.orderId.value,
               HandlerOr(o.onSuccess), HandlerOr(o.onFailure), HandlerOr(o.onClose),
               if Truthy(o.checkoutUrl) then o.checkoutUrl.value else DefaultCheckoutUrl),
        None))
  }

  /** A freshly constructed gateway on a page with the given `overflow`. */
  function Start(gw: Gateway, overflow: string): Session {
    Session(gw, Page(0, overflow), [])
  }

  // -------------------------------------------------------------- iframe URL

  /** The template string for the iframe's `src` attribute. The order id
      and checkout URL are inserted as they are, without HTML or URL
      escaping. */
  function IframeUrl(checkoutUrl: string, orderId: string): (src: string)
    ensures |src| == |checkoutUrl| + |orderId| + 33
    ensures src[..|checkoutUrl|] == checkoutUrl
    ensures src[|checkoutUrl|..|checkoutUrl| + 19] == "/checkout?order_id="
    ensures src[|checkoutUrl| + 19..|src| - 14] == orderId
    ensures src[|src| - 14..] == "&embedded=true"
  {
    checkoutUrl + CheckoutPath + orderId + EmbeddedFlag
  }

  /** Reads the order id back out of an iframe address built on
      `checkoutUrl`. */
  function OrderIdOf(src: string, checkoutUrl: string): Option<string> {
    var pre := checkoutUrl + CheckoutPath;
    if |src| >= |pre| + |EmbeddedFlag| && src[..|pre|] == pre && src[|src| - |EmbeddedFlag|..] == EmbeddedFlag
    then Some(src[|pre|..|src| - |EmbeddedFlag|])
    else None
  }

  /** The order id can be recovered from the template string, and a string
      that yields an order id is the one built from it: for a fixed checkout
      URL the template string determines the order id. */
  lemma IframeUrlRoundTrip(checkoutUrl: string, orderId: string, src: string)
    ensures OrderIdOf(IframeUrl(checkoutUrl, orderId), checkoutUrl) == Some(orderId)
    ensures OrderIdOf(src, checkoutUrl) == Some(orderId) ==> src == IframeUrl(checkoutUrl, orderId)
  {
  }

  // ------------------------------------------------------- open/close/message

  /** Every referenced modal is attached to the page. */
  predicate Valid(s: Session) {
    s.gw.modal.Some? ==> s.page.overlays >= 1
  }

  /** `open()`: a new modal is created, attached and referenced, and page
      scrolling is switched off. No callback runs. The modal records the
      `src` template string it was built with. */
  function Open(s: Session): (r: Session)
    ensures r.gw.config == s.gw.config
    ensures r.gw.modal == Some(Modal(IframeUrl(s.gw.config.checkoutUrl, s.gw.config.orderId)))
    ensures r.page.overflow == "hidden"
    ensures r.page.overlays == s.page.overlays + 1
    ensures r.trace == s.trace
    ensures Valid(r)
  {
    var src := IframeUrl(s.gw.config.checkoutUrl, s.gw.config.orderId);
    Session(s.gw.(modal := Some(Modal(src))), Page(s.page.overlays + 1, "hidden"), s.trace)
  }

  /** `close()`: the referenced modal, if any, is detached and forgotten,
      scrolling is restored, and `onClose` runs exactly once, whether or not
      a modal was open. */
  function Close(s: Session): (r: Session)
    requires Valid(s)
    ensures r.gw.config == s.gw.config
    ensures r.gw.modal.None?
    ensures r.page.overflow == ""
    ensures r.page.overlays == if s.gw.modal.Some? then s.page.overlays - 1 else s.page.overlays
    ensures r.trace == s.trace + [CloseCall(s.gw.config.onClose)]
    ensures Valid(r)
  {
    var overlays := if s.gw.modal.Some? then s.page.overlays - 1 else s.page.overlays;
    Session(s.gw.(modal := None), Page(overlays, ""), s.trace + [CloseCall(s.gw.config.onClose)])
  }

  /** The object posted by the checkout page: its `type` and `data` fields,
      absent when missing. */
  datatype MessageBody = MessageBody(msgType: Option<string>, data: Option<string>)

  /** `handleMessage(event)`. `message` is `event.data`; when it is `null` or
      `undefined` the destructuring throws before anything happens. */
  function HandleMessage(s: Session, message: Option<MessageBody>): (r: Session)
    requires Valid(s)
    ensures Valid(r)
    ensures message.None? ==> r == s
    ensures message.Some? && message.value.msgType == Some("payment_success") ==>
      && r == Close(s.(trace := s.trace + [SuccessCall(s.gw.config.onSuccess, message.value.data)]))
      && r.trace == s.trace + [SuccessCall(s.gw.config.onSuccess, message.value.data), CloseCall(s.gw.config.onClose)]
    ensures message.Some? && message.value.msgType == Some("payment_failed") ==>
      && r.gw == s.gw && r.page == s.page
      && r.trace == s.trace + [FailureCall(s.gw.config.onFailure, message.value.data)]
    ensures message.Some? && message.value.msgType == Some("close_modal") ==>
      r == Close(s)
    ensures message.Some? && message.value.msgType !in {Some("payment_success"), Some("payment_failed"), Some("close_modal")} ==>
      r == s
  {
    match message
    case None => s
    case Some(MessageBody(t, data)) =>
      if t == Some("payment_success") then
        Close(s.(trace := s.trace + [SuccessCall(s.gw.config.onSuccess, data)]))
      else if t == Some("payment_failed") then
        s.(trace := s.trace + [FailureCall(s.gw.config.onFailure, data)])
      else if t == Some("close_modal") then
        Close(s)
      else
        s
  }

  /** Closing twice leaves the gateway and page as closing once, but runs
      `onClose` a second time. */
  lemma CloseTwice(s: Session)
    requires Valid(s)
    ensures Close(Close(s)).gw == Close(s).gw && Close(Close(s)).page == Close(s).page
    ensures Close(Close(s)).trace == Close(s).trace + [CloseCall(s.gw.config.onClose)]
  {
  }

  /** Callback invocations are only ever appended; the configuration never
      changes. */
  lemma HandleMessageExtendsTrace(s: Session, message: Option<MessageBody>)
    requires Valid(s)
    ensures HandleMessage(s, message).gw.config == s.gw.config
    ensures |HandleMessage(s, message).trace| >= |s.trace|
    ensures HandleMessage(s, message).trace[..|s.trace|] == s.trace
  {
  }

  // ------------------------------------------------------------ double open

  /** At most one SDK overlay is attached, and it is the referenced one. */
  predicate Tidy(s: Session) {
    s.page.overlays == if s.gw.modal.Some? then 1 else 0
  }

  /** Calling `open()` while the modal is open replaces the reference, so the
      first overlay stays attached and no later `close()` removes it: the page
      keeps an overlay while scrolling is restored. */
  lemma OpenTwiceOrphansOverlay(gw: Gateway, overflow: string)
    requires gw.modal.None?
    ensures var s := Close(Open(Open(Start(gw, overflow))));
            s.gw.modal.None? && s.page.overlays == 1 && s.page.overflow == "" && !Tidy(s)
  {
  }

  /** `open()` guarded so that a modal that is already open is kept rather
      than duplicated. */
  function OpenOnce(s: Session): (r: Session)
    ensures r.gw.config == s.gw.config
    ensures r.gw.modal.Some?
    ensures Valid(s) ==> Valid(r)
    ensures Tidy(s) ==> Tidy(r)
    ensures s.gw.modal.None? ==> r == Open(s)
    ensures s.gw.modal.Some? ==> r == s
  {
    if s.gw.modal.Some? then s else Open(s)
  }

  /** With the guarded open, every operation keeps at most one overlay on the
      page, so after any close none is left. */
  lemma TidyPreserved(s: Session, message: Option<MessageBody>)
    requires Tidy(s)
    ensures Valid(s)
    ensures Tidy(OpenOnce(s))
    ensures Tidy(Close(s)) && Close(s).page.overlays == 0
    ensures Tidy(HandleMessage(s, message))
  {
  }

  /** A fresh session is tidy. */
  lemma StartTidy(gw: Gateway, overflow: string)
    requires gw.modal.None?
    ensures Tidy(Start(gw, overflow)) && Valid(Start(gw, overflow))
  {
  }
}
