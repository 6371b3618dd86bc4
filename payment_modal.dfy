/** The checkout dialog (`components/PaymentModal.tsx`): choose PayPal or mobile money,
    confirm the payment, wait for a simulated verification, then download the file.
    The 1.5-second verification timer is an explicit completion event; it is never
    cancelled, so it can arrive after the dialog was closed or reopened. */
module PaymentModal {
  import opened Wrappers
  import opened Types
  import opened Text

  datatype PaymentMethod = PayPal | Mobile

  datatype Step = Select | Confirm | Success

  /** JavaScript truthiness of an optional string: present and non-empty. */
  predicate Truthy(u: Option<string>) {
    u.Some? && u.value != ""
  }

  /** The URL fields a download may come from, in priority order. */
  function UrlCandidates(product: Product): seq<Option<string>> {
    match product
    case PackProduct(p) => [p.fileUrl]
    case BeatProduct(b) => [b.audioUrl, b.previewUrl]
  }

  /** The URL `triggerDownload` links to: the first truthy candidate field (a pack's
      `fileUrl`; a beat's `audioUrl`, else its `previewUrl`), or none, in which case the
      download does nothing. */
  function DownloadUrl(product: Product): (r: Option<string>)
    ensures r.Some? ==> r.value != ""
    ensures r.None? <==> forall k :: 0 <= k < |UrlCandidates(product)| ==> !Truthy(UrlCandidates(product)[k])
    ensures r.Some? ==> exists k :: 0 <= k < |UrlCandidates(product)| && UrlCandidates(product)[k] == r &&
                          forall j :: 0 <= j < k ==> !Truthy(UrlCandidates(product)[j])
  {
    var downloadUrl :=
      match product
      case PackProduct(p) => p.fileUrl
      case BeatProduct(b) => if Truthy(b.audioUrl) then b.audioUrl else b.previewUrl;
    var c := UrlCandidates(product);
    assert downloadUrl == c[0] || (|c| == 2 && !Truthy(c[0]) && downloadUrl == c[1]);
    if Truthy(downloadUrl) then downloadUrl else None
  }

  const BrandSuffix := "_ARDBEATZ"

  /** The file extension of the `download` name: `_PACK.zip` for a pack, `.mp3` for a beat. */
  function Extension(product: Product): string {
    if product.IsPack() then "_PACK.zip" else ".mp3"
  }

  /** The `download` name: the title with every whitespace run turned into `_`, then
      `_ARDBEATZ`, then the extension; no whitespace anywhere. */
  function DownloadFileName(product: Product): (r: string)
    ensures NoWhitespace(r)
    ensures |r| == |CollapseWhitespace(product.Title())| + |BrandSuffix| + |Extension(product)|
    ensures r[..|CollapseWhitespace(product.Title())|] == CollapseWhitespace(product.Title())
    ensures r[|CollapseWhitespace(product.Title())|..|r| - |Extension(product)|] == BrandSuffix
    ensures r[|r| - |Extension(product)|..] == Extension(product)
  {
    var title := CollapseWhitespace(product.Title());
    var extension := Extension(product);
    CollapseRemovesWhitespace(product.Title());
    FixedPartsHaveNoWhitespace(product);
    NoWhitespaceConcat(title, BrandSuffix);
    NoWhitespaceConcat(title + BrandSuffix, extension);
    ThreePartSlices(title, BrandSuffix, extension);
    title + BrandSuffix + extension
  }

  /** The brand and both extensions are free of whitespace (a separate lemma keeps the
      character-by-character check out of the file name's proof). */
  lemma FixedPartsHaveNoWhitespace(product: Product)
    ensures NoWhitespace(BrandSuffix) && NoWhitespace(Extension(product))
  {
  }

  /** Each part of a three-part concatenation can be sliced back out of it. */
  lemma ThreePartSlices(a: string, b: string, c: string)
    ensures (a + b + c)[..|a|] == a
    ensures (a + b + c)[|a|..|a + b + c| - |c|] == b
    ensures (a + b + c)[|a + b + c| - |c|..] == c
  {
  }

  /** The PayPal `item_name`: `Pack: <title>` for a pack, `<title> (License)` for a beat;
      the title is carried unchanged and can be read back from it. */
  function ItemName(product: Product): (r: string)
    ensures product.IsPack() ==> |r| >= 6 && r[..6] == "Pack: " && r[6..] == product.Title()
    ensures !product.IsPack() ==> |r| >= 10 && r[|r| - 10..] == " (License)" && r[..|r| - 10] == product.Title()
  {
    if product.IsPack() then "Pack: " + product.Title() else product.Title() + " (License)"
  }

  /** The anchor `triggerDownload` creates and clicks. */
  datatype DownloadLink = DownloadLink(href: string, download: string)

  /** The dialog's own state plus the two props it receives (`isOpen`, `product`) and the
      number of verification timers that are scheduled and have not fired yet. */
  class CheckoutModal {
    var isOpen: bool
    var product: Option<Product>
    var paymentMethod: Option<PaymentMethod>
    var step: Step
    var isVerifying: bool
    var pendingCompletions: nat

    /** Verifying always has a timer behind it and never shows on the success screen;
        the confirm screen always has a method. */
    ghost predicate Valid()
      reads this
    {
      && (isVerifying ==> pendingCompletions > 0 && step != Success)
      && (step == Confirm ==> paymentMethod.Some?)
    }

    /** `if (!isOpen || !product) return null`. */
    predicate Rendered()
      reads this
    {
      isOpen && product.Some?
    }

    /** Mounting: the initial state values (the reset effect on mount sets the same values). */
    constructor(isOpen: bool, product: Option<Product>)
      ensures Valid()
      ensures this.isOpen == isOpen && this.product == product
      ensures paymentMethod == None && step == Select && !isVerifying && pendingCompletions == 0
    {
      this.isOpen := isOpen;
      this.product := product;
      paymentMethod := None;
      step := Select;
      isVerifying := false;
      pendingCompletions := 0;
    }

    /** The parent re-renders with new props; when `isOpen` turns true the effect resets
        the method, the step and the verifying flag. Pending timers are not cancelled. */
    method ReceiveProps(open: bool, newProduct: Option<Product>)
      requires Valid()
      modifies this
      ensures Valid()
      ensures isOpen == open && product == newProduct
      ensures pendingCompletions == old(pendingCompletions)
      ensures open && !old(isOpen) ==> paymentMethod == None && step == Select && !isVerifying
      ensures !(open && !old(isOpen)) ==>
        paymentMethod == old(paymentMethod) && step == old(step) && isVerifying == old(isVerifying)
    {
      var wasOpen := isOpen;
      isOpen, product := open, newProduct;
      if open && !wasOpen {
        paymentMethod := None;
        step := Select;
        isVerifying := false;
      }
    }

    /** The PayPal or the mobile-money button of the select screen. */
    method ChooseMethod(m: PaymentMethod)
      requires Valid() && Rendered() && step == Select
      modifies this
      ensures Valid()
      ensures paymentMethod == Some(m) && step == Confirm
      ensures isVerifying == old(isVerifying) && pendingCompletions == old(pendingCompletions)
      ensures isOpen == old(isOpen) && product == old(product)
    {
      paymentMethod := Some(m);
      step := Confirm;
    }

    /** "Change Payment Method": back to the select screen; the method is kept. */
    method ChangeMethod()
      requires Valid() && Rendered() && step == Confirm
      modifies this
      ensures Valid()
      ensures step == Select && paymentMethod == old(paymentMethod)
      ensures isVerifying == old(isVerifying) && pendingCompletions == old(pendingCompletions)
      ensures isOpen == old(isOpen) && product == old(product)
    {
      step := Select;
    }

    /** "I have completed the payment" / "I have sent the money" (`handlePaymentComplete`):
        the button is disabled while verifying; a click starts verifying and schedules one
        completion. */
    method PaymentComplete()
      requires Valid() && Rendered() && step == Confirm && !isVerifying
      modifies this
      ensures Valid()
      ensures isVerifying && pendingCompletions == old(pendingCompletions) + 1
      ensures step == old(step) && paymentMethod == old(paymentMethod)
      ensures isOpen == old(isOpen) && product == old(product)
    {
      isVerifying := true;
      pendingCompletions := pendingCompletions + 1;
    }

    /** A scheduled timer fires, whatever the dialog shows by then: verifying stops and the
        success screen is shown. */
    method CompletionFires()
      requires Valid() && pendingCompletions > 0
      modifies this
      ensures Valid()
      ensures !isVerifying && step == Success && pendingCompletions == old(pendingCompletions) - 1
      ensures paymentMethod == old(paymentMethod) && isOpen == old(isOpen) && product == old(product)
    {
      isVerifying := false;
      step := Success;
      pendingCompletions := pendingCompletions - 1;
    }

    /** "Download File" on the success screen: the anchor that is clicked, if there is a URL. */
    method TriggerDownload() returns (link: Option<DownloadLink>)
      requires Rendered() && step == Success
      ensures link.Some? <==> DownloadUrl(product.value).Some?
      ensures link.Some? ==> link.value.href == DownloadUrl(product.value).value
      ensures link.Some? ==> link.value.download == DownloadFileName(product.value)
    {
      var downloadUrl := DownloadUrl(product.value);
      if downloadUrl.Some? {
        link := Some(DownloadLink(downloadUrl.value, DownloadFileName(product.value)));
      } else {
        link := None;
      }
    }
  }

  /** The timer is not tied to the session: pay, close, reopen, and the old timer still
      takes the fresh session to the success screen with no method ever chosen in it. */
  method StaleCompletionScenario(product: Product) returns (step: Step, paymentMethod: Option<PaymentMethod>, open: bool)
    ensures open && step == Success && paymentMethod == None
  {
    var modal := new CheckoutModal(true, Some(product));
    modal.ChooseMethod(PayPal);
    modal.PaymentComplete();
    modal.ReceiveProps(false, Some(product));
    modal.ReceiveProps(true, Some(product));
    assert modal.step == Select && modal.paymentMethod == None && modal.pendingCompletions == 1;
    modal.CompletionFires();
    step, paymentMethod, open := modal.step, modal.paymentMethod, modal.isOpen;
  }

  /** The intended path: choose, confirm, wait, and the success screen offers the file. */
  method HappyPathScenario(product: Product, m: PaymentMethod) returns (step: Step, paymentMethod: Option<PaymentMethod>, link: Option<DownloadLink>)
    ensures step == Success && paymentMethod == Some(m)
    ensures link.Some? <==> DownloadUrl(product).Some?
  {
    var modal := new CheckoutModal(false, Some(product));
    modal.ReceiveProps(true, Some(product));
    modal.ChooseMethod(m);
    modal.PaymentComplete();
    modal.CompletionFires();
    link := modal.TriggerDownload();
    step, paymentMethod := modal.step, modal.paymentMethod;
  }
}
