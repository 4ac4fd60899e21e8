/** The pricing card's derived values: whether a discount shows, the displayed price, the
    button's label, style and disabled state, and the price line's parts. */
module PricingCard {
  import opened Wrappers
  import opened Domain
  import opened Subscription

  datatype Interval = Month | Year {
    function Name(): string {
      match this
      case Month => "month"
      case Year => "year"
    }
  }

  /** The plan fields the card reads. `popular` is optional; absent reads as false. */
  datatype SubscriptionPlan = SubscriptionPlan(
    id: string,
    name: string,
    nameUrdu: string,
    planType: PlanType,
    price: real,
    currency: string,
    interval: Interval,
    popular: Option<bool>)

  /** JavaScript truthiness of an optional number (NaN is not modelled). */
  predicate TruthyNumber(x: Option<real>) {
    x.Some? && x.value != 0.0
  }

  /** `hasDiscount = discountedPrice && discountedPrice < plan.price`, read as a condition. */
  function HasDiscount(discountedPrice: Option<real>, price: real): (r: bool)
    ensures r <==> (discountedPrice.Some? && discountedPrice.value != 0.0 && discountedPrice.value < price)
  {
    TruthyNumber(discountedPrice) && discountedPrice.value < price
  }

  /** `displayPrice = discountedPrice || plan.price`. */
  function DisplayPrice(discountedPrice: Option<real>, price: real): (r: real)
    ensures TruthyNumber(discountedPrice) ==> r == discountedPrice.value
    ensures !TruthyNumber(discountedPrice) ==> r == price
  {
    if TruthyNumber(discountedPrice) then discountedPrice.value else price
  }

  /** A discount that shows is the price shown, and it is strictly below the plan's price;
      a discounted price at or above the plan's price is still shown, without a discount. */
  lemma DiscountShownIsDisplayed(discountedPrice: Option<real>, price: real)
    ensures HasDiscount(discountedPrice, price) ==> DisplayPrice(discountedPrice, price) < price
    ensures (TruthyNumber(discountedPrice) && !HasDiscount(discountedPrice, price))
      ==> DisplayPrice(discountedPrice, price) >= price
    ensures DisplayPrice(discountedPrice, price) < price ==> HasDiscount(discountedPrice, price)
  {
  }

  /** The four button labels. */
  datatype ButtonLabel = CurrentPlan | ContactSales | Processing | GetStarted {
    function Text(language: Language): string {
      match (this, language)
      case (CurrentPlan, English) => "Current Plan"
      case (CurrentPlan, Urdu) => "موجودہ پلان"
      case (ContactSales, English) => "Contact Sales"
      case (ContactSales, Urdu) => "سیلز سے رابطہ"
      case (Processing, English) => "Processing..."
      case (Processing, Urdu) => "پروسیسنگ..."
      case (GetStarted, English) => "Get Started"
      case (GetStarted, Urdu) => "شروع کریں"
    }
  }

  /** `getButtonText`'s choice: free, then enterprise, then loading, else get started. */
  function ButtonLabelFor(planId: string, isLoading: bool): (r: ButtonLabel)
    ensures r == CurrentPlan <==> planId == "free"
    ensures r == ContactSales <==> planId == "enterprise"
    ensures r == Processing <==> planId != "free" && planId != "enterprise" && isLoading
    ensures r == GetStarted <==> planId != "free" && planId != "enterprise" && !isLoading
  {
    if planId == "free" then CurrentPlan
    else if planId == "enterprise" then ContactSales
    else if isLoading then Processing
    else GetStarted
  }

  /** `getButtonText`: "Current Plan" for the free plan, else "Contact Sales" for the
      enterprise plan, else "Processing..." while loading, else "Get Started"; in English
      when the language is English and in Urdu otherwise. */
  function ButtonText(plan: SubscriptionPlan, language: Language, isLoading: bool): (r: string)
    ensures plan.id == "free" ==> r == (if language == Language.English then "Current Plan" else "موجودہ پلان")
    ensures plan.id == "enterprise" ==> r == (if language == Language.English then "Contact Sales" else "سیلز سے رابطہ")
    ensures plan.id != "free" && plan.id != "enterprise" && isLoading ==>
      r == (if language == Language.English then "Processing..." else "پروسیسنگ...")
    ensures plan.id != "free" && plan.id != "enterprise" && !isLoading ==>
      r == (if language == Language.English then "Get Started" else "شروع کریں")
  {
    ButtonLabelFor(plan.id, isLoading).Text(language)
  }

  /** The labels are distinct in each language, so the text tells the case apart. */
  lemma ButtonTextsDistinct(a: ButtonLabel, b: ButtonLabel, language: Language)
    ensures a.Text(language) == b.Text(language) <==> a == b
  {
    if a != b {
      match language
      case English =>
        assert a.Text(language)[0] != b.Text(language)[0] || a.Text(language)[1] != b.Text(language)[1];
      case Urdu =>
        assert a.Text(language)[0] != b.Text(language)[0];
    }
  }

  const GreyStyle: string := "bg-gray-300 text-gray-600 cursor-not-allowed"
  const GradientStyle: string :=
    "bg-gradient-to-r from-blue-500 to-purple-600 text-white hover:from-blue-600 hover:to-purple-700"
  const DarkStyle: string := "bg-gray-900 text-white hover:bg-gray-800"

  /** `getButtonStyle`: grey for the free plan, else the gradient for a popular plan,
      else dark. */
  function ButtonStyle(plan: SubscriptionPlan): (r: string)
    ensures plan.id == "free" ==> r == GreyStyle
    ensures plan.id != "free" && plan.popular == Some(true) ==> r == GradientStyle
    ensures plan.id != "free" && plan.popular != Some(true) ==> r == DarkStyle
  {
    if plan.id == "free" then GreyStyle
    else if plan.popular.Some? && plan.popular.value then GradientStyle
    else DarkStyle
  }

  /** `disabled={isLoading || plan.id === 'free'}`. */
  function ButtonDisabled(plan: SubscriptionPlan, isLoading: bool): (r: bool)
    ensures r <==> isLoading || plan.id == "free"
  {
    isLoading || plan.id == "free"
  }

  /** A disabled button shows "Processing..." or "Current Plan", or is the Contact Sales
      button while loading; an enabled one never shows "Processing...". */
  lemma DisabledButtonLabels(plan: SubscriptionPlan, isLoading: bool)
    ensures !ButtonDisabled(plan, isLoading) ==> ButtonLabelFor(plan.id, isLoading) != Processing
    ensures ButtonLabelFor(plan.id, isLoading) == Processing ==> ButtonDisabled(plan, isLoading)
    ensures ButtonLabelFor(plan.id, isLoading) == CurrentPlan ==> ButtonDisabled(plan, isLoading)
    ensures ButtonLabelFor(plan.id, isLoading) == GetStarted ==> !ButtonDisabled(plan, isLoading)
  {
  }

  function CurrencySymbol(currency: string): string {
    if currency == "PKR" then "₨" else "$"
  }

  /** What a JSX `{cond && <element/>}` puts on the page: nothing when `cond` is false,
      null or undefined; the text "0" when `cond` is the number 0; else the element. */
  datatype Rendered<T> = NothingShown | ZeroShown | Shown(content: T)

  /** The discount badge, `{hasDiscount && campaign && ...}`: a discounted price of 0 makes
      `hasDiscount` the number 0, which renders as a stray "0"; otherwise the badge shows,
      with the campaign's percentage, exactly when there is a discount and a campaign. */
  function DiscountBadge(plan: SubscriptionPlan, discountedPrice: Option<real>, campaign: Option<Campaign>)
    : (r: Rendered<real>)
    ensures r == ZeroShown <==> discountedPrice == Some(0.0)
    ensures r.Shown? <==> HasDiscount(discountedPrice, plan.price) && campaign.Some?
    ensures r.Shown? ==> r.content == campaign.value.discountPercentage
  {
    if discountedPrice == Some(0.0) then ZeroShown
    else if HasDiscount(discountedPrice, plan.price) && campaign.Some? then Shown(campaign.value.discountPercentage)
    else NothingShown
  }

  /** The struck-through original price, `{hasDiscount && ...}`: a stray "0" for a
      discounted price of 0; otherwise the currency symbol and the plan's price, shown exactly
      when there is a discount. */
  function Strikethrough(plan: SubscriptionPlan, discountedPrice: Option<real>): (r: Rendered<(string, real)>)
    ensures r == ZeroShown <==> discountedPrice == Some(0.0)
    ensures r.Shown? <==> HasDiscount(discountedPrice, plan.price)
    ensures r.Shown? ==> r.content == (CurrencySymbol(plan.currency), plan.price)
  {
    if discountedPrice == Some(0.0) then ZeroShown
    else if HasDiscount(discountedPrice, plan.price) then Shown((CurrencySymbol(plan.currency), plan.price))
    else NothingShown
  }

  /** The main price: "Custom" for the enterprise plan, else a currency symbol and an amount. */
  datatype PriceLabel = Custom(text: string) | Amount(symbol: string, amount: real)

  function PriceText(plan: SubscriptionPlan, language: Language, discountedPrice: Option<real>): (r: PriceLabel)
    ensures r.Custom? <==> plan.id == "enterprise"
    ensures r.Custom? ==> r.text == (if language == Language.English then "Custom" else "کسٹم")
    ensures r.Amount? ==>
      r.symbol == CurrencySymbol(plan.currency) && r.amount == DisplayPrice(discountedPrice, plan.price)
  {
    if plan.id == "enterprise" then Custom(if language == Language.English then "Custom" else "کسٹم")
    else Amount(CurrencySymbol(plan.currency), DisplayPrice(discountedPrice, plan.price))
  }

  /** The interval suffix: none for the enterprise plan, else "/" and the interval, its
      English name or its Urdu word. */
  function IntervalSuffix(plan: SubscriptionPlan, language: Language): (r: Option<string>)
    ensures r.None? <==> plan.id == "enterprise"
    ensures r.Some? && language == Language.English ==> r.value == "/" + plan.interval.Name()
    ensures r.Some? && language == Language.Urdu ==> r.value == "/" + (if plan.interval == Month then "ماہ" else "سال")
  {
    if plan.id == "enterprise" then None
    else if language == Language.English then Some("/" + plan.interval.Name())
    else Some("/" + (if plan.interval == Month then "ماہ" else "سال"))
  }

  /** The enterprise card shows "Custom", no interval and "Contact Sales", whatever the
      discount and loading state. */
  lemma EnterpriseCard(plan: SubscriptionPlan, language: Language, discountedPrice: Option<real>, isLoading: bool)
    requires plan.id == "enterprise"
    ensures PriceText(plan, language, discountedPrice).Custom?
    ensures IntervalSuffix(plan, language).None?
    ensures ButtonLabelFor(plan.id, isLoading) == ContactSales
    ensures ButtonDisabled(plan, isLoading) == isLoading
  {
  }
}
