/** App.tsx: the page router's state (the selected page, the pending checkout and the theme)
    as an `AppState` object, and which screen it renders. */
module App {
  import opened Options
  import opened Plans

  /** `Page`. */
  datatype Page = Home | Analyzer | Pricing | Checkout | ThankYou | Profile | About | Privacy | Contact | Terms | Blog

  datatype Theme = Light | Dark

  /** `{ plan, upgradeCost? }`: the plan being bought and, for an upgrade, its prorated price. */
  datatype CheckoutDetails = CheckoutDetails(plan: Plan, upgradeCost: Option<real>)

  /** What `AppContent` renders in its main area (`AuthScreen` replaces the whole app). */
  datatype Screen =
    | AuthScreen
    | HomeScreen
    | AnalyzerScreen
    | PricingScreen
    | CheckoutScreen(plan: Plan, upgradeCost: Option<real>)
    | ThankYouScreen
    | ProfileScreen
    | AboutScreen
    | PrivacyScreen
    | ContactScreen
    | TermsScreen
    | BlogScreen

  /** The updater of `toggleTheme`. */
  function Toggled(t: Theme): (r: Theme)
    ensures r != t
  {
    if t == Light then Dark else Light
  }

  /** The auth gate and `renderPage`: signed out, the auth screen whatever the page; the
      checkout page without details falls back to pricing. */
  function Render(isAuthenticated: bool, page: Page, details: Option<CheckoutDetails>): Screen
  {
    if !isAuthenticated then AuthScreen
    else
      match page
      case Home => HomeScreen
      case Analyzer => AnalyzerScreen
      case Pricing => PricingScreen
      case Checkout =>
        if details.Some? then CheckoutScreen(details.value.plan, details.value.upgradeCost) else PricingScreen
      case ThankYou => ThankYouScreen
      case Profile => ProfileScreen
      case About => AboutScreen
      case Privacy => PrivacyScreen
      case Contact => ContactScreen
      case Terms => TermsScreen
      case Blog => BlogScreen
  }

  class AppState {
    var page: Page
    var checkoutDetails: Option<CheckoutDetails>
    var theme: Theme

    /** The first render: the home page, no checkout, and the initial theme (read from storage
        or the colour-scheme preference, which are not part of this model). */
    constructor (initialTheme: Theme)
      ensures page == Home && checkoutDetails.None? && theme == initialTheme
    {
      page := Home;
      checkoutDetails := None;
      theme := initialTheme;
    }

    function Screen(isAuthenticated: bool): Screen
      reads this
    {
      Render(isAuthenticated, page, checkoutDetails)
    }

    /** `handleSelectPlan`: the catalog plan and the cost as given, then the checkout page, which
        therefore shows exactly that plan and cost. */
    method SelectPlan(id: PlanId, upgradeCost: Option<real>)
      modifies this
      ensures checkoutDetails == Some(CheckoutDetails(PlanFor(id), upgradeCost)) && page == Checkout
      ensures theme == old(theme)
      ensures Screen(true) == CheckoutScreen(PlanFor(id), upgradeCost) && Screen(true).plan.id == id
    {
      checkoutDetails := Some(CheckoutDetails(PLANS[Key(id)], upgradeCost));
      page := Checkout;
    }

    /** `handleSuccessfulCheckout`. */
    method SuccessfulCheckout()
      modifies this
      ensures page == ThankYou && checkoutDetails == old(checkoutDetails) && theme == old(theme)
    {
      page := ThankYou;
    }

    /** A `setPage` from a link, a button or a page callback. */
    method Navigate(p: Page)
      modifies this
      ensures page == p && checkoutDetails == old(checkoutDetails) && theme == old(theme)
    {
      page := p;
    }

    /** The effect on `isAuthenticated`: signed out, back to the home page. */
    method AuthChanged(isAuthenticated: bool)
      modifies this
      ensures page == (if isAuthenticated then old(page) else Home)
      ensures checkoutDetails == old(checkoutDetails) && theme == old(theme)
    {
      if !isAuthenticated {
        page := Home;
      }
    }

    /** `toggleTheme`. */
    method ToggleTheme()
      modifies this
      ensures theme == Toggled(old(theme)) && page == old(page) && checkoutDetails == old(checkoutDetails)
    {
      theme := if theme == Light then Dark else Light;
    }
  }

  // ----- Properties -----

  /** Toggling twice restores the theme. */
  lemma ToggleInvolution(t: Theme)
    ensures Toggled(Toggled(t)) == t
  {
  }

  /** Signed out, every page renders the auth screen; signed in, never. */
  lemma AuthGate(page: Page, details: Option<CheckoutDetails>)
    ensures Render(false, page, details) == AuthScreen
    ensures Render(true, page, details) != AuthScreen
  {
  }

  /** The checkout screen is shown exactly for the checkout page with details, and then shows
      those details; the checkout page without details renders the pricing screen. */
  lemma CheckoutFallback(page: Page, details: Option<CheckoutDetails>)
    ensures Render(true, page, details).CheckoutScreen? <==> page == Checkout && details.Some?
    ensures Render(true, page, details).CheckoutScreen? ==>
      Render(true, page, details) == CheckoutScreen(details.value.plan, details.value.upgradeCost)
    ensures page == Checkout && details.None? ==> Render(true, page, details) == PricingScreen
  {
  }

  /** After a sign-out the page is home, so signing in again starts at the home screen. */
  method SignOutThenIn(app: AppState)
    modifies app
    ensures app.Screen(false) == AuthScreen && app.Screen(true) == HomeScreen
  {
    app.AuthChanged(false);
  }
}
