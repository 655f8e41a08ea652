/**
 * The root component: which top-level page is shown and which business, if
 * any, was last selected.
 */
module App {
  import opened Wrappers

  /** `PageType`: the seven top-level pages. */
  datatype Page = Landing | SmeDashboard | CustomerDiscovery | BusinessProfile | Engagement | Analytics | Ussd

  /** The string literal naming each page. */
  function PageName(p: Page): string {
    match p
    case Landing => "landing"
    case SmeDashboard => "sme-dashboard"
    case CustomerDiscovery => "customer-discovery"
    case BusinessProfile => "business-profile"
    case Engagement => "engagement"
    case Analytics => "analytics"
    case Ussd => "ussd"
  }

  /** The page a string names, if it names one. */
  function PageFromName(s: string): (r: Option<Page>)
    ensures r.Some? ==> PageName(r.value) == s
  {
    if s == "landing" then Some(Landing)
    else if s == "sme-dashboard" then Some(SmeDashboard)
    else if s == "customer-discovery" then Some(CustomerDiscovery)
    else if s == "business-profile" then Some(BusinessProfile)
    else if s == "engagement" then Some(Engagement)
    else if s == "analytics" then Some(Analytics)
    else if s == "ussd" then Some(Ussd)
    else None
  }

  const AllPages: seq<Page> := [Landing, SmeDashboard, CustomerDiscovery, BusinessProfile, Engagement, Analytics, Ussd]

  /** Exactly seven pages, with seven distinct names, each read back from its name. */
  lemma PagesAreSevenNamedValues()
    ensures |AllPages| == 7
    ensures forall p: Page :: p in AllPages
    ensures forall i, j | 0 <= i < j < |AllPages| :: PageName(AllPages[i]) != PageName(AllPages[j])
    ensures forall p: Page :: PageFromName(PageName(p)) == Some(p)
  {
    forall p: Page ensures p in AllPages && PageFromName(PageName(p)) == Some(p) {
      match p
      case Landing =>
      case SmeDashboard =>
      case CustomerDiscovery =>
      case BusinessProfile =>
      case Engagement =>
      case Analytics =>
      case Ussd =>
    }
  }

  /** JavaScript truthiness of the optional business id: given and not empty. */
  predicate Truthy(businessId: Option<string>) {
    businessId.Some? && businessId.value != ""
  }

  /** The router's two fields as a value. */
  datatype View = View(currentPage: Page, selectedBusinessId: Option<string>)

  /** `navigateTo(page, businessId)` on a view. */
  function Navigate(v: View, page: Page, businessId: Option<string>): View {
    View(page, if Truthy(businessId) then businessId else v.selectedBusinessId)
  }

  /** Navigating twice with the same arguments is navigating once. */
  lemma NavigateIsIdempotent(v: View, page: Page, businessId: Option<string>)
    ensures Navigate(Navigate(v, page, businessId), page, businessId) == Navigate(v, page, businessId)
  {
  }

  /**
   * The page is always the one asked for; the selection changes only to a
   * truthy id, and a missing or empty id keeps the previous one.
   */
  lemma NavigateSetsPageAndSelection(v: View, page: Page, businessId: Option<string>)
    ensures Navigate(v, page, businessId).currentPage == page
    ensures Truthy(businessId) ==> Navigate(v, page, businessId).selectedBusinessId == businessId
    ensures Navigate(v, page, businessId).selectedBusinessId != v.selectedBusinessId ==>
      Truthy(businessId) && Navigate(v, page, businessId).selectedBusinessId == businessId
    ensures !Truthy(businessId) ==> Navigate(v, page, businessId).selectedBusinessId == v.selectedBusinessId
  {
  }

  class Router {
    var currentPage: Page
    var selectedBusinessId: Option<string>

    function CurrentView(): View
      reads this
    {
      View(currentPage, selectedBusinessId)
    }

    /** The app opens on the landing page with no business selected. */
    constructor ()
      ensures currentPage == Landing && selectedBusinessId == None
    {
      currentPage := Landing;
      selectedBusinessId := None;
    }

    /** `navigateTo(page, businessId)`. */
    method NavigateTo(page: Page, businessId: Option<string>)
      modifies this
      ensures CurrentView() == Navigate(old(CurrentView()), page, businessId)
    {
      currentPage := page;
      if businessId.Some? && businessId.value != "" {
        selectedBusinessId := businessId;
      }
    }
  }
}
