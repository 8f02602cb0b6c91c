/** Page identifiers and the choice of screen (App.js:133-158). */
module Navigation {
  import opened Records

  const LOGIN: string := "login"
  const REGISTER: string := "register"
  const BROWSE: string := "browse"
  const ADD_PRODUCT: string := "addProduct"
  const MY_LISTINGS: string := "myListings"
  const EDIT_PRODUCT: string := "editProduct"
  const CART: string := "cart"
  const PURCHASES: string := "purchases"
  const DASHBOARD: string := "dashboard"
  const PRODUCT_DETAIL: string := "productDetail"

  /** The page ids the signed-in switch recognises. */
  const MEMBER_PAGES: set<string> :=
    {BROWSE, ADD_PRODUCT, MY_LISTINGS, EDIT_PRODUCT, CART, PURCHASES, DASHBOARD, PRODUCT_DETAIL}

  /** The page component that gets rendered. */
  datatype Screen =
    | LoginScreen | RegisterScreen
    | BrowseScreen | AddProductScreen | MyListingsScreen | EditProductScreen
    | CartScreen | PurchasesScreen | DashboardScreen | ProductDetailScreen

  /** The page id each screen is rendered for. */
  function PageOf(s: Screen): string {
    match s
    case LoginScreen => LOGIN
    case RegisterScreen => REGISTER
    case BrowseScreen => BROWSE
    case AddProductScreen => ADD_PRODUCT
    case MyListingsScreen => MY_LISTINGS
    case EditProductScreen => EDIT_PRODUCT
    case CartScreen => CART
    case PurchasesScreen => PURCHASES
    case DashboardScreen => DASHBOARD
    case ProductDetailScreen => PRODUCT_DETAIL
  }

  /** The screen for the session state: signed out, only the register screen
      (when asked for) or the login screen; signed in, the screen of a
      recognised page and the browse screen for any other page id. */
  function ScreenFor(currentUser: Option<User>, currentPage: string): (s: Screen)
    ensures currentUser.None? ==> (s == RegisterScreen <==> currentPage == REGISTER)
    ensures currentUser.None? ==> (s == LoginScreen <==> currentPage != REGISTER)
    ensures PageOf(s) in MEMBER_PAGES <==> currentUser.Some?
    ensures currentUser.Some? && currentPage in MEMBER_PAGES ==> PageOf(s) == currentPage
    ensures currentUser.Some? && currentPage !in MEMBER_PAGES ==> s == BrowseScreen
  {
    if currentUser.None? then
      if currentPage == REGISTER then RegisterScreen else LoginScreen
    else if currentPage == BROWSE then BrowseScreen
    else if currentPage == ADD_PRODUCT then AddProductScreen
    else if currentPage == MY_LISTINGS then MyListingsScreen
    else if currentPage == EDIT_PRODUCT then EditProductScreen
    else if currentPage == CART then CartScreen
    else if currentPage == PURCHASES then PurchasesScreen
    else if currentPage == DASHBOARD then DashboardScreen
    else if currentPage == PRODUCT_DETAIL then ProductDetailScreen
    else BrowseScreen
  }
}
