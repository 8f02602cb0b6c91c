/** The marketplace session: the seven pieces of state of App.js:19-25 and the
    ten handlers that overwrite them (App.js:28-100). Each handler is one
    atomic update of the current state. */
module Marketplace {
  import opened Records
  import opened Lists
  import opened Navigation

  /** `{ success: true }` or `{ success: false, error }`. */
  datatype Outcome = Success | Failure(error: string)

  const INVALID_CREDENTIALS: string := "Invalid credentials"
  const USER_EXISTS: string := "User already exists"

  class App {
    var currentPage: string
    var currentUser: Option<User>
    var users: seq<User>
    var products: seq<Product>
    var cart: seq<Product>
    var purchases: seq<Purchase>
    var selectedProduct: Option<Product>
    /** The category list of the seed data; never changed. */
    const categories: seq<string>

    /** The cart holds each product id at most once, and the signed-in user
        is one of the listed users. */
    ghost predicate Valid()
      reads this
    {
      && DistinctIds(cart)
      && (currentUser.Some? ==> currentUser.value in users)
    }

    /** The screen rendered for the current state. */
    function Screen(): (s: Screen)
      reads this
      ensures PageOf(s) in MEMBER_PAGES <==> currentUser.Some?
    {
      ScreenFor(currentUser, currentPage)
    }

    /** The initial state (App.js:19-25), with the seed data as parameters. */
    constructor (mockUsers: seq<User>, mockProducts: seq<Product>, categories: seq<string>)
      ensures Valid()
      ensures currentPage == LOGIN && currentUser == None && selectedProduct == None
      ensures users == mockUsers && products == mockProducts
      ensures cart == [] && purchases == []
      ensures this.categories == categories
      ensures Screen() == LoginScreen
    {
      currentPage := LOGIN;
      currentUser := None;
      users := mockUsers;
      products := mockProducts;
      cart := [];
      purchases := [];
      selectedProduct := None;
      this.categories := categories;
    }

    /** App.js:28-36: signs in the first user holding both credentials and
        moves to the browse page; otherwise changes nothing. */
    method Login(email: string, password: string) returns (outcome: Outcome)
      requires Valid()
      modifies this
      ensures Valid()
      ensures outcome.Success? <==> exists i :: 0 <= i < |users| && HasCredentials(users[i], email, password)
      ensures outcome.Success? ==>
        && currentUser == FindByCredentials(users, email, password)
        && currentUser.Some?
        && (exists i :: FirstWithCredentials(users, email, password, i) && users[i] == currentUser.value)
        && currentPage == BROWSE
        && Screen() == BrowseScreen
        && users == old(users) && products == old(products) && cart == old(cart)
        && purchases == old(purchases) && selectedProduct == old(selectedProduct)
      ensures outcome.Failure? ==> outcome.error == INVALID_CREDENTIALS && unchanged(this)
    {
      var user := FindByCredentials(users, email, password);
      if user.Some? {
        currentUser := user;
        currentPage := BROWSE;
        outcome := Success;
      } else {
        outcome := Failure(INVALID_CREDENTIALS);
      }
    }

    /** App.js:38-45: fails when the email is taken; otherwise appends one user
        with the given id and credentials. Neither the page nor the signed-in
        user changes. */
    method Register(email: string, password: string, username: string, id: int) returns (outcome: Outcome)
      requires Valid()
      modifies this
      ensures Valid()
      ensures outcome.Success? <==> !HasEmail(old(users), email)
      ensures outcome.Failure? ==> outcome.error == USER_EXISTS && unchanged(this)
      ensures outcome.Success? ==> users == old(users) + [User(id, email, password, username, map[])]
      ensures UniqueEmails(old(users)) ==> UniqueEmails(users)
      ensures currentPage == old(currentPage) && currentUser == old(currentUser)
      ensures products == old(products) && cart == old(cart)
      ensures purchases == old(purchases) && selectedProduct == old(selectedProduct)
    {
      if HasEmail(users, email) {
        outcome := Failure(USER_EXISTS);
      } else {
        var newUser := User(id, email, password, username, map[]);
        if UniqueEmails(users) { AppendFreshEmail(users, newUser); }
        users := users + [newUser];
        outcome := Success;
      }
    }

    /** App.js:47-51: signs out, empties the cart and returns to the login page. */
    method Logout()
      requires Valid()
      modifies this
      ensures Valid()
      ensures currentUser == None && currentPage == LOGIN && cart == []
      ensures Screen() == LoginScreen
      ensures users == old(users) && products == old(products)
      ensures purchases == old(purchases) && selectedProduct == old(selectedProduct)
    {
      currentUser := None;
      currentPage := LOGIN;
      cart := [];
    }

    /** App.js:54-63: lists one new product, sold by the signed-in user, with
        the supplied image or the placeholder, and moves to the seller's listings. */
    method AddProduct(data: ProductData, id: int)
      requires Valid()
      requires currentUser.Some?
      modifies this
      ensures Valid()
      ensures products == old(products) + [NewProduct(data, id, old(currentUser).value.id)]
      ensures products[|old(products)|].sellerId == old(currentUser).value.id
      ensures exists k :: 0 <= k < |users| && users[k].id == products[|old(products)|].sellerId
      ensures products[|old(products)|].image != ""
      ensures AllImaged(old(products)) ==> AllImaged(products)
      ensures currentPage == MY_LISTINGS && Screen() == MyListingsScreen
      ensures currentUser == old(currentUser) && users == old(users) && cart == old(cart)
      ensures purchases == old(purchases) && selectedProduct == old(selectedProduct)
    {
      products := products + [NewProduct(data, id, currentUser.value.id)];
      currentPage := MY_LISTINGS;
    }

    /** App.js:65-69: merges the patch into every product with that id. The
        seller is not checked and the page does not change. */
    method UpdateProduct(id: int, patch: ProductPatch)
      requires Valid()
      modifies this
      ensures Valid()
      ensures products == UpdateProducts(old(products), id, patch)
      ensures AllImaged(old(products)) ==> AllImaged(products)
      ensures currentPage == old(currentPage) && currentUser == old(currentUser)
      ensures users == old(users) && cart == old(cart)
      ensures purchases == old(purchases) && selectedProduct == old(selectedProduct)
    {
      if AllImaged(products) {
        UpdateProductsKeepsImages(products, id, patch);
      }
      products := UpdateProducts(products, id, patch);
    }

    /** App.js:71-73: removes every product with that id. The seller is not
        checked and the page does not change. */
    method DeleteProduct(id: int)
      requires Valid()
      modifies this
      ensures Valid()
      ensures products == WithoutId(old(products), id)
      ensures !HasId(products, id)
      ensures AllImaged(old(products)) ==> AllImaged(products)
      ensures currentPage == old(currentPage) && currentUser == old(currentUser)
      ensures users == old(users) && cart == old(cart)
      ensures purchases == old(purchases) && selectedProduct == old(selectedProduct)
    {
      products := WithoutId(products, id);
    }

    /** App.js:75-79: appends the product unless an entry already has its id. */
    method AddToCart(product: Product)
      requires Valid()
      modifies this
      ensures Valid()
      ensures cart == WithItem(old(cart), product)
      ensures HasId(cart, product.id)
      ensures currentPage == old(currentPage) && currentUser == old(currentUser)
      ensures users == old(users) && products == old(products)
      ensures purchases == old(purchases) && selectedProduct == old(selectedProduct)
    {
      if !HasId(cart, product.id) {
        cart := cart + [product];
      }
    }

    /** App.js:81-83: removes every cart entry with that id. */
    method RemoveFromCart(productId: int)
      requires Valid()
      modifies this
      ensures Valid()
      ensures cart == WithoutId(old(cart), productId)
      ensures !HasId(cart, productId)
      ensures currentPage == old(currentPage) && currentUser == old(currentUser)
      ensures users == old(users) && products == old(products)
      ensures purchases == old(purchases) && selectedProduct == old(selectedProduct)
    {
      WithoutIdKeepsDistinct(cart, productId);
      cart := WithoutId(cart, productId);
    }

    /** App.js:85-92: records one purchase per cart entry, in cart order, each
        stamped with its own clock reading, empties the cart and moves to the
        purchases page, also when the cart was already empty. */
    method MakePurchase(dates: seq<int>)
      requires Valid()
      requires |dates| == |cart|
      modifies this
      ensures Valid()
      ensures purchases == old(purchases) + Stamp(old(cart), dates)
      ensures old(purchases) <= purchases
      ensures Items(purchases[|old(purchases)|..]) == old(cart)
      ensures Dates(purchases[|old(purchases)|..]) == dates
      ensures cart == [] && currentPage == PURCHASES
      ensures currentUser == old(currentUser) && users == old(users)
      ensures products == old(products) && selectedProduct == old(selectedProduct)
    {
      ItemsOfStamp(cart, dates);
      DatesOfStamp(cart, dates);
      assert (purchases + Stamp(cart, dates))[|purchases|..] == Stamp(cart, dates);
      purchases := purchases + Stamp(cart, dates);
      cart := [];
      currentPage := PURCHASES;
    }

    /** App.js:94-100: merges the patch into every user record with the
        signed-in user's id and into the signed-in snapshot itself. */
    method UpdateUser(patch: UserPatch)
      requires Valid()
      requires currentUser.Some?
      modifies this
      ensures Valid()
      ensures users == UpdateUsers(old(users), old(currentUser).value.id, patch)
      ensures currentUser == Some(MergeUser(old(currentUser).value, patch))
      ensures currentPage == old(currentPage) && products == old(products) && cart == old(cart)
      ensures purchases == old(purchases) && selectedProduct == old(selectedProduct)
    {
      users := UpdateUsers(users, currentUser.value.id, patch);
      currentUser := Some(MergeUser(currentUser.value, patch));
    }

    /** The raw page setter handed to the pages (App.js:106, 118). */
    method SetCurrentPage(page: string)
      requires Valid()
      modifies this
      ensures Valid()
      ensures currentPage == page
      ensures currentUser == old(currentUser) && users == old(users) && products == old(products)
      ensures cart == old(cart) && purchases == old(purchases) && selectedProduct == old(selectedProduct)
    {
      currentPage := page;
    }

    /** The raw selected-product setter handed to the pages (App.js:111). */
    method SetSelectedProduct(product: Option<Product>)
      requires Valid()
      modifies this
      ensures Valid()
      ensures selectedProduct == product
      ensures currentPage == old(currentPage) && currentUser == old(currentUser) && users == old(users)
      ensures products == old(products) && cart == old(cart) && purchases == old(purchases)
    {
      selectedProduct := product;
    }
  }
}
