/** The list lookups, removals and per-element updates the handlers build
    their new lists with, each as a function over sequences of records, and
    what they guarantee. */
module Lists {
  import opened Records

  // ---------------- users ----------------

  predicate HasCredentials(u: User, email: string, password: string) {
    u.email == email && u.password == password
  }

  /** The lookup of App.js:29: the first user whose email and password both
      equal the given ones, if any. */
  function FindByCredentials(users: seq<User>, email: string, password: string): (r: Option<User>)
    ensures r.None? <==> forall i :: 0 <= i < |users| ==> !HasCredentials(users[i], email, password)
    ensures r.Some? ==> exists i :: 0 <= i < |users| && users[i] == r.value && FirstWithCredentials(users, email, password, i)
  {
    if |users| == 0 then None
    else if HasCredentials(users[0], email, password) then
      assert FirstWithCredentials(users, email, password, 0);
      Some(users[0])
    else
      var r := FindByCredentials(users[1..], email, password);
      assert r.None? ==> forall i :: 0 <= i < |users| ==> !HasCredentials(users[i], email, password) by {
        if r.None? {
          forall i | 0 <= i < |users| ensures !HasCredentials(users[i], email, password) {
            if i > 0 { assert users[i] == users[1..][i - 1]; }
          }
        }
      }
      assert r.Some? ==> exists i :: 0 <= i < |users| && users[i] == r.value && FirstWithCredentials(users, email, password, i) by {
        if r.Some? {
          var j :| 0 <= j < |users[1..]| && users[1..][j] == r.value && FirstWithCredentials(users[1..], email, password, j);
          assert users[j + 1] == r.value;
          forall k | 0 <= k < j + 1 ensures !HasCredentials(users[k], email, password) {
            if k > 0 { assert users[k] == users[1..][k - 1]; }
          }
          assert FirstWithCredentials(users, email, password, j + 1);
        }
      }
      r
  }

  /** Index `i` holds the first user with both credentials. */
  ghost predicate FirstWithCredentials(users: seq<User>, email: string, password: string, i: int) {
    && 0 <= i < |users|
    && HasCredentials(users[i], email, password)
    && forall k :: 0 <= k < i ==> !HasCredentials(users[k], email, password)
  }

  /** With unique emails, every listed user signs in with their own
      credentials and no one else is picked. */
  lemma FindListedUser(users: seq<User>, i: int)
    requires UniqueEmails(users) && 0 <= i < |users|
    ensures FindByCredentials(users, users[i].email, users[i].password) == Some(users[i])
  {
    var email, password := users[i].email, users[i].password;
    assert HasCredentials(users[i], email, password);
    var r := FindByCredentials(users, email, password);
    var j :| 0 <= j < |users| && users[j] == r.value && FirstWithCredentials(users, email, password, j);
    if j < i {
      assert users[j].email == users[i].email;
    }
  }

  /** Registering an email not yet taken and then signing in with it finds the
      newly registered user. */
  lemma FindAfterRegister(users: seq<User>, u: User)
    requires !HasEmail(users, u.email)
    ensures FindByCredentials(users + [u], u.email, u.password) == Some(u)
  {
    var s := users + [u];
    assert HasCredentials(s[|users|], u.email, u.password);
    var r := FindByCredentials(s, u.email, u.password);
    var j :| 0 <= j < |s| && s[j] == r.value && FirstWithCredentials(s, u.email, u.password, j);
    assert j == |users|;
  }

  /** Some user already has this email (the check of App.js:39). */
  predicate HasEmail(users: seq<User>, email: string) {
    exists i :: 0 <= i < |users| && users[i].email == email
  }

  /** No two users share an email. */
  ghost predicate UniqueEmails(users: seq<User>) {
    forall i, j :: 0 <= i < j < |users| ==> users[i].email != users[j].email
  }

  /** Appending a user whose email is not yet taken keeps emails unique. */
  lemma AppendFreshEmail(users: seq<User>, u: User)
    requires UniqueEmails(users) && !HasEmail(users, u.email)
    ensures UniqueEmails(users + [u])
  {
    var s := users + [u];
    forall i, j | 0 <= i < j < |s| ensures s[i].email != s[j].email {
      if j == |users| {
        assert s[i] == users[i];
      } else {
        assert s[i] == users[i] && s[j] == users[j];
      }
    }
  }

  /** The per-user merge of App.js:95-97: only the records with that id are
      merged; the length, the order and every other record stay as they were. */
  function UpdateUsers(users: seq<User>, id: int, patch: UserPatch): (r: seq<User>)
    ensures |r| == |users|
    ensures forall k :: 0 <= k < |users| && users[k].id != id ==> r[k] == users[k]
    ensures forall k :: 0 <= k < |users| && users[k].id == id ==> r[k] == MergeUser(users[k], patch)
    ensures (forall k :: 0 <= k < |users| ==> users[k].id != id) ==> r == users
  {
    if |users| == 0 then []
    else
      var rest := UpdateUsers(users[1..], id, patch);
      var head := if users[0].id == id then MergeUser(users[0], patch) else users[0];
      assert forall k :: 1 <= k < |users| ==> users[k] == users[1..][k - 1];
      [head] + rest
  }

  // ---------------- products and cart entries ----------------

  predicate HasId(s: seq<Product>, id: int) {
    exists k :: 0 <= k < |s| && s[k].id == id
  }

  /** No two entries share a product id. */
  ghost predicate DistinctIds(s: seq<Product>) {
    forall i, j :: 0 <= i < j < |s| ==> s[i].id != s[j].id
  }

  /** Every product has a non-empty image. */
  ghost predicate AllImaged(s: seq<Product>) {
    forall k :: 0 <= k < |s| ==> s[k].image != ""
  }

  /** The removal of App.js:72 and 82: drops every entry with that id and
      keeps all the others; an absent id changes nothing. */
  function WithoutId(s: seq<Product>, id: int): (r: seq<Product>)
    ensures |r| <= |s|
    ensures forall x :: x in r <==> x in s && x.id != id
    ensures !HasId(s, id) ==> r == s
  {
    if |s| == 0 then []
    else
      var rest := WithoutId(s[1..], id);
      assert forall x :: x in s <==> x == s[0] || x in s[1..];
      if s[0].id == id then rest
      else
        assert !HasId(s, id) ==> !HasId(s[1..], id) by {
          if HasId(s[1..], id) {
            var k :| 0 <= k < |s[1..]| && s[1..][k].id == id;
            assert s[k + 1].id == id;
          }
        }
        [s[0]] + rest
  }

  /** Filtering distributes over concatenation, so the surviving entries keep
      their relative order. */
  lemma {:induction false} WithoutIdAppend(a: seq<Product>, b: seq<Product>, id: int)
    ensures WithoutId(a + b, id) == WithoutId(a, id) + WithoutId(b, id)
  {
    if |a| == 0 {
      assert a + b == b;
    } else {
      assert (a + b)[1..] == a[1..] + b;
      WithoutIdAppend(a[1..], b, id);
    }
  }

  /** Deleting (or removing from the cart) twice is the same as once. */
  lemma WithoutIdIdempotent(s: seq<Product>, id: int)
    ensures WithoutId(WithoutId(s, id), id) == WithoutId(s, id)
  {
    assert !HasId(WithoutId(s, id), id);
  }

  /** When no entry of `tail` has `x`'s id, none of the entries that survive
      filtering has it either. */
  lemma IdNotIn(tail: seq<Product>, x: Product, id: int)
    requires forall m :: 0 <= m < |tail| ==> tail[m].id != x.id
    ensures forall j :: 0 <= j < |WithoutId(tail, id)| ==> WithoutId(tail, id)[j].id != x.id
  {
    var rest := WithoutId(tail, id);
    forall j | 0 <= j < |rest| ensures rest[j].id != x.id {
      assert rest[j] in rest;
      assert rest[j] in tail;
    }
  }

  /** Filtering never introduces two entries with the same id. */
  lemma {:induction false} WithoutIdKeepsDistinct(s: seq<Product>, id: int)
    requires DistinctIds(s)
    ensures DistinctIds(WithoutId(s, id))
  {
    if |s| > 0 {
      var tail := s[1..];
      assert DistinctIds(tail) by {
        forall i, j | 0 <= i < j < |tail| ensures tail[i].id != tail[j].id {
          assert tail[i] == s[i + 1] && tail[j] == s[j + 1];
        }
      }
      WithoutIdKeepsDistinct(tail, id);
      var rest := WithoutId(tail, id);
      if s[0].id != id {
        assert forall m :: 0 <= m < |tail| ==> tail[m] == s[m + 1];
        IdNotIn(tail, s[0], id);
        var r := [s[0]] + rest;
        forall i, j | 0 <= i < j < |r| ensures r[i].id != r[j].id {
          assert r[j] == rest[j - 1];
          if i > 0 { assert r[i] == rest[i - 1]; }
        }
      }
    }
  }

  /** The per-product merge of App.js:66-68: only the products with that id
      are merged; the length, the order and every other
      product stay as they were, and an unknown id leaves the list unchanged. */
  function UpdateProducts(s: seq<Product>, id: int, patch: ProductPatch): (r: seq<Product>)
    ensures |r| == |s|
    ensures forall k :: 0 <= k < |s| && s[k].id != id ==> r[k] == s[k]
    ensures forall k :: 0 <= k < |s| && s[k].id == id ==> r[k] == MergeProduct(s[k], patch)
    ensures !HasId(s, id) ==> r == s
  {
    if |s| == 0 then []
    else
      var rest := UpdateProducts(s[1..], id, patch);
      var head := if s[0].id == id then MergeProduct(s[0], patch) else s[0];
      assert forall k :: 1 <= k < |s| ==> s[k] == s[1..][k - 1];
      [head] + rest
  }

  /** After an edit every product that was imaged still is, and every edited
      product is imaged whatever it held before. */
  lemma UpdateProductsKeepsImages(s: seq<Product>, id: int, patch: ProductPatch)
    requires AllImaged(s)
    ensures AllImaged(UpdateProducts(s, id, patch))
  {
    var r := UpdateProducts(s, id, patch);
    forall k | 0 <= k < |r| ensures r[k].image != "" {
      if s[k].id == id { assert r[k] == MergeProduct(s[k], patch); }
    }
  }

  /** The cart insertion of App.js:76-77: the product is appended exactly
      when no entry has its id. */
  function WithItem(cart: seq<Product>, product: Product): (r: seq<Product>)
    ensures HasId(r, product.id)
    ensures HasId(cart, product.id) <==> r == cart
    ensures r != cart ==> r == cart + [product]
    ensures DistinctIds(cart) ==> DistinctIds(r)
  {
    if HasId(cart, product.id) then cart
    else
      var r := cart + [product];
      assert r[|cart|].id == product.id;
      r
  }

  /** Re-adding a product already in the cart is a no-op. */
  lemma WithItemIdempotent(cart: seq<Product>, product: Product)
    ensures WithItem(WithItem(cart, product), product) == WithItem(cart, product)
  {
  }

  // ---------------- purchases ----------------

  /** Checkout's per-entry stamping (App.js:88): one purchase per cart entry,
      in cart order, entry `k` stamped with the `k`-th clock reading, since
      the source reads the clock once per entry. */
  function Stamp(cart: seq<Product>, dates: seq<int>): (r: seq<Purchase>)
    requires |dates| == |cart|
    ensures |r| == |cart|
    ensures forall k :: 0 <= k < |cart| ==> r[k].item == cart[k] && r[k].purchaseDate == dates[k]
  {
    if |cart| == 0 then []
    else
      var rest := Stamp(cart[1..], dates[1..]);
      assert forall k :: 1 <= k < |cart| ==> cart[k] == cart[1..][k - 1] && dates[k] == dates[1..][k - 1];
      [Purchase(cart[0], dates[0])] + rest
  }

  /** The products a run of purchases bought. */
  function Items(purchases: seq<Purchase>): seq<Product> {
    if |purchases| == 0 then [] else [purchases[0].item] + Items(purchases[1..])
  }

  /** The dates a run of purchases was stamped with. */
  function Dates(purchases: seq<Purchase>): seq<int> {
    if |purchases| == 0 then [] else [purchases[0].purchaseDate] + Dates(purchases[1..])
  }

  /** Stamping loses nothing: the purchases record exactly the cart's
      products, in order. */
  lemma {:induction false} ItemsOfStamp(cart: seq<Product>, dates: seq<int>)
    requires |dates| == |cart|
    ensures Items(Stamp(cart, dates)) == cart
  {
    if |cart| > 0 {
      var r := Stamp(cart, dates);
      assert r[1..] == Stamp(cart[1..], dates[1..]);
      ItemsOfStamp(cart[1..], dates[1..]);
      assert Items(r) == [cart[0]] + cart[1..];
    }
  }

  /** Each purchase keeps its own clock reading: the purchases record exactly
      the given dates, in order. */
  lemma {:induction false} DatesOfStamp(cart: seq<Product>, dates: seq<int>)
    requires |dates| == |cart|
    ensures Dates(Stamp(cart, dates)) == dates
  {
    if |cart| > 0 {
      var r := Stamp(cart, dates);
      assert r[1..] == Stamp(cart[1..], dates[1..]);
      DatesOfStamp(cart[1..], dates[1..]);
      assert Dates(r) == [dates[0]] + dates[1..];
    }
  }
}
