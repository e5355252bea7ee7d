/** The page-level state of `src/App.jsx` and its handlers: login, adding a
    listing, adding to cart, and typing a search query; plus the wiring that
    connects the login form and the listing form to those handlers. */
module App {
  import opened Wrappers
  import Catalog
  import Listing
  import Auth

  class AppState {
    var items: seq<Catalog.Item>
    var activeFilter: string
    var searchQuery: string
    var isAuthenticated: bool
    var showAuthModal: bool
    var showListingModal: bool
    var selectedItem: Option<Catalog.Item>
    var myRentals: seq<Catalog.Item>
    /** Set when checkout has scheduled the locker dashboard to open;
        `handleAddToCart` opens it after a 300 ms timer. */
    var lockerPending: bool

    /** The state on first render; `initialItems` stands for the stored or
        seeded catalog. */
    constructor (initialItems: seq<Catalog.Item>)
      ensures items == initialItems && activeFilter == Catalog.AllFilter && searchQuery == ""
      ensures !isAuthenticated && !showAuthModal && !showListingModal && !lockerPending
      ensures selectedItem == None && myRentals == []
    {
      items := initialItems;
      activeFilter := Catalog.AllFilter;
      searchQuery := "";
      isAuthenticated, showAuthModal, showListingModal, lockerPending := false, false, false, false;
      selectedItem := None;
      myRentals := [];
    }

    /** The marketplace grid's contents for the current state. */
    function Visible(): (r: seq<Catalog.Item>)
      reads this`items, this`searchQuery, this`activeFilter
      ensures forall x :: x in r <==> x in items && Catalog.Keeps(x, searchQuery, activeFilter)
    {
      Catalog.FilteredItems(items, searchQuery, activeFilter)
    }

    /** `handleLogin`: authenticated, login form closed. */
    method HandleLogin()
      modifies this
      ensures isAuthenticated && !showAuthModal
      ensures items == old(items) && activeFilter == old(activeFilter) && searchQuery == old(searchQuery)
      ensures showListingModal == old(showListingModal) && selectedItem == old(selectedItem)
      ensures myRentals == old(myRentals) && lockerPending == old(lockerPending)
    {
      isAuthenticated := true;
      showAuthModal := false;
    }

    /** `handleAddItem`: the new item goes in front of the catalog and the
        filter returns to "all", so that with an empty query the new item
        is visible and the grid is the new item followed by the old
        catalog. */
    method HandleAddItem(newItem: Catalog.Item)
      modifies this
      ensures items == [newItem] + old(items) && activeFilter == Catalog.AllFilter
      ensures searchQuery == old(searchQuery) && isAuthenticated == old(isAuthenticated)
      ensures showAuthModal == old(showAuthModal) && showListingModal == old(showListingModal)
      ensures selectedItem == old(selectedItem) && myRentals == old(myRentals) && lockerPending == old(lockerPending)
      ensures searchQuery == "" ==> newItem in Visible() && Visible() == items
    {
      items := [newItem] + items;
      activeFilter := Catalog.AllFilter;
      if searchQuery == "" {
        Catalog.EmptyQueryAllFilterShowsEverything(items);
      }
    }

    /** `handleAddToCart`: without a session the item is dropped and the
        login form opens; with one the item is appended to the rentals and
        the locker dashboard is scheduled to open. */
    method HandleAddToCart(item: Catalog.Item)
      modifies this
      ensures selectedItem == None
      ensures !old(isAuthenticated) ==> showAuthModal && myRentals == old(myRentals) && lockerPending == old(lockerPending)
      ensures old(isAuthenticated) ==> showAuthModal == old(showAuthModal) && myRentals == old(myRentals) + [item] && lockerPending
      ensures items == old(items) && activeFilter == old(activeFilter) && searchQuery == old(searchQuery)
      ensures isAuthenticated == old(isAuthenticated) && showListingModal == old(showListingModal)
    {
      if !isAuthenticated {
        selectedItem := None;
        showAuthModal := true;
        return;
      }
      myRentals := myRentals + [item];
      selectedItem := None;
      lockerPending := true;
    }

    /** The search box's `onChange`: stores the query, and a non-empty one
        resets the filter to "all". */
    method ChangeSearch(value: string)
      modifies this
      ensures searchQuery == value
      ensures activeFilter == if value != "" then Catalog.AllFilter else old(activeFilter)
      ensures items == old(items) && isAuthenticated == old(isAuthenticated) && showAuthModal == old(showAuthModal)
      ensures showListingModal == old(showListingModal) && selectedItem == old(selectedItem)
      ensures myRentals == old(myRentals) && lockerPending == old(lockerPending)
    {
      searchQuery := value;
      if value != "" {
        activeFilter := Catalog.AllFilter;
      }
    }

    /** A "List Item" button: with a session the listing form opens; without
        one the login form opens instead. The buttons that skip the test are
        only shown with a session, so all of them behave alike. */
    method OpenListing()
      modifies this
      ensures old(isAuthenticated) ==> showListingModal && showAuthModal == old(showAuthModal)
      ensures !old(isAuthenticated) ==> showAuthModal && showListingModal == old(showListingModal)
      ensures items == old(items) && activeFilter == old(activeFilter) && searchQuery == old(searchQuery)
      ensures isAuthenticated == old(isAuthenticated) && selectedItem == old(selectedItem)
      ensures myRentals == old(myRentals) && lockerPending == old(lockerPending)
    {
      if isAuthenticated {
        showListingModal := true;
      } else {
        showAuthModal := true;
      }
    }

    /** A filter chip or collection card: selects a category/tag filter. */
    method SetFilter(filter: string)
      modifies this
      ensures activeFilter == filter
      ensures items == old(items) && searchQuery == old(searchQuery) && isAuthenticated == old(isAuthenticated)
      ensures showAuthModal == old(showAuthModal) && showListingModal == old(showListingModal)
      ensures selectedItem == old(selectedItem) && myRentals == old(myRentals) && lockerPending == old(lockerPending)
    {
      activeFilter := filter;
    }

    /** Clicking a card in the grid opens it in the product view. */
    method SelectItem(item: Catalog.Item)
      modifies this
      ensures selectedItem == Some(item)
      ensures items == old(items) && activeFilter == old(activeFilter) && searchQuery == old(searchQuery)
      ensures isAuthenticated == old(isAuthenticated) && showAuthModal == old(showAuthModal)
      ensures showListingModal == old(showListingModal) && myRentals == old(myRentals) && lockerPending == old(lockerPending)
    {
      selectedItem := Some(item);
    }
  }

  /** The login form's submit, with `onLogin` bound to `handleLogin`: an
      accepted email opens the session and closes the form; a rejected one
      leaves the page state alone. */
  method SubmitLogin(app: AppState, form: Auth.AuthForm) returns (outcome: Auth.Outcome)
    modifies app, form
    ensures outcome == Auth.Decide(old(form.email), old(form.password))
    ensures form.error == (if outcome.Rejected? then Auth.RejectMessage else old(form.error))
    ensures app.isAuthenticated == (old(app.isAuthenticated) || outcome.LoggedIn?)
    ensures app.showAuthModal == (old(app.showAuthModal) && outcome.Rejected?)
    ensures form.email == old(form.email) && form.password == old(form.password)
    ensures app.items == old(app.items) && app.activeFilter == old(app.activeFilter) && app.searchQuery == old(app.searchQuery)
    ensures app.showListingModal == old(app.showListingModal) && app.selectedItem == old(app.selectedItem)
    ensures app.myRentals == old(app.myRentals) && app.lockerPending == old(app.lockerPending)
  {
    outcome := form.Submit();
    if outcome.LoggedIn? {
      app.HandleLogin();
    }
  }

  /** The listing form's submit, with `onAddItem` bound to `handleAddItem`
      and `onClose` closing the form: the record built from the form heads
      the catalog, the form is reset and closed. */
  method PublishListing(app: AppState, form: Listing.ListingForm, id: int, priceRent: nat, priceBuy: nat)
    returns (item: Catalog.Item)
    modifies app, form
    ensures item == Listing.NewItem(old(form.formData), id, priceRent, priceBuy)
    ensures app.items == [item] + old(app.items) && app.activeFilter == Catalog.AllFilter
    ensures form.formData == Listing.InitialForm && !app.showListingModal
    ensures app.searchQuery == old(app.searchQuery) && app.isAuthenticated == old(app.isAuthenticated)
    ensures app.showAuthModal == old(app.showAuthModal) && app.selectedItem == old(app.selectedItem)
    ensures app.myRentals == old(app.myRentals) && app.lockerPending == old(app.lockerPending)
    ensures app.searchQuery == "" ==> item in app.Visible()
  {
    item := form.Submit(id, priceRent, priceBuy);
    app.HandleAddItem(item);
    app.showListingModal := false;
  }
}
