/**
 * The public-site controller (App.tsx): which view is shown, whether the admin
 * has logged in, whether the login dialog is open, and the booking dialog with
 * its form. Every handler keeps the invariant that the admin view is shown only
 * to an authenticated user.
 */
module Site {
  import opened Types

  /** The booking dialog's form fields. */
  datatype BookingForm = BookingForm(name: string, email: string, date: string, phone: string)

  const EmptyForm: BookingForm := BookingForm("", "", "", "")

  /** One keystroke's worth of change to the booking form. */
  datatype FormEdit = Name(name: string) | Email(email: string) | Phone(phone: string) | Date(date: string)

  function ApplyFormEdit(f: BookingForm, e: FormEdit): BookingForm
  {
    match e
    case Name(n) => f.(name := n)
    case Email(m) => f.(email := m)
    case Phone(p) => f.(phone := p)
    case Date(d) => f.(date := d)
  }

  /** The catalogue the site starts with. */
  const InitialPackages: seq<TourPackage> := [
    TourPackage("1", "Parisian Romance", "Paris, France", "5 Days / 4 Nights", 1800,
      "Experience the city of love with a private Seine cruise, Eiffel Tower dinner, and guided museum tours.",
      "https://picsum.photos/id/1015/800/600",
      ["Eiffel Tower Dinner", "Louvre Museum Tour", "Seine River Cruise", "Montmartre Walk"]),
    TourPackage("2", "Bali Island Escape", "Bali, Indonesia", "7 Days / 6 Nights", 1200,
      "Relax on pristine beaches, explore ancient temples, and enjoy vibrant local culture in Ubud.",
      "https://picsum.photos/id/1039/800/600",
      ["Ubud Monkey Forest", "Tanah Lot Sunset", "Snorkeling in Nusa Dua", "Balinese Massage"]),
    TourPackage("3", "Swiss Alpine Adventure", "Interlaken, Switzerland", "6 Days / 5 Nights", 2500,
      "Breathtaking mountain views, scenic train rides through the Alps, and luxury chalet stays.",
      "https://picsum.photos/id/1036/800/600",
      ["Jungfraujoch Trip", "Lake Brienz Cruise", "Glacier Express", "Swiss Chocolate Tasting"])
  ]

  /** The booking request built from the selected package and the form; the id and timestamp are inputs. */
  function NewBooking(pkg: TourPackage, form: BookingForm, id: string, createdAt: string): (b: Booking)
    ensures b.status == PENDING
    ensures b.packageId == pkg.id && b.packageTitle == pkg.title
    ensures b.customerName == form.name && b.email == form.email
    ensures b.phone == form.phone && b.travelDate == form.date
    ensures b.id == id && b.createdAt == createdAt
  {
    Booking(
      id := id,
      packageId := pkg.id,
      packageTitle := pkg.title,
      customerName := form.name,
      email := form.email,
      phone := form.phone,
      travelDate := form.date,
      status := PENDING,
      createdAt := createdAt)
  }

  /** What a render of App puts on screen. */
  datatype Screen = Nothing | AdminScreen | PublicSite

  class App {
    var view: ViewState
    var packages: seq<TourPackage>
    var bookings: seq<Booking>
    var isAuthenticated: bool
    var isLoginOpen: bool
    var selectedPkg: Option<TourPackage>
    var bookingForm: BookingForm

    /** The admin view is never shown to a visitor who has not logged in. */
    ghost predicate Valid()
      reads this
    {
      view == ADMIN ==> isAuthenticated
    }

    constructor ()
      ensures Valid()
      ensures view == HOME && packages == InitialPackages && bookings == []
      ensures !isAuthenticated && !isLoginOpen && selectedPkg == None && bookingForm == EmptyForm
    {
      view := HOME;
      packages := InitialPackages;
      bookings := [];
      isAuthenticated := false;
      isLoginOpen := false;
      selectedPkg := None;
      bookingForm := EmptyForm;
    }

    /** A package card's "book" button opens the booking dialog for that package. */
    method SelectPackage(p: TourPackage)
      requires Valid()
      modifies this`selectedPkg
      ensures Valid() && selectedPkg == Some(p)
    {
      selectedPkg := Some(p);
    }

    /** The booking dialog's close button. */
    method CloseBooking()
      requires Valid()
      modifies this`selectedPkg
      ensures Valid() && selectedPkg == None
    {
      selectedPkg := None;
    }

    method EditForm(e: FormEdit)
      requires Valid()
      modifies this`bookingForm
      ensures Valid() && bookingForm == ApplyFormEdit(old(bookingForm), e)
    {
      bookingForm := ApplyFormEdit(bookingForm, e);
    }

    /**
     * Submitting the booking form. Without a selected package nothing happens;
     * otherwise one PENDING booking goes to the front of the list, the dialog
     * closes and the form is cleared.
     */
    method SubmitBooking(id: string, createdAt: string)
      requires Valid()
      modifies this`bookings, this`selectedPkg, this`bookingForm
      ensures Valid()
      ensures old(selectedPkg).None? ==>
                bookings == old(bookings) && selectedPkg == None && bookingForm == old(bookingForm)
      ensures old(selectedPkg).Some? ==>
                bookings == [NewBooking(old(selectedPkg).value, old(bookingForm), id, createdAt)] + old(bookings)
                && selectedPkg == None && bookingForm == EmptyForm
    {
      if selectedPkg.None? {
        return;
      }
      var b := NewBooking(selectedPkg.value, bookingForm, id, createdAt);
      bookings := [b] + bookings;
      selectedPkg := None;
      bookingForm := EmptyForm;
    }

    /** The "Admin Login" button: straight to the admin view once logged in, else the login dialog opens. */
    method AdminClick()
      requires Valid()
      modifies this`view, this`isLoginOpen
      ensures Valid()
      ensures old(isAuthenticated) ==> view == ADMIN && isLoginOpen == old(isLoginOpen)
      ensures !old(isAuthenticated) ==> view == old(view) && isLoginOpen
    {
      if isAuthenticated {
        view := ADMIN;
      } else {
        isLoginOpen := true;
      }
    }

    /** The login dialog's onLogin callback. */
    method LoginSuccess()
      modifies this`isAuthenticated, this`isLoginOpen, this`view
      ensures Valid()
      ensures isAuthenticated && !isLoginOpen && view == ADMIN
    {
      isAuthenticated := true;
      isLoginOpen := false;
      view := ADMIN;
    }

    /** The login dialog's close button. */
    method CloseLogin()
      requires Valid()
      modifies this`isLoginOpen
      ensures Valid() && !isLoginOpen
    {
      isLoginOpen := false;
    }

    method Logout()
      modifies this`isAuthenticated, this`view
      ensures Valid()
      ensures !isAuthenticated && view == HOME
    {
      isAuthenticated := false;
      view := HOME;
    }

    /** The logo in the navigation bar goes back to the home view. */
    method GoHome()
      modifies this`view
      ensures Valid() && view == HOME
    {
      view := HOME;
    }

    /**
     * The top of App's render: the admin screen for an authenticated admin view;
     * an admin view without authentication is reset to HOME and renders nothing;
     * any other view renders the public site.
     */
    method Render() returns (screen: Screen)
      modifies this`view
      ensures Valid()
      ensures old(view) == ADMIN && old(isAuthenticated) ==> screen == AdminScreen && view == ADMIN
      ensures old(view) == ADMIN && !old(isAuthenticated) ==> screen == Nothing && view == HOME
      ensures old(view) != ADMIN ==> screen == PublicSite && view == old(view)
    {
      if view == ADMIN {
        if !isAuthenticated {
          view := HOME;
          return Nothing;
        }
        return AdminScreen;
      }
      return PublicSite;
    }
  }
}
