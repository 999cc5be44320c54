/**
 * The admin panel (components/AdminPanel.tsx). Its own state is the new-package
 * draft and the "generating" flag; the catalogue and the booking list belong to
 * App, which hands them in with their setters, so the panel writes them through
 * its reference to the App object.
 */
module Admin {
  import opened Types
  import opened Ledger
  import Site

  /** One form field changed by the user. Highlights are only ever set by generation. */
  datatype DraftEdit =
    | Title(title: string)
    | Destination(destination: string)
    | Price(price: int)
    | Duration(duration: string)
    | Image(image: string)
    | Description(description: string)

  function ApplyDraftEdit(d: Draft, e: DraftEdit): Draft
  {
    match e
    case Title(t) => d.(title := Some(t))
    case Destination(t) => d.(destination := Some(t))
    case Price(p) => d.(price := Some(p))
    case Duration(t) => d.(duration := Some(t))
    case Image(t) => d.(image := Some(t))
    case Description(t) => d.(description := Some(t))
  }

  /**
   * A booking submitted on the public site shows up on the dashboard as one more
   * pending booking and adds nothing to the revenue.
   */
  lemma SubmittedBookingIsPending(b: Booking, bs: seq<Booking>, ps: seq<TourPackage>)
    requires b.status == PENDING
    ensures PendingCount([b] + bs) == PendingCount(bs) + 1
    ensures ConfirmedValue([b] + bs, ps) == ConfirmedValue(bs, ps)
  {
  }

  class Panel {
    const site: Site.App
    var draft: Draft
    var isGenerating: bool

    constructor (site: Site.App)
      ensures this.site == site && draft == EmptyDraft && !isGenerating
    {
      this.site := site;
      draft := EmptyDraft;
      isGenerating := false;
    }

    method Edit(e: DraftEdit)
      modifies this`draft
      ensures draft == ApplyDraftEdit(old(draft), e)
    {
      draft := ApplyDraftEdit(draft, e);
    }

    /**
     * The first half of "generate with AI". While a request is in flight the
     * button is disabled, so a click does nothing; without a title and a
     * destination no request is made and nothing changes; otherwise the flag
     * goes up and the caller issues the request.
     */
    method StartGenerate() returns (requested: bool)
      modifies this`isGenerating
      ensures requested == (!old(isGenerating) && HasTitleAndDestination(draft))
      ensures isGenerating == (requested || old(isGenerating))
    {
      if isGenerating || !Filled(draft.destination) || !Filled(draft.title) {
        return false;
      }
      isGenerating := true;
      return true;
    }

    /**
     * The second half: a successful generation merges its four fields into the
     * draft, a failed one leaves the draft alone; the flag comes down either way.
     */
    method CompleteGenerate(outcome: Option<Details>)
      requires isGenerating
      modifies this`draft, this`isGenerating
      ensures !isGenerating
      ensures outcome.Some? ==> draft == MergeGenerated(old(draft), outcome.value)
      ensures outcome.None? ==> draft == old(draft)
    {
      if outcome.Some? {
        draft := MergeGenerated(draft, outcome.value);
      }
      isGenerating := false;
    }

    /**
     * "Add package": without a title and a destination nothing happens; otherwise
     * the package built from the draft goes at the end of the catalogue and the
     * draft starts over. `id` stands for the clock reading the source uses.
     */
    method AddPackage(id: string)
      modifies site`packages, this`draft
      ensures !HasTitleAndDestination(old(draft)) ==> site.packages == old(site.packages) && draft == old(draft)
      ensures HasTitleAndDestination(old(draft)) ==>
                site.packages == old(site.packages) + [NewPackage(old(draft), id)] && draft == EmptyDraft
    {
      if !Filled(draft.title) || !Filled(draft.destination) {
        return;
      }
      var pkg := NewPackage(draft, id);
      site.packages := site.packages + [pkg];
      draft := EmptyDraft;
    }

    /** Deleting a package after the user's answer to the confirmation prompt. */
    method DeletePackage(id: string, confirmed: bool)
      modifies site`packages
      ensures site.packages == if confirmed then RemovePackage(old(site.packages), id) else old(site.packages)
    {
      if confirmed {
        site.packages := RemovePackage(site.packages, id);
      }
    }

    method UpdateBookingStatus(id: string, status: Status)
      modifies site`bookings
      ensures site.bookings == SetStatus(old(site.bookings), id, status)
    {
      site.bookings := SetStatus(site.bookings, id, status);
    }

    /** The figures on the overview tab, recomputed on every render. */
    function Dashboard(): (s: Stats)
      reads site
      ensures s.totalRevenue == ConfirmedValue(site.bookings, site.packages)
      ensures s.pendingBookings == CountStatus(site.bookings, PENDING)
      ensures s.totalPackages == |site.packages|
    {
      ComputeStats(site.bookings, site.packages)
    }
  }
}
