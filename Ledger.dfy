/**
 * The values the admin panel computes from the catalogue and the booking list
 * (components/AdminPanel.tsx): the new-package draft and its defaults, the
 * filter behind deletion, the map behind a status change, and the dashboard
 * statistics.
 */
module Ledger {
  import opened Types

  /**
   * The "new package" form, a Partial<TourPackage> without an id: any field may
   * be undefined (None), which happens when the generator's JSON lacks it.
   */
  datatype Draft = Draft(
    title: Option<string>,
    destination: Option<string>,
    price: Option<int>,
    description: Option<string>,
    duration: Option<string>,
    image: Option<string>,
    highlights: Option<seq<string>>)

  const DefaultImage: string := "https://picsum.photos/800/600"

  /** The form's value when the panel opens and after every added package. */
  const EmptyDraft: Draft :=
    Draft(Some(""), Some(""), Some(0), Some(""), Some(""), Some(DefaultImage), Some([]))

  /**
   * The object the content generator hands back. Its JSON is parsed without
   * validation, so each field may be missing.
   */
  datatype Details = Details(
    description: Option<string>,
    highlights: Option<seq<string>>,
    estimatedPrice: Option<int>,
    suggestedDuration: Option<string>)

  /** JavaScript truthiness of an optional string: defined and not empty. */
  predicate Filled(s: Option<string>)
  {
    s.Some? && s.value != ""
  }

  /** JavaScript's `s || d` on an optional string. */
  function OrElse(s: Option<string>, d: string): string
  {
    if Filled(s) then s.value else d
  }

  /** Both guards of the panel (generate and add) ask for a title and a destination. */
  predicate HasTitleAndDestination(d: Draft)
  {
    Filled(d.title) && Filled(d.destination)
  }

  /**
   * The package built from a draft that has a title and a destination: every
   * filled field is kept and every other one gets its default, so the package
   * never has an empty duration or image.
   */
  function NewPackage(d: Draft, id: string): (p: TourPackage)
    requires HasTitleAndDestination(d)
    ensures p.id == id && p.title == d.title.value && p.destination == d.destination.value
    ensures p.description == (if d.description.Some? then d.description.value else "")
    ensures p.price == (if d.price.Some? then d.price.value else 0)
    ensures p.duration == (if Filled(d.duration) then d.duration.value else "TBD")
    ensures p.image == (if Filled(d.image) then d.image.value else DefaultImage)
    ensures p.highlights == (if d.highlights.Some? then d.highlights.value else [])
    ensures p.title != "" && p.destination != "" && p.duration != "" && p.image != ""
  {
    TourPackage(
      id := id,
      title := d.title.value,
      destination := d.destination.value,
      duration := OrElse(d.duration, "TBD"),
      price := if d.price.Some? && d.price.value != 0 then d.price.value else 0,
      description := OrElse(d.description, ""),
      image := OrElse(d.image, DefaultImage),
      highlights := if d.highlights.Some? then d.highlights.value else [])
  }

  /** The draft after a successful generation: the four generated fields replace the draft's. */
  function MergeGenerated(d: Draft, g: Details): (r: Draft)
    ensures r.title == d.title && r.destination == d.destination && r.image == d.image
    ensures r.description == g.description && r.highlights == g.highlights
    ensures r.price == g.estimatedPrice && r.duration == g.suggestedDuration
  {
    d.(description := g.description, highlights := g.highlights,
       price := g.estimatedPrice, duration := g.suggestedDuration)
  }

  /** Generating keeps the draft addable, and the package then carries the generated copy. */
  lemma {:induction false} MergeThenAdd(d: Draft, g: Details, id: string)
    requires HasTitleAndDestination(d)
    ensures HasTitleAndDestination(MergeGenerated(d, g))
    ensures NewPackage(MergeGenerated(d, g), id).title == d.title.value
    ensures g.description.Some? ==> NewPackage(MergeGenerated(d, g), id).description == g.description.value
    ensures g.highlights.Some? ==> NewPackage(MergeGenerated(d, g), id).highlights == g.highlights.value
    ensures g.estimatedPrice.Some? ==> NewPackage(MergeGenerated(d, g), id).price == g.estimatedPrice.value
    ensures Filled(g.suggestedDuration) ==> NewPackage(MergeGenerated(d, g), id).duration == g.suggestedDuration.value
  {
  }

  /** Merging two generations in a row keeps only the second. */
  lemma MergeLastWins(d: Draft, g1: Details, g2: Details)
    ensures MergeGenerated(MergeGenerated(d, g1), g2) == MergeGenerated(d, g2)
  {
  }

  // ----- deleting a package: packages.filter(p => p.id !== id) -----

  function RemovePackage(ps: seq<TourPackage>, id: string): (r: seq<TourPackage>)
    ensures |r| <= |ps|
    ensures forall p :: p in r <==> p in ps && p.id != id
  {
    if ps == [] then []
    else if ps[0].id != id then [ps[0]] + RemovePackage(ps[1..], id)
    else RemovePackage(ps[1..], id)
  }

  /** Filtering distributes over concatenation, so the kept packages keep their relative order. */
  lemma {:induction false} RemovePackageConcat(a: seq<TourPackage>, b: seq<TourPackage>, id: string)
    ensures RemovePackage(a + b, id) == RemovePackage(a, id) + RemovePackage(b, id)
  {
    if a == [] {
      assert a + b == b;
    } else {
      assert (a + b)[1..] == a[1..] + b;
      RemovePackageConcat(a[1..], b, id);
    }
  }

  /** Deleting an id no package has changes nothing. */
  lemma {:induction false} RemovePackageAbsent(ps: seq<TourPackage>, id: string)
    requires forall i :: 0 <= i < |ps| ==> ps[i].id != id
    ensures RemovePackage(ps, id) == ps
  {
    if ps != [] {
      RemovePackageAbsent(ps[1..], id);
    }
  }

  /** Exactly the packages carrying the id are removed: the list shrinks by their number. */
  lemma {:induction false} RemovePackageCount(ps: seq<TourPackage>, id: string)
    ensures |RemovePackage(ps, id)| == |ps| - CountId(ps, id)
  {
    if ps != [] {
      RemovePackageCount(ps[1..], id);
    }
  }

  function CountId(ps: seq<TourPackage>, id: string): nat
  {
    if ps == [] then 0 else (if ps[0].id == id then 1 else 0) + CountId(ps[1..], id)
  }

  // ----- changing a booking's status: bookings.map(b => b.id === id ? {...b, status} : b) -----

  function SetStatus(bs: seq<Booking>, id: string, st: Status): (r: seq<Booking>)
    ensures |r| == |bs|
  {
    if bs == [] then []
    else [if bs[0].id == id then bs[0].(status := st) else bs[0]] + SetStatus(bs[1..], id, st)
  }

  /** Position by position: a matching booking gets the new status and keeps every other field; the rest are untouched. */
  lemma {:induction false} SetStatusAt(bs: seq<Booking>, id: string, st: Status, i: nat)
    requires i < |bs|
    ensures SetStatus(bs, id, st)[i] == if bs[i].id == id then bs[i].(status := st) else bs[i]
  {
    if i > 0 {
      SetStatusAt(bs[1..], id, st, i - 1);
    }
  }

  /** Changing the status of an id no booking has changes nothing. */
  lemma {:induction false} SetStatusAbsent(bs: seq<Booking>, id: string, st: Status)
    requires forall i :: 0 <= i < |bs| ==> bs[i].id != id
    ensures SetStatus(bs, id, st) == bs
  {
    if bs != [] {
      SetStatusAbsent(bs[1..], id, st);
    }
  }

  // ----- the dashboard statistics -----

  /** bookings.filter(b => b.status === st) */
  function WithStatus(bs: seq<Booking>, st: Status): (r: seq<Booking>)
    ensures |r| <= |bs|
    ensures forall b :: b in r <==> b in bs && b.status == st
  {
    if bs == [] then []
    else if bs[0].status == st then [bs[0]] + WithStatus(bs[1..], st)
    else WithStatus(bs[1..], st)
  }

  /** How many bookings have status `st`, counted one by one. */
  function CountStatus(bs: seq<Booking>, st: Status): nat
  {
    if bs == [] then 0 else (if bs[0].status == st then 1 else 0) + CountStatus(bs[1..], st)
  }

  /** The filter keeps every booking of the status, duplicates included: its length is their count. */
  lemma {:induction false} WithStatusCount(bs: seq<Booking>, st: Status)
    ensures |WithStatus(bs, st)| == CountStatus(bs, st)
  {
    if bs != [] {
      WithStatusCount(bs[1..], st);
    }
  }

  /** Filtering distributes over concatenation, so the kept bookings keep their relative order. */
  lemma {:induction false} WithStatusConcat(a: seq<Booking>, b: seq<Booking>, st: Status)
    ensures WithStatus(a + b, st) == WithStatus(a, st) + WithStatus(b, st)
  {
    if a == [] {
      assert a + b == b;
    } else {
      assert (a + b)[1..] == a[1..] + b;
      WithStatusConcat(a[1..], b, st);
    }
  }

  /** packages.find(p => p.id === id): the first package with the id, if any. */
  function FindPackage(ps: seq<TourPackage>, id: string): (r: Option<TourPackage>)
    ensures r.None? <==> forall i :: 0 <= i < |ps| ==> ps[i].id != id
    ensures r.Some? ==> exists i :: 0 <= i < |ps| && ps[i] == r.value && ps[i].id == id
                                    && forall j :: 0 <= j < i ==> ps[j].id != id
  {
    if ps == [] then None
    else if ps[0].id == id then
      Some(ps[0])
    else
      var r := FindPackage(ps[1..], id);
      if r.Some? then
        ghost var i :| 0 <= i < |ps[1..]| && ps[1..][i] == r.value && ps[1..][i].id == id
                       && forall j :: 0 <= j < i ==> ps[1..][j].id != id;
        assert ps[i + 1] == r.value && forall j :: 0 <= j < i + 1 ==> ps[j].id != id by {
          forall j | 0 <= j < i + 1 ensures ps[j].id != id {
            if j > 0 { assert ps[j] == ps[1..][j - 1]; }
          }
        }
        r
      else
        assert forall i :: 0 <= i < |ps| ==> ps[i].id != id by {
          forall i | 0 <= i < |ps| ensures ps[i].id != id {
            if i > 0 { assert ps[i] == ps[1..][i - 1]; }
          }
        }
        r
  }

  /** What one confirmed booking adds to the revenue: its package's price, or 0 when no package matches. */
  function PriceOf(ps: seq<TourPackage>, packageId: string): (r: int)
    ensures PricesNonNegative(ps) ==> r >= 0
  {
    match FindPackage(ps, packageId)
    case Some(p) => p.price
    case None => 0
  }

  /** The reducer, a left fold: acc + (pkg ? pkg.price : 0) over the bookings in order. */
  function FoldPrices(ps: seq<TourPackage>, bs: seq<Booking>, acc: int): (r: int)
    ensures PricesNonNegative(ps) ==> r >= acc
  {
    if bs == [] then acc else FoldPrices(ps, bs[1..], acc + PriceOf(ps, bs[0].packageId))
  }

  /** stats.totalRevenue: the reducer over the confirmed bookings, starting from 0. */
  function TotalRevenue(bs: seq<Booking>, ps: seq<TourPackage>): (r: int)
    ensures r == ConfirmedValue(bs, ps)
  {
    FoldConfirmedIsConfirmedValue(bs, ps);
    FoldPrices(ps, WithStatus(bs, CONFIRMED), 0)
  }

  /** The reference definition of the revenue: a plain sum over the confirmed bookings. */
  function ConfirmedValue(bs: seq<Booking>, ps: seq<TourPackage>): int
  {
    if bs == [] then 0
    else (if bs[0].status == CONFIRMED then PriceOf(ps, bs[0].packageId) else 0) + ConfirmedValue(bs[1..], ps)
  }

  lemma {:induction false} FoldPricesShift(ps: seq<TourPackage>, bs: seq<Booking>, acc: int)
    ensures FoldPrices(ps, bs, acc) == acc + FoldPrices(ps, bs, 0)
  {
    if bs != [] {
      FoldPricesShift(ps, bs[1..], acc + PriceOf(ps, bs[0].packageId));
      FoldPricesShift(ps, bs[1..], PriceOf(ps, bs[0].packageId));
    }
  }

  /** The filter-then-reduce of the dashboard equals the reference sum. */
  lemma {:induction false} FoldConfirmedIsConfirmedValue(bs: seq<Booking>, ps: seq<TourPackage>)
    ensures FoldPrices(ps, WithStatus(bs, CONFIRMED), 0) == ConfirmedValue(bs, ps)
  {
    if bs != [] {
      FoldConfirmedIsConfirmedValue(bs[1..], ps);
      if bs[0].status == CONFIRMED {
        FoldPricesShift(ps, WithStatus(bs[1..], CONFIRMED), PriceOf(ps, bs[0].packageId));
      }
    }
  }

  ghost predicate PricesNonNegative(ps: seq<TourPackage>)
  {
    forall i :: 0 <= i < |ps| ==> ps[i].price >= 0
  }

  lemma {:induction false} ConfirmedValueNonNegative(bs: seq<Booking>, ps: seq<TourPackage>)
    ensures PricesNonNegative(ps) ==> ConfirmedValue(bs, ps) >= 0
  {
    if bs != [] {
      ConfirmedValueNonNegative(bs[1..], ps);
    }
  }

  /** stats.pendingBookings: the length of the PENDING filter. */
  function PendingCount(bs: seq<Booking>): (n: nat)
    ensures n == CountStatus(bs, PENDING) && n <= |bs|
  {
    WithStatusCount(bs, PENDING);
    |WithStatus(bs, PENDING)|
  }

  datatype Stats = Stats(totalRevenue: int, pendingBookings: nat, totalPackages: nat)

  /** The dashboard's three figures. */
  function ComputeStats(bs: seq<Booking>, ps: seq<TourPackage>): (s: Stats)
    ensures s.totalRevenue == ConfirmedValue(bs, ps)
    ensures PricesNonNegative(ps) ==> s.totalRevenue >= 0
    ensures s.pendingBookings == CountStatus(bs, PENDING) && s.pendingBookings <= |bs|
    ensures s.totalPackages == |ps|
  {
    ConfirmedValueNonNegative(bs, ps);
    Stats(TotalRevenue(bs, ps), PendingCount(bs), |ps|)
  }

  /** The panel offers confirm and cancel only on pending bookings. */
  predicate ActionsOffered(b: Booking)
  {
    b.status == PENDING
  }

  /** No other booking shares the id of booking `k`. */
  ghost predicate UniqueIdAt(bs: seq<Booking>, k: nat)
    requires k < |bs|
  {
    forall j :: 0 <= j < |bs| && j != k ==> bs[j].id != bs[k].id
  }

  lemma UniqueIdAtTail(bs: seq<Booking>, k: nat)
    requires 0 < k < |bs| && UniqueIdAt(bs, k)
    ensures UniqueIdAt(bs[1..], k - 1) && bs[0].id != bs[k].id
  {
  }

  lemma UniqueIdAtHead(bs: seq<Booking>)
    requires 0 < |bs| && UniqueIdAt(bs, 0)
    ensures forall i :: 0 <= i < |bs[1..]| ==> bs[1..][i].id != bs[0].id
  {
  }

  /** Resolving an offered booking whose id is unique lowers the pending count by exactly one. */
  lemma {:induction false} ResolveLowersPending(bs: seq<Booking>, k: nat, st: Status)
    requires k < |bs| && ActionsOffered(bs[k]) && UniqueIdAt(bs, k) && st != PENDING
    ensures PendingCount(SetStatus(bs, bs[k].id, st)) == PendingCount(bs) - 1
  {
    var id := bs[k].id;
    if k == 0 {
      UniqueIdAtHead(bs);
      SetStatusAbsent(bs[1..], id, st);
    } else {
      UniqueIdAtTail(bs, k);
      assert bs[1..][k - 1] == bs[k];
      ResolveLowersPending(bs[1..], k - 1, st);
    }
  }

  /** Confirming an offered booking whose id is unique adds its package's price to the revenue. */
  lemma {:induction false} ConfirmAddsRevenue(bs: seq<Booking>, ps: seq<TourPackage>, k: nat)
    requires k < |bs| && ActionsOffered(bs[k]) && UniqueIdAt(bs, k)
    ensures ConfirmedValue(SetStatus(bs, bs[k].id, CONFIRMED), ps)
            == ConfirmedValue(bs, ps) + PriceOf(ps, bs[k].packageId)
  {
    var id := bs[k].id;
    if k == 0 {
      UniqueIdAtHead(bs);
      SetStatusAbsent(bs[1..], id, CONFIRMED);
    } else {
      UniqueIdAtTail(bs, k);
      assert bs[1..][k - 1] == bs[k];
      ConfirmAddsRevenue(bs[1..], ps, k - 1);
    }
  }

  /** Cancelling a pending booking leaves the revenue as it was. */
  lemma {:induction false} CancelKeepsRevenue(bs: seq<Booking>, ps: seq<TourPackage>, id: string)
    requires forall i :: 0 <= i < |bs| && bs[i].id == id ==> bs[i].status == PENDING
    ensures ConfirmedValue(SetStatus(bs, id, CANCELLED), ps) == ConfirmedValue(bs, ps)
  {
    if bs != [] {
      CancelKeepsRevenue(bs[1..], ps, id);
    }
  }
}
