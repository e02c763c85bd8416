/** A search result card: the directions link, the click that opens a business profile,
    and what the card shows to whom. */
module BusinessCard {
  import opened Common
  import opened Entities
  import Router

  /** The maps search URL; the destination is appended URL-encoded. */
  const MapsSearchBase := "https://www.google.com/maps/search/?api=1&query="

  /** Where directions point. JavaScript reads a coordinate of 0 as false, so a business
      on the equator or the prime meridian falls through to its address. */
  datatype Destination = Coordinates(lat: real, lng: real) | AddressText(address: string) | Unavailable

  function DirectionsTo(b: Business): (d: Destination)
    ensures d.Coordinates? <==> b.location.Some? && b.location.value.lat != 0.0 && b.location.value.lng != 0.0
    ensures d.Coordinates? ==> d.lat == b.location.value.lat && d.lng == b.location.value.lng
    ensures d.AddressText? <==> !d.Coordinates? && Truthy(b.address)
    ensures d.AddressText? ==> d.address == b.address.value
    ensures d.Unavailable? <==> !d.Coordinates? && !Truthy(b.address)
  {
    if b.location.Some? && b.location.value.lat != 0.0 && b.location.value.lng != 0.0 then
      Coordinates(b.location.value.lat, b.location.value.lng)
    else if Truthy(b.address) then AddressText(b.address.value)
    else Unavailable
  }

  /** `handleDirections`: the URL opened, or `None` when the "location not available"
      alert is shown instead. Number formatting and `encodeURIComponent` are parameters. */
  function DirectionsUrl(b: Business, formatNumber: real -> string, encode: string -> string): (url: Option<string>)
    ensures url.None? <==> DirectionsTo(b).Unavailable?
    ensures url.Some? ==> |MapsSearchBase| <= |url.value| && url.value[..|MapsSearchBase|] == MapsSearchBase
    ensures DirectionsTo(b).AddressText? ==>
      url.value[|MapsSearchBase|..] == encode(b.address.value)
    ensures DirectionsTo(b).Coordinates? ==>
      url.value[|MapsSearchBase|..] == encode(formatNumber(b.location.value.lat) + "," + formatNumber(b.location.value.lng))
  {
    match DirectionsTo(b)
    case Coordinates(lat, lng) => Some(MapsSearchBase + encode(formatNumber(lat) + "," + formatNumber(lng)))
    case AddressText(a) => Some(MapsSearchBase + encode(a))
    case Unavailable => None
  }

  /** A business at a 0 coordinate with an address gets directions to the address. */
  lemma ZeroCoordinateUsesAddress(b: Business)
    requires b.location.Some? && (b.location.value.lat == 0.0 || b.location.value.lng == 0.0)
    requires Truthy(b.address)
    ensures DirectionsTo(b) == AddressText(b.address.value)
  {
  }

  datatype CardAction = Ignore | AlertUnverified | Open(path: string)

  /** `handleCardClick`: clicks on the card's buttons are left to the buttons; an
      unverified business only raises an alert. */
  function CardClick(b: Business, onButton: bool): (a: CardAction)
    ensures onButton ==> a == Ignore
    ensures !onButton && !b.claimed ==> a == AlertUnverified
    ensures a.Open? <==> !onButton && b.claimed
    ensures a.Open? ==> a.path == Router.BusinessPrefix + b.placeId
  {
    if onButton then Ignore
    else if !b.claimed then AlertUnverified
    else Open(Router.BusinessPrefix + b.placeId)
  }

  /** Opening a verified card lands on that business's profile when signed in, and on the
      login page otherwise, for any place id without a slash. */
  lemma OpenedCardShowsProfile(b: Business, isAuthenticated: bool)
    requires b.claimed && b.placeId != "" && '/' !in b.placeId
    ensures var path := CardClick(b, false).path;
            Router.Settle(false, isAuthenticated, path, 2)
              == Router.Show(if isAuthenticated then Router.BusinessProfilePage(b.placeId) else Router.LoginPage)
  {
    var path := Router.BusinessPrefix + b.placeId;
    assert path[..|Router.BusinessPrefix|] == Router.BusinessPrefix;
    assert path[|Router.BusinessPrefix|..] == b.placeId;
    assert Router.BusinessPlaceId(path) == Some(b.placeId);
    Router.RoutesDisjoint(path);
    assert Router.BusinessPlaceId("/login").None?;
  }

  /** `showClaimButton`: offered to owners on unverified businesses. */
  predicate ShowsClaimButton(user: Option<User>, b: Business) {
    IsOwner(user) && !b.claimed
  }

  /** Phone, website and hours rows: present only for a verified business with that detail. */
  predicate ShowsPhone(b: Business) {
    b.claimed && Truthy(b.phone)
  }

  predicate ShowsWebsite(b: Business) {
    b.claimed && Truthy(b.website)
  }

  predicate ShowsHours(b: Business) {
    b.claimed && Truthy(b.hours)
  }

  /** A card offering the claim button shows no contact details and does not open a
      profile; a card showing any contact detail opens one. */
  lemma ClaimButtonOnlyOnClosedCards(user: Option<User>, b: Business)
    ensures ShowsClaimButton(user, b) ==>
      !ShowsPhone(b) && !ShowsWebsite(b) && !ShowsHours(b) && !CardClick(b, false).Open?
    ensures ShowsPhone(b) || ShowsWebsite(b) || ShowsHours(b) ==> CardClick(b, false).Open?
  {
  }
}
