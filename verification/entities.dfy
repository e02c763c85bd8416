/** The records the client receives from the backend and renders. Optional properties of
    the JavaScript objects are `Option`s; only the fields the modelled logic reads appear. */
module Entities {
  import opened Common

  /** A signed-in account. `role` is the backend's string: `"user"` or `"owner"`. */
  datatype User = User(id: string, email: string, name: string, role: string)

  predicate IsOwner(u: Option<User>) {
    u.Some? && u.value.role == "owner"
  }

  /** Map coordinates; JavaScript treats a coordinate of 0 as falsy. */
  datatype Location = Location(lat: real, lng: real)

  /** A directory listing, keyed by `placeId`. */
  datatype Business = Business(
    placeId: string,
    name: string,
    address: Option<string>,
    category: string,
    claimed: bool,
    phone: Option<string>,
    website: Option<string>,
    hours: Option<string>,
    description: Option<string>,
    location: Option<Location>)

  predicate IsClaimed(b: Business) {
    b.claimed
  }

  predicate IsUnclaimed(b: Business) {
    !b.claimed
  }

  /** The editable details an owner submits at the end of a claim. */
  datatype BusinessInfo = BusinessInfo(description: string, phone: string, website: string, hours: string)

  /** A promotional offer of a claimed business, identified by `_id`. */
  datatype Offer = Offer(id: string, title: string, description: string, validTill: string)

  datatype PollOption = PollOption(text: string, votes: nat)

  /** A poll as returned by the backend; `voters` may be missing from the payload. */
  datatype Poll = Poll(
    id: string,
    question: string,
    options: seq<PollOption>,
    voters: Option<seq<string>>,
    isActive: bool)
}
