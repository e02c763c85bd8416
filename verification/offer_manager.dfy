/** The owner's offer list for one business: loading, the create form and deletion by id. */
module OfferManager {
  import opened Common
  import opened Entities
  import opened Interaction

  datatype Field = Title | Description | ValidTill

  datatype Form = Form(title: string, description: string, validTill: string)

  const EmptyForm := Form("", "", "")

  datatype Manager = Manager(offers: seq<Offer>, form: Form, loading: bool, error: string, fetching: bool)

  /** Nothing loaded yet and the first load pending. */
  const Initial := Manager([], EmptyForm, false, "", true)

  const CreateFailed := "Failed to create offer"
  const DeleteFailed := "Failed to delete offer"

  /** `loadOffers`: a failed load shows an empty list instead of an error. */
  function LoadOffers(m: Manager, placeId: string, reply: Reply<Option<seq<Offer>>>): (r: Manager)
    ensures !r.fetching
    ensures reply.Ok? && reply.payload.Some? ==> r.offers == reply.payload.value
    ensures reply.Ok? && reply.payload.None? ==> r.offers == []
    ensures reply.Err? ==> r.offers == []
    ensures r.form == m.form && r.error == m.error && r.loading == m.loading
  {
    match reply
    case Ok(data) => m.(offers := if data.Some? then data.value else [], fetching := false)
    case Err(_) => m.(offers := [], fetching := false)
  }

  /** `handleChange`: one form field takes the typed value. */
  function Change(m: Manager, field: Field, value: string): (r: Manager)
    ensures field == Title ==> r.form.title == value
    ensures field == Description ==> r.form.description == value
    ensures field == ValidTill ==> r.form.validTill == value
    ensures field != Title ==> r.form.title == m.form.title
    ensures field != Description ==> r.form.description == m.form.description
    ensures field != ValidTill ==> r.form.validTill == m.form.validTill
    ensures r.(form := m.form) == m
  {
    match field
    case Title => m.(form := m.form.(title := value))
    case Description => m.(form := m.form.(description := value))
    case ValidTill => m.(form := m.form.(validTill := value))
  }

  datatype Outcome = Outcome(manager: Manager, calls: seq<Call>, alert: Option<string>)

  /** `handleSubmit`: create the offer from the form, then reset the form and reload; a
      failed reload is absorbed by `loadOffers` itself. */
  function Submit(m: Manager, placeId: string, createReply: Reply<()>, loadReply: Reply<Option<seq<Offer>>>): (r: Outcome)
    ensures |r.calls| >= 1 && r.calls[0] == CreateOfferCall(placeId, m.form.title, m.form.description, m.form.validTill)
    ensures !r.manager.loading && r.alert.None?
    ensures createReply.Ok? ==>
      r.calls == [r.calls[0], GetOffersCall(placeId)] && r.manager.form == EmptyForm && r.manager.error == ""
      && r.manager == LoadOffers(m.(form := EmptyForm, error := "", loading := false), placeId, loadReply)
    ensures createReply.Err? ==>
      |r.calls| == 1 && r.manager.form == m.form && r.manager.offers == m.offers
      && r.manager.error == ErrorText(createReply.message, CreateFailed)
  {
    var create := CreateOfferCall(placeId, m.form.title, m.form.description, m.form.validTill);
    match createReply
    case Ok(_) =>
      Outcome(LoadOffers(m.(form := EmptyForm, error := "", loading := false), placeId, loadReply),
              [create, GetOffersCall(placeId)], None)
    case Err(msg) =>
      Outcome(m.(error := ErrorText(msg, CreateFailed), loading := false), [create], None)
  }

  /** The condition an offer must meet to survive deleting `offerId`. */
  function KeepsOther(offerId: string): Offer -> bool {
    (o: Offer) => o.id != offerId
  }

  /** `prev.filter(offer => offer._id !== offerId)`. */
  function Without(offers: seq<Offer>, offerId: string): (r: seq<Offer>)
    ensures forall o :: o in r <==> o in offers && o.id != offerId
    ensures |r| <= |offers|
  {
    Filter(KeepsOther(offerId), offers)
  }

  /** `handleDelete(offerId)`: only a confirmed and successful delete changes the list; a
      failure raises an alert. */
  function Delete(m: Manager, offerId: string, confirmed: bool, reply: Reply<()>): (r: Outcome)
    ensures !confirmed ==> r == Outcome(m, [], None)
    ensures confirmed ==> r.calls == [DeleteOfferCall(offerId)]
    ensures confirmed && reply.Ok? ==> r.manager == m.(offers := Without(m.offers, offerId)) && r.alert.None?
    ensures confirmed && reply.Err? ==>
      r.manager == m && r.alert == Some(ErrorText(reply.message, DeleteFailed))
  {
    if !confirmed then Outcome(m, [], None)
    else
      match reply
      case Ok(_) => Outcome(m.(offers := Without(m.offers, offerId)), [DeleteOfferCall(offerId)], None)
      case Err(msg) => Outcome(m, [DeleteOfferCall(offerId)], Some(ErrorText(msg, DeleteFailed)))
  }

  /** Deleting an id no offer has leaves the list as it was. */
  lemma DeleteAbsentIsNoop(offers: seq<Offer>, offerId: string)
    requires forall i :: 0 <= i < |offers| ==> offers[i].id != offerId
    ensures Without(offers, offerId) == offers
  {
    FilterKeepsAll(KeepsOther(offerId), offers);
  }

  /** Deleting the same id twice is the same as deleting it once. */
  lemma DeleteIdempotent(offers: seq<Offer>, offerId: string)
    ensures Without(Without(offers, offerId), offerId) == Without(offers, offerId)
  {
    FilterIdempotent(KeepsOther(offerId), offers);
  }

  /** The surviving offers keep their order: deletion splits over any division of the list. */
  lemma DeleteKeepsOrder(a: seq<Offer>, b: seq<Offer>, offerId: string)
    ensures Without(a + b, offerId) == Without(a, offerId) + Without(b, offerId)
  {
    FilterConcat(KeepsOther(offerId), a, b);
  }

  /** Deleting an offer that occurs once removes exactly that entry. */
  lemma DeleteRemovesOne(a: seq<Offer>, o: Offer, b: seq<Offer>)
    requires forall i :: 0 <= i < |a| ==> a[i].id != o.id
    requires forall i :: 0 <= i < |b| ==> b[i].id != o.id
    ensures Without(a + [o] + b, o.id) == a + b
  {
    var keep := KeepsOther(o.id);
    FilterConcat(keep, a + [o], b);
    FilterConcat(keep, a, [o]);
    FilterKeepsAll(keep, a);
    FilterKeepsAll(keep, b);
    assert Filter(keep, [o]) == [] by {
      assert [o][1..] == [];
    }
    assert Filter(keep, a + [o]) == a;
  }

  /** One thing that can happen on the panel: a load (on mount or a change of place), a
      keystroke in the form, a submit of the form, or a press of a delete button. */
  datatype Op =
    | LoadOp(reply: Reply<Option<seq<Offer>>>)
    | EditOp(field: Field, value: string)
    | SubmitOp(createReply: Reply<()>, loadReply: Reply<Option<seq<Offer>>>)
    | DeleteOp(offerId: string, confirmed: bool, deleteReply: Reply<()>)

  function Step(m: Manager, placeId: string, op: Op): Manager {
    match op
    case LoadOp(reply) => LoadOffers(m, placeId, reply)
    case EditOp(field, value) => Change(m, field, value)
    case SubmitOp(createReply, loadReply) => Submit(m, placeId, createReply, loadReply).manager
    case DeleteOp(offerId, confirmed, reply) => Delete(m, offerId, confirmed, reply).manager
  }

  /** The panel after the operations, in order. */
  function Run(m: Manager, placeId: string, ops: seq<Op>): Manager
    decreases |ops|
  {
    if ops == [] then m else Run(Step(m, placeId, ops[0]), placeId, ops[1..])
  }

  /** The list a load puts on screen: the reply's list, or nothing when the reply failed
      or had no list. */
  function Loaded(reply: Reply<Option<seq<Offer>>>): seq<Offer> {
    if reply.Ok? && reply.payload.Some? then reply.payload.value else []
  }

  /** An independent account of the panel: the list of the last load and the ids deleted
      successfully since. */
  datatype Basis = Basis(loaded: seq<Offer>, deleted: set<string>)

  function Account(b: Basis, op: Op): Basis {
    match op
    case LoadOp(reply) => Basis(Loaded(reply), {})
    case EditOp(_, _) => b
    case SubmitOp(createReply, loadReply) => if createReply.Ok? then Basis(Loaded(loadReply), {}) else b
    case DeleteOp(offerId, confirmed, reply) =>
      if confirmed && reply.Ok? then b.(deleted := b.deleted + {offerId}) else b
  }

  function AccountAll(b: Basis, ops: seq<Op>): Basis
    decreases |ops|
  {
    if ops == [] then b else AccountAll(Account(b, ops[0]), ops[1..])
  }

  /** The condition an offer must meet to survive every delete in `deleted`. */
  function NotDeleted(deleted: set<string>): Offer -> bool {
    (o: Offer) => o.id !in deleted
  }

  /** What the account says is on screen: the last loaded list minus the deleted ids. */
  function Shown(b: Basis): seq<Offer> {
    Filter(NotDeleted(b.deleted), b.loaded)
  }

  /** One more delete on a filtered list is the same filter with one more id. */
  lemma {:induction false} WithoutShown(loaded: seq<Offer>, deleted: set<string>, offerId: string)
    ensures Without(Filter(NotDeleted(deleted), loaded), offerId) == Filter(NotDeleted(deleted + {offerId}), loaded)
  {
    if loaded != [] {
      WithoutShown(loaded[1..], deleted, offerId);
      var rest := Filter(NotDeleted(deleted), loaded[1..]);
      if loaded[0].id !in deleted {
        assert Filter(NotDeleted(deleted), loaded) == [loaded[0]] + rest;
        FilterConcat(KeepsOther(offerId), [loaded[0]], rest);
        assert [loaded[0]][1..] == [];
      }
    }
  }

  /** Every operation keeps the panel's list equal to the account's. */
  lemma StepExplained(m: Manager, placeId: string, op: Op, b: Basis)
    requires m.offers == Shown(b)
    ensures Step(m, placeId, op).offers == Shown(Account(b, op))
  {
    match op
    case LoadOp(reply) =>
      FilterKeepsAll(NotDeleted({}), Loaded(reply));
    case EditOp(_, _) =>
    case SubmitOp(createReply, loadReply) =>
      FilterKeepsAll(NotDeleted({}), Loaded(loadReply));
    case DeleteOp(offerId, confirmed, reply) =>
      WithoutShown(b.loaded, b.deleted, offerId);
  }

  lemma {:induction false} RunExplained(m: Manager, placeId: string, ops: seq<Op>, b: Basis)
    requires m.offers == Shown(b)
    ensures Run(m, placeId, ops).offers == Shown(AccountAll(b, ops))
    decreases |ops|
  {
    if ops != [] {
      StepExplained(m, placeId, ops[0], b);
      RunExplained(Step(m, placeId, ops[0]), placeId, ops[1..], Account(b, ops[0]));
    }
  }

  /** From a fresh panel, whatever happens, the list shown is the list of the last load
      (an empty one before any load succeeds), in its order, minus exactly the offers
      whose ids were deleted successfully since that load. */
  lemma ShownIsLastLoad(placeId: string, ops: seq<Op>)
    ensures var b := AccountAll(Basis([], {}), ops);
            var shown := Run(Initial, placeId, ops).offers;
            && shown == Filter(NotDeleted(b.deleted), b.loaded)
            && (forall o :: o in shown <==> o in b.loaded && o.id !in b.deleted)
  {
    RunExplained(Initial, placeId, ops, Basis([], {}));
  }
}
