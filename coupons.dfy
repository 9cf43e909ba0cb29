/** The admin coupon route: `POST` adds a coupon under its upper-cased code
    and announces its expiry, `DELETE` removes a coupon by its code as
    given, `GET` lists the table. Every handler first asks `authAdmin`. */
module CouponAdmin {
  import opened Js
  import opened Entities
  import opened AuthAdmin
  import Orders

  /** The event the background scheduler receives for a new coupon. */
  datatype Event = Event(name: string, code: string, expiresAt: int)

  const CouponExpired: string := "app/coupon.expired"

  datatype Response =
    | NotAuthorized
    | CouponAdded
    | AlreadyExists
    | CouponDeleted
    | CouponList(coupons: map<string, Coupon>)
    /** An exception caught by the handler, answered with its code or message. */
    | Failed

  function Status(r: Response): int {
    match r
    case NotAuthorized => 401
    case AlreadyExists => 400
    case Failed => 400
    case _ => 200
  }

  /** Codes are stored upper-cased, each under its own code. */
  predicate UpperKeyed(coupons: map<string, Coupon>) {
    forall k :: k in coupons ==> IsUpper(k) && coupons[k].code == k
  }

  /** The coupon as it is saved: its code upper-cased, the rest as given. */
  function Normalised(c: Coupon): (r: Coupon)
    ensures r.code == Upper(c.code) && IsUpper(r.code)
    ensures r.(code := c.code) == c
  {
    UpperIsUpper(c.code);
    c.(code := Upper(c.code))
  }

  /** The response and the table and event log after a `POST`, from the
      ones before it. `coupon` is None when the body has no coupon object;
      `delivered` is whether the event service accepted the event (the
      coupon is already saved when it fails). */
  datatype AddOutcome = AddOutcome(response: Response, coupons: map<string, Coupon>, events: seq<Event>)

  function AddSpec(coupons: map<string, Coupon>, events: seq<Event>, isAdmin: bool, coupon: Option<Coupon>,
                   delivered: bool): AddOutcome {
    if !isAdmin then AddOutcome(NotAuthorized, coupons, events)
    else if coupon.None? then AddOutcome(Failed, coupons, events)
    else
      var saved := Normalised(coupon.value);
      if saved.code in coupons then AddOutcome(AlreadyExists, coupons, events)
      else if !delivered then AddOutcome(Failed, coupons[saved.code := saved], events)
      else AddOutcome(CouponAdded, coupons[saved.code := saved], events + [Event(CouponExpired, saved.code, saved.expiresAt)])
  }

  /** The response and the table after a `DELETE` of `?code=...` (None when
      the parameter is missing). Prisma rejects a missing code and a code
      with no row, and the handler returns that as a 400. */
  datatype DeleteOutcome = DeleteOutcome(response: Response, coupons: map<string, Coupon>)

  function DeleteSpec(coupons: map<string, Coupon>, isAdmin: bool, code: Option<string>): DeleteOutcome {
    if !isAdmin then DeleteOutcome(NotAuthorized, coupons)
    else if code.None? || code.value !in coupons then DeleteOutcome(Failed, coupons)
    else DeleteOutcome(CouponDeleted, coupons - {code.value})
  }

  class CouponTable {
    var coupons: map<string, Coupon>
    var events: seq<Event>

    constructor ()
      ensures coupons == map[] && events == []
    {
      coupons, events := map[], [];
    }

    predicate Valid()
      reads this
    {
      UpperKeyed(coupons)
    }

    /** `POST /api/admin/coupon`. */
    method Add(caller: Caller, coupon: Option<Coupon>, delivered: bool) returns (resp: Response)
      modifies this
      ensures AddOutcome(resp, coupons, events) == AddSpec(old(coupons), old(events), IsAdminCaller(caller), coupon, delivered)
      ensures old(Valid()) ==> Valid()
    {
      var isAdmin := IsAdminCaller(caller);
      if !isAdmin {
        return NotAuthorized;
      }
      if coupon.None? {
        return Failed;
      }
      var c := coupon.value;
      c := c.(code := Upper(c.code));
      if c.code in coupons {
        return AlreadyExists;
      }
      coupons := coupons[c.code := c];
      if !delivered {
        return Failed;
      }
      events := events + [Event(CouponExpired, c.code, c.expiresAt)];
      resp := CouponAdded;
    }

    /** `DELETE /api/admin/coupon?code=...`. */
    method Delete(caller: Caller, code: Option<string>) returns (resp: Response)
      modifies this
      ensures DeleteOutcome(resp, coupons) == DeleteSpec(old(coupons), IsAdminCaller(caller), code)
      ensures events == old(events)
      ensures old(Valid()) ==> Valid()
    {
      var isAdmin := IsAdminCaller(caller);
      if !isAdmin {
        return NotAuthorized;
      }
      if code.None? || code.value !in coupons {
        return Failed;
      }
      coupons := coupons - {code.value};
      resp := CouponDeleted;
    }

    /** `GET /api/admin/coupon`: every coupon of the table, to an admin only. */
    method List(caller: Caller) returns (resp: Response)
      ensures IsAdminCaller(caller) ==> resp.CouponList? && resp.coupons == coupons
      ensures !IsAdminCaller(caller) ==> resp == NotAuthorized && Status(resp) == 401
    {
      var isAdmin := IsAdminCaller(caller);
      if !isAdmin {
        return NotAuthorized;
      }
      return CouponList(coupons);
    }
  }

  // ---------------------------------------------------------------------
  // Properties of adding and deleting
  // ---------------------------------------------------------------------

  /** Adding keeps every code upper case and stored under itself. */
  lemma AddKeepsUpperKeyed(coupons: map<string, Coupon>, events: seq<Event>, isAdmin: bool, coupon: Option<Coupon>,
                           delivered: bool)
    requires UpperKeyed(coupons)
    ensures UpperKeyed(AddSpec(coupons, events, isAdmin, coupon, delivered).coupons)
  {
  }

  /** A caller who is not an admin changes nothing and gets 401. */
  lemma NonAdminChangesNothing(coupons: map<string, Coupon>, events: seq<Event>, coupon: Option<Coupon>, delivered: bool,
                               code: Option<string>)
    ensures AddSpec(coupons, events, false, coupon, delivered) == AddOutcome(NotAuthorized, coupons, events)
    ensures DeleteSpec(coupons, false, code) == DeleteOutcome(NotAuthorized, coupons)
    ensures Status(NotAuthorized) == 401
  {
  }

  /** A code that is already taken, in whatever case it is written, is
      refused with "Coupon code already exists" and nothing changes. */
  lemma DuplicateRejected(coupons: map<string, Coupon>, events: seq<Event>, c: Coupon, delivered: bool)
    requires Upper(c.code) in coupons
    ensures AddSpec(coupons, events, true, Some(c), delivered) == AddOutcome(AlreadyExists, coupons, events)
    ensures Status(AlreadyExists) == 400
  {
  }

  /** A successful add inserts exactly the upper-cased coupon under a new
      code, keeps every other row, and emits exactly one expiry event with
      that code and expiry time. */
  lemma AddInsertsExactlyOne(coupons: map<string, Coupon>, events: seq<Event>, c: Coupon)
    requires Upper(c.code) !in coupons
    ensures var o := AddSpec(coupons, events, true, Some(c), true);
      && o.response == CouponAdded
      && o.coupons.Keys == coupons.Keys + {Upper(c.code)}
      && o.coupons[Upper(c.code)] == Normalised(c)
      && (forall k :: k in coupons ==> o.coupons[k] == coupons[k])
      && o.events == events + [Event("app/coupon.expired", Upper(c.code), c.expiresAt)]
  {
  }

  /** Once added, the coupon is what the checkout finds for its code written
      in any case; a new member can use it whatever its eligibility flags. */
  lemma AddedCouponFoundAtCheckout(coupons: map<string, Coupon>, events: seq<Event>, c: Coupon, delivered: bool,
                                   typed: string)
    requires Upper(c.code) !in coupons
    requires typed != "" && Upper(typed) == Upper(c.code)
    ensures var after := AddSpec(coupons, events, true, Some(c), delivered).coupons;
      Orders.CheckCoupon(Some(typed), after, 0, true) == Orders.Apply(Normalised(c))
  {
  }

  /** Deleting with the code the coupon was stored under removes just that
      row: adding and then deleting gives the table back. */
  lemma AddThenDeleteRestores(coupons: map<string, Coupon>, events: seq<Event>, c: Coupon, delivered: bool)
    requires Upper(c.code) !in coupons
    ensures var added := AddSpec(coupons, events, true, Some(c), delivered).coupons;
      DeleteSpec(added, true, Some(Upper(c.code))) == DeleteOutcome(CouponDeleted, coupons)
  {
    var added := AddSpec(coupons, events, true, Some(c), delivered).coupons;
    assert added - {Upper(c.code)} == coupons;
  }

  /** `DELETE` does not upper-case: in a table of upper-case codes, a code
      with a lower-case letter matches nothing and is an error. */
  lemma DeleteIsCaseSensitive(coupons: map<string, Coupon>, code: string)
    requires UpperKeyed(coupons) && !IsUpper(code)
    ensures DeleteSpec(coupons, true, Some(code)) == DeleteOutcome(Failed, coupons)
    ensures Status(Failed) == 400
  {
  }

  /** A delete removes exactly the named row and keeps the table upper-keyed. */
  lemma DeleteRemovesExactlyOne(coupons: map<string, Coupon>, code: string)
    requires code in coupons
    ensures var o := DeleteSpec(coupons, true, Some(code));
      && o.response == CouponDeleted
      && o.coupons.Keys == coupons.Keys - {code}
      && (forall k :: k in o.coupons ==> o.coupons[k] == coupons[k])
      && (UpperKeyed(coupons) ==> UpperKeyed(o.coupons))
  {
  }
}
