/**
 * The resource service's order endpoints, GET /orders and GET /orders/{id},
 * together with the authority check that guards both of them.
 *
 * The orders are a fixed immutable list built once. The lookup by id treats
 * the id as a 1-based position in that list and turns an out-of-range
 * position into "not found". The position is computed in Java `int`
 * arithmetic, so it is modelled with 32-bit two's-complement wrap-around.
 * Both endpoints require the authority "get-access"; the check is modelled as
 * membership of that string in the authorities the converter produced.
 */
module OrderController {
  import opened Wrappers
  import opened AuthorizationConverter

  /** Java's 32-bit signed `int`. */
  newtype Int32 = x: int | -0x8000_0000 <= x < 0x8000_0000

  const MinInt32: Int32 := -0x8000_0000
  const MaxInt32: Int32 := 0x7fff_ffff

  /** Java's `a - b` on `int`: the exact difference, wrapped into the 32-bit range. */
  function Sub(a: Int32, b: Int32): (r: Int32)
    ensures (r as int - (a as int - b as int)) % 0x1_0000_0000 == 0
    ensures MinInt32 as int <= a as int - b as int <= MaxInt32 as int ==> r as int == a as int - b as int
  {
    var d := a as int - b as int;
    if d < MinInt32 as int then (d + 0x1_0000_0000) as Int32
    else if d > MaxInt32 as int then (d - 0x1_0000_0000) as Int32
    else d as Int32
  }

  /** An order record: its id, product name and price. */
  datatype OrderDto = OrderDto(id: int, name: string, price: int)

  /** The controller's fixed order list; position k holds the order with id k + 1. */
  const OrderDtoList: seq<OrderDto> := [
    OrderDto(1, "MacBook Pro M3", 2500),
    OrderDto(2, "Dell XPS-15", 2300),
    OrderDto(3, "Lenovo ThinkPad X1-Carbon", 2000)
  ]

  /** What a handler answers: the body, a 404, a 403 from the gate, or the failure of claim conversion. */
  datatype Response<T> = Ok(body: T) | NotFound | Forbidden | ConversionFailed(error: ConversionError)

  /** GET /orders without its gate: the whole fixed list. */
  function GetAllOrders(): (r: Response<seq<OrderDto>>)
    ensures r.Ok? && |r.body| == 3
    ensures forall k :: 0 <= k < |r.body| ==> r.body[k].id == k + 1
  {
    Ok(OrderDtoList)
  }

  /**
   * GET /orders/{id} without its gate: the element at position id - 1 (Java
   * `int` subtraction), or not found when that position is outside the list.
   */
  function GetOrderById(id: Int32): (r: Response<OrderDto>)
    ensures r.Ok? || r.NotFound?
    ensures r.Ok? <==> 1 <= id <= 3
    ensures r.Ok? ==> r.body == OrderDtoList[id - 1] && r.body.id == id as int
  {
    var index := Sub(id, 1);
    if 0 <= index as int < |OrderDtoList| then Ok(OrderDtoList[index]) else NotFound
  }

  /** The decision of the gate in front of a handler. */
  datatype Decision = Allow | Deny

  /** The single authority both endpoints require. */
  const RequiredAuthority: string := "get-access"

  /**
   * The gate: allow exactly when the required authority is among those granted.
   * What it decides for whole requests is stated by GateOnEmptyAndSingleton,
   * GateOverClaims and the contracts of the two endpoint handlers below.
   */
  function Authorize(authorities: seq<string>, required: string): (d: Decision)
    ensures d == Allow <==> exists k :: 0 <= k < |authorities| && authorities[k] == required
  {
    if required in authorities then Allow else Deny
  }

  /**
   * One guarded request: convert the claims, deny unless the required
   * authority was granted, and only then run the handler. EndpointsShareOneGate
   * states that both endpoints answer to the same gate.
   */
  function Guarded<T>(authorities: Result<seq<string>, ConversionError>, handler: Response<T>): (r: Response<T>)
    ensures authorities.Failure? ==> r == ConversionFailed(authorities.error)
    ensures authorities.Success? && RequiredAuthority !in authorities.value ==> r.Forbidden?
    ensures authorities.Success? && RequiredAuthority in authorities.value ==> r == handler
  {
    match authorities
    case Failure(e) => ConversionFailed(e)
    case Success(granted) =>
      if Authorize(granted, RequiredAuthority) == Allow then handler else Forbidden
  }

  /** GET /orders for a token with the given claims. */
  function HandleGetAllOrders(scope: Option<seq<string>>, roles: Option<seq<string>>): (r: Response<seq<OrderDto>>)
    ensures r.Ok? <==> scope.Some? && roles.Some? && AllHaveText(scope.value) && AllHaveText(roles.value) &&
                       (RequiredAuthority in scope.value || RequiredAuthority in roles.value)
    ensures r.Ok? ==> r.body == OrderDtoList
  {
    Guarded(Authorities(scope, roles), GetAllOrders())
  }

  /** GET /orders/{id} for a token with the given claims. */
  function HandleGetOrderById(scope: Option<seq<string>>, roles: Option<seq<string>>, id: Int32): (r: Response<OrderDto>)
    ensures r.Ok? <==> scope.Some? && roles.Some? && AllHaveText(scope.value) && AllHaveText(roles.value) &&
                       (RequiredAuthority in scope.value || RequiredAuthority in roles.value) && 1 <= id <= 3
    ensures r.Ok? ==> r.body.id == id as int
  {
    Guarded(Authorities(scope, roles), GetOrderById(id))
  }

  /** Integer.MIN_VALUE - 1 wraps to Integer.MAX_VALUE, which is out of range, so the lookup is not found. */
  lemma MinValueIsNotFound()
    ensures Sub(MinInt32, 1) == MaxInt32
    ensures GetOrderById(MinInt32) == NotFound
  {
  }

  /** Both endpoints answer the same for the same claims: allowed, forbidden, or failed alike. */
  lemma EndpointsShareOneGate(scope: Option<seq<string>>, roles: Option<seq<string>>, id: Int32)
    ensures HandleGetAllOrders(scope, roles).Forbidden? <==> HandleGetOrderById(scope, roles, id).Forbidden?
    ensures HandleGetAllOrders(scope, roles).ConversionFailed? <==> HandleGetOrderById(scope, roles, id).ConversionFailed?
  {
  }

  /** No authorities at all: always denied. The required authority alone: always allowed. */
  lemma GateOnEmptyAndSingleton(required: string)
    ensures Authorize([], required) == Deny
    ensures Authorize([required], required) == Allow
  {
  }

  /** Gate and converter together: a required authority is allowed iff some scope or role string equals it. */
  lemma GateOverClaims(scope: seq<string>, roles: seq<string>, required: string)
    ensures Authorities(Some(scope), Some(roles)).Success? ==>
              (Authorize(Authorities(Some(scope), Some(roles)).value, required) == Allow <==> required in scope || required in roles)
  {
  }

  /** An absent "roles" claim fails the request even when the scope alone carries the required authority. */
  lemma AbsentRolesClaimFailsRequest()
    ensures HandleGetAllOrders(Some([RequiredAuthority]), None) == ConversionFailed(NullClaim(RolesClaim))
  {
    assert HasText([RequiredAuthority][0]) by { assert !IsWhitespace(RequiredAuthority[0]); }
  }

  /** A blank scope string fails the request even when the roles carry the required authority. */
  lemma BlankScopeStringFailsRequest()
    ensures HandleGetAllOrders(Some([""]), Some([RequiredAuthority])) == ConversionFailed(BlankAuthority(ScopeClaim))
  {
    BlankStringFailsConversion();
  }

  /** A token with scope ["read"] and roles ["get-access"] passes the gate; against "admin" it would not. */
  lemma ReadScopeWithGetAccessRole()
    ensures HandleGetAllOrders(Some(["read"]), Some(["get-access"])) == Ok(OrderDtoList)
    ensures Authorize(Authorities(Some(["read"]), Some(["get-access"])).value, "admin") == Deny
  {
    assert HasText(["read"][0]) by { assert !IsWhitespace("read"[0]); }
    assert HasText(["get-access"][0]) by { assert !IsWhitespace("get-access"[0]); }
  }
}
