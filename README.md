# Claims-to-authorities conversion and guarded order lookup

This project models the hand-written logic of the resource service in a
two-service OAuth2 client-credentials setup. A caller service gets an access
token and calls the resource service. The resource service verifies the JWT
(RFC 7519), turns its claims into granted authorities, and guards its order
endpoints with the role `get-access` (see Assumptions for how that check is
modelled).

Two source files make up the model:

- `AuthorizationConverter` (`authorization_converter.dfy`) models
  `KeycloakJwtAuthorizationConverter.convert`. The claims `scope` and `roles`
  are given as already-extracted optional string lists. `Convert` is the
  imperative method: a list that starts empty and is filled by two loops,
  each string wrapped as an authority on the way.
  It is proved equal to the specification function `Authorities`, whose
  contract states length, order, membership and multiplicity.
- `OrderController` (`order_controller.dfy`) models the resource
  `OrderController`: the fixed three-element order list, `getAllOrders`,
  `getOrderById` with its 1-based lookup in Java `int` arithmetic, and the
  `@PreAuthorize` gate in front of both handlers. `HandleGetAllOrders` and
  `HandleGetOrderById` compose the converter, the gate and the handler into
  one "token claims → allow/deny → response" decision.

`Wrappers` (`wrappers.dfy`) holds the `Option` and `Result` datatypes.

Assumptions:

- The gate `hasRole('get-access')` is modelled as plain membership of the
  string `get-access` among the converted authorities. Spring's role-prefix
  handling is library code and is not part of this model. By default
  `hasRole` looks for `ROLE_get-access`, and the converter adds no prefix.
  So with only the code shown, a token whose role is `get-access` would be
  denied. The gate's "allow" results hold only if configuration outside
  these files sets the role prefix to empty.
- Turning a raw claim into a string list (`getClaimAsStringList`) is library
  code. A claim that is absent arrives here as `None`, Java's `null`.
- Wrapping a claim string as a `SimpleGrantedAuthority` throws when the
  string has no text, that is, when it is empty or every character is Java
  whitespace. `IsWhitespace` models `Character.isWhitespace`, and `HasText`
  models Spring's text check.
- The lookup by id relies on `List.of` with three elements throwing
  `ArrayIndexOutOfBoundsException` for an index outside the list. The JDK's
  list of three or more elements indexes its backing array directly. A one- or
  two-element `List.of` throws a plain `IndexOutOfBoundsException` instead,
  which the handler's catch would not handle.
- The `OrderDto` class is not part of this model. Its three fields (id, name,
  price) are read off the constructor calls in the order list, with the price
  taken as an integer.

Behaviour of the code worth stating:

- The conversion appends to a list, so duplicates are kept (`multiset` in
  `Authorities`, `GrantedTwiceWhenInBothClaims`).
- An absent claim makes the conversion throw rather than count as empty
  (`AbsentRolesClaimFailsRequest`). So does a claim string without text
  (`BlankStringFailsConversion`, `BlankScopeStringFailsRequest`).
- The order list is immutable. In the model it is a `const` value, so no
  handler can change it, and no separate member states that.

## Model

| member | source | states |
|---|---|---|
| AuthorizationConverter.Authorities | resource-service/src/main/java/com/https756/resourceservice/security/KeycloakJwtAuthorizationConverter.java:15-30 | Fails exactly when a claim is absent or holds a string without text. The failure names what the converter meets first, in this order: absent scope, blank scope string, absent roles, blank role string. Otherwise the result has length `|scope| + |roles|`, holds scope[i] at position i and roles[j] at position `|scope| + j`, contains a string iff scope or roles contains it, and holds each string as often as both claims together |
| AuthorizationConverter.Convert | resource-service/src/main/java/com/https756/resourceservice/security/KeycloakJwtAuthorizationConverter.java:16-29 | The two-loop append, which stops at the first string without text, yields exactly `Authorities(scope, roles)`. The loop invariants say the list equals the scope prefix during the first loop, and `scope` plus the roles prefix during the second, with every string added so far having text |
| AuthorizationConverter.GrantedTwiceWhenInBothClaims | resource-service/src/main/java/com/https756/resourceservice/security/KeycloakJwtAuthorizationConverter.java:21-27 | Whenever the conversion succeeds, a string present in both claims occurs at least twice in the authority list: it is a list, not a set |
| AuthorizationConverter.BlankStringFailsConversion | resource-service/src/main/java/com/https756/resourceservice/security/KeycloakJwtAuthorizationConverter.java:21-27 | An empty scope string fails the conversion, blaming the scope, even with a valid roles claim. A whitespace-only role string fails it, blaming the roles |
| OrderController.Sub | resource-service/src/main/java/com/https756/resourceservice/controller/OrderController.java:33 | Java `int` subtraction: the result is congruent to the exact difference modulo 2^32 and equals it when the difference is in range |
| OrderController.GetAllOrders | resource-service/src/main/java/com/https756/resourceservice/controller/OrderController.java:17-27 | Returns OK with the three fixed orders whose ids are 1, 2, 3 in that order |
| OrderController.GetOrderById | resource-service/src/main/java/com/https756/resourceservice/controller/OrderController.java:31-36 | Found iff 1 <= id <= 3, and otherwise not found, never an error. A found order is the list element at id - 1 and its id equals the requested id |
| OrderController.MinValueIsNotFound | resource-service/src/main/java/com/https756/resourceservice/controller/OrderController.java:31-35 | For `Integer.MIN_VALUE`, id - 1 wraps to `Integer.MAX_VALUE`, which is out of range, so the answer is not found |
| OrderController.Authorize | resource-service/src/main/java/com/https756/resourceservice/controller/OrderController.java:24 | The gate allows iff some granted authority equals the required one |
| OrderController.GateOnEmptyAndSingleton | resource-service/src/main/java/com/https756/resourceservice/controller/OrderController.java:30 | No authorities at all is always denied, and the required authority alone is always allowed |
| OrderController.GateOverClaims | resource-service/src/main/java/com/https756/resourceservice/security/KeycloakJwtAuthorizationConverter.java:21-27 | Whenever the conversion succeeds, the gate allows iff the required string is a scope or a role string, with no prefix added |
| OrderController.Guarded | resource-service/src/main/java/com/https756/resourceservice/controller/OrderController.java:23-26 | A failed conversion fails the request. A missing required authority gives 403 without running the handler, and a present one gives the handler's answer unchanged |
| OrderController.HandleGetAllOrders | resource-service/src/main/java/com/https756/resourceservice/controller/OrderController.java:23-27 | GET /orders answers OK iff both claims are present, all their strings have text and `get-access` is among them. The body is then the full order list |
| OrderController.HandleGetOrderById | resource-service/src/main/java/com/https756/resourceservice/controller/OrderController.java:29-36 | GET /orders/{id} answers OK iff both claims are present, all their strings have text, `get-access` is among them and 1 <= id <= 3. The order's id is then the requested id |
| OrderController.EndpointsShareOneGate | resource-service/src/main/java/com/https756/resourceservice/controller/OrderController.java:24-30 | Both endpoints are forbidden for the same claims and fail conversion for the same claims: one requirement guards both |
| OrderController.AbsentRolesClaimFailsRequest | resource-service/src/main/java/com/https756/resourceservice/security/KeycloakJwtAuthorizationConverter.java:19-25 | An absent `roles` claim fails the request even when the scope alone carries `get-access`: it is not treated as empty |
| OrderController.BlankScopeStringFailsRequest | resource-service/src/main/java/com/https756/resourceservice/security/KeycloakJwtAuthorizationConverter.java:21-23 | An empty scope string fails the request even when the roles carry `get-access` |
| OrderController.ReadScopeWithGetAccessRole | resource-service/src/main/java/com/https756/resourceservice/controller/OrderController.java:24-26 | A token with scope `["read"]` and roles `["get-access"]` gets the order list, and the same authorities are denied against a requirement `admin` |

## Left out

- Client-side token acquisition, caching, refresh and bearer attachment are framework code driven by configuration. That code is not visible, and it involves network I/O and concurrency.
- JWT signature, issuer and expiry checks and the fetching of signing keys are delegated to the Nimbus decoder. That is foreign cryptographic and network code.
- The client-side order controller only shapes a response envelope around a remote call: a null body becomes `""` and a constant status string is added.
- Spring's `hasRole` prefix handling and its claim-to-list conversion are library behaviour. The model takes both as stated under Assumptions.
- HTTP status codes and `ResponseEntity` headers are not modelled beyond OK, not found, forbidden and conversion failure. The status Spring gives to an exception thrown during conversion is not modelled.
- Parsing the `{id}` path variable into an `int` happens in the framework. The model starts from an `Int32`.
