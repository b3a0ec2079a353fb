# Supply-chain management: inventory ledger, orders and access decisions in Dafny

This project models the core of a Java EE supply-chain web application. The application keeps a product
catalogue with one stock record per product and a log of stock movements. It takes customer orders and
fulfils them from stock. It places supplier orders and books their receipts. It validates products,
suppliers, users, orders and order lines. It decides which requests a signed-in user may make. The model
has four layers.

- **The store** (`store.dfy`, `ledger.dfy`). The database behind the DAOs is the class `Store.Store`.
  It holds maps from ids to value rows: products, stock records, orders, suppliers, supplier orders,
  users and supplier-product links. It also holds the order-line tables and the stock-movement log as
  sequences.
  - Every `@Transactional` service method is one Dafny method over the store.
  - The transaction interceptor rolls back on any exception. So a method that fails leaves the store
    as it was, and the model never writes before its last check.
  - The ledger invariant lives in `Ledger.Consistent`. For every product, the stored quantity equals
    the sum of that product's stored movement quantities, and it is never negative.
- **The services** (`stock_service.dfy`, `order_service.dfy`, `product_service.dfy`,
  `supplier_service.dfy`, `user_service.dfy`, `dashboard_service.dfy`, `dashboard_reports.dfy`).
  - They cover the stock write path and the all-or-nothing fulfilment of a customer order.
  - They cover the replenishment path for supplier orders and the order status table.
  - They cover PENDING-only line editing with merging of repeated products, and the recomputed order
    total.
  - They cover the validators, which build error maps field by field, and the dashboard statistics
    and CSV reports.
  - The service layer uses the six order statuses PENDING, PAID, PROCESSING, SHIPPED, DELIVERED and
    CANCELLED (`Store.OrderStatus`). The entity's own five lowercase constants appear only where the
    entity enum is looked up by name.
- **The entities** (`entities.dfy`, `movement_types.dfy`, `money.dfy`). These are the JPA objects as
  Dafny classes with their own fields, back-references and helper methods:
  - the line and order totals, and the supplier cost lookup;
  - the profit margin, and the `equals`/`hashCode` pairs;
  - `List.remove`, which removes the first element the class's `equals` accepts;
  - the movement type enum with its `value` spelling.

  Money is an integer number of cents. BigDecimal's HALF_UP division is `Money.HalfUp`.
- **Security and utilities**:
  - the role-to-permission table of the session principal (`user_principal.dfy`);
  - the JSP security tag (`security_tag.dfy`);
  - the authentication and CSRF filters (`authentication_filter.dfy`, `csrf_filter.dfy`);
  - the password policy and hash format (`password_utils.dfy`) and the email pattern (`validators.dfy`);
  - the validation exception's error map (`validation_exception.dfy`);
  - the upload helpers (`file_upload.dfy`) and the SQL script splitter of the database initializer
    (`database_initializer.dfy`).

  The Java string operations they rely on are defined once in `java_text.dfy`: `trim`, `split` with
  its dropping of trailing empty strings, `indexOf`, `toUpperCase` and decimal rendering.

Clocks, random salts, UUIDs, the SHA-256 digest, the Base64 codec and `toString` renderings are
parameters of the operations that use them.

The entities' `equals` predicates are modelled as written and used by the members below:
- `CustomerOrder.Equals` compares ids only.
- `Stock.Equals` compares ids or products.
- `OrderItem.Equals` compares ids, or order and product.
- `SupplierProduct.Equals` compares supplier and product.
- `Product.Equals` compares ids, or non-null SKUs.

The same holds for the `IsDelivered`, `IsOverdue`, `IsBelowReorderLevel` and `MovementTypes.IsIncoming`
predicates.

## Model

| member | source | states |
|---|---|---|
| JavaText.StartsWithContains | src/main/java/com/scm/security/filter/AuthenticationFilter.java:153 | a string that starts with `t` contains `t` |
| JavaText.TrimLeading | src/main/java/com/scm/security/tag/SecurityTag.java:52 | the leading cut of `String.trim`: a suffix, everything cut is at most U+0020, the rest starts with a kept character |
| JavaText.TrimTrailing | src/main/java/com/scm/security/tag/SecurityTag.java:52 | the trailing cut of `String.trim`, symmetrically |
| JavaText.Trim | src/main/java/com/scm/security/tag/SecurityTag.java:52 | `String.trim`: an infix of the input, everything around it trimmable, and it neither starts nor ends with a trimmable character |
| JavaText.IndexOf | src/main/java/com/scm/util/FileUploadUtil.java:160 | `indexOf(char)`: -1 exactly when the character is absent, otherwise the position of its first occurrence |
| JavaText.IndexOfIsFirst | src/main/java/com/scm/util/FileUploadUtil.java:160 | the first occurrence is what `indexOf` answers |
| JavaText.LastIndexOf | src/main/java/com/scm/util/FileUploadUtil.java:140 | `lastIndexOf(char)`: -1 exactly when absent, otherwise the last occurrence |
| JavaText.RemoveAll | src/main/java/com/scm/util/FileUploadUtil.java:160 | `replace("\"", "")`: no quote is left, every other character keeps its count, and a string without quotes is unchanged |
| JavaText.UpperAscii | src/main/java/com/scm/service/impl/DashboardServiceImpl.java:500 | `toUpperCase` on ASCII letters: same length, `a`-`z` raised, everything else kept |
| JavaText.Pieces | src/main/java/com/scm/service/util/PasswordUtils.java:52 | cutting at every delimiter gives at least one piece and no piece holds the delimiter |
| JavaText.JoinPieces | src/main/java/com/scm/service/util/PasswordUtils.java:52 | joining the pieces back with the delimiter gives the original string |
| JavaText.PiecesJoin | src/main/java/com/scm/service/util/PasswordUtils.java:52 | cutting a join of delimiter-free parts gives the parts back |
| JavaText.DropTrailingEmpty | src/main/java/com/scm/service/util/PasswordUtils.java:52 | a prefix of the pieces, ending in a non-empty piece, with only empty pieces dropped |
| JavaText.Split | src/main/java/com/scm/service/util/PasswordUtils.java:52 | `String.split` on one character: the whole string when the delimiter is absent, otherwise the pieces less the trailing empty ones; no result holds the delimiter |
| JavaText.SplitRejoin | src/main/java/com/scm/service/util/PasswordUtils.java:52 | the string is the join of its split plus the dropped run of trailing delimiters |
| JavaText.SplitJoin | src/main/java/com/scm/service/util/PasswordUtils.java:52 | splitting a join of delimiter-free parts, last one non-empty, followed by any number of delimiters, gives the parts back |
| JavaText.DecimalString | src/main/java/com/scm/service/impl/StockServiceImpl.java:327 | an `int` as string concatenation renders it: non-empty, digits only when non-negative, a leading `-` when negative |
| JavaText.DecimalStringValue | src/main/java/com/scm/service/impl/StockServiceImpl.java:327 | the digits of a non-negative number read back as that number |
| Money.HalfUp | src/main/java/com/scm/service/impl/DashboardServiceImpl.java:95 | `divide(…, RoundingMode.HALF_UP)` at scale 0 of the minor unit: the nearest multiple, ties away from zero, with the sign of the dividend |
| Money.RoundHalfUpNonNegative | src/main/java/com/scm/model/SupplierProduct.java:120 | the same rounding for a non-negative dividend: non-negative and within half a step |
| AuthenticationFilter.GetRequestPath | src/main/java/com/scm/security/filter/AuthenticationFilter.java:99-108 | the path is the URI less the context path's length; with no context path it is the URI itself, and a URI under the context path is the context path followed by it |
| AuthenticationFilter.IsPublicPath | src/main/java/com/scm/security/filter/AuthenticationFilter.java:116-124 | true exactly when some public entry is a prefix of the path |
| AuthenticationFilter.IsAuthorized | src/main/java/com/scm/security/filter/AuthenticationFilter.java:133-166 | a missing principal is refused; otherwise the answer is exactly the path rules over the principal's role and permission sets |
| AuthenticationFilter.RolePathsUnreachable | src/main/java/com/scm/security/filter/AuthenticationFilter.java:138-150 | no principal built from a user passes an admin or manager prefix, whatever its role, because the rules ask for "ADMIN"/"MANAGER" and roles are lowercase |
| AuthenticationFilter.ResourceRules | src/main/java/com/scm/security/filter/AuthenticationFilter.java:152-165 | off those prefixes, an admin passes everything, a manager everything but product deletion, a user neither product deletion nor supplier or order editing |
| AuthenticationFilter.DoFilter | src/main/java/com/scm/security/filter/AuthenticationFilter.java:51-86 | public paths pass; an inactive session is redirected to the login page with the path; an unauthorized principal to the access-denied page; everything else passes |
| CsrfFilter.IsCsrfExemptPath | src/main/java/com/scm/security/filter/CsrfFilter.java:105-113 | true exactly when some exempt entry is a prefix of the path |
| CsrfFilter.RequestToken | src/main/java/com/scm/security/filter/CsrfFilter.java:121-129 | the `_csrf` parameter when present and non-empty, the `X-CSRF-TOKEN` header otherwise |
| CsrfFilter.TokenMatches | src/main/java/com/scm/security/util/SessionManager.java:162-169 | the check passes exactly when there is a session token and the request token equals it; a missing token on either side fails |
| CsrfFilter.DoFilter | src/main/java/com/scm/security/filter/CsrfFilter.java:48-75 | the request is stopped exactly when its method is POST, PUT, DELETE or PATCH, its path is not exempt and the token does not match the session's; a stop is a 403 with the fixed message |
| CsrfFilter.TokenSources | src/main/java/com/scm/security/util/SessionManager.java:162-169 | which token is compared with the session token, and that no session token means refusal |
| CsrfFilter.UncheckedRequests | src/main/java/com/scm/security/filter/CsrfFilter.java:32-37 | an example of the constants: GET is not a protected method, and login and logout paths are exempt |
| SecurityTag.EvaluateAccess | src/main/java/com/scm/security/tag/SecurityTag.java:34-66 | no principal means no access; otherwise the first non-empty criterion (single role, role list, permission) decides, and none means no access |
| SecurityTag.HasListedRole | src/main/java/com/scm/security/tag/SecurityTag.java:50-56 | true exactly when some trimmed entry of the comma-split list is one of the principal's roles |
| SecurityTag.DoStartTag | src/main/java/com/scm/security/tag/SecurityTag.java:22-27 | the body is included exactly when access is allowed, skipped otherwise |
| SecurityTag.RoleCriterionFirst | src/main/java/com/scm/security/tag/SecurityTag.java:43-45 | a non-empty single role hides the other two criteria; no criterion at all refuses |
| SecurityTag.RoleNamesAreLowercase | src/main/java/com/scm/security/model/UserPrincipal.java:43 | for a principal built from a user the single-role check passes exactly on the lowercase role name, so "ADMIN" never passes |
| SecurityTag.RoleListTrimsEntries | src/main/java/com/scm/security/tag/SecurityTag.java:50-52 | the list "user, admin" grants an admin, because the entry " admin" is trimmed |
| Principals.RoleName | src/main/java/com/scm/security/model/UserPrincipal.java:43 | `Role.name()` is one of the lowercase constant names, never "ADMIN" or "MANAGER" |
| Principals.CalculatePermissions | src/main/java/com/scm/security/model/UserPrincipal.java:57-116 | every role gets the two profile permissions, plus its own table |
| Principals.PermissionsNested | src/main/java/com/scm/security/model/UserPrincipal.java:64-113 | user ⊂ manager ⊂ admin, strictly, and a user gets exactly five permissions |
| Principals.OnlyAdminGetsAdminPermissions | src/main/java/com/scm/security/model/UserPrincipal.java:64-89 | only the admin role gets user:*, settings:* or *:delete permissions, and it does get them |
| Principals.UserPrincipal.From | src/main/java/com/scm/security/model/UserPrincipal.java:35-49 | identity copied, full name falls back to the username, one role (the role's name), the role's permissions, activity stamped now |
| Principals.UserPrincipal.HasRole | src/main/java/com/scm/security/model/UserPrincipal.java:124-126 | true exactly when the role is one of the held roles (`Set.contains`) |
| Principals.UserPrincipal.HasPermission | src/main/java/com/scm/security/model/UserPrincipal.java:134-136 | true exactly when the permission is one of the held permissions |
| Principals.UserPrincipal.HasAnyRole | src/main/java/com/scm/security/model/UserPrincipal.java:144-151 | true exactly when some argument is one of the roles |
| Principals.UserPrincipal.UpdateLastActivity | src/main/java/com/scm/security/model/UserPrincipal.java:156-158 | the activity time becomes now and nothing else changes |
| Principals.UserPrincipal.GetRoles | src/main/java/com/scm/security/model/UserPrincipal.java:194-196 | the returned set has exactly the roles `hasRole` accepts |
| Principals.UserPrincipal.GetPermissions | src/main/java/com/scm/security/model/UserPrincipal.java:202-204 | the returned set has exactly the permissions `hasPermission` accepts |
| Principals.UserPrincipal.SetRoles | src/main/java/com/scm/security/model/UserPrincipal.java:198-200 | the roles become the given set (a copy); the permissions, the last activity, the session id and the identity fields (id, username, email, full name) stay |
| Principals.UserPrincipal.SetPermissions | src/main/java/com/scm/security/model/UserPrincipal.java:206-208 | the permissions become the given set (a copy); the roles, the last activity, the session id and the identity fields (id, username, email, full name) stay |
| PasswordUtils.IsValidPassword | src/main/java/com/scm/service/util/PasswordUtils.java:80-84 | accepts exactly a non-null password of at least 8 characters with an ASCII letter, a digit 0-9 and no line terminator (which the patterns' `.` does not match) |
| PasswordUtils.PolicyExamples | src/main/java/com/scm/service/util/PasswordUtils.java:80-84 | "password1" passes; no letter, no digit, fewer than 8 characters, a line break or null fail |
| PasswordUtils.HashPassword | src/main/java/com/scm/service/util/PasswordUtils.java:28-41 | the stored form is the encoded salt, ':' and the encoded digest of salt and password |
| PasswordUtils.VerifyPassword | src/main/java/com/scm/service/util/PasswordUtils.java:50-64 | split at ':' must give two pieces, the first must decode and the encoded digest must equal the second; an accepted hash always holds a ':' |
| PasswordUtils.VerifyIff | src/main/java/com/scm/service/util/PasswordUtils.java:50-64 | verification accepts exactly a decodable salt, ':', the matching non-empty digest, then any run of ':' |
| PasswordUtils.VerifyOwnHash | src/main/java/com/scm/service/util/PasswordUtils.java:28-64 | a password verifies against its own hash when the codec inverts on the salt and never writes ':' |
| ValidationErrors.ValidationException.constructor | src/main/java/com/scm/service/exception/ValidationException.java:20-22 | the message is kept and the error map starts empty, so `hasErrors` is false |
| ValidationErrors.ValidationException.WithErrors | src/main/java/com/scm/service/exception/ValidationException.java:30-35 | a given map is copied, a null one becomes empty; `hasErrors` exactly when the given map is non-null and non-empty |
| ValidationErrors.ValidationException.AddValidationError | src/main/java/com/scm/service/exception/ValidationException.java:44-47 | the field's message is put (replacing an earlier one), no other key appears or goes, and the same exception is returned |
| ValidationErrors.ValidationException.GetValidationErrors | src/main/java/com/scm/service/exception/ValidationException.java:54-56 | a copy with the same keys and messages |
| ValidationErrors.ValidationException.HasErrors | src/main/java/com/scm/service/exception/ValidationException.java:63-65 | true exactly when some field has a message |
| ValidationErrors.ValidationException.AsFailure | src/main/java/com/scm/service/exception/ValidationException.java:14-35 | the exception as the validation failure the services return: its message and a copy of its errors |
| Validators.IsValidEmail | src/main/java/com/scm/service/impl/UserServiceImpl.java:265 | accepts exactly the strings the pattern `^[A-Za-z0-9+_.-]+@(.+)$` matches with its '@' at some position |
| Validators.IsValidEmailIff | src/main/java/com/scm/service/impl/UserServiceImpl.java:265 | testing the first '@' alone decides the pattern: since '@' is not an allowed local character, a match at some '@' is a match at the first one |
| Validators.EmailExamples | src/main/java/com/scm/service/impl/OrderServiceImpl.java:558 | "a@b" and "a@b@c" match; "@b", "a@" and "a b@c" do not |
| MovementTypes.Name | src/main/java/com/scm/model/StockMovement.java:31-32 | `name()` of each constant is read back by `valueOf` |
| MovementTypes.ValueOf | src/main/java/com/scm/model/StockMovement.java:31-32 | `Enum.valueOf`: a constant exactly for the eight declared names, case-sensitive; None where Java throws |
| MovementTypes.ValueOfIsName | src/main/java/com/scm/model/StockMovement.java:31-32 | the constant found has the looked-up string as its name |
| MovementTypes.Value | src/main/java/com/scm/model/StockMovement.java:35-37 | `getValue` is read back by `fromValue`, and differs from `name()` only for `return_item` |
| MovementTypes.FromValue | src/main/java/com/scm/model/StockMovement.java:40-45 | `fromValue` fails (the exception `valueOf` throws) exactly on null and on a value that is neither "return" nor a constant's name |
| MovementTypes.FromValueTwoSpellings | src/main/java/com/scm/model/StockMovement.java:35-45 | both "return" and "return_item" read as `return_item`, which writes as "return" |
| MovementTypes.JavaAbs | src/main/java/com/scm/model/StockMovement.java:176-178 | `Math.abs` on an `int`: the magnitude, except that `Integer.MIN_VALUE` is its own absolute value |
| MovementTypes.StockChange | src/main/java/com/scm/model/StockMovement.java:174-180 | `getStockChange`: the magnitude of the quantity for purchases and returns, its negation for every other type |
| MovementTypes.StockChangeAgreesIff | src/main/java/com/scm/model/StockMovement.java:165-180 | the stock change equals the stored quantity exactly when the sign matches the direction `isIncoming` gives the type |
| MovementTypes.StockChangeContradictsReceipt | src/main/java/com/scm/model/StockMovement.java:165-180 | a SUPPLIER_ORDER receipt of 5 counts as -5 and an ADJUSTMENT of +10 as -10 |
| MovementTypes.StockChangeAtMinValue | src/main/java/com/scm/model/StockMovement.java:174-180 | a purchase of `Integer.MIN_VALUE` counts as a negative change |
| Store.OrderLines | src/main/java/com/scm/dao/impl/OrderItemDaoImpl.java:23-29 | `findByOrderId`: only rows of the table, only rows of that order, and every row of that order |
| Store.SupplierLines | src/main/java/com/scm/dao/impl/SupplierOrderItemDaoImpl.java:22-29 | `findBySupplierOrderId`: the same three properties for supplier order lines |
| Store.LineIndex | src/main/java/com/scm/dao/impl/OrderItemDaoImpl.java:49-57 | `findByOrderIdAndProductId`: -1 exactly when no line has that order and product, otherwise the position of one that does |
| Store.ItemIndex | src/main/java/com/scm/dao/impl/AbstractJpaDao.java:71-74 | `findById` on order items: -1 exactly when the id is absent, otherwise the position of the row with that id |
| Store.LineIndexInLines | src/main/java/com/scm/dao/impl/OrderItemDaoImpl.java:23-57 | the pair lookup finds a line exactly when the product is among the products of the order's lines |
| Store.AppendItemWellFormed | src/main/java/com/scm/service/impl/OrderServiceImpl.java:196-251 | inserting a line with a new id, an existing order and product, and no line yet for that pair keeps the item table well formed |
| Store.ReplaceItemWellFormed | src/main/java/com/scm/service/impl/OrderServiceImpl.java:255-295 | replacing a line by one with the same id and a pair no other line has keeps it well formed |
| Store.RemoveItemWellFormed | src/main/java/com/scm/service/impl/OrderServiceImpl.java:299-334 | deleting a line keeps it well formed |
| Store.OrderLinesDistinct | src/main/java/com/scm/service/impl/OrderServiceImpl.java:227-239 | in a well-formed item table the lines of one order name distinct products, because adding a product already on the order merges into its line |
| Store.Store.UpdateQuantity | src/main/java/com/scm/dao/impl/StockDaoImpl.java:60-71 | `StockDaoImpl.updateQuantity`: no stock row means an empty answer and no change; otherwise the quantity moves by the change with no lower bound and no movement, and the new row is returned |
| Ledger.WithStock | src/main/java/com/scm/service/impl/StockServiceImpl.java:119-131 | find or create the Stock: an existing row is kept as it is, a missing one starts at 0, and no other product is touched |
| Ledger.SeedKeepsConsistent | src/main/java/com/scm/service/impl/StockServiceImpl.java:119-131 | creating a zero Stock keeps the ledger invariant (each quantity is the sum of its product's movements and is not negative) |
| Ledger.Record | src/main/java/com/scm/service/impl/StockServiceImpl.java:97-161 | `updateStockQuantity`: refused exactly when the new quantity would be negative, and then nothing is stored; otherwise the product's quantity moves by the change, stamped now, exactly one movement recording the change is appended, and no other product changes |
| Ledger.RecordKeepsConsistent | src/main/java/com/scm/service/impl/StockServiceImpl.java:133-155 | one call of the write path keeps the ledger invariant, applied or refused |
| Ledger.ReplayKeepsConsistent | src/main/java/com/scm/service/impl/StockServiceImpl.java:97-161 | after any sequence of write-path calls from a consistent ledger, every quantity is the sum of its product's movements and is not negative |
| Ledger.RecordEach | src/main/java/com/scm/service/impl/StockServiceImpl.java:311-320 | the per-line calls inside one transaction: a refusal on any line leaves both tables as they were |
| Ledger.PerLineCheckSuffices | src/main/java/com/scm/service/impl/StockServiceImpl.java:301-320 | with distinct products, once every line passes the availability check, every call applies, each line's product drops by its quantity, one movement per line is logged and no other product changes |
| Ledger.RepeatedProductDefeatsCheck | src/main/java/com/scm/service/impl/StockServiceImpl.java:301-320 | two lines for the same product each pass the check against a stock of 1, yet the commit is refused |
| Ledger.ReceiptsAlwaysApply | src/main/java/com/scm/service/impl/StockServiceImpl.java:370-379 | receipts with non-negative quantities on non-negative stocks always apply and log one movement per line |
| Ledger.RecordEachKeepsConsistent | src/main/java/com/scm/service/impl/StockServiceImpl.java:311-320 | a whole order's calls keep the ledger invariant |
| Ledger.AdjustWithoutMovement | src/main/java/com/scm/model/Stock.java:97-100 | the direct quantity change: the product moves by the change and nothing else changes |
| Ledger.AdjustWithoutMovementBreaksLedger | src/main/java/com/scm/dao/impl/StockDaoImpl.java:60-71 | from a consistent ledger, a direct change of -5 or +5 leaves an inconsistent one (a negative quantity, a sum that does not match) |
| Ledger.AdjustWithoutMovementNeverConsistent | src/main/java/com/scm/model/Stock.java:97-100 | any non-zero direct change breaks a consistent ledger |
| StockService.CustomerOrderNote | src/main/java/com/scm/service/impl/StockServiceImpl.java:317 | the movement note of a customer order starts "Customer order #" |
| StockService.SupplierOrderNote | src/main/java/com/scm/service/impl/StockServiceImpl.java:379 | the note of a receipt starts "Supplier order #" and ends " from " and the supplier's name |
| StockService.UpdateStockQuantity | src/main/java/com/scm/service/impl/StockServiceImpl.java:97-161 | succeeds exactly when product id and type are given, the product exists and the new quantity is not negative; a null argument is a validation error; a failure changes nothing; a success stores exactly the ledger step and returns the new Stock |
| StockService.NewestMovementIndex | src/main/java/com/scm/dao/impl/StockMovementDaoImpl.java:24-31 | -1 exactly when the product has no movement; otherwise a movement of the product with no later-dated one, and none dated the same before it |
| StockService.CreateStockAdjustment | src/main/java/com/scm/service/impl/StockServiceImpl.java:238-280 | a null product or empty notes is a validation error; succeeds exactly when the product exists and the quantity keeps the stock non-negative, and then logs one ADJUSTMENT movement of the given quantity; it returns the product's newest movement, which is the one just logged when every earlier movement of the product is older |
| StockService.FirstShortLine | src/main/java/com/scm/service/impl/StockServiceImpl.java:302-308 | the availability loop stops at the first line whose product has no Stock or too little; all earlier lines are covered, and it runs to the end exactly when every line is |
| StockService.CommitLines | src/main/java/com/scm/service/impl/StockServiceImpl.java:311-320 | the per-line write-path calls with their rollback: the tables end as the ledger's transaction function says, and the call fails exactly when that function refuses |
| StockService.ProcessStockForCustomerOrder | src/main/java/com/scm/service/impl/StockServiceImpl.java:284-342 | succeeds (with true) exactly when the order exists, is PENDING, has lines and every line is covered; then each line's product drops by its quantity, one CUSTOMER_ORDER movement per line is logged and the order becomes PROCESSING; a failure stores nothing |
| StockService.CommitCustomerOrder | src/main/java/com/scm/service/impl/StockServiceImpl.java:311-326 | the write half: the tables end as the transaction function gives them and only the order's status changes, to PROCESSING |
| StockService.CustomerOrderApplies | src/main/java/com/scm/service/impl/StockServiceImpl.java:301-320 | for an order whose lines all pass the check, the commit never meets a refusal and every line names a known product |
| StockService.CustomerOrderCommitEffect | src/main/java/com/scm/service/impl/StockServiceImpl.java:301-326 | the commit logs exactly one movement of `-quantity` per line, takes each line's quantity from its product, and leaves every other product as it was |
| StockService.ProcessStockForSupplierOrder | src/main/java/com/scm/service/impl/StockServiceImpl.java:346-394 | succeeds (with true) exactly when the supplier order exists, is RECEIVED and has lines, and the receipt applies; then every line's quantity is added with a SUPPLIER_ORDER movement and the order becomes COMPLETED; a failure stores nothing |
| StockService.CommitSupplierOrder | src/main/java/com/scm/service/impl/StockServiceImpl.java:370-388 | the write half of the receipt: it succeeds exactly when the receipt applies, and stores its tables and the COMPLETED status |
| StockService.ReceiptNeverRefused | src/main/java/com/scm/service/impl/StockServiceImpl.java:370-379 | with non-negative stocks and line quantities a receipt always applies and logs one movement of `+quantity` per line |
| StockService.CheckSufficientStockForOrder | src/main/java/com/scm/service/impl/StockServiceImpl.java:397-431 | a null or unknown order is an error; otherwise the answer is whether every line is covered, and an order without lines answers true |
| StockService.ProductsNeedingReorder | src/main/java/com/scm/service/impl/StockServiceImpl.java:434-444 | exactly the products with a Stock at or below their reorder level, with their Stock rows |
| OrderService.TransitionError | src/main/java/com/scm/service/impl/OrderServiceImpl.java:647-676 | no error exactly when the target is a legal successor; DELIVERED and CANCELLED give "Cannot change status from …", every other refusal "Invalid status transition from … to …" |
| OrderService.TransitionsAdvance | src/main/java/com/scm/service/impl/OrderServiceImpl.java:647-676 | every legal transition moves strictly forward in the order PENDING, PAID, PROCESSING, SHIPPED, DELIVERED/CANCELLED |
| OrderService.RunAdvances | src/main/java/com/scm/service/impl/OrderServiceImpl.java:647-676 | along a run of legal transitions the rank grows by at least one per step |
| OrderService.LegalRunIsShort | src/main/java/com/scm/service/impl/OrderServiceImpl.java:647-676 | a run of legal transitions never revisits a status and has at most six states |
| OrderService.ProcessingWithoutStock | src/main/java/com/scm/service/impl/OrderServiceImpl.java:650-661 | PENDING→PROCESSING and PAID→PROCESSING are legal status changes, though neither commits stock |
| OrderService.OrderErrors | src/main/java/com/scm/service/impl/OrderServiceImpl.java:545-565 | a name error exactly when the name is empty; an email error exactly when the email is empty or fails the pattern, with the message for each case; no other key |
| OrderService.OrderUpdateErrors | src/main/java/com/scm/service/impl/OrderServiceImpl.java:570-600 | the create errors, plus a status error exactly when the status changes illegally, carrying the transition message |
| OrderService.ResolvedPrice | src/main/java/com/scm/service/impl/OrderServiceImpl.java:614-621 | the given price, else the product's price when the product exists, else none |
| OrderService.ItemErrors | src/main/java/com/scm/service/impl/OrderServiceImpl.java:605-642 | a product error exactly when the product is null or unknown, a quantity error exactly when it is not positive, a price error exactly when the resolved price is missing or not positive |
| OrderService.ValidateOrderItem | src/main/java/com/scm/service/impl/OrderServiceImpl.java:605-642 | passes exactly when the product exists, the quantity is positive and the resolved price is positive, and yields that price; otherwise the failure carries exactly those errors |
| OrderService.OrderTotalAppend | src/main/java/com/scm/service/impl/OrderServiceImpl.java:518-540 | a new line adds its line total to its own order's total and nothing to any other |
| OrderService.OrderTotalReplace | src/main/java/com/scm/service/impl/OrderServiceImpl.java:518-540 | replacing a line changes its order's total by the difference of the line totals |
| OrderService.OrderTotalRemove | src/main/java/com/scm/service/impl/OrderServiceImpl.java:518-540 | removing a line takes its line total off its order's total |
| OrderService.UpdateOrderTotal | src/main/java/com/scm/service/impl/OrderServiceImpl.java:518-540 | a missing order is the "Failed to update order total" error; otherwise only that order's total changes, to the sum of price × quantity over its lines |
| OrderService.UpdateOrderStatus | src/main/java/com/scm/service/impl/OrderServiceImpl.java:157-192 | null arguments are validation errors, a missing order gives an empty answer, an illegal transition gives its message; otherwise only the status changes and the stored order is returned |
| OrderService.CancelOrder | src/main/java/com/scm/service/impl/OrderServiceImpl.java:123-153 | a missing order answers false; SHIPPED, DELIVERED or CANCELLED is refused; otherwise the status becomes CANCELLED; stock and movements never change |
| OrderService.ProcessPayment | src/main/java/com/scm/service/impl/OrderServiceImpl.java:427-464 | succeeds (with true) exactly for an existing PENDING order with details, and then only its status changes, to PAID |
| OrderService.ProcessShipment | src/main/java/com/scm/service/impl/OrderServiceImpl.java:468-513 | never succeeds and changes nothing; a PROCESSING or PAID order fails with the generic "Failed to process shipment", because the stock service's refusal arrives wrapped by the transaction interceptor |
| OrderService.AddOrderItem | src/main/java/com/scm/service/impl/OrderServiceImpl.java:196-251 | succeeds exactly for an existing PENDING order and a valid line; a line for a product already on the order gains the quantity, otherwise a new line with the resolved price is inserted; the order's total is recomputed; failures change nothing |
| OrderService.MergeLine | src/main/java/com/scm/service/impl/OrderServiceImpl.java:227-242 | the merge-or-insert step and the total it leaves |
| OrderService.AddOrderItemTotal | src/main/java/com/scm/service/impl/OrderServiceImpl.java:227-242 | either way, the total grows by the price of the line that receives the quantity times the quantity added |
| OrderService.UpdateOrderItem | src/main/java/com/scm/service/impl/OrderServiceImpl.java:255-295 | succeeds exactly when the line exists, its order is PENDING, the input validates and no other line of that order holds the new product; then only that line is replaced and the total recomputed |
| OrderService.RemoveOrderItem | src/main/java/com/scm/service/impl/OrderServiceImpl.java:299-334 | a missing line answers false; removal happens exactly when the line's order is PENDING, deleting only that line and recomputing the total |
| OrderService.CommitRemoval | src/main/java/com/scm/service/impl/OrderServiceImpl.java:320-325 | the deletion and total update keep the table well formed |
| OrderService.ItemsFailureNoneIff | src/main/java/com/scm/service/impl/OrderServiceImpl.java:67-74 | the item loop of createOrder succeeds exactly when every line validates and no product repeats |
| OrderService.InsertLines | src/main/java/com/scm/service/impl/OrderServiceImpl.java:67-74 | the loop fails with the first failing line's error; otherwise it appends one line per input, in order, each with its product, quantity and resolved price, and the table stays well formed |
| OrderService.StoreNewOrder | src/main/java/com/scm/service/impl/OrderServiceImpl.java:64-77 | the order and its lines are stored and the order's total is that of its lines |
| OrderService.CreateOrder | src/main/java/com/scm/service/impl/OrderServiceImpl.java:50-86 | customer field errors are reported together; otherwise it fails exactly when the item loop does; on success a new order with the given or default date and status, one line per input and the lines' total; on failure nothing is stored |
| OrderService.UpdateOrder | src/main/java/com/scm/service/impl/OrderServiceImpl.java:90-119 | null or unknown ids are errors; field and transition errors are reported together; otherwise the order takes the new fields, keeps its date and gets the total of its lines |
| ProductService.Skus | src/main/java/com/scm/service/impl/ProductServiceImpl.java:302 | the SKUs in use: every product's SKU, and only those |
| ProductService.ProductErrors | src/main/java/com/scm/service/impl/ProductServiceImpl.java:285-319 | one entry per failing field with its message: name empty or over 100, SKU empty, over 50 or taken, price null or not positive, reorder level negative; no other key |
| ProductService.AcceptedInput | src/main/java/com/scm/service/impl/ProductServiceImpl.java:285-319 | no errors exactly when the stored row would satisfy the catalogue rules and the SKU is free |
| ProductService.InsertKeepsCatalogue | src/main/java/com/scm/service/impl/ProductServiceImpl.java:40-67 | inserting an acceptable product with a free SKU keeps the catalogue valid with unique SKUs |
| ProductService.ReplaceKeepsCatalogue | src/main/java/com/scm/service/impl/ProductServiceImpl.java:71-95 | replacing a product by an acceptable row that keeps its SKU or takes a free one keeps the catalogue valid |
| ProductService.CreateProduct | src/main/java/com/scm/service/impl/ProductServiceImpl.java:40-67 | validation errors are reported together; a null reorder level fails at the NOT NULL column; otherwise the product is stored under a new id with a Stock of 0 and no movement; failures store nothing |
| ProductService.UpdateProduct | src/main/java/com/scm/service/impl/ProductServiceImpl.java:71-95 | null or unknown ids are errors; SKU uniqueness is checked against the other products only; a null reorder level passes validation and fails only at the interceptor's commit, as "Transaction failed", leaving the product unchanged; otherwise the row takes the new fields and keeps its createdAt |
| ProductService.UpdatePrice | src/main/java/com/scm/service/impl/ProductServiceImpl.java:210-243 | null or non-positive prices are refused, a missing product gives an empty answer, otherwise only the unit price changes |
| ProductService.UpdateReorderLevel | src/main/java/com/scm/service/impl/ProductServiceImpl.java:247-280 | null or negative levels are refused, a missing product gives an empty answer, otherwise only the reorder level changes |
| SupplierService.Emails | src/main/java/com/scm/service/impl/SupplierServiceImpl.java:359 | the e-mails in use: every supplier's, and only those |
| SupplierService.SupplierErrors | src/main/java/com/scm/service/impl/SupplierServiceImpl.java:342-374 | one entry per failing field: name empty or over 100, email empty, malformed or taken, phone empty, address empty, with the message for each case |
| SupplierService.AcceptedInput | src/main/java/com/scm/service/impl/SupplierServiceImpl.java:342-374 | no errors exactly when the stored row is acceptable and the email is free |
| SupplierService.StoreKeepsDirectory | src/main/java/com/scm/service/impl/SupplierServiceImpl.java:46-90 | storing an acceptable supplier whose email is its own or free keeps e-mails unique |
| SupplierService.CreateSupplier | src/main/java/com/scm/service/impl/SupplierServiceImpl.java:46-62 | errors are reported together and store nothing; otherwise the supplier is stored under a new id |
| SupplierService.UpdateSupplier | src/main/java/com/scm/service/impl/SupplierServiceImpl.java:66-90 | null or unknown ids are errors; email uniqueness is checked against the other suppliers only; the row takes the new fields and keeps its createdAt |
| SupplierService.SaveSupplier | src/main/java/com/scm/service/impl/SupplierServiceImpl.java:80-83 | the stored supplier's row becomes the given one and no supplier is added or removed; the links a merge would drop are not modelled (see Left out) |
| SupplierService.LinkArgumentError | src/main/java/com/scm/service/impl/SupplierServiceImpl.java:189-207 | no error exactly when both ids are given, the cost is positive and the lead time is not negative; the first failing check names the error |
| SupplierService.AddProductToSupplier | src/main/java/com/scm/service/impl/SupplierServiceImpl.java:185-252 | argument errors first, then an unknown supplier or product, then an existing pair; otherwise exactly the given cost and lead time are stored for the pair |
| SupplierService.LinkErrors | src/main/java/com/scm/service/impl/SupplierServiceImpl.java:418-444 | an id error exactly when the id is null, a cost error exactly when it is null or not positive, a lead-time error exactly when it is null or negative |
| SupplierService.LinkErrorsNoneIff | src/main/java/com/scm/service/impl/SupplierServiceImpl.java:418-444 | the association validates exactly when the id is given, the cost positive and the lead time not negative |
| SupplierService.UpdateSupplierProduct | src/main/java/com/scm/service/impl/SupplierServiceImpl.java:256-275 | invalid input is refused with its errors, an unknown pair is an error, otherwise only that pair's cost and lead time change |
| UserService.Usernames | src/main/java/com/scm/service/impl/UserServiceImpl.java:259 | every user's name is in use |
| UserService.Emails | src/main/java/com/scm/service/impl/UserServiceImpl.java:265 | every user's e-mail is in use |
| UserService.PasswordMessage | src/main/java/com/scm/service/impl/UserServiceImpl.java:247-253 | on create only, a password message exactly when the policy fails; the policy message wins over the empty one except for a null password |
| UserService.UsernameMessage | src/main/java/com/scm/service/impl/UserServiceImpl.java:255-261 | a message exactly when the name has fewer than 3 or more than 50 characters or is taken, naming which |
| UserService.EmailMessage | src/main/java/com/scm/service/impl/UserServiceImpl.java:263-269 | a message exactly when the email is empty, malformed or taken, naming which |
| UserService.UserErrors | src/main/java/com/scm/service/impl/UserServiceImpl.java:240-278 | exactly the field messages above and a role error exactly when the role is null; no other key |
| UserService.AcceptedInput | src/main/java/com/scm/service/impl/UserServiceImpl.java:240-278 | no errors exactly when the password passes (on create), the stored row is acceptable and name and email are free |
| UserService.StoreKeepsAccounts | src/main/java/com/scm/service/impl/UserServiceImpl.java:61-80 | storing an acceptable user with a free name and email keeps names and e-mails unique |
| UserService.CreateUser | src/main/java/com/scm/service/impl/UserServiceImpl.java:61-80 | errors are reported together and store nothing; otherwise the user is stored under a new id with the hashed password |
| UserService.UpdateAccepted | src/main/java/com/scm/service/impl/UserServiceImpl.java:283-313 | an update that validates against the other users gives an acceptable row whose name and email are its own or free |
| UserService.ReplaceKeepsAccounts | src/main/java/com/scm/service/impl/UserServiceImpl.java:84-111 | replacing a user by such a row keeps names and e-mails unique |
| UserService.UpdateUser | src/main/java/com/scm/service/impl/UserServiceImpl.java:84-111 | null or unknown ids are errors; uniqueness is checked against the other users only; the row takes the new fields and keeps its password hash and createdAt |
| UserService.PasswordChangeError | src/main/java/com/scm/service/impl/UserServiceImpl.java:119-134 | no error exactly when the id and a non-empty current password are given and the new one passes the policy |
| UserService.ChangePassword | src/main/java/com/scm/service/impl/UserServiceImpl.java:115-160 | input and policy checks come before the lookup; an unknown user or a wrong current password is refused and stores nothing; otherwise only the stored hash changes, to the hash of the new password |
| UserService.ChangedPasswordVerifies | src/main/java/com/scm/service/impl/UserServiceImpl.java:150-151 | the new password verifies against the hash stored for it |
| UserService.Authenticate | src/main/java/com/scm/service/impl/UserServiceImpl.java:37-57 | every failure carries the same "Invalid username or password" message; a success is a stored user with that name whose hash the password verifies; with unique names it succeeds exactly when such a user exists |
| Entities.ToJavaInt | src/main/java/com/scm/model/Product.java:239-241 | the 32-bit wrap-around of int arithmetic: an int, congruent to the input modulo 2^32, and the input itself when it already fits |
| Entities.CharUnits | src/main/java/com/scm/model/Product.java:239-241 | the UTF-16 code units of one character: the character itself inside the Basic Multilingual Plane, else a surrogate pair that decodes back to it |
| Entities.Utf16Units | src/main/java/com/scm/model/Product.java:239-241 | the code units of a string: between one and two per character, each below 0x10000, and the characters themselves when all lie in the Basic Multilingual Plane |
| Entities.Utf16UnitsAppend | src/main/java/com/scm/model/Product.java:239-241 | encoding a concatenation encodes each part in turn |
| Entities.UnitsHash | src/main/java/com/scm/model/Product.java:239-241 | the `hashCode` fold over code units stays an int |
| Entities.StringHashOf | src/main/java/com/scm/model/Product.java:239-241 | `String.hashCode`, folded over the UTF-16 code units, stays an int |
| Entities.StringHashSnoc | src/main/java/com/scm/model/Product.java:239-241 | appending a Basic Multilingual Plane character gives 31 times the hash plus the character, wrapped to an int |
| Entities.StringHashSnocPair | src/main/java/com/scm/model/Product.java:239-241 | appending a supplementary character takes that step once for each of its two surrogates |
| Entities.SupplementaryHash | src/main/java/com/scm/model/Product.java:239-241 | U+1F600 is the units 0xD83D 0xDE00 and hashes to 1772899, as in Java |
| Entities.HashOfTwo | src/main/java/com/scm/model/SupplierProductId.java:67-69 | `Objects.hash` of two values stays an int |
| Entities.Product.HashCode | src/main/java/com/scm/model/Product.java:239-241 | `Objects.hash(id, sku)`, a 32-bit int |
| Entities.SupplierProductId.HashCode | src/main/java/com/scm/model/SupplierProductId.java:67-69 | `Objects.hash(supplier, product)`, a 32-bit int |
| Entities.RemoveAt | src/main/java/com/scm/model/Product.java:190-193 | `List.remove(Object)`: nothing when no element matched, otherwise exactly the matched position is dropped |
| Entities.Product.constructor | src/main/java/com/scm/model/Product.java:80-83 | a new product has no id, SKU or price, reorder level 0, no stock and no movements or links |
| Entities.Product.WithPrice | src/main/java/com/scm/model/Product.java:88-94 | the SKU and price are set; reorder level 0 and nothing else |
| Entities.Product.SetStock | src/main/java/com/scm/model/Product.java:170-175 | the stock is set and, when non-null, points back at this product, its other fields unchanged |
| Entities.Product.AddStockMovement | src/main/java/com/scm/model/Product.java:185-188 | the movement is appended and points back at this product |
| Entities.Product.RemoveStockMovement | src/main/java/com/scm/model/Product.java:190-193 | the first movement with an equal id (ids only, as `StockMovement.equals`) is removed, and the argument's back-reference is cleared |
| Entities.Stock.constructor | src/main/java/com/scm/model/Stock.java:44-47 | a new Stock holds quantity 0, stamped now |
| Entities.Stock.ForProduct | src/main/java/com/scm/model/Stock.java:52-56 | the product and quantity given, stamped now |
| Entities.Stock.SetQuantityAvailable | src/main/java/com/scm/model/Stock.java:80-83 | the quantity is set and the time refreshed |
| Entities.Stock.UpdateQuantity | src/main/java/com/scm/model/Stock.java:97-100 | the quantity moves by the change with no lower bound and the time is refreshed |
| Entities.StockMovement.constructor | src/main/java/com/scm/model/StockMovement.java:95-101 | product, type, quantity and reference as given, dated now |
| Entities.FirstWithId | src/main/java/com/scm/model/StockMovement.java:183-188 | the first movement equal to a given one (same id, null included), or -1 when none is |
| Entities.CustomerOrder.constructor | src/main/java/com/scm/model/CustomerOrder.java:75-77 | a new order is dated now, pending, with total 0 and no lines |
| Entities.CustomerOrder.ForCustomer | src/main/java/com/scm/model/CustomerOrder.java:82-88 | the customer fields are set, pending, total 0 |
| Entities.CustomerOrder.WithStatus | src/main/java/com/scm/model/CustomerOrder.java:93-99 | the customer fields, status and total are set as given |
| Entities.CustomerOrder.RecalculateTotalAmount | src/main/java/com/scm/model/CustomerOrder.java:182-186 | the total becomes the sum of the line totals (0 with no lines); a line without price or quantity makes the call fail and leaves the total |
| Entities.CustomerOrder.AddOrderItem | src/main/java/com/scm/model/CustomerOrder.java:163-167 | the line is appended, points back at this order, and the total is recomputed |
| Entities.CustomerOrder.RemoveOrderItem | src/main/java/com/scm/model/CustomerOrder.java:173-177 | the first line equal to the argument is removed, its back-reference cleared and the total recomputed |
| Entities.OrderItem.constructor | src/main/java/com/scm/model/OrderItem.java:58-59 | a new line has no order, product, quantity or price |
| Entities.OrderItem.ForProduct | src/main/java/com/scm/model/OrderItem.java:64-69 | the line takes the product's current price |
| Entities.OrderItem.WithPrice | src/main/java/com/scm/model/OrderItem.java:74-79 | the line keeps the price given |
| Entities.OrderItem.SetProduct | src/main/java/com/scm/model/OrderItem.java:103-108 | the product is set; the price is copied from it only while the line has none |
| Entities.OrderItem.LineTotal | src/main/java/com/scm/model/OrderItem.java:130-132 | defined exactly when price and quantity are |
| Entities.ItemsTotal | src/main/java/com/scm/model/CustomerOrder.java:182-186 | defined exactly when every line total is |
| Entities.FirstEqualItem | src/main/java/com/scm/model/OrderItem.java:135-143 | the first line equal to a given one, or -1 when none is |
| Entities.SupplierOrder.constructor | src/main/java/com/scm/model/SupplierOrder.java:73-75 | a new supplier order is dated now, pending, with total 0, no expected date and no lines |
| Entities.SupplierOrder.ForSupplier | src/main/java/com/scm/model/SupplierOrder.java:80-85 | the supplier is set, pending, total 0, no expected delivery, no lines |
| Entities.SupplierOrder.RecalculateTotalAmount | src/main/java/com/scm/model/SupplierOrder.java:179-183 | the total becomes the sum of unit cost × quantity over the lines; a line without cost or quantity makes the call fail |
| Entities.SupplierOrder.AddOrderItem | src/main/java/com/scm/model/SupplierOrder.java:160-164 | the line is appended, points back at this order, and the total is recomputed |
| Entities.SupplierOrder.RemoveOrderItem | src/main/java/com/scm/model/SupplierOrder.java:170-174 | the first equal line is removed, its back-reference cleared and the total recomputed |
| Entities.SupplierOrderItem.constructor | src/main/java/com/scm/model/SupplierOrderItem.java:58-59 | a new line has no order, product, quantity or cost |
| Entities.SupplierOrderItem.ForProduct | src/main/java/com/scm/model/SupplierOrderItem.java:64-71 | the line's cost is the supplier cost looked up for the product |
| Entities.SupplierOrderItem.SetProduct | src/main/java/com/scm/model/SupplierOrderItem.java:105-110 | the product is set; the cost is looked up only while the line has none and an order is set |
| Entities.SupplierOrderItem.LineTotal | src/main/java/com/scm/model/SupplierOrderItem.java:132-134 | defined exactly when cost and quantity are |
| Entities.SupplierItemsTotal | src/main/java/com/scm/model/SupplierOrder.java:179-183 | defined exactly when every line total is |
| Entities.FirstEqualSupplierItem | src/main/java/com/scm/model/SupplierOrderItem.java:156-164 | the first line equal to a given one, or -1 when none is |
| Entities.FirstLinkFor | src/main/java/com/scm/model/SupplierOrderItem.java:143-149 | the first supplier link whose supplier equals the order's, or -1 when none does |
| Entities.FindSupplierProductCost | src/main/java/com/scm/model/SupplierOrderItem.java:142-153 | the first matching link's cost; with no supplier to match, the product's price; with no product, 0 |
| Entities.SupplierProduct.constructor | src/main/java/com/scm/model/SupplierProduct.java:48-54 | a new link has no cost and a lead time of 1 day |
| Entities.SupplierProduct.WithCost | src/main/java/com/scm/model/SupplierProduct.java:59-64 | supplier, product and cost as given, lead time 1 |
| Entities.SupplierProduct.ProfitMarginPercent | src/main/java/com/scm/model/SupplierProduct.java:114-121 | 0 without a product, price or positive cost; the division fails exactly on a zero price; otherwise the margin is (price - cost) * 100 / price rounded half-up to two decimals: within half a unit of the exact quotient, and on a tie the one further from zero |
| Entities.Margin | src/main/java/com/scm/model/SupplierProduct.java:119-120 | the margin in hundredths of a percent is within half a unit of the exact quotient for a price of either sign, and a tie rounds away from zero (HALF_UP) |
| Entities.SupplierProductId.SetSupplierId | src/main/java/com/scm/model/SupplierProductId.java:49-51 | only the supplier half changes, to the value given |
| Entities.SupplierProductId.SetProductId | src/main/java/com/scm/model/SupplierProductId.java:53-55 | only the product half changes, to the value given |
| Entities.ItemsTotalSnoc | src/main/java/com/scm/model/CustomerOrder.java:182-186 | a priced line adds its line total to a priced sum |
| Entities.ItemsTotalMatchesRows | src/main/java/com/scm/service/impl/OrderServiceImpl.java:529-533 | the entity total and the service's total agree on the same lines |
| Entities.ProductEqualsNotTransitive | src/main/java/com/scm/model/Product.java:230-236 | three products where a equals b and b equals c but a does not equal c |
| Entities.ProductEqualsHashMismatch | src/main/java/com/scm/model/Product.java:230-241 | two equal products with different hash codes |
| Entities.UnsavedMovementRemovalHitsFirst | src/main/java/com/scm/model/Product.java:190-193 | removing the second of two unsaved movements removes the first |
| Entities.UnsavedItemRemovalHitsFirst | src/main/java/com/scm/model/CustomerOrder.java:173-177 | removing the second of two unsaved lines removes the first |
| Entities.BelowReorderVersusLowStock | src/main/java/com/scm/model/Stock.java:106-110 | the query's low-stock test is the entity's strict test widened to equality and restricted to positive reorder levels |
| Entities.OverdueStaysOverdue | src/main/java/com/scm/model/SupplierOrder.java:197-201 | an overdue order is not delivered and stays overdue on every later day |
| Entities.MarginSign | src/main/java/com/scm/model/SupplierProduct.java:119-120 | for a positive price a positive margin means price above cost and a negative one below; equal amounts give 0 |
| Entities.MarginRoundsSmallGainToZero | src/main/java/com/scm/model/SupplierProduct.java:119-120 | a one-cent gain on 10000.00 rounds to a margin of 0, so a zero margin does not mean equal amounts |
| Entities.MarginRoundsHalfUp | src/main/java/com/scm/model/SupplierProduct.java:119-120 | price 3.00, cost 1.00 gives 66.67 |
| Entities.SupplierProductIdHash | src/main/java/com/scm/model/SupplierProductId.java:58-69 | equal keys hash alike; (0, 31) and (1, 0) collide |
| FileUpload.AllowedContentTypes | src/main/java/com/scm/util/FileUploadUtil.java:35-36 | the allowed types are exactly the comma-separated pieces of the setting, untrimmed, none containing a comma |
| FileUpload.AllowedTypesOfList | src/main/java/com/scm/util/FileUploadUtil.java:35-36 | a comma-joined list of comma-free types reads back as exactly those types |
| FileUpload.Megabytes | src/main/java/com/scm/util/FileUploadUtil.java:119-121 | the limit in whole megabytes by Java's truncating long division: the largest multiple of a megabyte toward zero |
| FileUpload.MegabytesTruncate | src/main/java/com/scm/util/FileUploadUtil.java:119-121 | -1 byte prints as 0 MB, -1048577 bytes as -1 MB, and the 10 MB default as 10 |
| FileUpload.ValidateFile | src/main/java/com/scm/util/FileUploadUtil.java:117-130 | accepted exactly when the size is within the limit and the type is allowed; the size is checked first and its message names the limit in whole megabytes, truncated toward zero; a refused type's message carries the allowed set, not the type sent |
| FileUpload.Extension | src/main/java/com/scm/util/FileUploadUtil.java:139-143 | the suffix from the last dot, which must not be the first character; empty exactly when no dot after position 0 exists; it holds a single dot |
| FileUpload.ExtensionExamples | src/main/java/com/scm/util/FileUploadUtil.java:139-143 | "a.tar.gz" keeps ".gz"; ".bashrc" and "README" have no extension |
| FileUpload.UniqueFileName | src/main/java/com/scm/util/FileUploadUtil.java:138-146 | the generated id followed by the original's extension and nothing else |
| FileUpload.UniqueNameKeepsExtension | src/main/java/com/scm/util/FileUploadUtil.java:138-146 | with a dot-free id the new name's extension is the original's |
| FileUpload.SubmittedName | src/main/java/com/scm/util/FileUploadUtil.java:156-164 | "unknown" when no element is a filename element; the result never holds a double quote |
| FileUpload.SubmittedNameIsFirst | src/main/java/com/scm/util/FileUploadUtil.java:158-162 | the value of the first filename element is the one returned |
| FileUpload.GetSubmittedFileName | src/main/java/com/scm/util/FileUploadUtil.java:154-165 | the loop returns the name of the first filename element among the header's ';'-separated parts |
| FileUpload.SavedPath | src/main/java/com/scm/util/FileUploadUtil.java:67-76 | the upload directory, the subdirectory when non-empty, and the file name, joined by the separator |
| FileUpload.SaveFile | src/main/java/com/scm/util/FileUploadUtil.java:63-91 | refused exactly when validation fails, with that error; otherwise saved at the path built from the unique name of the submitted name |
| DatabaseInitializer.Step | src/main/java/com/scm/util/DatabaseInitializer.java:171-192 | blank and comment lines change nothing; a line ending in ';' closes the buffered statement; any other line is appended to the buffer |
| DatabaseInitializer.Kept | src/main/java/com/scm/util/DatabaseInitializer.java:173-175 | no kept line is blank or a comment |
| DatabaseInitializer.ScanKeepsText | src/main/java/com/scm/util/DatabaseInitializer.java:171-192 | the statements and the left-over buffer, concatenated, are exactly the kept lines concatenated, and there is one statement per terminating line |
| DatabaseInitializer.BufferHoldsUnterminatedTail | src/main/java/com/scm/util/DatabaseInitializer.java:177-191 | text is left over only after an unterminated kept line, and nothing is left when the last kept line ends in ';' |
| DatabaseInitializer.ExecuteSqlScript | src/main/java/com/scm/util/DatabaseInitializer.java:155-200 | every scanned statement is attempted in order, and the failed ones are exactly those the database refused, logged without stopping the script |
| DatabaseInitializer.FailedAmong | src/main/java/com/scm/util/DatabaseInitializer.java:183-187 | each reported statement was attempted and refused, and none is reported exactly when every attempted statement succeeded |
| DatabaseInitializer.InitializeSampleData | src/main/java/com/scm/util/DatabaseInitializer.java:110-148 | the script runs only when no user exists and it was found; then its statements are attempted, and the commit keeps all of them when every one succeeded and none once one failed |
| DashboardService.Where | src/main/java/com/scm/service/impl/DashboardServiceImpl.java:356-358 | the elements kept are exactly those of the list that pass the test |
| DashboardService.Insert | src/main/java/com/scm/service/impl/DashboardServiceImpl.java:361-363 | inserting into a sorted list keeps it sorted and adds exactly the element |
| DashboardService.SortBy | src/main/java/com/scm/service/impl/DashboardServiceImpl.java:361-363 | the stream sort: sorted by the key and a permutation of the input |
| DashboardService.Take | src/main/java/com/scm/service/impl/DashboardServiceImpl.java:309 | Stream.limit: a prefix of exactly min(n, length) elements for a non-negative n, the whole list when n covers it |
| DashboardService.DateRangeError | src/main/java/com/scm/service/impl/DashboardServiceImpl.java:66-76 | no error exactly when both dates are given and the start is not after the end |
| DashboardService.TopSellingProducts | src/main/java/com/scm/service/impl/DashboardServiceImpl.java:204-238 | succeeds exactly on a valid range and a positive limit, and then returns an empty list |
| DashboardService.SalesByTimePeriod | src/main/java/com/scm/service/impl/DashboardServiceImpl.java:241-281 | succeeds exactly on a valid range and a grouping of day, week, month or year, and then returns an empty list |
| DashboardService.SalesByCategory | src/main/java/com/scm/service/impl/DashboardServiceImpl.java:318-347 | succeeds exactly on a valid range, and then returns an empty map |
| DashboardService.InRange | src/main/java/com/scm/service/impl/DashboardServiceImpl.java:81 | the orders dated within the inclusive range |
| DashboardService.FindByDateRange | src/main/java/com/scm/service/impl/DashboardServiceImpl.java:81 | the orders in range, newest first, each once |
| DashboardService.TotalSalesNonNegative | src/main/java/com/scm/service/impl/DashboardServiceImpl.java:84-92 | non-negative order totals sum to a non-negative total |
| DashboardService.CountOf | src/main/java/com/scm/service/impl/DashboardServiceImpl.java:99-100 | the count of a status is zero exactly when no order has it |
| DashboardService.CountByStatus | src/main/java/com/scm/service/impl/DashboardServiceImpl.java:99-100 | grouping by status: a key for every status present and only those, each mapped to its positive count |
| DashboardService.SixCountsIsLength | src/main/java/com/scm/service/impl/DashboardServiceImpl.java:99-100 | the per-status counts of the six statuses add up to the number of orders |
| DashboardService.StatusCountsSumToOrderCount | src/main/java/com/scm/service/impl/DashboardServiceImpl.java:99-106 | the counts in the status map add up to the order count |
| DashboardService.SalesStatisticsOf | src/main/java/com/scm/service/impl/DashboardServiceImpl.java:84-113 | the total, the count, the average within half a cent of the exact mean (0 with no orders), the status counts adding up to the count, and the daily average when the day count is positive |
| DashboardService.GetSalesStatistics | src/main/java/com/scm/service/impl/DashboardServiceImpl.java:63-122 | fails exactly on an invalid range, with its message; otherwise the statistics of the orders in range over the calendar days spanned |
| DashboardService.Stocked | src/main/java/com/scm/service/impl/DashboardServiceImpl.java:454 | the products that have a stock record |
| DashboardService.ValuationOfStockedOnly | src/main/java/com/scm/service/impl/DashboardServiceImpl.java:453-459 | products without stock contribute nothing to the valuation |
| DashboardService.ValuationNonNegative | src/main/java/com/scm/service/impl/DashboardServiceImpl.java:446-466 | with positive prices and non-negative quantities the valuation is non-negative |
| DashboardService.GetInventoryValuation | src/main/java/com/scm/service/impl/DashboardServiceImpl.java:446-466 | the loop computes the sum of price × quantity over the stocked products |
| DashboardService.Distinct | src/main/java/com/scm/service/impl/DashboardServiceImpl.java:382 | each id once, the same ids as the input, only input elements |
| DashboardService.DistinctPrefix | src/main/java/com/scm/service/impl/DashboardServiceImpl.java:382 | de-duplicating a longer list keeps the de-duplicated prefix in front: distinct preserves first-occurrence order |
| DashboardService.DistinctOfDistinct | src/main/java/com/scm/service/impl/DashboardServiceImpl.java:382 | a list without repeated ids is left unchanged |
| DashboardService.GetStockAlerts | src/main/java/com/scm/service/impl/DashboardServiceImpl.java:371-389 | every alert is an out-of-stock or low-stock product, every such product appears, and none twice |
| DashboardService.OutOfStockFirst | src/main/java/com/scm/service/impl/DashboardServiceImpl.java:375-382 | the out-of-stock products come first, in their own order |
| DashboardService.WhereKeepsDistinct | src/main/java/com/scm/service/impl/DashboardServiceImpl.java:375-379 | filtering a list without repeated ids keeps it so |
| DashboardService.EntityStatusValueOf | src/main/java/com/scm/model/CustomerOrder.java:38-40 | Status.valueOf: only the five lowercase constant names are found |
| DashboardService.AttentionLookupsFail | src/main/java/com/scm/service/impl/DashboardServiceImpl.java:356-358 | "PENDING", "PAID" and "PROCESSING" are none of them a constant of the entity's status enum |
| DashboardService.OrdersRequiringAttentionAsWritten | src/main/java/com/scm/service/impl/DashboardServiceImpl.java:350-368 | as written, the call always fails with its wrapped message |
| DashboardService.WithStatus | src/main/java/com/scm/service/impl/DashboardServiceImpl.java:356 | the orders with the given status |
| DashboardService.OrdersRequiringAttention | src/main/java/com/scm/service/impl/DashboardServiceImpl.java:350-368 | the pending, paid and processing orders, each exactly as often as in the three queries, oldest first |
| DashboardService.Activities | src/main/java/com/scm/service/impl/DashboardServiceImpl.java:294-300 | one ORDER entry per order, in order, stamped with the order date |
| DashboardService.FindRecentOrders | src/main/java/com/scm/service/impl/DashboardServiceImpl.java:293 | exactly min(limit, number of orders) of the orders, newest first, drawn from the orders without repetition, and no order left out is newer than one kept |
| DashboardService.PrefixComesFirst | src/main/java/com/scm/service/impl/DashboardServiceImpl.java:293 | a prefix of a sorted list is part of it, and nothing outside the prefix sorts before an element inside it |
| DashboardService.OrderActivities | src/main/java/com/scm/service/impl/DashboardServiceImpl.java:294-300 | the loop builds exactly the ORDER entries of the orders, in order |
| DashboardService.FeedAboveDropped | src/main/java/com/scm/service/impl/DashboardServiceImpl.java:293-310 | sorting the feed keeps every entry no older than the orders left out |
| DashboardService.SortedActivitiesOf | src/main/java/com/scm/service/impl/DashboardServiceImpl.java:294-310 | every sorted entry is an ORDER entry for a stored order, stamped with its date |
| DashboardService.GetRecentActivity | src/main/java/com/scm/service/impl/DashboardServiceImpl.java:284-315 | fails exactly on a non-positive limit, with the wrapped message; otherwise exactly min(limit, number of orders) entries, newest first, a permutation of the recent orders' entries, none older than an order left out |
| DashboardReports.Lines | src/main/java/com/scm/service/impl/DashboardServiceImpl.java:511-521 | no lines give the empty text |
| DashboardReports.LinesAsJoin | src/main/java/com/scm/service/impl/DashboardServiceImpl.java:511-521 | the report is its lines joined by newlines with a final newline |
| DashboardReports.SalesRows | src/main/java/com/scm/service/impl/DashboardServiceImpl.java:512-521 | one row per order, in order |
| DashboardReports.BuildSalesCsv | src/main/java/com/scm/service/impl/DashboardServiceImpl.java:509-522 | the loop builds the header line followed by one line per order |
| DashboardReports.DecimalStringHasNoSeparator | src/main/java/com/scm/service/impl/DashboardServiceImpl.java:513 | a rendered id holds no comma and no newline |
| DashboardReports.SalesCsvReadsBack | src/main/java/com/scm/service/impl/DashboardServiceImpl.java:509-522 | when no cell holds a newline, splitting the report at newlines gives back the header and the rows |
| DashboardReports.SalesRowReadsBack | src/main/java/com/scm/service/impl/DashboardServiceImpl.java:513-520 | when no cell holds a comma, splitting a row at commas gives back its four cells |
| DashboardReports.InventoryValue | src/main/java/com/scm/service/impl/DashboardServiceImpl.java:564-567 | a row's value cell is the same value the valuation adds for that product |
| DashboardReports.InventoryRows | src/main/java/com/scm/service/impl/DashboardServiceImpl.java:563-583 | one row per product, in order |
| DashboardReports.BuildInventoryCsv | src/main/java/com/scm/service/impl/DashboardServiceImpl.java:560-584 | the loop builds the header line followed by one line per product |
| DashboardReports.ValueColumnIsValuation | src/main/java/com/scm/service/impl/DashboardServiceImpl.java:446-466 | the report's value column adds up to the inventory valuation |
| DashboardReports.ParseFormat | src/main/java/com/scm/service/impl/DashboardServiceImpl.java:500-525 | PDF or CSV exactly when the upper-cased format is that name |
| DashboardReports.FormatIgnoresCase | src/main/java/com/scm/service/impl/DashboardServiceImpl.java:500 | "csv" and "Pdf" are accepted |
| DashboardReports.GenerateSalesReport | src/main/java/com/scm/service/impl/DashboardServiceImpl.java:469-535 | range errors first, then an empty format, then an unknown format with the format in the message; PDF gives the one-line header; CSV gives the report of the orders in range |
| DashboardReports.GenerateInventoryReport | src/main/java/com/scm/service/impl/DashboardServiceImpl.java:538-597 | an empty format, then an unknown one, fail; PDF gives the dated header; CSV gives the report of every product |

## Left out

- **Outside the core.** The servlets, controllers, DAO classes and `AbstractJpaDao` are not modelled as code. The same holds for the transaction interceptor, `JPAUtil`, `AppConfig`, `DatabaseConfig`, `SessionManager`, `EmailUtil` and `ExceptionHandler`. They carry HTTP handling, JPA plumbing, configuration I/O, sessions and mail.
  - The DAO queries the services use are written as filters and sorts over the store's maps and sequences: by id, by order, by date range, newest first, low stock and out of stock.
  - The session manager's CSRF token comparison is modelled (`CsrfFilter.TokenMatches`); the token stored in the session is a parameter of the CSRF filter.
- **Read-only look-ups.** These service methods only forward to a DAO query and have nothing to verify: the `find*` methods, `getStockForProduct*` and `getStockMovements*`.
- **Deletes.** `deleteProduct`, `deleteSupplier`, `deleteUser` and `removeProductFromSupplier` are not modelled. They remove one row through the DAO and report whether it existed.
- **Supplier look-ups.** `findLowestCostSupplierForProduct` and `findFastestDeliverySupplierForProduct` are not modelled. They are DAO queries.
- **Dashboard statistics.** `getSupplierStatistics` and `getSupplierPerformanceMetrics` are not modelled: they compute `double` averages, which are floating point.
  - `getInventoryStatistics` is not modelled either. It only counts the results of queries that are modelled elsewhere: the stock alerts, the valuation and the reorder list.
  - The statistics map that `generateSalesReport` computes and then ignores is not modelled. Its only failure, the range check, is already made first.
- **Rollback.** A service call that fails is modelled as storing nothing, which is what the transaction interceptor's rollback leaves behind. The partial writes before a rollback are not modelled.
- **Exceptions at the transaction boundary.** The transaction interceptor rethrows every exception that leaves a `@Transactional` service method as `DaoException("Transaction failed")`, with the original exception as its cause. The model reports the original exception, the one the method body throws. The wrapping is modelled only where one `@Transactional` method calls another, since there it decides which catch clause runs: shipment calling the stock service.
- OrderService.UpdateOrder: the model assumes the order passed in carries the stored lines. The source hands the order to `em.merge`, and `CustomerOrder.orderItems` has orphan removal. The order servlet builds a fresh order without lines (OrderServlet.java:253-256), so in the source an update through it deletes the stored lines and the recomputed total is 0.
- ProductService.UpdateProduct: the model assumes the product passed in carries its stored stock, movements and supplier links. The source merges it, and `Product.stock`, `Product.stockMovements` and `Product.supplierProducts` have orphan removal. The product servlet builds a fresh product (ProductServlet.java:204-207), so in the source an update through it deletes them.
- SupplierService.UpdateSupplier: the model assumes the supplier passed in carries its stored product links. The source merges it, and `Supplier.supplierProducts` has orphan removal. The supplier servlet builds a fresh supplier (SupplierServlet.java:217-220), so in the source an update through it deletes the links.
- StockService.CreateStockAdjustment: the query behind the returned movement orders by date only, so among movements with the same date the database picks. The model picks the first one logged. Only the clause tying the result to `StockService.NewestMovementIndex` depends on that choice; the others hold whichever movement the database picks.
- SupplierService.SaveSupplier: `SupplierDao.update` is modelled as overwriting the row only, under the same assumption as `UpdateSupplier`; the links that `em.merge` drops through orphan removal are not modelled.
- **Null suppliers on links.** `Entities.SupplierCost`, `Entities.FindSupplierProductCost`, `Entities.SupplierOrderItem.ForProduct` and `Entities.SupplierOrderItem.SetProduct` require every link of the product to name a supplier. The source would throw a `NullPointerException` on a link without one. A stored link always has one: its key includes the supplier id, a foreign key into the suppliers table.
- **Integer width.** Quantities, reorder levels and lead times are unbounded integers, so the model has no 32-bit overflow of `int` arithmetic on them. The exceptions are `hashCode` and `getStockChange`, where the 32-bit behaviour is the point and is written out. Java's integer division truncates toward zero; the one division whose operand can be negative, the megabyte count in `validateFile`, is written out as `FileUpload.Megabytes`.
- **Null pointers.** A `NullPointerException` thrown where the source dereferences null is modelled as the failure of the operation that throws it. A line without a price is an example. Bean Validation annotations on the entities are not modelled; only the services' own checks are.
- **Text handling.**
  - `String.toUpperCase` is modelled for ASCII letters only.
  - Lengths count Dafny characters (Unicode scalar values), while Java's `length()` counts UTF-16 units. A character outside the Basic Multilingual Plane counts once here and twice in Java, so such strings meet the length limits differently: product name at most 100, SKU at most 50, username 3 to 50, password at least 8. `String.hashCode` is the exception: `Entities.StringHashOf` folds over the UTF-16 code units, as Java does.
  - `getBytes`, with its platform charset, is not modelled: reports are strings.
  - The SQL script arrives as its sequence of lines, so `BufferedReader.readLine` is not modelled.
  - `LocalDateTime.toString` and `BigDecimal.toString` are parameters of the report builders.
- **Foreign calls.** These are parameters: the password salt source, SHA-256, Base64 encoding and decoding, UUID generation, the clock, the file separator, the upload settings, and the database's answer to each SQL statement.
- **Order of the allowed types in the refusal message.** The source joins the allowed types in hash-set iteration order, which Java leaves unspecified; `FileUpload.UploadError` carries the set.
- **File I/O.** The upload stream copy, `deleteFile` and directory creation are file-system I/O and are not modelled. `FileUpload.SaveFile` returns the path the file would be written to.
- PasswordUtils.VerifyOwnHash: the round trip is proved under the facts Base64 and SHA-256 provide about the values involved. Decoding inverts encoding on the salt, neither encoding contains ':', and the digest's encoding is non-empty. These facts are assumed of the codec, not proved of it.
- DashboardService.Distinct: `Stream.distinct` uses `Product.equals` (same id or same non-null SKU). The model de-duplicates by id. The two agree on stored products, whose ids and SKUs are unique.
- DashboardService.FindByDateRange: the order among orders with the same timestamp is left open, as the query leaves it.
- DashboardService.GetRecentActivity: only order activity is produced. The stock-movement half of the feed is a stub in the source, which only logs that it is missing.

## Behaviour as written

These are places where the code does not do what its names or comments suggest. Each is modelled as written, with a lemma that exhibits it.

- **Shipment never succeeds.** `processShipment` accepts only PROCESSING or PAID orders and then calls `processStockForCustomerOrder`, which accepts only PENDING ones. The stock service's refusal reaches `processShipment` wrapped by the transaction interceptor, so a shippable order fails with the generic "Failed to process shipment" (`OrderService.ProcessShipment`).
  - `cancelOrder` never returns committed stock.
  - `updateOrderStatus` can move an order to PROCESSING without touching stock (`OrderService.ProcessingWithoutStock`).
- **Receipts report the wrong sign.** `StockMovement.getStockChange` reports −5 for a supplier receipt of +5. At `Integer.MIN_VALUE` it returns a negative change for an incoming type (`MovementTypes.StockChangeContradictsReceipt`, `MovementTypes.StockChangeAtMinValue`).
  - The ledger is therefore stated over the stored signed quantity.
- **Two paths break the ledger.** `Stock.updateQuantity` and `StockDaoImpl.updateQuantity` change a quantity without a movement and without a lower bound (`Ledger.AdjustWithoutMovementBreaksLedger`, `Ledger.AdjustWithoutMovementNeverConsistent`).
- **The per-line stock check relies on a constraint.** The check is sufficient only because (order, product) is unique. A repeated product would defeat it (`Ledger.RepeatedProductDefeatsCheck`).
- **Roles are compared in the wrong case.** The authentication filter compares roles with "ADMIN" and "MANAGER". The principal only ever holds "admin", "manager" or "user". So no principal reaches /admin, /users, /settings, /reports or /dashboard (`AuthenticationFilter.RolePathsUnreachable`).
- **Public paths.** The public prefixes such as "/.js" never match a static file path, and prefix matching has no path-segment boundary.
- **Low stock is tested two ways.** `Stock.isBelowReorderLevel` uses `<`, while the low-stock query uses `<=` and also requires a positive level (`Entities.BelowReorderVersusLowStock`).
- **`Product.equals`** is neither transitive nor consistent with `hashCode` (`Entities.ProductEqualsNotTransitive`, `Entities.ProductEqualsHashMismatch`).
- **`List.remove` on unsaved entities.** Unsaved movements or lines all have a null id, so removing one removes the first (`Entities.UnsavedMovementRemovalHitsFirst`, `Entities.UnsavedItemRemovalHitsFirst`).
- **The profit margin** is rounded half-up to hundredths of a percent. A zero margin therefore does not mean price equals cost (`Entities.MarginRoundsSmallGainToZero`).
- **`verifyPassword`** accepts a stored hash followed by any number of extra ':' characters (`PasswordUtils.VerifyIff`).
  - `isValidPassword` rejects a password containing a line terminator, because its `.*` patterns do not cross lines.
- **Supplier products.**
  - The supplier service calls `SupplierProduct.getId` and `setId`, which the entity does not declare (SupplierServiceImpl.java lines 238, 263 and 425). The model uses the (supplier, product) key.
  - `validateSupplierProduct` accepts a lead time of 0, while the entity's annotation demands at least 1.
- **Products.** A product with a null reorder level passes `validateProduct` but not the column's NOT NULL constraint. On create the insert fails inside the method, which reports "Failed to create product"; on update the merge defers the write, so the failure comes at the commit as the interceptor's "Transaction failed" (`ProductService.UpdateProduct`).
- **File uploads.** The allowed content types are split on ',' without trimming, so "image/png, application/pdf" does not allow "application/pdf".
- **An adjustment can return another movement.** `createStockAdjustment` returns the newest movement of the product by date, not the one it logged. A stored movement of the product dated at or after the adjustment is returned instead (`StockService.CreateStockAdjustment`).
- **A failing seed statement undoes the whole seed.** The initializer logs a failing statement and goes on, but JPA has already marked the transaction rollback-only, so the commit fails and none of the statements is kept (`DatabaseInitializer.InitializeSampleData`).
- **Database initializer.** It joins the lines of a statement with no separator between them, and text after the last ';' line is never executed (`DatabaseInitializer.ScanKeepsText`, `DatabaseInitializer.BufferHoldsUnterminatedTail`).
- **CSV reports** do no quoting. A cell holding a comma or newline makes them unreadable. They read back whenever no cell does (`DashboardReports.SalesCsvReadsBack`).
- **`getRecentActivity`** wraps its own "limit" error in the generic failure message.

## Findings

| source | as written | input that shows it | evidently intended | confidence | as-written member | corrected member |
|---|---|---|---|---|---|---|
| src/main/java/com/scm/service/impl/DashboardServiceImpl.java:356-358 | looks up `CustomerOrder.Status.valueOf("PENDING")`, `"PAID"` and `"PROCESSING"`, but the entity enum's constants are lowercase and it has no paid status, so the first lookup throws and the call always fails | any call, with any stored orders | the PENDING, PAID and PROCESSING orders, oldest first | high; not executed | DashboardService.OrdersRequiringAttentionAsWritten | DashboardService.OrdersRequiringAttention |
