# turmob-efatura in Dafny

A model of the core of the PHP client for the TÜRMOB e-invoice portal
(`turmobefatura.luca.com.tr`), with proofs about it. The model has three modules.

- `Wrappers` holds `Option`, and `Result`, whose `Thrown(message)` case stands for a
  PHP exception carrying that message.
- `CityMappings` covers province-name normalisation (`fixName`) and the 81-row
  province table (`getCityId`). The table maps each upper-case, unaccented
  province name to the portal's own city id, which is not the licence-plate code
  (AYDIN is 81 there, for example). It is written as a `match`, together with its
  inverse `CityName` read from the same rows. The proofs show that:
  - the table is one-to-one and its values are exactly 1 to 81;
  - every key is a fixed point of `fixName`.

  `fixName` is modelled as the source writes it: upper-casing, then one
  `str_replace` pass per Turkish capital. It is proved equal, character by
  character, to the fold of the capital, and it is shown to be idempotent and
  case-insensitive.
- `Turmob` covers the `TurmobClient` class, as a Dafny class with the fields
  `loggedIn` and `cookieFile` and a `SessionStore` object for the session
  directory (file name ↦ modification time). It also holds the client's pure
  decision rules:
  - the login-success test (`strpos`);
  - the 0 / 1 / many recipient rule;
  - the first-match county search;
  - session-id sanitising and the 24-hour expiry;
  - `bin2hex` session ids;
  - the invoice payload mapping;
  - the `trim` and 16-character check on the invoice id.

Parts of the outside world become parameters:

- The network becomes one `Exchange` per request: `ConnectionFailed(cause)`, which
  the client turns into `"Connection error: " + cause`, or `Received(reply)`.
- Token scraping is already done, so a page arrives as `Option<string>` (`None` when
  no token is found).
- JSON arrives already decoded, as a `Decoded` value (`InvalidJson` or `Json(v)`).
- The clock is `now` (seconds), the random bytes are `random`, and `tempnam`'s
  choice of name is `tempSuffix`.

Every method that contacts the portal returns the requests it issued, in order.
Its contract can therefore say that a guard or a short-circuit issues no request at all.
Each request names the cookie file as the transport's cookie jar, which the transport
writes back when the request ends, failed or not. Such a method therefore also states
that the cookie file then exists with modification time `now`, so a resumed session's
24 hours count from its last use.

## Model

| member | source | states |
|---|---|---|
| CityMappings.FixName | src/CityMappings.php:101-109 | the result has the input's length, and each character is the capital of the input character with İ Ü Ö Ş Ğ Ç folded to I U O S G C |
| CityMappings.ToUpper | src/CityMappings.php:102 | upper-casing keeps the length and leaves no small letter (ASCII a-z or ı ç ğ ö ş ü); each small letter becomes its own capital (ç to Ç), and both i and dotless ı become I, as outside a Turkish locale; every other character stays where it was |
| CityMappings.StrReplace | src/CityMappings.php:103-107 | str_replace with one-character needles keeps the subject's length; StrReplaceAt gives what it does to each character |
| CityMappings.StrReplaceAt | src/CityMappings.php:103-107 | str_replace with arrays of one-character needles acts on each character separately, as the chain of replacement passes in array order |
| CityMappings.FoldIsReplacePasses | src/CityMappings.php:103-107 | the six passes in array order, taken together, are exactly the accent fold of one character |
| CityMappings.GetCityId | src/CityMappings.php:92-99 | returns an id exactly when fixName(name) is a key; that id is in 1..81 and its row's key is fixName(name); otherwise it throws "City not found: " followed by the fixed name |
| CityMappings.FixNameOutputIsNormal | src/CityMappings.php:101-109 | no output character is one of İ Ü Ö Ş Ğ Ç, and every output character is already in normal form |
| CityMappings.NormalIsFixedPoint | src/CityMappings.php:101-109 | a string made only of normal-form characters is left unchanged by fixName |
| CityMappings.FixNameIdempotent | src/CityMappings.php:101-109 | fixName(fixName(x)) == fixName(x) |
| CityMappings.FixNameCaseInsensitive | src/CityMappings.php:102 | two names that differ only in letter case have the same normal form; characters match when their lower-cased forms have the same capital, so İ, i and ı match one another, as do I and ı, and every ASCII and Turkish case pair |
| CityMappings.DottedAndDotlessIMatch | src/CityMappings.php:102 | İ counts as the same letter as i and as ı, and I as ı |
| CityMappings.FixNameIgnoresLowerCasing | src/CityMappings.php:102 | lower-casing a name first (İ to i, Ç to ç, …) does not change its normal form |
| CityMappings.FixNameIgnoresUpperCasing | src/CityMappings.php:102 | upper-casing a name first does not change its normal form |
| CityMappings.SameNormalForm | src/CityMappings.php:101-109 | names whose characters fold to the same capitals have equal normal forms |
| CityMappings.CityTableInverse | src/CityMappings.php:8-90 | each key of the table is made of A to Z only, and its id lies in 1..81 and leads back to that key through the inverse |
| CityMappings.CityIdsAreOneToEightyOne | src/CityMappings.php:8-90 | an integer is the value of some row exactly when it lies in 1..81 |
| CityMappings.CityIdsAreDistinct | src/CityMappings.php:8-90 | two keys with the same id are the same key |
| CityMappings.CityKeysAreFixedPoints | src/CityMappings.php:92-97 | every key is its own normal form, so getCityId(key) returns that key's row |
| CityMappings.IstanbulExample | src/CityMappings.php:42 | "İstanbul" and "ISTANBUL" both give 28 |
| CityMappings.IstanbulLowerCaseExample | src/CityMappings.php:42 | "istanbul" and "ıstanbul" both give 28 |
| CityMappings.UnknownCityExample | src/CityMappings.php:95-98 | "Atlantis" throws "City not found: ATLANTIS" |
| Turmob.InvoiceLineOf | src/TurmobClient.php:337-363 | a line gives back the product's eight fields unchanged, with MeasureUnitId 67, no ProductId and Deleted false |
| Turmob.BuildInvoice | src/TurmobClient.php:323-378 | the payload has one line per product, in order, each giving back its product with MeasureUnitId 67; it carries the recipient, the date and time, the five totals unchanged, currency TRY and company 180382 |
| Turmob.PayloadLinesRoundTrip | src/TurmobClient.php:337-363 | reading the products back from the payload's lines gives exactly the input products |
| Turmob.StrPosFrom | src/TurmobClient.php:169 | the position found is an occurrence of the needle with none before it (from the start position on), and None means no occurrence from there on |
| Turmob.StrPos | src/TurmobClient.php:169 | strpos finds a position exactly when the needle occurs, and it is the first occurrence |
| Turmob.LoginSucceeded | src/TurmobClient.php:169 | the login POST succeeded exactly when the status is 302 or the base URL occurs somewhere in the returned text |
| Turmob.TrimLeft | src/TurmobClient.php:392 | the result is a suffix of the input, everything dropped is a trim character, and it does not start with one |
| Turmob.TrimRight | src/TurmobClient.php:392 | the result is a prefix of the input, everything dropped is a trim character, and it does not end with one |
| Turmob.Trim | src/TurmobClient.php:392 | the result occurs in the input unchanged at TrimStart, just past the leading trim characters, with only trim characters before and after it, and it neither starts nor ends with one |
| Turmob.TrimRemovesPadding | src/TurmobClient.php:392 | trimming padding of trim characters from around a string that neither starts nor ends with one gives back exactly that string |
| Turmob.InvoiceIdFrom | src/TurmobClient.php:392-396 | an id is returned exactly when the trimmed reply is 16 characters long, and it is that trimmed reply |
| Turmob.InvoiceIdIsCleanInfix | src/TurmobClient.php:392-396 | a returned id is 16 characters that occur in the reply as they are, with no trim character at either end |
| Turmob.QuotedInvoiceId | src/TurmobClient.php:392-396 | a 16-character id sent quoted, or padded with a blank and CR LF, is returned as it is |
| Turmob.QuotedReplyOfOtherLength | src/TurmobClient.php:393-395 | a quoted reply of any other length gives None (the client's false) |
| Turmob.SanitizeSessionId | src/TurmobClient.php:85 | the result is no longer than the id and holds only [a-zA-Z0-9] |
| Turmob.SanitizeDistributes | src/TurmobClient.php:85 | sanitising a concatenation gives the concatenation of the sanitised parts, so the kept characters stay in their order |
| Turmob.SanitizeOneCharacter | src/TurmobClient.php:85 | a single letter or digit is kept, and any other character gives the empty string; with SanitizeDistributes this fixes the result for every id |
| Turmob.SanitizeKeepsAlnumId | src/TurmobClient.php:85 | an id made only of letters and digits is kept as it is |
| Turmob.SanitizeKeepsEveryAlnum | src/TurmobClient.php:85 | each letter and digit occurs in the result as many times as in the id |
| Turmob.SessionFileName | src/TurmobClient.php:85 | the session file name is TURMOB_ followed by only letters and digits, at most as many as the id has |
| Turmob.IsFresh | src/TurmobClient.php:89 | a session file is fresh exactly when it was written less than 86400 seconds (24 hours) before now |
| Turmob.ExpiryIsFinal | src/TurmobClient.php:89 | a file is fresh at the moment it is written, and once expired it stays expired |
| Turmob.Requested | src/TurmobClient.php:49-72 | a call that sent no request leaves the session directory as it was; once it has sent one, the cookie file (the session file, for a resumed session) exists with modification time `now`, and every other file keeps its time |
| Turmob.UseRefreshesSession | src/TurmobClient.php:89 | a session used by a call stays fresh for 24 hours from that call, whenever it was saved |
| Turmob.Hex | src/TurmobClient.php:105 | two lower-case hex digits per byte |
| Turmob.SavedIdNamesSavedFile | src/TurmobClient.php:84-118 | a saved session id is 32 hex digits that sanitising keeps, so loading it looks up exactly the file saveSession wrote |
| Turmob.PickRecipient | src/TurmobClient.php:189-203 | invalid JSON throws; no hit gives null; a single hit gives exactly its IdAlici; two or more hits throw "Multiple recipients found with this name"; a returned id comes from a one-hit list |
| Turmob.FirstCounty | src/TurmobClient.php:221-229 | the position found is a county whose fixed name matches, with no match before it; None means no county matches |
| Turmob.FirstCountyIsFirst | src/TurmobClient.php:222-229 | a matching position with no match before it is the one the search finds |
| Turmob.CountyOutcome | src/TurmobClient.php:220-231 | succeeds exactly when some county's fixed name equals the fixed county name, and then returns the given city id and the IdIlce of the first such county in list order; otherwise it throws "County not found: <fixed county> in city <city as given>" |
| Turmob.CountyLookup | src/TurmobClient.php:206-232 | an unknown city throws getCityId's exception; a failed county request throws the connection error; invalid JSON throws; otherwise CountyOutcome on the list, with the city id from the table, which lies in 1..81 |
| Turmob.CreateOutcome | src/TurmobClient.php:292-300 | a non-empty error (PHP empty(): "" and "0" count as empty) is thrown as the message, otherwise IdAlici is returned; a non-JSON reply gives null |
| Turmob.TurmobClient.constructor | src/TurmobClient.php:18-31 | resumes the session (logged in, its file as cookie file) exactly when the id is truthy and its file exists and is fresh; otherwise starts logged out with a new temporary cookie file that did not exist before (tempnam's guarantee, a precondition on the chosen name), and an expired session file is deleted on the way |
| Turmob.TurmobClient.LoadSession | src/TurmobClient.php:84-97 | loads exactly when the file TURMOB_+sanitised id exists and is younger than 24 h, then adopts it as cookie file; an expired file is deleted; nothing else changes |
| Turmob.TurmobClient.SaveSession | src/TurmobClient.php:99-118 | throws "Cannot save session: Not logged in" and changes nothing when logged out; otherwise returns the 32-digit hex id, copies the cookie file to TURMOB_+id, deletes the old file when it is a different one, and makes the new file the cookie file |
| Turmob.TurmobClient.ValidateSession | src/TurmobClient.php:120-131 | false and no request when logged out; otherwise one home-page request and true exactly when the status is 200; every request rewrites the cookie file at `now` (Requested). |
| Turmob.TurmobClient.Login | src/TurmobClient.php:150-175 | fetches the login page first; a missing token throws without posting; after the post, true exactly when the status is 302 or the body contains the base URL; loggedIn becomes old loggedIn or success, so a login never logs out; every request rewrites the cookie file at `now` (Requested). |
| Turmob.TurmobClient.FindRecipient | src/TurmobClient.php:181-204 | one search request for the name, then the 0 / 1 / many rule on the decoded reply; every request rewrites the cookie file at `now` (Requested). |
| Turmob.TurmobClient.GetCountyId | src/TurmobClient.php:206-232 | an unknown city throws getCityId's exception with no request; otherwise one county request, and the result is the first county in list order whose fixed name matches; every request rewrites the cookie file at `now` (Requested). |
| Turmob.TurmobClient.FindCounty | src/TurmobClient.php:221-229 | the foreach over the county list returns exactly FirstCounty: the first position whose fixed name matches, or None |
| Turmob.TurmobClient.GetInvoiceUser | src/TurmobClient.php:234-301 | throws with no request when logged out; a failed search, or one that finds the recipient, ends the call after that single request; only a search that finds no usable id goes on, and the rest of the requests and the result are those of the create branch (CreateBranch); every request rewrites the cookie file at `now` (Requested). |
| Turmob.TurmobClient.CreateRecipient | src/TurmobClient.php:245-300 | the create branch: the location lookup's exception and requests when it fails; otherwise the county request and the create page; a missing token throws; with a token, one recipient POST carrying the name, tax id, resolved county and city ids, city name, the fixed form fields and the token, whose reply decides the result; every request rewrites the cookie file at `now` (Requested). |
| Turmob.TurmobClient.SubmitRecipient | src/TurmobClient.php:248-300 | once the location is known: the create page; a missing token throws; with a token, one recipient POST with the resolved ids, the fixed fields and the token, whose reply decides the result (SubmitBranch); every request rewrites the cookie file at `now` (Requested). |
| Turmob.TurmobClient.CreateInvoice | src/TurmobClient.php:314-397 | throws with no request when logged out; a missing token throws after the quick-create page; otherwise posts BuildInvoice's payload with the token and returns the 16-character id or None; every request rewrites the cookie file at `now` (Requested). |
| Turmob.TurmobClient.Dispose | src/TurmobClient.php:33-38 | a client that is not logged in deletes its cookie file, if it exists; nothing else changes |

## Left out

- The cURL transport (`request`) is left out, along with TLS options, cookies inside the cookie file and redirects. Each request's outcome is a parameter.
- All requests of one call are taken to happen at the one time `now`. The cookie file's modification time after the call is that time, not the end of the last request.
- The login status check reads the status code and the text the transport returns. With `CURLOPT_HEADER` that text includes the response headers, so the model treats `body` as headers plus body.
- HTML and regex token extraction (`DOMDocument`, `preg_match`) are left out. A page arrives as the token it holds, or `None`.
- `json_decode`, `json_encode` and `http_build_query` are left out. Replies arrive decoded, and requests are datatypes rather than encoded strings.
- JSON values of an unexpected shape are left out. Examples are a non-array county list, a non-string `error` field, and a recipient list given as an object. Fields are typed as the client expects them.
- The clock and time zone (`time()`, `date`, `Europe/Istanbul`) are left out. The time is the parameter `now` and the invoice date and time are string parameters.
- `random_bytes` and `tempnam` are left out. Their results are parameters.
- `mkdir` of the session directory is left out. The session directory is the `SessionStore` object, holding file names and modification times but not file contents.
- Failures of file operations are left out, except the `copy` of a missing cookie file, which is modelled as creating nothing.
- Monetary amounts are opaque `real` values that the client only passes through. The null fields and always-empty arrays of the payload (DispatchList, AdditionalTaxes, ReceiverInboxTag, …) are not fields of the datatypes.
- CityMappings.FixName: upper-cases only ASCII letters and the Turkish letters ç ğ ı ö ş ü. It does not model the rest of Unicode's case mapping in `mb_strtoupper`.
- Turmob.TurmobClient.IsLoggedIn: the getter `isLoggedIn` is modelled as a function that returns the field, with no contract of its own.
- Turmob.InvoiceIdFrom: characters stand for bytes. `strlen` counts bytes, so a multi-byte reply is not modelled.
