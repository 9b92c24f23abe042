/**
 * The decision logic and session state of the portal client
 * (src/TurmobClient.php). The network, the clock, randomness and HTML/JSON
 * parsing are outside the model: every portal reply a method needs is a
 * parameter, already parsed, and every method returns the requests it issued,
 * in order, so that "no request is made" can be stated.
 */
module Turmob {
  import opened Wrappers
  import opened CityMappings

  // ---------------------------------------------------------------------
  // Constants
  // ---------------------------------------------------------------------

  const BaseUrl: string := "https://turmobefatura.luca.com.tr"

  /** A saved session expires 24 hours after its file was last written. */
  const SessionTtl: int := 24 * 3600

  /** Every session and cookie file in the session directory has this prefix. */
  const SessionPrefix: string := "TURMOB_"

  /** The portal's company id, sent with recipients and invoices alike. */
  const CompanyId: string := "180382"

  /** The portal's code for the "piece" measure unit, used on every invoice line. */
  const MeasureUnitPiece: int := 67

  // Messages of the exceptions the client throws.
  const NotLoggedInToSave: string := "Cannot save session: Not logged in"
  const NotLoggedInForUser: string := "Must be logged in to get/create invoice user"
  const NotLoggedInForInvoice: string := "Must be logged in to create an invoice"
  const LoginTokenMissing: string := "Could not find request verification token"
  const ScriptTokenMissing: string := "Could not find antiforgery token in JavaScript"
  const InvalidJsonMessage: string := "Invalid JSON response from server"
  const MultipleRecipientsMessage: string := "Multiple recipients found with this name"

  function ConnectionError(cause: string): string {
    "Connection error: " + cause
  }

  // ---------------------------------------------------------------------
  // Requests and replies
  // ---------------------------------------------------------------------

  /** A request the client sends to the portal. */
  datatype Request =
    | GetLoginPage                                        // GET  /Account/Login
    | PostLogin(vknTckn: string, password: string, token: string)
                                                          // POST /Account/Login, RememberMe=on, redirects off
    | GetHomePage                                         // GET  the base URL
    | SearchRecipients(q: string)                         // GET  /Invoice/GetRecipientList?q=..&companyId=undefined
    | GetCounties(cityId: int)                            // GET  /Invoice/GetCountyFromCityId?CityId=..
    | GetCreatePage                                       // GET  /Invoice/Create
    | PostRecipient(form: RecipientForm)                  // POST /Recipient/Create
    | GetCreateQuickPage                                  // GET  /Invoice/CreateQuick
    | PostInvoice(jsonData: InvoicePayload, token: string)
                                                          // POST /Invoice/Create

  /** What a request yields: the transport failed with a cause, or the portal replied. */
  datatype Exchange<+T> = ConnectionFailed(cause: string) | Received(reply: T)

  /** A JSON body after json_decode: a parse failure, or the decoded value. */
  datatype Decoded<+T> = InvalidJson | Json(value: T)

  /** Status code and body of a reply whose status the client inspects. */
  datatype HttpReply = HttpReply(code: int, body: string)

  /** One hit of the recipient search; `idAlici` is None when the field is absent or null. */
  datatype RecipientRow = RecipientRow(idAlici: Option<int>)

  /** One county of a city, as the portal lists it. */
  datatype County = County(idIlce: int, ilceAdi: string)

  /** The ids of a resolved (city, county) pair. */
  datatype Location = Location(cityId: int, countyId: int)

  /**
   * The decoded reply of the recipient-create POST: its `error` field ("" when
   * absent or null) and its `IdAlici` field.
   */
  datatype CreateReply = CreateReply(error: string, idAlici: Option<int>)

  /**
   * The recipient-create form, in field order: the call's own fields, the
   * fixed fields (always RecipientFormDefaults), and the page's token.
   */
  datatype RecipientForm = RecipientForm(
    aliciAdi: string, vknTckn: string, idIlce: int, idIl: int, ilAdi: string,
    fixedFields: seq<(string, string)>, token: string)

  /** The fields of the recipient-create form that are always the same. */
  const RecipientFormDefaults: seq<(string, string)> := [
    ("WebSite", ""), ("Telefon", ""), ("FaturaGonderimSekli", "2"), ("IdVergiDairesi", "-1"),
    ("Fax", ""), ("Email", ""), ("SokakAdi", ""), ("BinaNo", ""), ("PostaKodu", ""),
    ("AliciTipi", "2"), ("IdAliciTipi", "1"), ("IdFirma", CompanyId), ("Musterino", ""),
    ("IrsaliyeAlicisi", "false")
  ]

  /** PHP truthiness of a string: "" and "0" are false, and empty() holds exactly on those two. */
  predicate IsTruthy(s: string) {
    s != "" && s != "0"
  }

  // ---------------------------------------------------------------------
  // Invoice payload
  // ---------------------------------------------------------------------

  /** A monetary amount or rate; the client only passes these through. */
  type Amount = real

  /** A line item as the caller supplies it. */
  datatype Product = Product(
    discountAmount: Amount, discountRate: Amount, lineExtensionAmount: Amount,
    productName: string, quantity: Amount, unitPrice: Amount, vatAmount: Amount, vatRate: Amount)

  /** A line of the portal's invoice schema (its always-empty list fields are not modelled). */
  datatype InvoiceLine = InvoiceLine(
    productInvoiceModelId: int,
    discountAmount: Amount, discountRate: Amount, lineExtensionAmount: Amount,
    measureUnitId: int, productId: Option<int>, productName: string, quantity: Amount,
    taxExemptionReason: string, taxExemptionReasonCode: string,
    unitPrice: Amount, vatAmount: Amount, vatRate: Amount,
    deleted: bool, idMensei: int, idSiniflandirmaKodu: int, gTipNoArcvh: string)

  /** The `jsonData` of the invoice-create POST (its always-empty list fields are not modelled). */
  datatype InvoicePayload = InvoicePayload(
    ettn: string, invoiceId: string, recipientType: string, invoiceNumber: string,
    companyId: string, scenarioType: string, invoiceDate: string, invoiceTime: string,
    invoiceType: string, lastPaymentDate: string, idAlici: int, products: seq<InvoiceLine>,
    currencyCode: string, crossRate: int, taxExemptionReason: string, notes: seq<string>,
    sendingType: string, isFreeOfCharge: bool, kismiIadeMi: bool,
    totalLineExtensionAmount: Amount, totalVatAmount: Amount, totalTaxInclusiveAmount: Amount,
    totalDiscountAmount: Amount, totalPayableAmount: Amount, roundCounter: int)

  /** The caller's fields of an invoice line, read back. */
  function ProductOf(line: InvoiceLine): Product {
    Product(line.discountAmount, line.discountRate, line.lineExtensionAmount, line.productName,
            line.quantity, line.unitPrice, line.vatAmount, line.vatRate)
  }

  /** One product expanded into the portal's line schema. */
  function InvoiceLineOf(p: Product): (line: InvoiceLine)
    ensures ProductOf(line) == p
    ensures line.measureUnitId == MeasureUnitPiece && line.productId == None && !line.deleted
  {
    InvoiceLine(0, p.discountAmount, p.discountRate, p.lineExtensionAmount, MeasureUnitPiece, None,
                p.productName, p.quantity, "", "", p.unitPrice, p.vatAmount, p.vatRate,
                false, 0, 0, "")
  }

  /**
   * The invoice payload: fixed header codes, the date and Istanbul time of
   * submission, the recipient, one line per product in order, and the
   * caller's totals unchanged.
   */
  function BuildInvoice(
    idAlici: int, products: seq<Product>,
    totalLineExtensionAmount: Amount, totalVatAmount: Amount, totalTaxInclusiveAmount: Amount,
    totalDiscountAmount: Amount, totalPayableAmount: Amount,
    date: string, time: string): (inv: InvoicePayload)
    ensures |inv.products| == |products|
    ensures forall i :: 0 <= i < |products| ==>
      ProductOf(inv.products[i]) == products[i] && inv.products[i].measureUnitId == MeasureUnitPiece
    ensures inv.idAlici == idAlici && inv.invoiceDate == date && inv.invoiceTime == time
    ensures inv.totalLineExtensionAmount == totalLineExtensionAmount
    ensures inv.totalVatAmount == totalVatAmount
    ensures inv.totalTaxInclusiveAmount == totalTaxInclusiveAmount
    ensures inv.totalDiscountAmount == totalDiscountAmount
    ensures inv.totalPayableAmount == totalPayableAmount
    ensures inv.currencyCode == "TRY" && inv.companyId == CompanyId
  {
    var lines := seq(|products|, i requires 0 <= i < |products| => InvoiceLineOf(products[i]));
    InvoicePayload("", "0", "2", "", CompanyId, "0", date, time, "1", "", idAlici, lines,
                   "TRY", 0, "", [""], "2", false, false,
                   totalLineExtensionAmount, totalVatAmount, totalTaxInclusiveAmount,
                   totalDiscountAmount, totalPayableAmount, 0)
  }

  /** The products can be read back from the payload's lines, in order and unchanged. */
  lemma PayloadLinesRoundTrip(
    idAlici: int, products: seq<Product>, t1: Amount, t2: Amount, t3: Amount, t4: Amount, t5: Amount,
    date: string, time: string)
    ensures var lines := BuildInvoice(idAlici, products, t1, t2, t3, t4, t5, date, time).products;
      seq(|lines|, i requires 0 <= i < |lines| => ProductOf(lines[i])) == products
  {
    var lines := BuildInvoice(idAlici, products, t1, t2, t3, t4, t5, date, time).products;
    var back := seq(|lines|, i requires 0 <= i < |lines| => ProductOf(lines[i]));
    forall i | 0 <= i < |products| ensures back[i] == products[i] {
    }
  }

  // ---------------------------------------------------------------------
  // strpos and trim
  // ---------------------------------------------------------------------

  /** `needle` occurs in `haystack` starting at position `k`. */
  predicate OccursAt(haystack: string, needle: string, k: int) {
    0 <= k && k + |needle| <= |haystack| && haystack[k..k + |needle|] == needle
  }

  /** strpos from position `from` on: the first position of `needle` there, or None (PHP's false). */
  function StrPosFrom(haystack: string, needle: string, from: nat): (r: Option<nat>)
    ensures r.Some? ==> from <= r.value && OccursAt(haystack, needle, r.value)
    ensures r.Some? ==> forall k :: from <= k < r.value ==> !OccursAt(haystack, needle, k)
    ensures r.None? ==> forall k :: from <= k ==> !OccursAt(haystack, needle, k)
    decreases |haystack| - from
  {
    if from + |needle| > |haystack| then None
    else if haystack[from..from + |needle|] == needle then Some(from)
    else StrPosFrom(haystack, needle, from + 1)
  }

  /** strpos: the first position of `needle` in `haystack`, or None. */
  function StrPos(haystack: string, needle: string): (r: Option<nat>)
    ensures r.Some? <==> exists k :: OccursAt(haystack, needle, k)
    ensures r.Some? ==> OccursAt(haystack, needle, r.value)
    ensures r.Some? ==> forall k :: 0 <= k < r.value ==> !OccursAt(haystack, needle, k)
  {
    StrPosFrom(haystack, needle, 0)
  }

  /** The characters trim() strips from the invoice-create reply: " \t\n\r\0\x0B" and the double quote. */
  predicate IsTrimChar(c: char) {
    c == ' ' || c == '\t' || c == '\n' || c == '\r' || c == '\0' || c == '\U{B}' || c == '"'
  }

  /** Every character of `s` is a trim character. */
  predicate AllTrim(s: string) {
    forall k :: 0 <= k < |s| ==> IsTrimChar(s[k])
  }

  /** ltrim: drop the leading trim characters. */
  function TrimLeft(s: string): (r: string)
    ensures |r| <= |s| && r == s[|s| - |r|..]
    ensures AllTrim(s[..|s| - |r|])
    ensures r != [] ==> !IsTrimChar(r[0])
  {
    if s != [] && IsTrimChar(s[0]) then
      var r := TrimLeft(s[1..]);
      assert s[..|s| - |r|] == [s[0]] + s[1..][..|s| - 1 - |r|];
      r
    else s
  }

  /** rtrim: drop the trailing trim characters. */
  function TrimRight(s: string): (r: string)
    ensures |r| <= |s| && r == s[..|r|]
    ensures AllTrim(s[|r|..])
    ensures r != [] ==> !IsTrimChar(r[|r| - 1])
  {
    if s != [] && IsTrimChar(s[|s| - 1]) then
      var r := TrimRight(s[..|s| - 1]);
      assert s[|r|..] == s[..|s| - 1][|r|..] + [s[|s| - 1]];
      r
    else s
  }

  /** Where the text trim keeps starts in `s`: just past the leading trim characters. */
  function TrimStart(s: string): nat {
    |s| - |TrimLeft(s)|
  }

  /**
   * trim: strip trim characters from both ends. The result occurs in `s` as
   * it is at TrimStart(s), with only trim characters before and after it.
   */
  function Trim(s: string): (r: string)
    ensures OccursAt(s, r, TrimStart(s)) && AllTrim(s[..TrimStart(s)]) && AllTrim(s[TrimStart(s) + |r|..])
    ensures r != [] ==> !IsTrimChar(r[0]) && !IsTrimChar(r[|r| - 1])
  {
    var l := TrimLeft(s);
    var r := TrimRight(l);
    PrefixOfSuffix(s, l, r, TrimStart(s));
    r
  }

  /** A prefix `r` of the suffix `l` of `s` that starts at `i` occurs in `s` at `i`, and `l`'s rest is `s`'s rest. */
  lemma PrefixOfSuffix(s: string, l: string, r: string, i: nat)
    requires i <= |s| && l == s[i..] && |r| <= |l| && r == l[..|r|]
    ensures OccursAt(s, r, i) && s[i + |r|..] == l[|r|..]
    ensures r != [] ==> r[0] == l[0]
  {
    assert s[i..i + |r|] == l[..|r|];
  }

  /** Trim removes exactly the padding around a string that neither starts nor ends with a trim character. */
  lemma TrimRemovesPadding(pre: string, id: string, post: string)
    requires AllTrim(pre) && AllTrim(post)
    requires id != [] ==> !IsTrimChar(id[0]) && !IsTrimChar(id[|id| - 1])
    ensures Trim(pre + id + post) == id
  {
    if id == [] {
      assert pre + id + post == pre + post;
      TrimLeftAll(pre + post);
    } else {
      assert pre + id + post == pre + (id + post);
      TrimLeftPrefix(pre, id + post);
      TrimRightSuffix(id, post);
    }
  }

  lemma {:induction false} TrimLeftAll(s: string)
    requires AllTrim(s)
    ensures TrimLeft(s) == []
  {
    if s != [] {
      TrimLeftAll(s[1..]);
    }
  }

  lemma {:induction false} TrimLeftPrefix(pre: string, s: string)
    requires AllTrim(pre)
    requires s != [] && !IsTrimChar(s[0])
    ensures TrimLeft(pre + s) == s
  {
    if pre != [] {
      assert (pre + s)[1..] == pre[1..] + s;
      TrimLeftPrefix(pre[1..], s);
    }
  }

  lemma {:induction false} TrimRightSuffix(s: string, post: string)
    requires AllTrim(post)
    requires s != [] && !IsTrimChar(s[|s| - 1])
    ensures TrimRight(s + post) == s
  {
    if post != [] {
      var last := |post| - 1;
      assert (s + post)[..|s + post| - 1] == s + post[..last];
      TrimRightSuffix(s, post[..last]);
    } else {
      assert s + post == s;
    }
  }

  /**
   * The invoice id in the invoice-create reply: the trimmed reply when it is
   * exactly 16 characters long, otherwise None (the client's `false`).
   * Characters stand for bytes here, so the length is strlen's.
   */
  function InvoiceIdFrom(body: string): (r: Option<string>)
    ensures r.Some? <==> |Trim(body)| == 16
    ensures r.Some? ==> r.value == Trim(body)
  {
    var id := Trim(body);
    if |id| == 16 then Some(id) else None
  }

  /**
   * An invoice id the client returns is 16 characters that occur in the
   * reply as they are and neither start nor end with a trim character.
   */
  lemma InvoiceIdIsCleanInfix(body: string)
    requires InvoiceIdFrom(body).Some?
    ensures var id := InvoiceIdFrom(body).value;
      && |id| == 16 && !IsTrimChar(id[0]) && !IsTrimChar(id[15])
      && exists i :: OccursAt(body, id, i)
  {
    assert OccursAt(body, InvoiceIdFrom(body).value, TrimStart(body));
  }

  /** A 16-character id sent quoted, or padded with blanks and a line break, is returned as it is. */
  lemma QuotedInvoiceId(id: string)
    requires |id| == 16 && !IsTrimChar(id[0]) && !IsTrimChar(id[15])
    ensures InvoiceIdFrom("\"" + id + "\"") == Some(id)
    ensures InvoiceIdFrom(" " + id + "\r\n") == Some(id)
  {
    assert AllTrim("\"") && AllTrim(" ") && AllTrim("\r\n");
    TrimRemovesPadding("\"", id, "\"");
    TrimRemovesPadding(" ", id, "\r\n");
  }

  /** A quoted reply of any other length yields None. */
  lemma QuotedReplyOfOtherLength(id: string)
    requires |id| != 16
    requires id != [] ==> !IsTrimChar(id[0]) && !IsTrimChar(id[|id| - 1])
    ensures InvoiceIdFrom("\"" + id + "\"") == None
  {
    assert AllTrim("\"");
    TrimRemovesPadding("\"", id, "\"");
  }

  // ---------------------------------------------------------------------
  // Sessions
  // ---------------------------------------------------------------------

  predicate IsAlnum(c: char) {
    'a' <= c <= 'z' || 'A' <= c <= 'Z' || '0' <= c <= '9'
  }

  /** preg_replace('/[^a-zA-Z0-9]/', '', id): the letters and digits of the id, in order. */
  function SanitizeSessionId(id: string): (r: string)
    ensures |r| <= |id|
    ensures forall k :: 0 <= k < |r| ==> IsAlnum(r[k])
  {
    if id == [] then []
    else
      var rest := SanitizeSessionId(id[1..]);
      if IsAlnum(id[0]) then [id[0]] + rest else rest
  }

  /** An id made only of letters and digits is kept as it is. */
  lemma {:induction false} SanitizeKeepsAlnumId(id: string)
    requires forall k :: 0 <= k < |id| ==> IsAlnum(id[k])
    ensures SanitizeSessionId(id) == id
  {
    if id != [] {
      SanitizeKeepsAlnumId(id[1..]);
      assert id == [id[0]] + id[1..];
    }
  }

  /** Each letter and digit occurs in the sanitised id as often as in the id. */
  lemma {:induction false} SanitizeKeepsEveryAlnum(id: string, c: char)
    requires IsAlnum(c)
    ensures multiset(SanitizeSessionId(id))[c] == multiset(id)[c]
  {
    if id != [] {
      SanitizeKeepsEveryAlnum(id[1..], c);
      assert id == [id[0]] + id[1..];
    }
  }

  /** Sanitising works piece by piece: the sanitised parts of an id, concatenated, are the sanitised id. */
  lemma {:induction false} SanitizeDistributes(a: string, b: string)
    ensures SanitizeSessionId(a + b) == SanitizeSessionId(a) + SanitizeSessionId(b)
  {
    if a == [] {
      assert a + b == b;
    } else {
      var ab := a + b;
      assert ab != [] && ab[0] == a[0] && ab[1..] == a[1..] + b;
      SanitizeDistributes(a[1..], b);
      var head := if IsAlnum(a[0]) then [a[0]] else [];
      calc {
        SanitizeSessionId(ab);
        head + SanitizeSessionId(a[1..] + b);
        head + (SanitizeSessionId(a[1..]) + SanitizeSessionId(b));
        (head + SanitizeSessionId(a[1..])) + SanitizeSessionId(b);
        SanitizeSessionId(a) + SanitizeSessionId(b);
      }
    }
  }

  /** On one character, sanitising keeps a letter or digit and drops anything else. */
  lemma SanitizeOneCharacter(c: char)
    ensures SanitizeSessionId([c]) == if IsAlnum(c) then [c] else []
  {
  }

  /** The name, inside the session directory, of the file of session `id`: the prefix, then only letters and digits. */
  function SessionFileName(id: string): (r: string)
    ensures |SessionPrefix| <= |r| <= |SessionPrefix| + |id|
    ensures r[..|SessionPrefix|] == SessionPrefix
    ensures forall k :: |SessionPrefix| <= k < |r| ==> IsAlnum(r[k])
  {
    SessionPrefix + SanitizeSessionId(id)
  }

  /** A session file last written at `mtime` is still valid at time `now`: it is less than 24 hours old. */
  function IsFresh(mtime: int, now: int): (b: bool)
    ensures b <==> now < mtime + 86400
  {
    now - mtime < SessionTtl
  }

  /** A file is fresh when just written, and once expired it stays expired. */
  lemma ExpiryIsFinal(mtime: int, now: int, later: int)
    requires now <= later
    ensures IsFresh(mtime, mtime)
    ensures !IsFresh(mtime, now) ==> !IsFresh(mtime, later)
  {
  }

  /** A lower-case hexadecimal digit, as bin2hex writes them. */
  predicate IsHexDigit(c: char) {
    '0' <= c <= '9' || 'a' <= c <= 'f'
  }

  /** The digit of a nibble. */
  function HexDigit(n: int): (c: char)
    requires 0 <= n < 16
    ensures IsHexDigit(c)
  {
    if n < 10 then ('0' as int + n) as char else ('a' as int + n - 10) as char
  }

  /** bin2hex: two lower-case hex digits per byte, high nibble first. */
  function Hex(bytes: seq<bv8>): (r: string)
    ensures |r| == 2 * |bytes|
    ensures forall k :: 0 <= k < |r| ==> IsHexDigit(r[k])
  {
    if bytes == [] then []
    else
      var b := bytes[0] as int;
      [HexDigit(b / 16), HexDigit(b % 16)] + Hex(bytes[1..])
  }

  /**
   * The id saveSession hands out is 32 hex digits that sanitising keeps as
   * they are, so loading that id looks up exactly the file saveSession wrote.
   */
  lemma SavedIdNamesSavedFile(random: seq<bv8>)
    requires |random| == 16
    ensures |Hex(random)| == 32 && SanitizeSessionId(Hex(random)) == Hex(random)
    ensures SessionFileName(Hex(random)) == SessionPrefix + Hex(random)
  {
    var id := Hex(random);
    forall k | 0 <= k < |id| ensures IsAlnum(id[k]) {
      assert IsHexDigit(id[k]);
    }
    SanitizeKeepsAlnumId(id);
  }

  /** The session directory: the name of each file in it and the time it was last written. */
  class SessionStore {
    var files: map<string, int>

    constructor (files: map<string, int>)
      ensures this.files == files
    {
      this.files := files;
    }
  }

  // ---------------------------------------------------------------------
  // Decision rules
  // ---------------------------------------------------------------------

  /** The login POST succeeded: the portal redirected (302), or the body mentions the base URL. */
  function LoginSucceeded(reply: HttpReply): (b: bool)
    ensures b <==> reply.code == 302 || exists k :: OccursAt(reply.body, BaseUrl, k)
  {
    reply.code == 302 || StrPos(reply.body, BaseUrl).Some?
  }

  /**
   * findRecipient's rule on the decoded search result: no hit gives None,
   * one hit gives its IdAlici, two or more hits and invalid JSON throw.
   */
  function PickRecipient(found: Decoded<seq<RecipientRow>>): (r: Result<Option<int>>)
    ensures found.InvalidJson? ==> r == Thrown(InvalidJsonMessage)
    ensures found.Json? ==> (r.Ok? <==> |found.value| <= 1)
    ensures found.Json? && |found.value| >= 2 ==> r == Thrown(MultipleRecipientsMessage)
    ensures found.Json? && |found.value| == 1 ==> r == Ok(found.value[0].idAlici)
    ensures r.Ok? && r.value.Some? ==> found.Json? && found.value == [RecipientRow(r.value)]
    ensures found == Json([]) ==> r == Ok(None)
  {
    match found
    case InvalidJson => Thrown(InvalidJsonMessage)
    case Json(rows) =>
      if |rows| == 0 then Ok(None)
      else if |rows| == 1 then Ok(rows[0].idAlici)
      else Thrown(MultipleRecipientsMessage)
  }

  /** The position of the first county whose fixed name is `target`, or None. */
  function FirstCounty(counties: seq<County>, target: string): (r: Option<nat>)
    ensures r.Some? ==> r.value < |counties| && FixName(counties[r.value].ilceAdi) == target
    ensures r.Some? ==> forall j :: 0 <= j < r.value ==> FixName(counties[j].ilceAdi) != target
    ensures r.None? ==> forall j :: 0 <= j < |counties| ==> FixName(counties[j].ilceAdi) != target
  {
    if counties == [] then None
    else if FixName(counties[0].ilceAdi) == target then Some(0)
    else match FirstCounty(counties[1..], target)
      case None => None
      case Some(k) => Some(k + 1)
  }

  /**
   * getCountyId's outcome once the city id is known and the county list is
   * decoded: the first county, in list order, whose name matches up to case
   * and accents, or the "County not found" exception.
   */
  function CountyOutcome(cityName: string, cityId: int, countyName: string, counties: seq<County>): (r: Result<Location>)
    ensures r.Ok? <==> exists j :: 0 <= j < |counties| && FixName(counties[j].ilceAdi) == FixName(countyName)
    ensures r.Ok? ==> r.value.cityId == cityId
    ensures r.Ok? ==>
      && FirstCounty(counties, FixName(countyName)).Some?
      && r.value.countyId == counties[FirstCounty(counties, FixName(countyName)).value].idIlce
    ensures r.Thrown? ==> r.message == "County not found: " + FixName(countyName) + " in city " + cityName
  {
    match FirstCounty(counties, FixName(countyName))
    case Some(k) => Ok(Location(cityId, counties[k].idIlce))
    case None => Thrown("County not found: " + FixName(countyName) + " in city " + cityName)
  }
  /**
   * getCountyId's outcome: the city's id from the table (its exception when
   * the city is unknown), then the transport's and JSON's failures, then
   * CountyOutcome on the fetched list.
   */
  function CountyLookup(cityName: string, countyName: string, counties: Exchange<Decoded<seq<County>>>): (r: Result<Location>)
    ensures GetCityId(cityName).Thrown? ==> r == Thrown(GetCityId(cityName).message)
    ensures GetCityId(cityName).Ok? && counties.ConnectionFailed? ==> r == Thrown(ConnectionError(counties.cause))
    ensures GetCityId(cityName).Ok? && counties == Received(InvalidJson) ==> r == Thrown(InvalidJsonMessage)
    ensures r.Ok? ==> GetCityId(cityName).Ok? && r.value.cityId == GetCityId(cityName).value && 1 <= r.value.cityId <= 81
    ensures GetCityId(cityName).Ok? && counties.Received? && counties.reply.Json? ==>
      r == CountyOutcome(cityName, GetCityId(cityName).value, countyName, counties.reply.value)
  {
    match GetCityId(cityName)
    case Thrown(message) => Thrown(message)
    case Ok(cityId) =>
      match counties
      case ConnectionFailed(cause) => Thrown(ConnectionError(cause))
      case Received(InvalidJson) => Thrown(InvalidJsonMessage)
      case Received(Json(list)) => CountyOutcome(cityName, cityId, countyName, list)
  }

  /** The recipient search succeeded and found no usable id, so getInvoiceUser goes on to create one. */
  predicate SearchFoundNone(found: Exchange<Decoded<seq<RecipientRow>>>) {
    found.Received? && PickRecipient(found.reply) == Ok(None)
  }

  /**
   * The outcome and requests of getInvoiceUser's create branch: the location
   * lookup's exception and requests when it fails; otherwise the county
   * request, the create page, and, when the page holds a token, the
   * recipient POST with the resolved ids, whose reply decides the result.
   */
  ghost predicate CreateBranch(
    aliciAdi: string, vknTckn: string, ilceAdi: string, ilAdi: string,
    counties: Exchange<Decoded<seq<County>>>, createPage: Exchange<Option<string>>,
    created: Exchange<Decoded<CreateReply>>, r: Result<Option<int>>, issued: seq<Request>)
  {
    var location := CountyLookup(ilAdi, ilceAdi, counties);
    && (location.Thrown? ==>
          r == Thrown(location.message)
          && issued == (if GetCityId(ilAdi).Ok? then [GetCounties(GetCityId(ilAdi).value)] else []))
    && (location.Ok? ==>
          && |issued| >= 2 && issued[0] == GetCounties(location.value.cityId)
          && SubmitBranch(aliciAdi, vknTckn, ilAdi, location.value, createPage, created, r, issued[1..]))
  }

  /**
   * The outcome and requests of the create branch once the location is
   * known: the create page; a missing token throws; with a token, the
   * recipient POST with the resolved ids, whose reply decides the result.
   */
  ghost predicate SubmitBranch(
    aliciAdi: string, vknTckn: string, ilAdi: string, location: Location,
    createPage: Exchange<Option<string>>, created: Exchange<Decoded<CreateReply>>,
    r: Result<Option<int>>, issued: seq<Request>)
  {
    && |issued| >= 1 && issued[0] == GetCreatePage
    && (createPage.ConnectionFailed? ==> r == Thrown(ConnectionError(createPage.cause)) && |issued| == 1)
    && (createPage == Received(None) ==> r == Thrown(ScriptTokenMissing) && |issued| == 1)
    && (createPage.Received? && createPage.reply.Some? ==>
          issued == [GetCreatePage,
                     PostRecipient(RecipientForm(aliciAdi, vknTckn, location.countyId, location.cityId,
                                                 ilAdi, RecipientFormDefaults, createPage.reply.value))]
          && r == CreateOutcome(created))
  }

  /**
   * The outcome of the recipient-create reply: a non-empty `error` is thrown
   * as the message, otherwise the reply's IdAlici is returned; a reply that
   * is not JSON decodes to null and so gives None.
   */
  function CreateOutcome(created: Exchange<Decoded<CreateReply>>): (r: Result<Option<int>>)
    ensures created.ConnectionFailed? ==> r == Thrown(ConnectionError(created.cause))
    ensures created == Received(InvalidJson) ==> r == Ok(None)
    ensures created.Received? && created.reply.Json? ==>
      (r.Thrown? <==> IsTruthy(created.reply.value.error))
      && (r.Thrown? ==> r.message == created.reply.value.error)
      && (r.Ok? ==> r.value == created.reply.value.idAlici)
  {
    match created
    case ConnectionFailed(cause) => Thrown(ConnectionError(cause))
    case Received(InvalidJson) => Ok(None)
    case Received(Json(reply)) =>
      if IsTruthy(reply.error) then Thrown(reply.error) else Ok(reply.idAlici)
  }


  /**
   * The session directory after a call that sent `issued`. Every request
   * names the cookie file as the transport's cookie jar, and the transport
   * writes the jar back when the request ends, failed or not: once a call
   * has sent a request, the cookie file exists with modification time `now`,
   * and no other file changes.
   */
  function Requested(files: map<string, int>, cookieFile: string, issued: seq<Request>, now: int): (r: map<string, int>)
    ensures issued == [] ==> r == files
    ensures issued != [] ==> cookieFile in r && r[cookieFile] == now
    ensures r.Keys == if issued == [] then files.Keys else files.Keys + {cookieFile}
    ensures forall f :: f in files && f != cookieFile ==> f in r && r[f] == files[f]
  {
    if issued == [] then files else files[cookieFile := now]
  }

  /**
   * A session in use stays fresh: after a call that sent a request, the
   * session file counts as fresh for 24 hours from that call, whenever it
   * was saved.
   */
  lemma UseRefreshesSession(files: map<string, int>, cookieFile: string, issued: seq<Request>, now: int, later: int)
    requires issued != [] && now <= later < now + SessionTtl
    ensures cookieFile in Requested(files, cookieFile, issued, now)
    ensures IsFresh(Requested(files, cookieFile, issued, now)[cookieFile], later)
  {
  }

  // ---------------------------------------------------------------------
  // The client
  // ---------------------------------------------------------------------

  class TurmobClient {
    /** Set by a successful login or a loaded session; nothing ever clears it. */
    var loggedIn: bool
    /** The name, inside the session directory, of the cookie file the transport reads and writes. */
    var cookieFile: string
    /** The session directory. */
    const store: SessionStore

    /**
     * A client resumes the session `sessionId` when the id is truthy and its
     * file is fresh; otherwise it starts logged out with a new temporary
     * cookie file, `SessionPrefix + tempSuffix` (tempnam's choice), written at `now`.
     */
    constructor (store: SessionStore, sessionId: string, now: int, tempSuffix: string)
      requires SessionPrefix + tempSuffix !in store.files  // tempnam creates a file of a new name
      modifies store
      ensures this.store == store
      ensures var key := SessionFileName(sessionId);
        var resumed := IsTruthy(sessionId) && key in old(store.files) && IsFresh(old(store.files)[key], now);
        && loggedIn == resumed
        && (resumed ==> cookieFile == key && store.files == old(store.files))
        && (!resumed ==> cookieFile == SessionPrefix + tempSuffix && cookieFile !in old(store.files))
        && (!resumed && IsTruthy(sessionId) && key in old(store.files) ==>
              store.files == (old(store.files) - {key})[SessionPrefix + tempSuffix := now])
        && (!resumed && !(IsTruthy(sessionId) && key in old(store.files)) ==>
              store.files == old(store.files)[SessionPrefix + tempSuffix := now])
    {
      this.store := store;
      loggedIn := false;
      cookieFile := "";
      new;
      var resumed := false;
      if IsTruthy(sessionId) {
        resumed := LoadSession(sessionId, now);
      }
      if resumed {
        loggedIn := true;
      } else {
        cookieFile := SessionPrefix + tempSuffix;
        store.files := store.files[cookieFile := now];
      }
    }

    /**
     * loadSession: adopt the file of session `sessionId` as the cookie file
     * when it exists and is fresh; delete it when it exists but has expired.
     */
    method LoadSession(sessionId: string, now: int) returns (loaded: bool)
      modifies this`cookieFile, store`files
      ensures var key := SessionFileName(sessionId);
        && loaded == (key in old(store.files) && IsFresh(old(store.files)[key], now))
        && cookieFile == (if loaded then key else old(cookieFile))
        && store.files == (if key in old(store.files) && !loaded then old(store.files) - {key} else old(store.files))
    {
      var key := SessionFileName(sessionId);
      loaded := false;
      if key in store.files {
        if now - store.files[key] < SessionTtl {
          cookieFile := key;
          loaded := true;
        } else {
          store.files := store.files - {key};
        }
      }
    }

    /**
     * saveSession: only when logged in. The session id is the hex form of 16
     * random bytes; the cookie file is copied to that session's file (copy
     * fails silently when the cookie file is gone), the old cookie file is
     * deleted, and the new file becomes the cookie file.
     */
    method SaveSession(random: seq<bv8>, now: int) returns (r: Result<string>)
      requires |random| == 16
      modifies this`cookieFile, store`files
      ensures !loggedIn ==>
        r == Thrown(NotLoggedInToSave) && cookieFile == old(cookieFile) && store.files == old(store.files)
      ensures loggedIn ==>
        r == Ok(Hex(random)) && |r.value| == 32 && cookieFile == SessionPrefix + r.value
      ensures loggedIn ==> var saved := SessionPrefix + Hex(random);
        var copied := if old(cookieFile) in old(store.files) then old(store.files)[saved := now] else old(store.files);
        store.files == (if old(cookieFile) != saved && old(cookieFile) in copied then copied - {old(cookieFile)} else copied)
    {
      if !loggedIn {
        return Thrown(NotLoggedInToSave);
      }
      var sessionId := Hex(random);
      var saved := SessionPrefix + sessionId;
      if cookieFile in store.files {
        store.files := store.files[saved := now];
      }
      if cookieFile != saved && cookieFile in store.files {
        store.files := store.files - {cookieFile};
      }
      cookieFile := saved;
      r := Ok(sessionId);
    }

    /** validateSession: false without a request when logged out; otherwise whether the home page answers 200. */
    method ValidateSession(home: Exchange<int>, now: int) returns (r: Result<bool>, issued: seq<Request>)
      modifies store`files
      ensures store.files == Requested(old(store.files), cookieFile, issued, now)
      ensures !loggedIn ==> r == Ok(false) && issued == []
      ensures loggedIn ==> issued == [GetHomePage]
      ensures loggedIn && home.Received? ==> r == Ok(home.reply == 200)
      ensures loggedIn && home.ConnectionFailed? ==> r == Thrown(ConnectionError(home.cause))
    {
      if !loggedIn {
        return Ok(false), [];
      }
      issued := [GetHomePage];
      store.files := store.files[cookieFile := now];
      match home
      case ConnectionFailed(cause) => r := Thrown(ConnectionError(cause));
      case Received(code) => r := Ok(code == 200);
    }

    /**
     * login: fetch the login page for its verification token, post the
     * credentials, and log in when the post succeeded. A failed login leaves
     * the state as it was; a login never logs the client out.
     */
    method Login(vknTckn: string, password: string, loginPage: Exchange<Option<string>>, reply: Exchange<HttpReply>,
                 now: int)
      returns (r: Result<bool>, issued: seq<Request>)
      modifies this`loggedIn, store`files
      ensures store.files == Requested(old(store.files), cookieFile, issued, now)
      ensures loggedIn == (old(loggedIn) || r == Ok(true))
      ensures |issued| >= 1 && issued[0] == GetLoginPage
      ensures loginPage.ConnectionFailed? ==> r == Thrown(ConnectionError(loginPage.cause)) && issued == [GetLoginPage]
      ensures loginPage == Received(None) ==> r == Thrown(LoginTokenMissing) && issued == [GetLoginPage]
      ensures loginPage.Received? && loginPage.reply.Some? ==>
        issued == [GetLoginPage, PostLogin(vknTckn, password, loginPage.reply.value)]
        && r == (match reply
                 case ConnectionFailed(cause) => Thrown(ConnectionError(cause))
                 case Received(post) => Ok(LoginSucceeded(post)))
    {
      issued := [GetLoginPage];
      store.files := store.files[cookieFile := now];
      match loginPage
      case ConnectionFailed(cause) =>
        return Thrown(ConnectionError(cause)), issued;
      case Received(found) =>
        if found.None? {
          return Thrown(LoginTokenMissing), issued;
        }
        issued := issued + [PostLogin(vknTckn, password, found.value)];
        match reply
        case ConnectionFailed(cause) =>
          r := Thrown(ConnectionError(cause));
        case Received(post) =>
          if post.code == 302 || StrPos(post.body, BaseUrl).Some? {
            loggedIn := true;
            r := Ok(true);
          } else {
            r := Ok(false);
          }
    }

    /** isLoggedIn: the flag as it stands. */
    function IsLoggedIn(): bool
      reads this
    {
      loggedIn
    }

    /** findRecipient: search the portal for the name and apply the count rule. */
    method FindRecipient(aliciAdi: string, found: Exchange<Decoded<seq<RecipientRow>>>, now: int)
      returns (r: Result<Option<int>>, issued: seq<Request>)
      modifies store`files
      ensures store.files == Requested(old(store.files), cookieFile, issued, now)
      ensures issued == [SearchRecipients(aliciAdi)]
      ensures found.ConnectionFailed? ==> r == Thrown(ConnectionError(found.cause))
      ensures found.Received? ==> r == PickRecipient(found.reply)
    {
      issued := [SearchRecipients(aliciAdi)];
      store.files := store.files[cookieFile := now];
      match found
      case ConnectionFailed(cause) => r := Thrown(ConnectionError(cause));
      case Received(decoded) => r := PickRecipient(decoded);
    }

    /**
     * getCountyId: resolve the city through the table (no request when it is
     * unknown), fetch its counties, and return the first county, in list
     * order, whose name matches up to case and accents.
     */
    method GetCountyId(cityName: string, countyName: string, counties: Exchange<Decoded<seq<County>>>, now: int)
      returns (r: Result<Location>, issued: seq<Request>)
      modifies store`files
      ensures store.files == Requested(old(store.files), cookieFile, issued, now)
      ensures r == CountyLookup(cityName, countyName, counties)
      ensures GetCityId(cityName).Thrown? ==> r == Thrown(GetCityId(cityName).message) && issued == []
      ensures GetCityId(cityName).Ok? ==> issued == [GetCounties(GetCityId(cityName).value)]
    {
      var city := GetCityId(cityName);
      if city.Thrown? {
        return Thrown(city.message), [];
      }
      var cityId := city.value;
      issued := [GetCounties(cityId)];
      store.files := store.files[cookieFile := now];
      if counties.ConnectionFailed? {
        return Thrown(ConnectionError(counties.cause)), issued;
      }
      if counties.reply.InvalidJson? {
        return Thrown(InvalidJsonMessage), issued;
      }
      var list := counties.reply.value;
      var target := FixName(countyName);
      var found := FindCounty(list, target);
      if found.Some? {
        return Ok(Location(cityId, list[found.value].idIlce)), issued;
      }
      r := Thrown("County not found: " + target + " in city " + cityName);
    }

    /** The foreach of getCountyId: the first county, in list order, whose fixed name is `target`. */
    static method FindCounty(counties: seq<County>, target: string) returns (k: Option<nat>)
      ensures k == FirstCounty(counties, target)
    {
      var i := 0;
      while i < |counties|
        invariant 0 <= i <= |counties|
        invariant forall j :: 0 <= j < i ==> FixName(counties[j].ilceAdi) != target
      {
        if FixName(counties[i].ilceAdi) == target {
          FirstCountyIsFirst(counties, target, i);
          return Some(i);
        }
        i := i + 1;
      }
      return None;
    }

    /**
     * getInvoiceUser: only when logged in. An existing recipient found by
     * name is returned at once; otherwise the recipient is created
     * (CreateRecipient) after the search request.
     */
    method GetInvoiceUser(
      aliciAdi: string, vknTckn: string, ilceAdi: string, ilAdi: string,
      found: Exchange<Decoded<seq<RecipientRow>>>,
      counties: Exchange<Decoded<seq<County>>>,
      createPage: Exchange<Option<string>>,
      created: Exchange<Decoded<CreateReply>>, now: int)
      returns (r: Result<Option<int>>, issued: seq<Request>)
      modifies store`files
      ensures store.files == Requested(old(store.files), cookieFile, issued, now)
      ensures !loggedIn ==> r == Thrown(NotLoggedInForUser) && issued == []
      ensures loggedIn ==> |issued| >= 1 && issued[0] == SearchRecipients(aliciAdi)
      // a failed search, or one that found the recipient, ends the call
      ensures loggedIn && found.ConnectionFailed? ==>
        r == Thrown(ConnectionError(found.cause)) && issued == [SearchRecipients(aliciAdi)]
      ensures loggedIn && found.Received? && PickRecipient(found.reply) != Ok(None) ==>
        r == PickRecipient(found.reply) && issued == [SearchRecipients(aliciAdi)]
      // otherwise the create branch follows the search
      ensures loggedIn && SearchFoundNone(found) ==>
        CreateBranch(aliciAdi, vknTckn, ilceAdi, ilAdi, counties, createPage, created, r, issued[1..])
    {
      if !loggedIn {
        return Thrown(NotLoggedInForUser), [];
      }
      var existing, searched := FindRecipient(aliciAdi, found, now);
      issued := searched;
      if existing.Thrown? {
        return Thrown(existing.message), issued;
      }
      if existing.value.Some? {
        return existing, issued;
      }
      var rest;
      r, rest := CreateRecipient(aliciAdi, vknTckn, ilceAdi, ilAdi, counties, createPage, created, now);
      issued := issued + rest;
      assert issued[1..] == rest;
    }

    /**
     * The create branch of getInvoiceUser: resolve the location, fetch the
     * create page for its token, post the recipient with the resolved ids and
     * the fixed form fields, and let the create reply decide.
     */
    method CreateRecipient(
      aliciAdi: string, vknTckn: string, ilceAdi: string, ilAdi: string,
      counties: Exchange<Decoded<seq<County>>>,
      createPage: Exchange<Option<string>>,
      created: Exchange<Decoded<CreateReply>>, now: int)
      returns (r: Result<Option<int>>, issued: seq<Request>)
      modifies store`files
      ensures store.files == Requested(old(store.files), cookieFile, issued, now)
      ensures CreateBranch(aliciAdi, vknTckn, ilceAdi, ilAdi, counties, createPage, created, r, issued)
    {
      var location;
      location, issued := GetCountyId(ilAdi, ilceAdi, counties, now);
      if location.Thrown? {
        return Thrown(location.message), issued;
      }
      var rest;
      r, rest := SubmitRecipient(aliciAdi, vknTckn, ilAdi, location.value, createPage, created, now);
      issued := issued + rest;
      assert issued[1..] == rest;
    }

    /**
     * The create branch once the location is resolved: fetch the create page
     * for its token, post the recipient with the resolved ids and the fixed
     * form fields, and let the create reply decide.
     */
    method SubmitRecipient(
      aliciAdi: string, vknTckn: string, ilAdi: string, location: Location,
      createPage: Exchange<Option<string>>,
      created: Exchange<Decoded<CreateReply>>, now: int)
      returns (r: Result<Option<int>>, issued: seq<Request>)
      modifies store`files
      ensures store.files == Requested(old(store.files), cookieFile, issued, now)
      ensures SubmitBranch(aliciAdi, vknTckn, ilAdi, location, createPage, created, r, issued)
    {
      issued := [GetCreatePage];
      store.files := store.files[cookieFile := now];
      if createPage.ConnectionFailed? {
        return Thrown(ConnectionError(createPage.cause)), issued;
      }
      if createPage.reply.None? {
        return Thrown(ScriptTokenMissing), issued;
      }
      var form := RecipientForm(aliciAdi, vknTckn, location.countyId, location.cityId,
                                ilAdi, RecipientFormDefaults, createPage.reply.value);
      issued := issued + [PostRecipient(form)];
      r := CreateOutcome(created);
    }

    /**
     * createInvoice: only when logged in. Fetch the quick-create page for its
     * token, post the invoice payload, and return the invoice id the reply
     * carries, or None (PHP false) when the trimmed reply is not 16 characters.
     */
    method CreateInvoice(
      idAlici: int, products: seq<Product>,
      totalLineExtensionAmount: Amount, totalVatAmount: Amount, totalTaxInclusiveAmount: Amount,
      totalDiscountAmount: Amount, totalPayableAmount: Amount,
      date: string, time: string,
      quickPage: Exchange<Option<string>>, response: Exchange<string>, now: int)
      returns (r: Result<Option<string>>, issued: seq<Request>)
      modifies store`files
      ensures store.files == Requested(old(store.files), cookieFile, issued, now)
      ensures !loggedIn ==> r == Thrown(NotLoggedInForInvoice) && issued == []
      ensures loggedIn ==> |issued| >= 1 && issued[0] == GetCreateQuickPage
      ensures loggedIn && quickPage.ConnectionFailed? ==> r == Thrown(ConnectionError(quickPage.cause)) && |issued| == 1
      ensures loggedIn && quickPage == Received(None) ==> r == Thrown(ScriptTokenMissing) && |issued| == 1
      ensures loggedIn && quickPage.Received? && quickPage.reply.Some? ==>
        var payload := BuildInvoice(idAlici, products, totalLineExtensionAmount, totalVatAmount,
                                    totalTaxInclusiveAmount, totalDiscountAmount, totalPayableAmount, date, time);
        issued == [GetCreateQuickPage, PostInvoice(payload, quickPage.reply.value)]
        && r == match response
                case ConnectionFailed(cause) => Thrown(ConnectionError(cause))
                case Received(body) => Ok(InvoiceIdFrom(body))
      ensures r.Ok? && r.value.Some? ==> |r.value.value| == 16
    {
      if !loggedIn {
        return Thrown(NotLoggedInForInvoice), [];
      }
      issued := [GetCreateQuickPage];
      store.files := store.files[cookieFile := now];
      if quickPage.ConnectionFailed? {
        return Thrown(ConnectionError(quickPage.cause)), issued;
      }
      if quickPage.reply.None? {
        return Thrown(ScriptTokenMissing), issued;
      }
      var token := quickPage.reply.value;
      var payload := BuildInvoice(idAlici, products, totalLineExtensionAmount, totalVatAmount,
                                  totalTaxInclusiveAmount, totalDiscountAmount, totalPayableAmount, date, time);
      issued := issued + [PostInvoice(payload, token)];
      match response
      case ConnectionFailed(cause) =>
        r := Thrown(ConnectionError(cause));
      case Received(body) =>
        var invoiceId := Trim(body);
        if |invoiceId| != 16 {
          r := Ok(None);
        } else {
          r := Ok(Some(invoiceId));
        }
    }

    /** The destructor: a client that is not logged in deletes its cookie file. */
    method Dispose()
      modifies store`files
      ensures store.files == if !loggedIn && cookieFile in old(store.files) then old(store.files) - {cookieFile} else old(store.files)
    {
      if !loggedIn && cookieFile in store.files {
        store.files := store.files - {cookieFile};
      }
    }
  }

  /** A position where the name matches, with no match before it, is the one FirstCounty finds. */
  lemma {:induction false} FirstCountyIsFirst(counties: seq<County>, target: string, i: nat)
    requires i < |counties| && FixName(counties[i].ilceAdi) == target
    requires forall j :: 0 <= j < i ==> FixName(counties[j].ilceAdi) != target
    ensures FirstCounty(counties, target) == Some(i)
  {
    if i > 0 {
      FirstCountyIsFirst(counties[1..], target, i - 1);
    }
  }
}
