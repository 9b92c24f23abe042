/**
 * City-name normalisation and the province table of the portal
 * (src/CityMappings.php). A name is folded to upper-case, unaccented form
 * before it is looked up, because the table keys are stored in that form.
 */
module CityMappings {
  import opened Wrappers

  // ---------------------------------------------------------------------
  // The table
  // ---------------------------------------------------------------------

  /**
   * The `$cities` table: the portal's city id of the province whose
   * upper-case unaccented name is `name`, or None when `name` is not a key.
   * The 81 rows are those of the source, grouped by initial letter and in
   * source order within a group.
   */
  function CityTable(name: string): Option<int> {
    if name == [] then None
    else match name[0]
      case 'A' => (match name
        case "ADANA" => Some(1)
        case "ADIYAMAN" => Some(12)
        case "AFYONKARAHISAR" => Some(23)
        case "AGRI" => Some(34)
        case "AMASYA" => Some(45)
        case "ANKARA" => Some(56)
        case "ANTALYA" => Some(67)
        case "ARTVIN" => Some(78)
        case "AYDIN" => Some(81)
        case "AKSARAY" => Some(65)
        case "ARDAHAN" => Some(73)
        case _ => None)
      case 'B' => (match name
        case "BALIKESIR" => Some(2)
        case "BILECIK" => Some(3)
        case "BINGOL" => Some(4)
        case "BITLIS" => Some(5)
        case "BOLU" => Some(6)
        case "BURDUR" => Some(7)
        case "BURSA" => Some(8)
        case "BAYBURT" => Some(66)
        case "BATMAN" => Some(70)
        case "BARTIN" => Some(72)
        case _ => None)
      case 'C' => (match name
        case "CANAKKALE" => Some(9)
        case "CANKIRI" => Some(10)
        case "CORUM" => Some(11)
        case _ => None)
      case 'D' => (match name
        case "DENIZLI" => Some(13)
        case "DIYARBAKIR" => Some(14)
        case "DUZCE" => Some(80)
        case _ => None)
      case 'E' => (match name
        case "EDIRNE" => Some(15)
        case "ELAZIG" => Some(16)
        case "ERZINCAN" => Some(17)
        case "ERZURUM" => Some(18)
        case "ESKISEHIR" => Some(19)
        case _ => None)
      case 'G' => (match name
        case "GAZIANTEP" => Some(20)
        case "GIRESUN" => Some(21)
        case "GUMUSHANE" => Some(22)
        case _ => None)
      case 'H' => (match name
        case "HAKKARI" => Some(24)
        case "HATAY" => Some(25)
        case _ => None)
      case 'I' => (match name
        case "ISPARTA" => Some(26)
        case "ISTANBUL" => Some(28)
        case "IZMIR" => Some(29)
        case "IGDIR" => Some(74)
        case _ => None)
      case 'K' => (match name
        case "KARS" => Some(30)
        case "KASTAMONU" => Some(31)
        case "KAYSERI" => Some(32)
        case "KIRKLARELI" => Some(33)
        case "KIRSEHIR" => Some(35)
        case "KOCAELI" => Some(36)
        case "KONYA" => Some(37)
        case "KUTAHYA" => Some(38)
        case "KAHRAMANMARAS" => Some(41)
        case "KARAMAN" => Some(68)
        case "KIRIKKALE" => Some(69)
        case "KARABUK" => Some(76)
        case "KILIS" => Some(77)
        case _ => None)
      case 'M' => (match name
        case "MERSIN" => Some(27)
        case "MALATYA" => Some(39)
        case "MANISA" => Some(40)
        case "MARDIN" => Some(42)
        case "MUGLA" => Some(43)
        case "MUS" => Some(44)
        case _ => None)
      case 'N' => (match name
        case "NEVSEHIR" => Some(46)
        case "NIGDE" => Some(47)
        case _ => None)
      case 'O' => (match name
        case "ORDU" => Some(48)
        case "OSMANIYE" => Some(79)
        case _ => None)
      case 'R' => (match name
        case "RIZE" => Some(49)
        case _ => None)
      case 'S' => (match name
        case "SAKARYA" => Some(50)
        case "SAMSUN" => Some(51)
        case "SIIRT" => Some(52)
        case "SINOP" => Some(53)
        case "SIVAS" => Some(54)
        case "SANLIURFA" => Some(60)
        case "SIRNAK" => Some(71)
        case _ => None)
      case 'T' => (match name
        case "TEKIRDAG" => Some(55)
        case "TOKAT" => Some(57)
        case "TRABZON" => Some(58)
        case "TUNCELI" => Some(59)
        case _ => None)
      case 'U' => (match name
        case "USAK" => Some(61)
        case _ => None)
      case 'V' => (match name
        case "VAN" => Some(62)
        case _ => None)
      case 'Y' => (match name
        case "YOZGAT" => Some(63)
        case "YALOVA" => Some(75)
        case _ => None)
      case 'Z' => (match name
        case "ZONGULDAK" => Some(64)
        case _ => None)
      case _ => None
  }

  /** The same 81 rows read backwards: the key of the row holding city id `id`. */
  ghost function CityName(id: int): Option<string> {
    match id
      case 1 => Some("ADANA")
      case 2 => Some("BALIKESIR")
      case 3 => Some("BILECIK")
      case 4 => Some("BINGOL")
      case 5 => Some("BITLIS")
      case 6 => Some("BOLU")
      case 7 => Some("BURDUR")
      case 8 => Some("BURSA")
      case 9 => Some("CANAKKALE")
      case 10 => Some("CANKIRI")
      case 11 => Some("CORUM")
      case 12 => Some("ADIYAMAN")
      case 13 => Some("DENIZLI")
      case 14 => Some("DIYARBAKIR")
      case 15 => Some("EDIRNE")
      case 16 => Some("ELAZIG")
      case 17 => Some("ERZINCAN")
      case 18 => Some("ERZURUM")
      case 19 => Some("ESKISEHIR")
      case 20 => Some("GAZIANTEP")
      case 21 => Some("GIRESUN")
      case 22 => Some("GUMUSHANE")
      case 23 => Some("AFYONKARAHISAR")
      case 24 => Some("HAKKARI")
      case 25 => Some("HATAY")
      case 26 => Some("ISPARTA")
      case 27 => Some("MERSIN")
      case 28 => Some("ISTANBUL")
      case 29 => Some("IZMIR")
      case 30 => Some("KARS")
      case 31 => Some("KASTAMONU")
      case 32 => Some("KAYSERI")
      case 33 => Some("KIRKLARELI")
      case 34 => Some("AGRI")
      case 35 => Some("KIRSEHIR")
      case 36 => Some("KOCAELI")
      case 37 => Some("KONYA")
      case 38 => Some("KUTAHYA")
      case 39 => Some("MALATYA")
      case 40 => Some("MANISA")
      case 41 => Some("KAHRAMANMARAS")
      case 42 => Some("MARDIN")
      case 43 => Some("MUGLA")
      case 44 => Some("MUS")
      case 45 => Some("AMASYA")
      case 46 => Some("NEVSEHIR")
      case 47 => Some("NIGDE")
      case 48 => Some("ORDU")
      case 49 => Some("RIZE")
      case 50 => Some("SAKARYA")
      case 51 => Some("SAMSUN")
      case 52 => Some("SIIRT")
      case 53 => Some("SINOP")
      case 54 => Some("SIVAS")
      case 55 => Some("TEKIRDAG")
      case 56 => Some("ANKARA")
      case 57 => Some("TOKAT")
      case 58 => Some("TRABZON")
      case 59 => Some("TUNCELI")
      case 60 => Some("SANLIURFA")
      case 61 => Some("USAK")
      case 62 => Some("VAN")
      case 63 => Some("YOZGAT")
      case 64 => Some("ZONGULDAK")
      case 65 => Some("AKSARAY")
      case 66 => Some("BAYBURT")
      case 67 => Some("ANTALYA")
      case 68 => Some("KARAMAN")
      case 69 => Some("KIRIKKALE")
      case 70 => Some("BATMAN")
      case 71 => Some("SIRNAK")
      case 72 => Some("BARTIN")
      case 73 => Some("ARDAHAN")
      case 74 => Some("IGDIR")
      case 75 => Some("YALOVA")
      case 76 => Some("KARABUK")
      case 77 => Some("KILIS")
      case 78 => Some("ARTVIN")
      case 79 => Some("OSMANIYE")
      case 80 => Some("DUZCE")
      case 81 => Some("AYDIN")
      case _ => None
  }

  // ---------------------------------------------------------------------
  // Upper-casing (mb_strtoupper), over ASCII and the Turkish letters only
  // ---------------------------------------------------------------------

  /** The capital of one character: ASCII a-z, dotless `ı` to `I`, and the five Turkish small letters. */
  function Upper(c: char): char {
    if 'a' <= c <= 'z' then (c as int - 32) as char
    else if c == 'ı' then 'I'
    else if c == 'ç' then 'Ç'
    else if c == 'ğ' then 'Ğ'
    else if c == 'ö' then 'Ö'
    else if c == 'ş' then 'Ş'
    else if c == 'ü' then 'Ü'
    else c
  }

  /** A small letter that Upper changes: ASCII a-z and the Turkish small letters. */
  predicate IsSmallLetter(c: char) {
    'a' <= c <= 'z' || c == 'ı' || c == 'ç' || c == 'ğ' || c == 'ö' || c == 'ş' || c == 'ü'
  }

  /**
   * Upper-casing a whole string, one character at a time: no small letter is
   * left, each small letter becomes its own capital (the one whose small
   * letter it is; both `i` and dotless `ı` become `I`, as outside a Turkish
   * locale), and every other character stays
   * where it was.
   */
  function ToUpper(s: string): (r: string)
    ensures |r| == |s|
    ensures forall i :: 0 <= i < |s| ==> !IsSmallLetter(r[i])
    ensures forall i :: 0 <= i < |s| && IsSmallLetter(s[i]) && s[i] != 'ı' ==> Lower(r[i]) == s[i]
    ensures forall i :: 0 <= i < |s| && s[i] == 'ı' ==> r[i] == 'I'
    ensures forall i :: 0 <= i < |s| && s[i] == 'i' ==> r[i] == 'I'
    ensures forall i :: 0 <= i < |s| && !IsSmallLetter(s[i]) ==> r[i] == s[i]
  {
    seq(|s|, i requires 0 <= i < |s| => Upper(s[i]))
  }

  /** The small letter of one capital, as a user would type it (`İ` to `i`). */
  function Lower(c: char): char {
    if 'A' <= c <= 'Z' then (c as int + 32) as char
    else if c == 'İ' then 'i'
    else if c == 'Ç' then 'ç'
    else if c == 'Ğ' then 'ğ'
    else if c == 'Ö' then 'ö'
    else if c == 'Ş' then 'ş'
    else if c == 'Ü' then 'ü'
    else c
  }

  function ToLower(s: string): (r: string)
    ensures |r| == |s|
  {
    seq(|s|, i requires 0 <= i < |s| => Lower(s[i]))
  }

  // ---------------------------------------------------------------------
  // str_replace with arrays of one-character needles
  // ---------------------------------------------------------------------

  /** The six Turkish capitals that fixName replaces, and their replacements, in array order. */
  const TurkishCapitals: string := ['İ', 'Ü', 'Ö', 'Ş', 'Ğ', 'Ç']
  const LatinCapitals: string := ['I', 'U', 'O', 'S', 'G', 'C']

  /** Every occurrence of the one-character needle `from` replaced by `to`. */
  function ReplaceChar(subject: string, from: char, to: char): (r: string)
    ensures |r| == |subject|
  {
    seq(|subject|, i requires 0 <= i < |subject| => if subject[i] == from then to else subject[i])
  }

  /** What the passes of StrReplace do to one character. */
  function ReplacePasses(search: string, replace: string, c: char): char
    requires |search| == |replace|
    decreases |search|
  {
    if search == [] then c
    else ReplacePasses(search[1..], replace[1..], if c == search[0] then replace[0] else c)
  }

  /**
   * str_replace with a search array and a replace array: one full pass over
   * the subject per (search, replace) pair, in array order. With one-character
   * needles it keeps the length and acts on each character separately.
   */
  function StrReplace(search: string, replace: string, subject: string): (r: string)
    requires |search| == |replace|
    ensures |r| == |subject|
    decreases |search|
  {
    if search == [] then subject
    else StrReplace(search[1..], replace[1..], ReplaceChar(subject, search[0], replace[0]))
  }

  /** With one-character needles, str_replace acts on each character separately, as the chain of passes. */
  lemma {:induction false} StrReplaceAt(search: string, replace: string, subject: string)
    requires |search| == |replace|
    ensures forall i :: 0 <= i < |subject| ==>
      StrReplace(search, replace, subject)[i] == ReplacePasses(search, replace, subject[i])
    decreases |search|
  {
    if search != [] {
      StrReplaceAt(search[1..], replace[1..], ReplaceChar(subject, search[0], replace[0]));
    }
  }

  // ---------------------------------------------------------------------
  // fixName and getCityId
  // ---------------------------------------------------------------------

  /** The accent fold: each Turkish capital to its Latin letter, every other character unchanged. */
  function Fold(c: char): char {
    if c == 'İ' then 'I'
    else if c == 'Ü' then 'U'
    else if c == 'Ö' then 'O'
    else if c == 'Ş' then 'S'
    else if c == 'Ğ' then 'G'
    else if c == 'Ç' then 'C'
    else c
  }

  /** The six replacement passes, taken together, are the accent fold. */
  lemma FoldIsReplacePasses(c: char)
    ensures ReplacePasses(TurkishCapitals, LatinCapitals, c) == Fold(c)
  {
    assert TurkishCapitals[1..][1..][1..][1..][1..][1..] == [];
  }

  /**
   * fixName: upper-case the name, then replace the six Turkish capitals by
   * their Latin letters. The result has the input's length and, position by
   * position, is the fold of the capital of the input character.
   */
  function FixName(name: string): (r: string)
    ensures |r| == |name|
    ensures forall i :: 0 <= i < |name| ==> r[i] == Fold(Upper(name[i]))
  {
    StrReplaceAt(TurkishCapitals, LatinCapitals, ToUpper(name));
    forall c ensures ReplacePasses(TurkishCapitals, LatinCapitals, c) == Fold(c) {
      FoldIsReplacePasses(c);
    }
    StrReplace(TurkishCapitals, LatinCapitals, ToUpper(name))
  }

  /**
   * getCityId: the city id of the province whose key is the fixed name; when
   * there is no such key, the exception "City not found: " with the fixed name.
   */
  function GetCityId(cityName: string): (r: Result<int>)
    ensures r.Ok? <==> CityTable(FixName(cityName)).Some?
    ensures r.Ok? ==> 1 <= r.value <= 81 && CityName(r.value) == Some(FixName(cityName))
    ensures r.Thrown? ==> r.message == "City not found: " + FixName(cityName)
  {
    var key := FixName(cityName);
    match CityTable(key)
    case Some(id) =>
      CityTableInverse(key);
      Ok(id)
    case None => Thrown("City not found: " + key)
  }

  // ---------------------------------------------------------------------
  // Properties of the normalisation
  // ---------------------------------------------------------------------

  /** A character in normal form: already upper-case and unaccented. */
  predicate IsNormal(c: char) {
    Fold(Upper(c)) == c
  }

  /** The output of fixName holds none of the six Turkish capitals, and only characters in normal form. */
  lemma FixNameOutputIsNormal(name: string)
    ensures forall i :: 0 <= i < |name| ==> FixName(name)[i] !in TurkishCapitals
    ensures forall i :: 0 <= i < |name| ==> IsNormal(FixName(name)[i])
  {
    forall i | 0 <= i < |name|
      ensures FixName(name)[i] !in TurkishCapitals && IsNormal(FixName(name)[i])
    {
      assert FixName(name)[i] == Fold(Upper(name[i]));
    }
  }

  /** A string of characters in normal form is its own normal form. */
  lemma {:induction false} NormalIsFixedPoint(s: string)
    requires forall i :: 0 <= i < |s| ==> IsNormal(s[i])
    ensures FixName(s) == s
  {
    forall i | 0 <= i < |s| ensures FixName(s)[i] == s[i] {
      assert IsNormal(s[i]);
    }
  }

  /** fixName is idempotent. */
  lemma {:induction false} FixNameIdempotent(name: string)
    ensures FixName(FixName(name)) == FixName(name)
  {
    FixNameOutputIsNormal(name);
    NormalIsFixedPoint(FixName(name));
  }

  /** Lower-casing a character first does not change its fold. */
  lemma FoldUpperIgnoresLower(c: char)
    ensures Fold(Upper(Lower(c))) == Fold(Upper(c))
  {
    if 'A' <= c <= 'Z' {
      assert Lower(c) == (c as int + 32) as char;
    }
  }

  /**
   * Two names that differ only in letter case: position by position, the
   * characters have the same capital once lower-cased, so İ, i and ı all
   * match one another, as do I and ı.
   */
  predicate SameUpToCase(a: string, b: string) {
    |a| == |b| && forall i :: 0 <= i < |a| ==> Upper(Lower(a[i])) == Upper(Lower(b[i]))
  }

  /** fixName is case-insensitive: names that differ only in letter case have the same normal form. */
  lemma {:induction false} FixNameCaseInsensitive(a: string, b: string)
    requires SameUpToCase(a, b)
    ensures FixName(a) == FixName(b)
  {
    forall i | 0 <= i < |a| ensures Fold(Upper(a[i])) == Fold(Upper(b[i])) {
      FoldUpperIgnoresLower(a[i]);
      FoldUpperIgnoresLower(b[i]);
    }
    SameNormalForm(a, b);
  }

  /** The dotted capital İ matches both small i and dotless ı, and I matches ı. */
  lemma DottedAndDotlessIMatch()
    ensures SameUpToCase("İ", "i") && SameUpToCase("İ", "ı") && SameUpToCase("I", "ı")
  {
  }

  /** Lower-casing a name first does not change its normal form. */
  lemma {:induction false} FixNameIgnoresLowerCasing(name: string)
    ensures FixName(ToLower(name)) == FixName(name)
  {
    forall i | 0 <= i < |name| ensures Fold(Upper(ToLower(name)[i])) == Fold(Upper(name[i])) {
      FoldUpperIgnoresLower(name[i]);
    }
    SameNormalForm(ToLower(name), name);
  }

  /** Upper-casing a name first does not change its normal form. */
  lemma {:induction false} FixNameIgnoresUpperCasing(name: string)
    ensures FixName(ToUpper(name)) == FixName(name)
  {
    forall i | 0 <= i < |name| ensures Fold(Upper(ToUpper(name)[i])) == Fold(Upper(name[i])) {
    }
    SameNormalForm(ToUpper(name), name);
  }

  // ---------------------------------------------------------------------
  // Properties of the table
  // ---------------------------------------------------------------------

  /** A string of the capital letters A to Z only. */
  predicate IsAsciiCapitals(s: string) {
    forall c :: c in s ==> 'A' <= c <= 'Z'
  }

  /** The 11 rows whose key starts with A. */
  lemma RowsFromA(k: string)
    requires CityTable(k).Some? && k[0] == 'A'
    ensures CityName(CityTable(k).value) == Some(k) && IsAsciiCapitals(k)
  {
  }

  /** The 10 rows whose key starts with B. */
  lemma RowsFromB(k: string)
    requires CityTable(k).Some? && k[0] == 'B'
    ensures CityName(CityTable(k).value) == Some(k) && IsAsciiCapitals(k)
  {
  }

  /** The 6 rows whose key starts with C to D. */
  lemma RowsFromCToD(k: string)
    requires CityTable(k).Some? && 'C' <= k[0] <= 'D'
    ensures CityName(CityTable(k).value) == Some(k) && IsAsciiCapitals(k)
  {
  }

  /** The 10 rows whose key starts with E to H. */
  lemma RowsFromEToH(k: string)
    requires CityTable(k).Some? && 'E' <= k[0] <= 'H'
    ensures CityName(CityTable(k).value) == Some(k) && IsAsciiCapitals(k)
  {
  }

  /** The 4 rows whose key starts with I. */
  lemma RowsFromI(k: string)
    requires CityTable(k).Some? && k[0] == 'I'
    ensures CityName(CityTable(k).value) == Some(k) && IsAsciiCapitals(k)
  {
  }

  /** The 13 rows whose key starts with K. */
  lemma RowsFromK(k: string)
    requires CityTable(k).Some? && k[0] == 'K'
    ensures CityName(CityTable(k).value) == Some(k) && IsAsciiCapitals(k)
  {
  }

  /** The 10 rows whose key starts with M to O. */
  lemma RowsFromMToO(k: string)
    requires CityTable(k).Some? && 'M' <= k[0] <= 'O'
    ensures CityName(CityTable(k).value) == Some(k) && IsAsciiCapitals(k)
  {
  }

  /** The 8 rows whose key starts with R to S. */
  lemma RowsFromRToS(k: string)
    requires CityTable(k).Some? && 'R' <= k[0] <= 'S'
    ensures CityName(CityTable(k).value) == Some(k) && IsAsciiCapitals(k)
  {
  }

  /** The 9 rows whose key starts with T to Z. */
  lemma RowsFromTToZ(k: string)
    requires CityTable(k).Some? && 'T' <= k[0] <= 'Z'
    ensures CityName(CityTable(k).value) == Some(k) && IsAsciiCapitals(k)
  {
  }

  /** Every key of the table is made of capitals A to Z, and its row holds an id whose row, read backwards, is that key. */
  lemma CityTableInverse(k: string)
    requires CityTable(k).Some?
    ensures 1 <= CityTable(k).value <= 81 && CityName(CityTable(k).value) == Some(k)
    ensures IsAsciiCapitals(k)
  {
    if k[0] <= 'A' {
      RowsFromA(k);
    } else if k[0] <= 'B' {
      RowsFromB(k);
    } else if k[0] <= 'D' {
      RowsFromCToD(k);
    } else if k[0] <= 'H' {
      RowsFromEToH(k);
    } else if k[0] <= 'I' {
      RowsFromI(k);
    } else if k[0] <= 'K' {
      RowsFromK(k);
    } else if k[0] <= 'O' {
      RowsFromMToO(k);
    } else if k[0] <= 'S' {
      RowsFromRToS(k);
    } else {
      RowsFromTToZ(k);
    }
  }

  /** The ids 1 to 12. */
  lemma IdsFrom1To12(id: int)
    requires 1 <= id <= 12
    ensures CityName(id).Some? && CityTable(CityName(id).value) == Some(id)
  {
  }

  /** The ids 13 to 24. */
  lemma IdsFrom13To24(id: int)
    requires 13 <= id <= 24
    ensures CityName(id).Some? && CityTable(CityName(id).value) == Some(id)
  {
  }

  /** The ids 25 to 36. */
  lemma IdsFrom25To36(id: int)
    requires 25 <= id <= 36
    ensures CityName(id).Some? && CityTable(CityName(id).value) == Some(id)
  {
  }

  /** The ids 37 to 48. */
  lemma IdsFrom37To48(id: int)
    requires 37 <= id <= 48
    ensures CityName(id).Some? && CityTable(CityName(id).value) == Some(id)
  {
  }

  /** The ids 49 to 60. */
  lemma IdsFrom49To60(id: int)
    requires 49 <= id <= 60
    ensures CityName(id).Some? && CityTable(CityName(id).value) == Some(id)
  {
  }

  /** The ids 61 to 72. */
  lemma IdsFrom61To72(id: int)
    requires 61 <= id <= 72
    ensures CityName(id).Some? && CityTable(CityName(id).value) == Some(id)
  {
  }

  /** The ids 73 to 81. */
  lemma IdsFrom73To81(id: int)
    requires 73 <= id <= 81
    ensures CityName(id).Some? && CityTable(CityName(id).value) == Some(id)
  {
  }

  /** Every id from 1 to 81 is the value of the row whose key is its name. */
  lemma CityIdsAreOneToEightyOne(id: int)
    ensures (exists k :: CityTable(k) == Some(id)) <==> 1 <= id <= 81
  {
    if 1 <= id <= 81 {
      if id <= 12 {
        IdsFrom1To12(id);
      } else if id <= 24 {
        IdsFrom13To24(id);
      } else if id <= 36 {
        IdsFrom25To36(id);
      } else if id <= 48 {
        IdsFrom37To48(id);
      } else if id <= 60 {
        IdsFrom49To60(id);
      } else if id <= 72 {
        IdsFrom61To72(id);
      } else {
        IdsFrom73To81(id);
      }
      assert CityTable(CityName(id).value) == Some(id);
    } else if k :| CityTable(k) == Some(id) {
      CityTableInverse(k);
    }
  }

  /** The table's values are pairwise distinct: two keys with the same id are the same key. */
  lemma CityIdsAreDistinct(k: string, k': string)
    requires CityTable(k).Some? && CityTable(k) == CityTable(k')
    ensures k == k'
  {
    CityTableInverse(k);
    CityTableInverse(k');
  }

  /** Every key is its own normal form, so getCityId reaches each of the 81 rows. */
  lemma CityKeysAreFixedPoints(k: string)
    requires CityTable(k).Some?
    ensures FixName(k) == k
    ensures GetCityId(k) == Ok(CityTable(k).value)
  {
    CityTableInverse(k);
    forall i | 0 <= i < |k| ensures IsNormal(k[i]) {
      assert k[i] in k;
    }
    NormalIsFixedPoint(k);
  }

  /** Two names whose characters fold to the same capitals have the same normal form. */
  lemma {:induction false} SameNormalForm(a: string, b: string)
    requires |a| == |b|
    requires forall i :: 0 <= i < |a| ==> Fold(Upper(a[i])) == Fold(Upper(b[i]))
    ensures FixName(a) == FixName(b)
  {
    forall i | 0 <= i < |a| ensures FixName(a)[i] == FixName(b)[i] {
    }
  }

  /** "İstanbul" and "ISTANBUL" both give city id 28. */
  lemma IstanbulExample()
    ensures GetCityId("İstanbul") == Ok(28)
    ensures GetCityId("ISTANBUL") == Ok(28)
  {
    CityKeysAreFixedPoints("ISTANBUL");
    SameNormalForm("İstanbul", "ISTANBUL");
  }

  /** So do the lower-case spellings "istanbul" and "ıstanbul". */
  lemma IstanbulLowerCaseExample()
    ensures GetCityId("istanbul") == Ok(28)
    ensures GetCityId("ıstanbul") == Ok(28)
  {
    IstanbulExample();
    DottedSmallIstanbul();
    DotlessSmallIstanbul();
  }

  /** "istanbul", with a dotted small i, has the normal form of "ISTANBUL". */
  lemma DottedSmallIstanbul()
    ensures FixName("istanbul") == FixName("ISTANBUL")
  {
    SameNormalForm("istanbul", "ISTANBUL");
  }

  /** "ıstanbul", with a dotless small ı, has the normal form of "ISTANBUL". */
  lemma DotlessSmallIstanbul()
    ensures FixName("ıstanbul") == FixName("ISTANBUL")
  {
    SameNormalForm("ıstanbul", "ISTANBUL");
  }

  /** A name that folds to no key, such as "Atlantis", is rejected with the fixed name in the message. */
  lemma UnknownCityExample()
    ensures GetCityId("Atlantis") == Thrown("City not found: ATLANTIS")
  {
    assert FixName("Atlantis") == "ATLANTIS";
  }
}
