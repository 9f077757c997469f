/**
  From an error value to the text a user may see: extraction from backend payloads, and
  replacement of anything that names the retired single-portfolio endpoints.
 */
module ClientErrors {
  import opened Wrappers
  import opened JsText
  import opened JsNumber

  /** A JSON value; numbers are kept as rendered. */
  datatype Json =
    | Null
    | Bool(b: bool)
    | Number(text: string)
    | Str(s: string)
    | Arr(items: seq<Json>)
    | Obj(fields: seq<Field>)

  datatype Field = Field(key: string, value: Json)

  datatype ErrorValue =
    | ApiError(message: string, status: int, details: Option<Json>)
    | PlainError(message: string)
    | NotAnError

  const OBJECT_TEXT := "[object Object]"
  const REQUEST_FAILED := "Ошибка запроса"
  const RELOAD :=
    "Не удалось загрузить " + "выбранный портфель. " + "Обновите страницу."

  // ---- extraction ----

  function Lookup(fields: seq<Field>, key: string): Option<Json> {
    if fields == [] then None
    else if fields[0].key == key then Some(fields[0].value)
    else Lookup(fields[1..], key)
  }

  function Fallback(status: int): string {
    if status > 0 then REQUEST_FAILED + " (" + Decimal(status) + ")" else REQUEST_FAILED
  }

  function OwnLabel(leaf: string): Option<string> {
    match leaf
    case "name" => Some("Название")
    case "description" => Some("Описание")
    case "cash_rub" => Some("Кэш")
    case "instrument_id" => Some("Инструмент")
    case "units" => Some("Количество")
    case "lots" => Some("Лоты")
    case "average_price" => Some("Средняя цена")
    case "amount" => Some("Сумма")
    case "price" => Some("Цена")
    case "operation_type" => Some("Тип операции")
    case "occurred_at" => Some("Дата операции")
    case _ => None
  }

  function NativeCode(name: string): string {
    "function " + name + "() { [native code] }"
  }

  /** The label table is an ordinary object, so members of Object.prototype are found in it too. */
  function InheritedLabel(leaf: string): Option<string> {
    if leaf == "__proto__" then Some(OBJECT_TEXT)
    else if leaf == "constructor" then Some(NativeCode("Object"))
    else if leaf in INHERITED_METHODS then Some(NativeCode(leaf))
    else None
  }

  const INHERITED_METHODS: seq<string> :=
    ["toString", "toLocaleString", "valueOf", "hasOwnProperty", "isPrototypeOf", "propertyIsEnumerable",
     "__defineGetter__", "__defineSetter__", "__lookupGetter__", "__lookupSetter__"]

  function LabelText(leaf: string): string {
    if OwnLabel(leaf).Some? then OwnLabel(leaf).value
    else if InheritedLabel(leaf).Some? then InheritedLabel(leaf).value
    else leaf
  }

  /** The name a validation item's location ends in, unless that is the body itself. */
  function Leaf(loc: Option<Json>): Option<string> {
    if loc.None? || !loc.value.Arr? || loc.value.items == [] then None
    else
      var leaf := loc.value.items[|loc.value.items| - 1];
      if !leaf.Str? || leaf.s == "body" then None else Some(leaf.s)
  }

  function FieldLabel(loc: Option<Json>): Option<string> {
    match Leaf(loc) case Some(leaf) => Some(LabelText(leaf)) case None => None
  }

  /** The text of a string field, or "". */
  function RawField(fields: seq<Field>, key: string): string {
    match Lookup(fields, key) case Some(Str(s)) => s case _ => ""
  }

  function TextField(fields: seq<Field>, key: string): string {
    Trim(RawField(fields, key))
  }

  function FormatItem(item: Json): Option<string> {
    if !item.Obj? then None
    else
      var msg := TextField(item.fields, "msg");
      if msg == "" then None
      else
        match FieldLabel(Lookup(item.fields, "loc"))
        case Some(field) => Some(if field != "" then field + ": " + msg else msg)
        case None => Some(msg)
  }

  function FormatItems(items: seq<Json>): seq<string> {
    if items == [] then []
    else
      var rest := FormatItems(items[1..]);
      match FormatItem(items[0])
      case Some(part) => [part] + rest
      case None => rest
  }

  function Join(parts: seq<string>, sep: string): string {
    if parts == [] then "" else if |parts| == 1 then parts[0] else parts[0] + sep + Join(parts[1..], sep)
  }

  function OrFallback(text: string, status: int): string {
    if text != "" then text else Fallback(status)
  }

  function ExtractDetail(detail: Json, status: int): string {
    match detail
    case Str(s) => OrFallback(Trim(s), status)
    case Arr(items) => var parts := FormatItems(items); if parts != [] then Join(parts, "; ") else Fallback(status)
    case Obj(fields) =>
      if TextField(fields, "message") != "" then TextField(fields, "message")
      else OrFallback(TextField(fields, "code"), status)
    case _ => Fallback(status)
  }

  function Detail(payload: Json): Json {
    if payload.Obj? && Lookup(payload.fields, "detail").Some? then Lookup(payload.fields, "detail").value else payload
  }

  function Extract(payload: Json, status: int): string {
    match payload
    case Str(s) => OrFallback(Trim(s), status)
    case Arr(_) => ExtractDetail(payload, status)
    case Obj(_) => ExtractDetail(Detail(payload), status)
    case _ => Fallback(status)
  }

  // ---- retired endpoints ----

  function Lower(s: string): string {
    seq(|s|, i requires 0 <= i < |s| => LowerChar(s[i]))
  }

  /** Case folding of a regular expression's `i` flag; only ASCII letters fold to ASCII letters. */
  function LowerChar(c: char): char {
    if 'A' <= c <= 'Z' then (c as int + 32) as char else c
  }

  /** The retired patterns, in lower case; each is matched ignoring case. */
  const PATTERNS: seq<string> :=
    ["primary_retired", "manual-portfolios/primary", "personal-portfolios/primary", "singleton",
     "getpersonalprimary", "activatepersonaljournal"]

  predicate Mentions(raw: string) {
    exists p | p in PATTERNS :: Includes(Lower(raw), p)
  }

  function UserSafe(raw: string): string {
    if Mentions(raw) then RELOAD else raw
  }

  // ---- JSON.stringify ----

  function HexDigit(n: int): char
    requires 0 <= n < 16
  {
    if n < 10 then (n + '0' as int) as char else (n - 10 + 'a' as int) as char
  }

  function EscapeChar(c: char): string {
    if c == '\"' then "\\\""
    else if c == '\\' then "\\\\"
    else if c as int >= 32 then [c]
    else if c as int == 8 then "\\b"
    else if c as int == 9 then "\\t"
    else if c as int == 10 then "\\n"
    else if c as int == 12 then "\\f"
    else if c as int == 13 then "\\r"
    else "\\u00" + [HexDigit(c as int / 16), HexDigit(c as int % 16)]
  }

  function Escape(s: string): string {
    if s == "" then "" else EscapeChar(s[0]) + Escape(s[1..])
  }

  function Quote(s: string): string {
    "\"" + Escape(s) + "\""
  }

  function Stringify(j: Json): string
    decreases j, 0
  {
    match j
    case Null => "null"
    case Bool(b) => if b then "true" else "false"
    case Number(text) => text
    case Str(s) => Quote(s)
    case Arr(items) => "[" + StringifyItems(items) + "]"
    case Obj(fields) => "{" + StringifyFields(fields) + "}"
  }

  function StringifyItems(items: seq<Json>): string
    decreases items, |items|
  {
    if items == [] then ""
    else if |items| == 1 then Stringify(items[0])
    else Stringify(items[0]) + "," + StringifyItems(items[1..])
  }

  function StringifyFields(fields: seq<Field>): string
    decreases fields, |fields|
  {
    if fields == [] then ""
    else
      var first := Quote(fields[0].key) + (":" + Stringify(fields[0].value));
      if |fields| == 1 then first else first + "," + StringifyFields(fields[1..])
  }

  function SafeStringify(details: Option<Json>): string {
    match details
    case None => ""
    case Some(Null) => ""
    case Some(Str(s)) => s
    case Some(j) => Stringify(j)
  }

  // ---- the message shown ----

  function OwnMessage(message: string, status: int): string {
    if Includes(message, OBJECT_TEXT)
    then REQUEST_FAILED + " (" + (if status != 0 then Decimal(status) else "?") + ")"
    else message
  }

  function ErrorMessage(e: ErrorValue): string {
    match e
    case ApiError(message, status, details) =>
      if Mentions(message + " " + SafeStringify(details)) then RELOAD
      else if details.Some? && !Includes(Extract(details.value, status), OBJECT_TEXT) then
        UserSafe(Extract(details.value, status))
      else UserSafe(OwnMessage(message, status))
    case PlainError(message) => UserSafe(message)
    case NotAnError => UserSafe("Unexpected error")
  }

  // ---- nothing retired is shown ----

  /** Neither an ASCII letter nor an opening bracket. */
  predicate Neutral(c: char) {
    !('a' <= LowerChar(c) <= 'z') && c != '['
  }

  lemma NeutralIsClean(s: string)
    requires forall c | c in s :: Neutral(c)
    ensures !Mentions(s) && !Includes(s, OBJECT_TEXT)
  {
    forall p, i | p in PATTERNS && 0 <= i <= |Lower(s)| ensures !OccursAt(p, Lower(s), i) {
      assert p != "" && 'a' <= p[0] <= 'z';
      if i < |s| {
        assert Neutral(s[i]) && Lower(s)[i] != p[0];
      }
    }
    forall i | 0 <= i <= |s| ensures !OccursAt(OBJECT_TEXT, s, i) {
      if i < |s| {
        assert Neutral(s[i]) && s[i] != OBJECT_TEXT[0];
      }
    }
  }

  lemma ReloadIsNeutral()
    ensures forall c | c in RELOAD :: Neutral(c)
  {
    var a, b := "Не удалось загрузить ", "выбранный портфель. ";
    var d := "Обновите страницу.";
    assert forall c | c in a :: Neutral(c);
    assert forall c | c in b :: Neutral(c);
    assert forall c | c in d :: Neutral(c);
    assert RELOAD == a + b + d;
  }

  lemma ReloadIsClean()
    ensures !Mentions(RELOAD) && !Includes(RELOAD, OBJECT_TEXT)
  {
    ReloadIsNeutral();
    NeutralIsClean(RELOAD);
  }

  /** For every error value, the text shown matches none of the retired patterns. */
  lemma ShownTextNeverMentionsRetired(e: ErrorValue)
    ensures !Mentions(ErrorMessage(e))
  {
    hide Mentions;
    hide Extract;
    hide OwnMessage;
    ReloadIsClean();
  }

  // ---- no object text ----

  lemma NumberedIsClean(suffix: string)
    requires suffix == "?" || exists n: int :: suffix == Decimal(n)
    ensures !Includes(REQUEST_FAILED + " (" + suffix + ")", OBJECT_TEXT)
    ensures !Mentions(REQUEST_FAILED + " (" + suffix + ")")
  {
    if n: int :| suffix == Decimal(n) {
      DecimalNeutral(n);
    }
    assert forall c | c in REQUEST_FAILED :: Neutral(c);
    var s := REQUEST_FAILED + " (" + suffix + ")";
    assert forall c | c in s :: c in REQUEST_FAILED || c in " (" || c in suffix || c in ")";
    NeutralIsClean(s);
  }

  lemma DecimalNeutral(n: int)
    ensures forall c | c in Decimal(n) :: Neutral(c)
  {
    var ds := Digits(if n < 0 then -n else n);
    assert forall c | c in ds :: IsDigit(c) && Neutral(c);
  }

  /** For every API error, the text shown never contains a coerced object. */
  lemma ApiErrorNeverShowsObjectText(message: string, status: int, details: Option<Json>)
    ensures !Includes(ErrorMessage(ApiError(message, status, details)), OBJECT_TEXT)
  {
    hide Mentions;
    hide Extract;
    hide Includes;
    ReloadIsClean();
    NumberedIsClean(if status != 0 then Decimal(status) else "?");
  }

  /**
    What is shown for an API error that mentions nothing retired: the text extracted from its
    details, if it has any that give no coerced object; else its own message, or the status line
    if that is a coerced object.
   */
  lemma ApiErrorShows(message: string, status: int, details: Option<Json>)
    requires !Mentions(message + " " + SafeStringify(details))
    ensures
      var shown := ErrorMessage(ApiError(message, status, details));
      if details.Some? && !Includes(Extract(details.value, status), "[object Object]") then
        shown == if Mentions(Extract(details.value, status)) then RELOAD else Extract(details.value, status)
      else if Includes(message, "[object Object]") then
        shown == "Ошибка запроса (" + (if status != 0 then Decimal(status) else "?") + ")"
      else shown == if Mentions(message) then RELOAD else message
  {
    hide Mentions;
    hide Extract;
    hide Includes;
    hide SafeStringify;
    hide Decimal;
    NumberedIsClean(if status != 0 then Decimal(status) else "?");
    StatusLineIs(if status != 0 then Decimal(status) else "?");
  }

  lemma StatusLineIs(suffix: string)
    ensures REQUEST_FAILED + " (" + suffix + ")" == "Ошибка запроса (" + suffix + ")"
  {
    assert REQUEST_FAILED + " (" == "Ошибка запроса (";
  }

  /** What is shown for other values: an error's own message unless it mentions something retired, and a fixed text. */
  lemma OtherErrorShows(message: string)
    ensures ErrorMessage(PlainError(message)) == if Mentions(message) then RELOAD else message
    ensures ErrorMessage(NotAnError) == "Unexpected error"
  {
    assert !Mentions("Unexpected error") by {
      NotMentioned();
    }
  }

  lemma NotMentioned()
    ensures !Mentions("Unexpected error")
  {
    hide PATTERNS;
    var low := Lower("Unexpected error");
    assert 'a' !in low && 'i' !in low;
    forall p, i | p in PATTERNS && 0 <= i <= |low| ensures !OccursAt(p, low, i) {
      PatternLetters(p);
      assert OccursAt(p, low, i) ==> forall c | c in p :: c in low;
    }
  }

  lemma PatternLetters(p: string)
    requires p in PATTERNS
    ensures 'a' in p || 'i' in p
  {
    assert PATTERNS[0][2] == 'i' && PATTERNS[1][1] == 'a' && PATTERNS[2][6] == 'a';
    assert PATTERNS[3][1] == 'i' && PATTERNS[4][9] == 'a' && PATTERNS[5][0] == 'a';
  }

  /** Each of the retired names is recognised, in any case of its letters and inside any text. */
  lemma RetiredNamesAreMentioned(before: string, name: string, written: string, after: string)
    requires name in ["PRIMARY_RETIRED", "manual-portfolios/primary", "personal-portfolios/primary", "singleton",
                      "getPersonalPrimary", "activatePersonalJournal"]
    requires Lower(written) == Lower(name)
    ensures Mentions(before + written + after)
  {
    RetiredName(name);
    PieceMentions(written);
    MentionsInside(before, written, after);
  }

  lemma RetiredName(name: string)
    requires name in ["PRIMARY_RETIRED", "manual-portfolios/primary", "personal-portfolios/primary", "singleton",
                      "getPersonalPrimary", "activatePersonalJournal"]
    ensures Lower(name) in PATTERNS
  {
    LowerOf("PRIMARY_RETIRED", PATTERNS[0]);
    LowerOf("manual-portfolios/primary", PATTERNS[1]);
    LowerOf("personal-portfolios/primary", PATTERNS[2]);
    LowerOf("singleton", PATTERNS[3]);
    LowerOf("getPersonalPrimary", PATTERNS[4]);
    LowerOf("activatePersonalJournal", PATTERNS[5]);
    hide Lower;
  }

  lemma LowerOf(name: string, low: string)
    requires |name| == |low| && forall i | 0 <= i < |name| :: LowerChar(name[i]) == low[i]
    ensures Lower(name) == low
  {
  }

  /** Other errors are not guarded: theirs does exactly when the message does and is not replaced. */
  lemma PlainErrorShowsObjectTextIff(message: string)
    ensures Includes(ErrorMessage(PlainError(message)), OBJECT_TEXT)
            <==> Includes(message, OBJECT_TEXT) && !Mentions(message)
  {
    hide Mentions;
    hide Includes;
    ReloadIsClean();
  }

  // ---- extraction ----

  lemma FormattedNotEmpty(item: Json)
    ensures FormatItem(item).Some? ==> FormatItem(item).value != ""
  {
    hide Trim;
    hide LabelText;
  }

  lemma {:induction false} FormattedPartsNotEmpty(items: seq<Json>)
    ensures forall part | part in FormatItems(items) :: part != ""
  {
    hide FormatItem;
    if items != [] {
      FormattedNotEmpty(items[0]);
      FormattedPartsNotEmpty(items[1..]);
    }
  }

  /** On any JSON payload and status the extracted message is not empty. */
  lemma ExtractNeverEmpty(payload: Json, status: int)
    ensures Extract(payload, status) != ""
  {
    var detail := if payload.Obj? then Detail(payload) else payload;
    if detail.Arr? {
      FormattedPartsNotEmpty(detail.items);
      var parts := FormatItems(detail.items);
      assert parts != [] ==> parts[0] in parts;
    }
  }

  lemma {:induction false} JoinKeeps(parts: seq<string>, sep: string, i: nat)
    requires i < |parts|
    ensures Infix(parts[i], Join(parts, sep))
  {
    if |parts| == 1 {
      assert parts[0] == "" + parts[0] + "";
    } else if i == 0 {
      assert Join(parts, sep) == "" + parts[0] + (sep + Join(parts[1..], sep));
    } else {
      JoinKeeps(parts[1..], sep, i - 1);
      assert Join(parts, sep) == parts[0] + sep + Join(parts[1..], sep) + "";
      assert Infix(Join(parts[1..], sep), Join(parts, sep));
      InfixTransitive(parts[i], Join(parts[1..], sep), Join(parts, sep));
    }
  }

  lemma FormatItemKeeps(item: Json)
    requires item.Obj? && TextField(item.fields, "msg") != ""
    ensures FormatItem(item).Some? && Infix(TextField(item.fields, "msg"), FormatItem(item).value)
  {
    hide TextField;
    var msg := TextField(item.fields, "msg");
    assert msg == "" + msg + "";
    match FieldLabel(Lookup(item.fields, "loc"))
    case Some(field) => assert field + ": " + msg == (field + ": ") + msg + "";
    case None =>
  }

  lemma {:induction false} FormatItemsKeep(items: seq<Json>, item: Json)
    requires item in items && FormatItem(item).Some?
    ensures FormatItem(item).value in FormatItems(items)
  {
    hide FormatItem;
    if items[0] != item {
      FormatItemsKeep(items[1..], item);
    }
  }

  lemma MessageIsShown(items: seq<Json>, status: int, item: Json)
    requires item in items && item.Obj? && TextField(item.fields, "msg") != ""
    ensures Infix(TextField(item.fields, "msg"), ExtractDetail(Arr(items), status))
  {
    hide TextField;
    hide FormatItem;
    hide Infix;
    hide Join;
    FormatItemKeeps(item);
    FormatItemsKeep(items, item);
    var parts := FormatItems(items);
    var i :| 0 <= i < |parts| && parts[i] == FormatItem(item).value;
    JoinKeeps(parts, "; ", i);
    InfixTransitive(TextField(item.fields, "msg"), parts[i], Join(parts, "; "));
  }

  // ---- what the extraction reads ----

  /** The keys of an object are distinct, as `JSON.parse` leaves them. */
  ghost predicate Distinct(fields: seq<Field>) {
    forall i, j | 0 <= i < j < |fields| :: fields[i].key != fields[j].key
  }

  ghost predicate HasKey(fields: seq<Field>, key: string) {
    exists f | f in fields :: f.key == key
  }

  lemma {:induction false} LookupFinds(fields: seq<Field>, f: Field)
    requires Distinct(fields) && f in fields
    ensures Lookup(fields, f.key) == Some(f.value)
  {
    var j :| 0 <= j < |fields| && fields[j] == f;
    if j > 0 {
      assert fields[1..][j - 1] == f;
      LookupFinds(fields[1..], f);
    }
  }

  lemma {:induction false} LookupMisses(fields: seq<Field>, key: string)
    requires !HasKey(fields, key)
    ensures Lookup(fields, key) == None
  {
    if fields != [] {
      assert fields[0] in fields;
      LookupMisses(fields[1..], key);
    }
  }

  /** "Ошибка запроса", with the status if there is one. */
  function NoMessage(status: int): string {
    if status > 0 then "Ошибка запроса (" + Decimal(status) + ")" else "Ошибка запроса"
  }

  lemma FallbackIsNoMessage(status: int)
    ensures Fallback(status) == NoMessage(status)
  {
    if status > 0 {
      assert REQUEST_FAILED + " (" == "Ошибка запроса (";
    }
  }

  /**
    A payload that is a text, or an object whose `detail` is one, gives that text, trimmed; a
    blank one the status line.
   */
  lemma TextIsExtracted(payload: Json, text: string, status: int)
    requires payload == Str(text)
             || (payload.Obj? && Distinct(payload.fields) && Field("detail", Str(text)) in payload.fields)
    ensures Extract(payload, status) == if Trim(text) != "" then Trim(text) else NoMessage(status)
  {
    hide Trim;
    hide Decimal;
    hide Distinct;
    FallbackIsNoMessage(status);
    if payload.Obj? {
      LookupFinds(payload.fields, Field("detail", Str(text)));
    }
  }

  /** No validation message is lost, be the array the payload or its `detail`: each appears in the text. */
  lemma EveryValidationMessageIsShown(payload: Json, items: seq<Json>, status: int, item: Json, msg: string)
    requires payload == Arr(items)
             || (payload.Obj? && Distinct(payload.fields) && Field("detail", Arr(items)) in payload.fields)
    requires item in items && item.Obj? && Distinct(item.fields)
    requires Field("msg", Str(msg)) in item.fields && Trim(msg) != ""
    ensures Infix(Trim(msg), Extract(payload, status))
  {
    hide Trim;
    hide Infix;
    hide FormatItems;
    hide Join;
    LookupFinds(item.fields, Field("msg", Str(msg)));
    MessageIsShown(items, status, item);
    if payload.Obj? {
      LookupFinds(payload.fields, Field("detail", Arr(items)));
    }
  }

  lemma {:induction false} PartsSplit(a: seq<Json>, b: seq<Json>)
    ensures FormatItems(a + b) == FormatItems(a) + FormatItems(b)
  {
    hide FormatItem;
    if a == [] {
      assert a + b == b;
    } else {
      assert (a + b)[1..] == a[1..] + b;
      PartsSplit(a[1..], b);
    }
  }

  lemma {:induction false} JoinSplits(a: seq<string>, b: seq<string>, sep: string)
    requires a != [] && b != []
    ensures Join(a + b, sep) == Join(a, sep) + sep + Join(b, sep)
  {
    assert (a + b)[1..] == a[1..] + b;
    if |a| > 1 {
      JoinSplits(a[1..], b, sep);
      var rest := Join(a[1..], sep);
      assert a[0] + sep + (rest + sep + Join(b, sep)) == a[0] + sep + rest + sep + Join(b, sep);
    } else {
      assert a[1..] + b == b;
    }
  }

  /** Validation errors come in the order of the array, separated by "; ". */
  lemma ValidationErrorsInOrder(a: seq<Json>, b: seq<Json>, status: int)
    requires FormatItems(a) != [] && FormatItems(b) != []
    ensures Extract(Arr(a + b), status) == Extract(Arr(a), status) + "; " + Extract(Arr(b), status)
    ensures Extract(Obj([Field("detail", Arr(a + b))]), status) == Extract(Arr(a + b), status)
  {
    hide FormatItems;
    hide Join;
    PartsSplit(a, b);
    JoinSplits(FormatItems(a), FormatItems(b), "; ");
    assert [Field("detail", Arr(a + b))][0].key == "detail";
  }

  /** The trimmed text of `key`, if it has one that is not blank. */
  ghost predicate Says(fields: seq<Field>, key: string, text: string) {
    text != "" && exists raw :: Field(key, Str(raw)) in fields && Trim(raw) == text
  }

  lemma SaysIsTextField(fields: seq<Field>, key: string)
    requires Distinct(fields)
    ensures forall text :: Says(fields, key, text) <==> text != "" && text == TextField(fields, key)
    ensures (forall text :: !Says(fields, key, text)) <==> TextField(fields, key) == ""
  {
    hide Trim;
    forall text | Says(fields, key, text) ensures text == TextField(fields, key) {
      var raw :| Field(key, Str(raw)) in fields && Trim(raw) == text;
      LookupFinds(fields, Field(key, Str(raw)));
    }
    if TextField(fields, key) != "" {
      FieldIsThere(fields, key);
    }
  }

  lemma FieldIsThere(fields: seq<Field>, key: string)
    requires TextField(fields, key) != ""
    ensures Says(fields, key, TextField(fields, key))
  {
    assert Trim("") == "";
    LookupIsIn(fields, key);
    assert Trim(Lookup(fields, key).value.s) == TextField(fields, key);
  }

  lemma {:induction false} LookupIsIn(fields: seq<Field>, key: string)
    requires Lookup(fields, key).Some?
    ensures Field(key, Lookup(fields, key).value) in fields
  {
    if fields[0].key != key {
      LookupIsIn(fields[1..], key);
    }
  }

  /**
    An object, be it the payload without a `detail` or its `detail`, gives its `message` if that
    is not blank, else its `code` if that is not, else the status line.
   */
  lemma ObjectIsRead(payload: Json, fields: seq<Field>, status: int)
    requires payload.Obj? && Distinct(payload.fields) && Distinct(fields)
    requires (payload.fields == fields && !HasKey(fields, "detail")) || Field("detail", Obj(fields)) in payload.fields
    ensures forall text :: Says(fields, "message", text) ==> Extract(payload, status) == text
    ensures (forall text :: !Says(fields, "message", text)) ==>
              forall text :: Says(fields, "code", text) ==> Extract(payload, status) == text
    ensures (forall text :: !Says(fields, "message", text) && !Says(fields, "code", text)) ==>
              Extract(payload, status) == NoMessage(status)
  {
    hide TextField;
    hide Says;
    hide Decimal;
    hide Distinct;
    FallbackIsNoMessage(status);
    SaysIsTextField(fields, "message");
    SaysIsTextField(fields, "code");
    assert Extract(payload, status) == ExtractDetail(Obj(fields), status) by {
      if Field("detail", Obj(fields)) in payload.fields {
        LookupFinds(payload.fields, Field("detail", Obj(fields)));
      } else {
        LookupMisses(fields, "detail");
      }
    }
  }

  /** Anything else, as payload or as `detail`, and an array without a message, gives the status line. */
  lemma NothingIsRead(payload: Json, part: Json, status: int)
    requires part.Null? || part.Bool? || part.Number?
             || (part.Arr? && forall item | item in part.items ::
                   item.Obj? ==> Distinct(item.fields) && forall text :: !Says(item.fields, "msg", text))
    requires payload == part
             || (payload.Obj? && Distinct(payload.fields) && Field("detail", part) in payload.fields)
    ensures Extract(payload, status) == NoMessage(status)
  {
    hide Decimal;
    hide Says;
    hide Distinct;
    FallbackIsNoMessage(status);
    if payload != part {
      LookupFinds(payload.fields, Field("detail", part));
    }
    if part.Arr? {
      forall item | item in part.items ensures FormatItem(item).None? {
        if item.Obj? {
          SaysIsTextField(item.fields, "msg");
        }
      }
      NoParts(part.items);
    }
  }

  lemma {:induction false} NoParts(items: seq<Json>)
    requires forall item | item in items :: FormatItem(item).None?
    ensures FormatItems(items) == []
  {
    hide FormatItem;
    if items != [] {
      assert items[0] in items;
      NoParts(items[1..]);
    }
  }

  /** The known fields and their Russian names, as a reference for the labels. */
  const LABELS: map<string, string> :=
    map["name" := "Название", "description" := "Описание", "cash_rub" := "Кэш", "instrument_id" := "Инструмент",
        "units" := "Количество", "lots" := "Лоты", "average_price" := "Средняя цена", "amount" := "Сумма",
        "price" := "Цена", "operation_type" := "Тип операции", "occurred_at" := "Дата операции"]

  /** The names every object inherits, but for `constructor` and `__proto__`. */
  const METHODS: seq<string> :=
    ["toString", "toLocaleString", "valueOf", "hasOwnProperty", "isPrototypeOf", "propertyIsEnumerable",
     "__defineGetter__", "__defineSetter__", "__lookupGetter__", "__lookupSetter__"]

  /** What a field is called: its Russian name, what the label table inherits under its name, or its own name. */
  function Called(leaf: string): string {
    if leaf in LABELS then LABELS[leaf]
    else if leaf == "__proto__" then "[object Object]"
    else if leaf == "constructor" then "function Object() { [native code] }"
    else if leaf in METHODS then "function " + leaf + "() { [native code] }"
    else leaf
  }

  lemma KnownLabel(leaf: string)
    requires leaf in LABELS
    ensures OwnLabel(leaf) == Some(LABELS[leaf])
  {
  }

  lemma UnknownLabel(leaf: string)
    requires leaf !in LABELS
    ensures OwnLabel(leaf) == None
  {
  }

  lemma LabelIsCalled(leaf: string)
    ensures LabelText(leaf) == Called(leaf)
  {
    hide OwnLabel;
    hide LABELS;
    assert METHODS == INHERITED_METHODS;
    hide METHODS;
    hide INHERITED_METHODS;
    assert NativeCode("Object") == "function Object() { [native code] }";
    if leaf in LABELS {
      KnownLabel(leaf);
    } else {
      UnknownLabel(leaf);
    }
  }

  /**
    A single validation error reads as what its field is called and its message; one for the body
    as a whole, or for a field without a name, as its message alone.
   */
  lemma SingleValidationError(path: seq<Json>, leaf: string, msg: string, status: int)
    requires Trim(msg) != ""
    ensures
      var item := Obj([Field("loc", Arr(path + [Str(leaf)])), Field("msg", Str(msg))]);
      Extract(Obj([Field("detail", Arr([item]))]), status)
      == if leaf == "body" || leaf == "" then Trim(msg) else Called(leaf) + ": " + Trim(msg)
  {
    hide Trim;
    hide LabelText;
    hide Called;
    var fields := [Field("loc", Arr(path + [Str(leaf)])), Field("msg", Str(msg))];
    var item := Obj(fields);
    TwoFields(fields[0], fields[1]);
    LabelIsCalled(leaf);
    LabelNotEmpty(leaf);
    EmptyIsNotCalled();
    assert FormatItem(item).Some?;
    OnePart(item);
    assert [Field("detail", Arr([item]))][0].key == "detail";
  }

  lemma TwoFields(a: Field, b: Field)
    requires a.key != b.key
    ensures Lookup([a, b], a.key) == Some(a.value) && Lookup([a, b], b.key) == Some(b.value)
  {
    assert [a, b][1..] == [b];
  }

  lemma EmptyIsNotCalled()
    ensures Called("") == ""
  {
  }

  /** A validation item whose message or field name carries the object text, or whose field is `__proto__`. */
  predicate Tainted(item: Json) {
    && item.Obj? && TextField(item.fields, "msg") != ""
    && (Includes(RawField(item.fields, "msg"), OBJECT_TEXT)
        || var leaf := Leaf(Lookup(item.fields, "loc"));
           leaf.Some? && (leaf.value == "__proto__" || Includes(leaf.value, OBJECT_TEXT)))
  }

  /** The part of a payload the extraction reads carries the object text, or names a field `__proto__`. */
  predicate CarriesObjectText(detail: Json) {
    match detail
    case Str(s) => Includes(s, OBJECT_TEXT)
    case Arr(items) => exists item | item in items :: Tainted(item)
    case Obj(fields) =>
      Includes(RawField(fields, if TextField(fields, "message") != "" then "message" else "code"), OBJECT_TEXT)
    case _ => false
  }

  lemma SliceOccurs(part: string, s: string, lo: nat, hi: nat, i: nat)
    requires lo <= i && i + |part| <= hi <= |s|
    ensures OccursAt(part, s[lo..hi], i - lo) <==> OccursAt(part, s, i)
  {
    var a, b := s[lo..hi][i - lo..i - lo + |part|], s[i..i + |part|];
    assert |a| == |b|;
    forall k | 0 <= k < |a| ensures a[k] == b[k] {
      assert a[k] == s[lo..hi][i - lo + k] == s[lo + (i - lo + k)];
    }
  }

  /** The ends of a text that starts and ends with something else than white space survive trimming. */
  lemma OccursInside(s: string, i: nat)
    requires OccursAt(OBJECT_TEXT, s, i)
    ensures SkipStart(s, 0) <= i && i + |OBJECT_TEXT| <= SkipEnd(s, SkipStart(s, 0), |s|)
  {
    var lo, n := SkipStart(s, 0), |OBJECT_TEXT|;
    SkippedAtStart(s, 0);
    SkippedAtEnd(s, lo, |s|);
    assert s[i..i + n][0] == s[i] && s[i..i + n][n - 1] == s[i + n - 1];
    assert !IsSpace(s[i]) && !IsSpace(s[i + n - 1]);
  }

  lemma TrimKeepsInside(s: string)
    requires Includes(s, OBJECT_TEXT)
    ensures Includes(Trim(s), OBJECT_TEXT)
  {
    hide OBJECT_TEXT;
    var lo := SkipStart(s, 0);
    var i :| 0 <= i <= |s| && OccursAt(OBJECT_TEXT, s, i);
    OccursInside(s, i);
    hide OccursAt;
    SliceOccurs(OBJECT_TEXT, s, lo, SkipEnd(s, lo, |s|), i);
    assert OccursAt(OBJECT_TEXT, Trim(s), i - lo);
  }

  lemma TrimAddsNothing(s: string)
    requires Includes(Trim(s), OBJECT_TEXT)
    ensures Includes(s, OBJECT_TEXT)
  {
    hide OBJECT_TEXT;
    var lo := SkipStart(s, 0);
    var i :| 0 <= i <= |Trim(s)| && OccursAt(OBJECT_TEXT, Trim(s), i);
    SliceOccurs(OBJECT_TEXT, s, lo, SkipEnd(s, lo, |s|), lo + i);
    assert OccursAt(OBJECT_TEXT, s, lo + i);
  }

  /** So an occurrence of the object text lies inside the trimmed text. */
  lemma TrimIncludes(s: string)
    ensures Includes(Trim(s), OBJECT_TEXT) <==> Includes(s, OBJECT_TEXT)
  {
    hide *;
    if Includes(s, OBJECT_TEXT) {
      TrimKeepsInside(s);
    }
    if Includes(Trim(s), OBJECT_TEXT) {
      TrimAddsNothing(s);
    }
  }

  lemma BracketsAreClean(s: string)
    requires forall i | 0 <= i < |s| - 1 && s[i] == '[' :: s[i + 1] != 'o'
    ensures !Includes(s, OBJECT_TEXT)
  {
    forall i | 0 <= i <= |s| ensures !OccursAt(OBJECT_TEXT, s, i) {
      if i + |OBJECT_TEXT| <= |s| {
        assert s[i..i + |OBJECT_TEXT|][0] == s[i] && s[i..i + |OBJECT_TEXT|][1] == s[i + 1];
      }
    }
  }

  lemma NativeCodeClean(name: string)
    requires '[' !in name
    ensures !Includes(NativeCode(name), OBJECT_TEXT)
  {
    var a, b := "function " + name + "() { ", "[native code] }";
    var s := a + b;
    assert NativeCode(name) == s;
    assert forall i | 0 <= i < |a| :: s[i] == a[i] && a[i] != '[' by {
      assert forall c | c in a :: c in "function " || c in name || c in "() { ";
    }
    assert forall i | |a| <= i < |s| :: s[i] == b[i - |a|];
    BracketsAreClean(s);
  }

  lemma OwnLabelsClean(leaf: string)
    requires OwnLabel(leaf).Some?
    ensures !Includes(OwnLabel(leaf).value, OBJECT_TEXT)
  {
    OwnLabelsNeutral(leaf);
    NeutralIsClean(OwnLabel(leaf).value);
  }

  lemma OwnLabelsNeutral(leaf: string)
    requires OwnLabel(leaf).Some?
    ensures forall c | c in OwnLabel(leaf).value :: Neutral(c)
  {
  }

  lemma OwnNamesPlain(leaf: string)
    requires OwnLabel(leaf).Some?
    ensures '[' !in leaf && leaf != "__proto__"
  {
  }

  lemma InheritedNamesPlain(leaf: string)
    requires leaf in INHERITED_METHODS
    ensures '[' !in leaf && leaf != "__proto__"
  {
  }

  /** No label carries the object text but the one inherited for `__proto__`, and names that carry it themselves. */
  lemma LabelIncludesIff(leaf: string)
    ensures Includes(LabelText(leaf), OBJECT_TEXT) <==> leaf == "__proto__" || Includes(leaf, OBJECT_TEXT)
  {
    hide INHERITED_METHODS;
    hide Includes;
    hide NativeCode;
    if OwnLabel(leaf).Some? {
      OwnLabelsClean(leaf);
      OwnNamesPlain(leaf);
      BracketsAreClean(leaf);
    } else if leaf == "__proto__" {
      IncludesItself();
    } else if leaf == "constructor" {
      NativeCodeClean("Object");
      BracketsAreClean(leaf);
    } else if leaf in INHERITED_METHODS {
      InheritedNamesPlain(leaf);
      NativeCodeClean(leaf);
      BracketsAreClean(leaf);
    }
  }

  lemma IncludesItself()
    ensures Includes(OBJECT_TEXT, OBJECT_TEXT)
  {
    assert OccursAt(OBJECT_TEXT, OBJECT_TEXT, 0);
  }

  /** An occurrence of the object text never spans a two-character separator ending in a blank. */
  lemma SeparatorSplits(a: string, c: char, b: string)
    requires c == ':' || c == ';'
    ensures Includes(a + [c, ' '] + b, OBJECT_TEXT) <==> Includes(a, OBJECT_TEXT) || Includes(b, OBJECT_TEXT)
  {
    var s := a + [c, ' '] + b;
    var n := |OBJECT_TEXT|;
    forall i | 0 <= i <= |s|
      ensures OccursAt(OBJECT_TEXT, s, i) <==>
              OccursAt(OBJECT_TEXT, a, i) || OccursAt(OBJECT_TEXT, b, i - |a| - 2)
    {
      if i + n <= |a| {
        assert s[i..i + n] == a[i..i + n];
      } else if |a| + 2 <= i <= |s| - n {
        assert s[i..i + n] == b[i - |a| - 2..i - |a| - 2 + n];
      } else if i <= |s| - n {
        var k := if i <= |a| then |a| - i else 0;
        assert s[i..i + n][k] == s[i + k] && OBJECT_TEXT[k] != s[i + k];
      }
    }
    if Includes(b, OBJECT_TEXT) {
      var j :| 0 <= j <= |b| && OccursAt(OBJECT_TEXT, b, j);
      assert OccursAt(OBJECT_TEXT, s, j + |a| + 2);
    }
  }

  lemma {:induction false} JoinIncludes(parts: seq<string>)
    ensures Includes(Join(parts, "; "), OBJECT_TEXT) <==> exists part | part in parts :: Includes(part, OBJECT_TEXT)
  {
    if |parts| > 1 {
      JoinIncludes(parts[1..]);
      SeparatorSplits(parts[0], ';', Join(parts[1..], "; "));
      assert Join(parts, "; ") == parts[0] + [';', ' '] + Join(parts[1..], "; ");
      assert forall part :: part in parts <==> part == parts[0] || part in parts[1..];
    }
  }

  lemma LabelNotEmpty(leaf: string)
    ensures LabelText(leaf) == "" ==> leaf == ""
    ensures !Includes("", OBJECT_TEXT)
  {
  }

  lemma FormatItemIncludes(item: Json)
    ensures FormatItem(item).Some? && Includes(FormatItem(item).value, OBJECT_TEXT) <==> Tainted(item)
  {
    hide Includes;
    hide Trim;
    hide LabelText;
    if FormatItem(item).Some? {
      var msg := TextField(item.fields, "msg");
      TrimIncludes(RawField(item.fields, "msg"));
      match Leaf(Lookup(item.fields, "loc"))
      case Some(leaf) =>
        LabelIncludesIff(leaf);
        LabelNotEmpty(leaf);
        SeparatorSplits(LabelText(leaf), ':', msg);
        assert LabelText(leaf) + ": " + msg == LabelText(leaf) + [':', ' '] + msg;
      case None =>
    }
  }

  lemma {:induction false} FormatItemsIncludes(items: seq<Json>)
    ensures (exists part | part in FormatItems(items) :: Includes(part, OBJECT_TEXT))
            <==> exists item | item in items :: Tainted(item)
  {
    hide Includes;
    hide FormatItem;
    hide Tainted;
    if items != [] {
      FormatItemsIncludes(items[1..]);
      FormatItemIncludes(items[0]);
      assert forall item :: item in items <==> item == items[0] || item in items[1..];
      var rest := FormatItems(items[1..]);
      assert forall part :: part in FormatItems(items) <==>
               part in rest || (FormatItem(items[0]).Some? && part == FormatItem(items[0]).value);
    }
  }

  lemma ValidationTextIncludesIff(items: seq<Json>, status: int)
    ensures Includes(ExtractDetail(Arr(items), status), OBJECT_TEXT) <==> exists item | item in items :: Tainted(item)
  {
    FormatItemsIncludes(items);
    JoinIncludes(FormatItems(items));
    FallbackClean(status);
  }

  lemma DetailIncludesIff(detail: Json, status: int)
    ensures Includes(ExtractDetail(detail, status), OBJECT_TEXT) <==> CarriesObjectText(detail)
  {
    hide Includes;
    hide Trim;
    hide Fallback;
    FallbackClean(status);
    match detail
    case Str(s) =>
      TrimIncludes(s);
      EmptyClean();
    case Arr(items) => ValidationTextIncludesIff(items, status);
    case Obj(fields) =>
      TrimIncludes(RawField(fields, "message"));
      TrimIncludes(RawField(fields, "code"));
      EmptyClean();
    case _ =>
  }

  lemma EmptyClean()
    ensures !Includes("", OBJECT_TEXT)
  {
  }

  /**
    The part of a payload that is read: an object's `detail` if it has one, else the payload.
    It carries the object text itself, or has a validation message for a field named `__proto__`.
   */
  predicate ReadPartCarries(payload: Json) {
    if payload.Obj? && Lookup(payload.fields, "detail").Some?
    then CarriesObjectText(Lookup(payload.fields, "detail").value)
    else CarriesObjectText(payload)
  }

  /**
    The extraction promises never to return a coerced object. On any JSON payload it breaks
    that promise exactly when the part it reads carries the object text itself, or is a
    validation array with a message for a field named `__proto__`.
   */
  lemma ExtractShowsObjectTextIff(payload: Json, status: int)
    ensures Includes(Extract(payload, status), OBJECT_TEXT) <==> ReadPartCarries(payload)
  {
    hide Includes;
    hide Trim;
    hide CarriesObjectText;
    hide ExtractDetail;
    DetailIncludesIff(if payload.Obj? then Detail(payload) else payload, status);
    match payload
    case Str(s) => SameForText(s, status);
    case Arr(_) =>
    case Obj(_) =>
    case _ => NothingCarried(payload, status);
  }

  lemma SameForText(s: string, status: int)
    ensures Extract(Str(s), status) == ExtractDetail(Str(s), status)
  {
  }

  lemma NothingCarried(payload: Json, status: int)
    requires !payload.Str? && !payload.Arr? && !payload.Obj?
    ensures !Includes(Extract(payload, status), OBJECT_TEXT) && !CarriesObjectText(payload)
  {
    FallbackClean(status);
  }

  lemma FallbackClean(status: int)
    ensures !Includes(Fallback(status), OBJECT_TEXT)
  {
    if status > 0 {
      NumberedIsClean(Decimal(status));
    } else {
      assert forall c | c in REQUEST_FAILED :: Neutral(c);
      NeutralIsClean(REQUEST_FAILED);
    }
  }

  /** A validation item for a field named `__proto__`. */
  function ProtoItem(msg: string): Json {
    Obj([Field("loc", Arr([Str("__proto__")])), Field("msg", Str(msg))])
  }

  /** An item can taint the text although the payload nowhere contains it: a field named `__proto__`. */
  lemma ProtoFieldBecomesObjectText(msg: string, status: int)
    requires Trim(msg) != ""
    ensures ExtractDetail(Arr([ProtoItem(msg)]), status) == OBJECT_TEXT + ": " + Trim(msg)
  {
    hide Trim;
    var fields := ProtoItem(msg).fields;
    assert fields[1..] == [Field("msg", Str(msg))] && fields[1..][0].key == "msg";
    assert Lookup(fields, "msg") == Some(Str(msg));
    ProtoLabel();
    assert FormatItem(ProtoItem(msg)) == Some(OBJECT_TEXT + ": " + Trim(msg));
    OnePart(ProtoItem(msg));
  }

  lemma ProtoLabel()
    ensures FieldLabel(Some(Arr([Str("__proto__")]))) == Some(OBJECT_TEXT)
  {
  }

  lemma OnePart(item: Json)
    requires FormatItem(item).Some?
    ensures FormatItems([item]) == [FormatItem(item).value]
  {
    hide FormatItem;
    assert [item][1..] == [];
  }

  // ---- retired names anywhere in the payload ----

  /** `text` is a string value or a key somewhere inside `j`. */
  ghost predicate Within(text: string, j: Json)
    decreases j
  {
    match j
    case Str(s) => text == s
    case Arr(items) => exists i | 0 <= i < |items| :: Within(text, items[i])
    case Obj(fields) => exists i | 0 <= i < |fields| :: text == fields[i].key || Within(text, fields[i].value)
    case _ => false
  }

  lemma MentionsGrows(part: string, s: string)
    requires Infix(part, s) && Mentions(part)
    ensures Mentions(s)
  {
    hide PATTERNS;
    hide Includes;
    var p :| p in PATTERNS && Includes(Lower(part), p);
    var before, after :| s == before + part + after;
    assert Lower(s) == Lower(before) + Lower(part) + Lower(after);
    IncludesIsInfix(Lower(part), p);
    assert Infix(Lower(part), Lower(s));
    InfixTransitive(p, Lower(part), Lower(s));
    IncludesIsInfix(Lower(s), p);
  }

  /** The piece of `s` that matches a pattern. */
  lemma MatchedPiece(s: string) returns (before: string, m: string, after: string)
    requires Mentions(s)
    ensures s == before + m + after && Lower(m) in PATTERNS
  {
    hide PATTERNS;
    var p :| p in PATTERNS && Includes(Lower(s), p);
    var i :| 0 <= i <= |Lower(s)| && OccursAt(p, Lower(s), i);
    before, m, after := s[..i], s[i..i + |p|], s[i + |p|..];
    assert Lower(m) == Lower(s)[i..i + |p|];
  }

  predicate Plain(c: char) {
    c as int >= 32 && c != '\"' && c != '\\'
  }

  lemma PatternsArePlain(m: string)
    requires Lower(m) in PATTERNS
    ensures forall c | c in m :: Plain(c)
  {
    forall p, c | p in PATTERNS && c in p ensures c as int >= 45 && c != '\\' {
      PatternChars(p);
    }
    forall k | 0 <= k < |m| ensures Plain(m[k]) {
      assert Lower(m)[k] in Lower(m);
    }
  }

  lemma PatternChars(p: string)
    requires p in PATTERNS
    ensures forall c | c in p :: c as int >= 45 && c != '\\'
  {
  }

  lemma {:induction false} EscapeSplits(a: string, b: string)
    ensures Escape(a + b) == Escape(a) + Escape(b)
  {
    if a == "" {
      assert a + b == b;
    } else {
      assert (a + b)[1..] == a[1..] + b;
      EscapeSplits(a[1..], b);
    }
  }

  lemma {:induction false} EscapePlain(m: string)
    requires forall c | c in m :: Plain(c)
    ensures Escape(m) == m
  {
    if m != "" {
      assert m[0] in m;
      EscapePlain(m[1..]);
    }
  }

  /** Quoting a string keeps what it mentions: no pattern contains an escaped character. */
  lemma QuoteKeepsMentions(s: string)
    requires Mentions(s)
    ensures Mentions(Quote(s))
  {
    hide PATTERNS;
    hide Escape;
    hide Includes;
    var before, m, after := MatchedPiece(s);
    PatternsArePlain(m);
    EscapeAround(before, m, after);
    PieceMentions(m);
    var open, close := "\"" + Escape(before), Escape(after) + "\"";
    assert Quote(s) == open + m + close;
    MentionsGrows(m, Quote(s));
  }

  lemma EscapeAround(before: string, m: string, after: string)
    requires forall c | c in m :: Plain(c)
    ensures Escape(before + m + after) == Escape(before) + m + Escape(after)
  {
    hide Escape;
    EscapePlain(m);
    EscapeSplits(before + m, after);
    EscapeSplits(before, m);
  }

  lemma PieceMentions(m: string)
    requires Lower(m) in PATTERNS
    ensures Mentions(m)
  {
    hide PATTERNS;
    assert OccursAt(Lower(m), Lower(m), 0);
  }

  lemma MentionsInside(before: string, part: string, after: string)
    requires Mentions(part)
    ensures Mentions(before + part + after)
  {
    MentionsGrows(part, before + part + after);
  }

  lemma {:induction false} StringifyKeepsMentions(text: string, j: Json)
    requires Within(text, j) && Mentions(text)
    ensures Mentions(Stringify(j))
    decreases j, 0
  {
    hide Mentions;
    match j
    case Str(s) => QuoteKeepsMentions(s);
    case Arr(items) =>
      ItemsKeepMentions(text, items);
      MentionsInside("[", StringifyItems(items), "]");
    case Obj(fields) =>
      FieldsKeepMentions(text, fields);
      MentionsInside("{", StringifyFields(fields), "}");
  }

  lemma {:induction false} ItemsKeepMentions(text: string, items: seq<Json>)
    requires Mentions(text) && exists i | 0 <= i < |items| :: Within(text, items[i])
    ensures Mentions(StringifyItems(items))
    decreases items, |items|
  {
    hide Mentions;
    var i :| 0 <= i < |items| && Within(text, items[i]);
    if i == 0 {
      StringifyKeepsMentions(text, items[0]);
      if |items| > 1 {
        MentionsInside("", Stringify(items[0]), "," + StringifyItems(items[1..]));
        assert "" + Stringify(items[0]) + ("," + StringifyItems(items[1..])) == StringifyItems(items);
      }
    } else {
      assert items[1..][i - 1] == items[i];
      ItemsKeepMentions(text, items[1..]);
      MentionsInside(Stringify(items[0]) + ",", StringifyItems(items[1..]), "");
      assert Stringify(items[0]) + "," + StringifyItems(items[1..]) + "" == StringifyItems(items);
    }
  }

  lemma FieldKeepsMentions(text: string, f: Field)
    requires Mentions(text) && (text == f.key || Within(text, f.value))
    ensures Mentions(Quote(f.key) + (":" + Stringify(f.value)))
    decreases f, 1
  {
    hide Mentions;
    hide Quote;
    hide Stringify;
    hide Within;
    var key, value := Quote(f.key), Stringify(f.value);
    if text == f.key {
      QuoteKeepsMentions(text);
      MentionsInside("", key, ":" + value);
      assert "" + key + (":" + value) == key + (":" + value);
    } else {
      StringifyKeepsMentions(text, f.value);
      MentionsInside(key + ":", value, "");
      assert key + ":" + value + "" == key + (":" + value);
    }
  }

  lemma {:induction false} FieldsKeepMentions(text: string, fields: seq<Field>)
    requires Mentions(text)
    requires exists i | 0 <= i < |fields| :: text == fields[i].key || Within(text, fields[i].value)
    ensures Mentions(StringifyFields(fields))
    decreases fields, |fields|
  {
    hide Mentions;
    hide Quote;
    hide Stringify;
    hide Within;
    var i :| 0 <= i < |fields| && (text == fields[i].key || Within(text, fields[i].value));
    var first := Quote(fields[0].key) + (":" + Stringify(fields[0].value));
    if i == 0 {
      FieldKeepsMentions(text, fields[0]);
      if |fields| > 1 {
        var rest := "," + StringifyFields(fields[1..]);
        MentionsInside("", first, rest);
        assert "" + first + rest == first + "," + StringifyFields(fields[1..]);
      }
    } else {
      assert fields[1..][i - 1] == fields[i];
      FieldsKeepMentions(text, fields[1..]);
      MentionsInside(first + ",", StringifyFields(fields[1..]), "");
      assert first + "," + StringifyFields(fields[1..]) + "" == StringifyFields(fields);
    }
  }

  /**
    An API error whose message, or any string or key at any depth of its details, mentions a
    retired endpoint is shown as the reload text, whatever the rest of it says.
   */
  lemma RetiredAnywhereIsReplaced(message: string, status: int, details: Option<Json>, text: string)
    requires Mentions(text)
    requires text == message || (details.Some? && Within(text, details.value))
    ensures ErrorMessage(ApiError(message, status, details)) == RELOAD
  {
    hide Mentions;
    hide Extract;
    hide Stringify;
    hide Includes;
    var raw := message + " " + SafeStringify(details);
    if text == message {
      MentionsInside("", message, " " + SafeStringify(details));
      assert "" + message + (" " + SafeStringify(details)) == raw;
    } else {
      var j := details.value;
      if !j.Str? {
        StringifyKeepsMentions(text, j);
      }
      MentionsInside(message + " ", SafeStringify(details), "");
      assert message + " " + SafeStringify(details) + "" == raw;
    }
  }
}
