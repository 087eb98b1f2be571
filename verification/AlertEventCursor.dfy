/** The text of a feed cursor. */
module AlertEventCursor {
  import opened Wrappers

  const SEPARATOR: char := '|'
  const MAX_CURSOR_LENGTH: nat := 200

  datatype FeedCursor = FeedCursor(createdAt: int, id: string)

  /** The platform's date and base64 functions. */
  datatype Platform = Platform(
    toIso: int -> string,
    fromIso: string -> Option<int>,
    toBase64: string -> string,
    fromBase64: string -> string)

  /** The instants a date can hold: a hundred million days before and after the epoch. */
  predicate IsInstant(t: int) {
    -8_640_000_000_000_000 <= t <= 8_640_000_000_000_000
  }

  predicate IsAscii(text: string) {
    forall i :: 0 <= i < |text| ==> text[i] < 128 as char
  }

  /** A date is written in ASCII, with an expanded year in at most 27 characters, and never with the separator. */
  predicate IsDateText(text: string) {
    |text| <= 27 && IsAscii(text) && SEPARATOR !in text
  }

  /** What is relied on: dates and base64 texts read back, and base64 adds a third to an ASCII text. */
  ghost predicate Faithful(platform: Platform) {
    && (forall t: int :: IsInstant(t) ==> platform.fromIso(platform.toIso(t)) == Some(t))
    && (forall t: int :: IsInstant(t) ==> IsDateText(platform.toIso(t)))
    && (forall s: string :: IsAscii(s) ==> platform.fromBase64(platform.toBase64(s)) == s)
    && (forall s: string :: IsAscii(s) ==> |platform.toBase64(s)| == (4 * |s| + 2) / 3)
  }

  predicate IsIdChar(c: char) {
    'A' <= c <= 'Z' || 'a' <= c <= 'z' || '0' <= c <= '9' || c == '_' || c == '-'
  }

  predicate IsRowId(id: string) {
    1 <= |id| <= 64 && forall i :: 0 <= i < |id| ==> IsIdChar(id[i])
  }

  function Text(platform: Platform, cursor: FeedCursor): string {
    platform.toIso(cursor.createdAt) + [SEPARATOR] + cursor.id
  }

  function EncodeCursor(platform: Platform, cursor: FeedCursor): string {
    platform.toBase64(Text(platform, cursor))
  }

  /** The first place of the separator. */
  function IndexOf(text: string, start: nat): (index: Option<nat>)
    requires start <= |text|
    ensures index.Some? ==> start <= index.value < |text| && text[index.value] == SEPARATOR
    ensures index.Some? ==> forall i :: start <= i < index.value ==> text[i] != SEPARATOR
    ensures index.None? ==> forall i :: start <= i < |text| ==> text[i] != SEPARATOR
    decreases |text| - start
  {
    if start == |text| then None
    else if text[start] == SEPARATOR then Some(start)
    else IndexOf(text, start + 1)
  }

  /** `readInstant`: a date whose text is exactly the one the platform would write. */
  function ReadInstant(platform: Platform, value: string): Option<int> {
    match platform.fromIso(value)
    case None => None
    case Some(instant) => if platform.toIso(instant) == value then Some(instant) else None
  }

  function DecodeCursor(platform: Platform, value: string): (cursor: Option<FeedCursor>)
    ensures cursor.Some? ==> IsRowId(cursor.value.id)
  {
    if |value| == 0 || |value| > MAX_CURSOR_LENGTH then None
    else
      var decoded := platform.fromBase64(value);
      match IndexOf(decoded, 0)
      case None => None
      case Some(split) =>
        var createdAt := ReadInstant(platform, decoded[..split]);
        var id := decoded[split + 1..];
        if createdAt.None? || !IsRowId(id) then None else Some(FeedCursor(createdAt.value, id))
  }

  /** A cursor that is handed out is read back: the length bound and the id test never refuse it. */
  lemma CursorRoundTrip(platform: Platform, cursor: FeedCursor)
    requires Faithful(platform) && IsInstant(cursor.createdAt) && IsRowId(cursor.id)
    ensures DecodeCursor(platform, EncodeCursor(platform, cursor)) == Some(cursor)
  {
    var date, text := platform.toIso(cursor.createdAt), Text(platform, cursor);
    assert IsDateText(date);
    assert text[|date|] == SEPARATOR;
    assert forall i :: 0 <= i < |date| ==> text[i] == date[i];
    assert forall i :: |date| < i < |text| ==> text[i] == cursor.id[i - |date| - 1];
    assert IsAscii(text);
    assert platform.fromBase64(platform.toBase64(text)) == text;
    assert IndexOf(text, 0) == Some(|date|);
    assert text[..|date|] == date && text[|date| + 1..] == cursor.id;
  }

  /** A text that is accepted stands for the cursor it was read as: writing that one again gives the same instant and id. */
  lemma AcceptedIsExact(platform: Platform, value: string)
    requires DecodeCursor(platform, value).Some?
    ensures Text(platform, DecodeCursor(platform, value).value) == platform.fromBase64(value)
  {
    var decoded := platform.fromBase64(value);
    var split := IndexOf(decoded, 0).value;
    assert decoded == decoded[..split] + [SEPARATOR] + decoded[split + 1..];
  }

  /** The texts of a row id: one to sixty-four letters, digits, hyphens and underscores, by their codes. */
  predicate RowIdText(id: string) {
    && 1 <= |id| <= 64
    && forall i :: 0 <= i < |id| ==>
         var code := id[i] as int;
         65 <= code <= 90 || 97 <= code <= 122 || 48 <= code <= 57 || code == 45 || code == 95
  }

  /** Exactly which texts are accepted: up to 200 characters that decode to a date as it is written and a row id. */
  lemma AcceptedExactly(platform: Platform, value: string, date: string, id: string)
    requires platform.fromBase64(value) == date + "|" + id && '|' !in date
    ensures DecodeCursor(platform, value).Some? <==>
              && 1 <= |value| <= 200 && RowIdText(id)
              && platform.fromIso(date).Some? && platform.toIso(platform.fromIso(date).value) == date
    ensures DecodeCursor(platform, value).Some? ==>
              DecodeCursor(platform, value).value == FeedCursor(platform.fromIso(date).value, id)
  {
    var text := date + "|" + id;
    assert text[|date|] == '|' && forall i :: 0 <= i < |date| ==> text[i] == date[i];
    assert IndexOf(text, 0) == Some(|date|);
    assert text[..|date|] == date && text[|date| + 1..] == id;
    assert IsRowId(id) <==> RowIdText(id);
  }

  /** A text that decodes to something without a separator is refused. */
  lemma RefusedWithoutSeparator(platform: Platform, value: string)
    requires '|' !in platform.fromBase64(value)
    ensures DecodeCursor(platform, value).None?
  {
  }

  // The assumptions about the platform can be met

  const EARLIEST: int := -8_640_000_000_000_000

  function Digits(n: nat, length: nat): (digits: string)
    ensures |digits| == length && forall i :: 0 <= i < length ==> '0' <= digits[i] <= '9'
  {
    if length == 0 then "" else Digits(n / 10, length - 1) + [(n % 10 + '0' as int) as char]
  }

  function Value(digits: string): int {
    if digits == "" then 0
    else 10 * Value(digits[..|digits| - 1]) + digits[|digits| - 1] as int - '0' as int
  }

  function PowerOfTen(k: nat): nat {
    if k == 0 then 1 else 10 * PowerOfTen(k - 1)
  }

  lemma {:induction false} DigitsReadBack(n: nat, length: nat)
    requires n < PowerOfTen(length)
    ensures Value(Digits(n, length)) == n
  {
    if length > 0 {
      var digits := Digits(n, length);
      DigitsReadBack(n / 10, length - 1);
      assert digits[..|digits| - 1] == Digits(n / 10, length - 1);
    }
  }

  function Padded(s: string): string {
    s + seq((4 * |s| + 2) / 3 - |s|, _ => 'A')
  }

  function Unpadded(s: string): string {
    s[..3 * |s| / 4]
  }

  /** Dates as seventeen digits, and texts padded to the length that base64 would have. */
  function DecimalPlatform(): Platform {
    Platform(t => if t < EARLIEST then "" else Digits(t - EARLIEST, 17),
             s => Some(Value(s) + EARLIEST),
             s => Padded(s),
             s => Unpadded(s))
  }

  lemma FaithfulPlatformExists()
    ensures Faithful(DecimalPlatform())
  {
    var platform := DecimalPlatform();
    assert PowerOfTen(6) == 1_000_000 && PowerOfTen(12) == 1_000_000_000_000;
    assert PowerOfTen(17) == 100_000_000_000_000_000;
    forall t: int | IsInstant(t)
      ensures platform.fromIso(platform.toIso(t)) == Some(t) && IsDateText(platform.toIso(t))
    {
      DigitsReadBack(t - EARLIEST, 17);
    }
    forall s: string | IsAscii(s)
      ensures platform.fromBase64(platform.toBase64(s)) == s && |platform.toBase64(s)| == (4 * |s| + 2) / 3
    {
      assert 3 * |Padded(s)| / 4 == |s|;
      assert Padded(s)[..|s|] == s;
    }
  }
}
