/** The callback-data protocol of the inline buttons: a verb, a colon and a
    decimal number ("add_to_playlist:7", "select_playlist:7", "play_song:3").
    Buttons are built with a template string; the dispatcher recognises the
    verb with `startsWith` and reads the number with
    `parseInt(data.split(":")[1], 10)`. */
module CallbackData {
  import opened Domain

  datatype Verb = AddToPlaylist | SelectPlaylist | PlaySong

  /** A decoded button press: the verb, and its argument, None when the text
      after the colon is not a decimal number (where `parseInt` yields NaN). */
  datatype Callback = Callback(verb: Verb, arg: Option<nat>)

  /** The text the dispatcher tests with `startsWith`: the verb and its colon. */
  function Prefix(v: Verb): (p: string)
    ensures |p| >= 2 && p[|p| - 1] == ':' && ':' !in p[..|p| - 1]
  {
    match v
    case AddToPlaylist => "add_to_playlist:"
    case SelectPlaylist => "select_playlist:"
    case PlaySong => "play_song:"
  }

  predicate StartsWith(s: string, prefix: string) {
    |prefix| <= |s| && s[..|prefix|] == prefix
  }

  /** The verb whose prefix `data` starts with. The three prefixes already
      differ in their first letter, so at most one of the dispatcher's three
      `startsWith` tests can succeed. */
  function VerbOf(data: string): (r: Option<Verb>)
    ensures forall v :: r == Some(v) <==> StartsWith(data, Prefix(v))
  {
    if StartsWith(data, Prefix(AddToPlaylist)) then Some(AddToPlaylist)
    else if StartsWith(data, Prefix(SelectPlaylist)) then Some(SelectPlaylist)
    else if StartsWith(data, Prefix(PlaySong)) then Some(PlaySong)
    else None
  }

  predicate IsDigit(c: char) {
    '0' <= c <= '9'
  }

  predicate AllDigits(s: string) {
    forall i :: 0 <= i < |s| ==> IsDigit(s[i])
  }

  /** A decimal numeral as JavaScript prints a non-negative integer: no sign,
      no leading zero except for 0 itself. */
  predicate Canonical(s: string) {
    s != [] && AllDigits(s) && (s[0] == '0' ==> |s| == 1)
  }

  function DigitChar(d: nat): (c: char)
    requires d < 10
    ensures IsDigit(c) && (c == '0' <==> d == 0)
  {
    ('0' as int + d) as char
  }

  function DigitValue(c: char): (d: nat)
    requires IsDigit(c)
    ensures d < 10
  {
    c as int - '0' as int
  }

  /** `${n}` for a non-negative integer n. */
  function Decimal(n: nat): (s: string)
    ensures Canonical(s)
    ensures s[0] == '0' ==> n == 0
    decreases n
  {
    if n < 10 then [DigitChar(n)] else Decimal(n / 10) + [DigitChar(n % 10)]
  }

  /** The value of a string of decimal digits. */
  function DigitsValue(s: string): nat
    requires AllDigits(s)
    decreases |s|
  {
    if s == [] then 0 else 10 * DigitsValue(s[..|s| - 1]) + DigitValue(s[|s| - 1])
  }

  /** `parseInt(s, 10)` restricted to well-formed input: a non-empty string of
      digits gives its value, anything else gives None (NaN). */
  function ParseDecimal(s: string): (r: Option<nat>)
    ensures r.Some? <==> s != [] && AllDigits(s)
  {
    if s != [] && AllDigits(s) then Some(DigitsValue(s)) else None
  }

  /** `s.split(":")[0]`: the text before the first colon. */
  function FirstField(s: string): (r: string)
    ensures ':' !in r
    ensures ':' !in s ==> r == s
  {
    if s == [] || s[0] == ':' then [] else [s[0]] + FirstField(s[1..])
  }

  /** `s.split(":")[1]`: the text between the first and the second colon; the
      empty string when there is no colon (where JavaScript reads `undefined`,
      which `parseInt` also turns into NaN). */
  function SecondField(s: string): (r: string)
    ensures ':' !in r
  {
    if s == [] then [] else if s[0] == ':' then FirstField(s[1..]) else SecondField(s[1..])
  }

  /** The callback data of a button: `${verb}:${n}`. */
  function Encode(v: Verb, n: nat): string {
    Prefix(v) + Decimal(n)
  }

  /** What the dispatcher makes of callback data: None when no verb prefix
      matches (no branch runs), otherwise the verb and the parsed argument. */
  function Decode(data: string): Option<Callback> {
    match VerbOf(data)
    case None => None
    case Some(v) => Some(Callback(v, ParseDecimal(SecondField(data))))
  }

  lemma {:induction false} DigitsValueOfDecimal(n: nat)
    ensures DigitsValue(Decimal(n)) == n
    decreases n
  {
    if n >= 10 {
      DigitsValueOfDecimal(n / 10);
      var s := Decimal(n);
      assert s[..|s| - 1] == Decimal(n / 10);
    }
  }

  /** Parsing inverts printing, for every natural number. */
  lemma ParseDecimalOfDecimal(n: nat)
    ensures ParseDecimal(Decimal(n)) == Some(n)
  {
    DigitsValueOfDecimal(n);
  }

  lemma {:induction false} DigitsValuePositive(s: string)
    requires s != [] && AllDigits(s) && s[0] != '0'
    ensures DigitsValue(s) > 0
    decreases |s|
  {
    if |s| > 1 {
      DigitsValuePositive(s[..|s| - 1]);
    }
  }

  /** Printing inverts parsing, for every canonical numeral. */
  lemma {:induction false} DecimalOfParseDecimal(s: string)
    requires Canonical(s)
    ensures ParseDecimal(s).Some? && Decimal(ParseDecimal(s).value) == s
    decreases |s|
  {
    if |s| > 1 {
      var t := s[..|s| - 1];
      assert t[0] == s[0];
      DigitsValuePositive(t);
      DecimalOfParseDecimal(t);
      var n := DigitsValue(s);
      assert n / 10 == DigitsValue(t) && n % 10 == DigitValue(s[|s| - 1]);
      assert s == t + [s[|s| - 1]];
    }
  }

  lemma {:induction false} SecondFieldAfterFirstColon(w: string, d: string)
    requires ':' !in w && ':' !in d
    ensures SecondField(w + [':'] + d) == d
    decreases |w|
  {
    var s := w + [':'] + d;
    if w == [] {
      assert s[1..] == d;
    } else {
      assert s[1..] == w[1..] + [':'] + d;
      SecondFieldAfterFirstColon(w[1..], d);
    }
  }

  /** Decoding the data of a button gives back the verb and the number it was
      built from, for every verb and every natural id or index. */
  lemma DecodeEncode(v: Verb, n: nat)
    ensures Decode(Encode(v, n)) == Some(Callback(v, Some(n)))
  {
    var p, d := Prefix(v), Decimal(n);
    var data := Encode(v, n);
    assert data[..|p|] == p;
    assert VerbOf(data) == Some(v);
    assert p == p[..|p| - 1] + [':'];
    assert forall i :: 0 <= i < |d| ==> d[i] != ':';
    SecondFieldAfterFirstColon(p[..|p| - 1], d);
    assert data == p[..|p| - 1] + [':'] + d;
    ParseDecimalOfDecimal(n);
  }

  /** Distinct buttons never share callback data. */
  lemma EncodeInjective(v: Verb, n: nat, w: Verb, m: nat)
    requires Encode(v, n) == Encode(w, m)
    ensures v == w && n == m
  {
    DecodeEncode(v, n);
    DecodeEncode(w, m);
  }
}
