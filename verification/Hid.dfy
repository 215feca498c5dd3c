/** Typing text and pressing keys and buttons: which reports are sent, what a host makes of them, and
    that nothing stays pressed. */
module HidReports {
  import opened Options
  import opened Octets

  datatype KeyReport = KeyReport(modifier: byte, usage: nat)

  const SHIFT: byte := 2
  const ENTER: nat := 0x28

  /** The shifted digits in the order of their keys. */
  const SYMBOLS: seq<byte> := ['!' as byte, '@' as byte, '#' as byte, '$' as byte, '%' as byte, '^' as byte, '&' as byte, '*' as byte, '(' as byte, ')' as byte]

  function IndexOf(symbols: seq<byte>, value: byte): (i: nat)
    ensures i <= |symbols|
    ensures i < |symbols| ==> symbols[i] == value
    ensures i == |symbols| ==> value !in symbols
    ensures forall k | 0 <= k < i :: symbols[k] != value
  {
    if symbols == [] || symbols[0] == value then 0 else 1 + IndexOf(symbols[1..], value)
  }

  function Punctuation(value: byte): Option<KeyReport> {
    if value == '-' as int then Some(KeyReport(0, 0x2d)) else if value == '_' as int then Some(KeyReport(SHIFT, 0x2d))
    else if value == '=' as int then Some(KeyReport(0, 0x2e)) else if value == '+' as int then Some(KeyReport(SHIFT, 0x2e))
    else if value == '[' as int then Some(KeyReport(0, 0x2f)) else if value == '{' as int then Some(KeyReport(SHIFT, 0x2f))
    else if value == ']' as int then Some(KeyReport(0, 0x30)) else if value == '}' as int then Some(KeyReport(SHIFT, 0x30))
    else if value == '\\' as int then Some(KeyReport(0, 0x31)) else if value == '|' as int then Some(KeyReport(SHIFT, 0x31))
    else if value == ';' as int then Some(KeyReport(0, 0x33)) else if value == ':' as int then Some(KeyReport(SHIFT, 0x33))
    else if value == '\'' as int then Some(KeyReport(0, 0x34)) else if value == '"' as int then Some(KeyReport(SHIFT, 0x34))
    else if value == '`' as int then Some(KeyReport(0, 0x35)) else if value == '~' as int then Some(KeyReport(SHIFT, 0x35))
    else if value == ',' as int then Some(KeyReport(0, 0x36)) else if value == '<' as int then Some(KeyReport(SHIFT, 0x36))
    else if value == '.' as int then Some(KeyReport(0, 0x37)) else if value == '>' as int then Some(KeyReport(SHIFT, 0x37))
    else if value == '/' as int then Some(KeyReport(0, 0x38)) else if value == '?' as int then Some(KeyReport(SHIFT, 0x38))
    else None
  }

  function ReportForByte(value: byte): Option<KeyReport> {
    if 'a' as int <= value <= 'z' as int then Some(KeyReport(0, 0x04 + value - 'a' as int))
    else if 'A' as int <= value <= 'Z' as int then Some(KeyReport(SHIFT, 0x04 + value - 'A' as int))
    else if '1' as int <= value <= '9' as int then Some(KeyReport(0, 0x1e + value - '1' as int))
    else if value == '0' as int then Some(KeyReport(0, 0x27))
    else if value == '\n' as int || value == '\r' as int then Some(KeyReport(0, ENTER))
    else if value == '\t' as int then Some(KeyReport(0, 0x2b))
    else if value == ' ' as int then Some(KeyReport(0, 0x2c))
    else if value in SYMBOLS then
      var index := IndexOf(SYMBOLS, value);
      Some(KeyReport(SHIFT, if index == 9 then 0x27 else 0x1e + index))
    else Punctuation(value)
  }

  /** The reports for a text, or None when it is refused. */
  method KeyboardReports(text: seq<byte>) returns (r: Option<seq<KeyReport>>)
    ensures r.Some? <==> text != [] && forall b | b in text :: ReportForByte(b).Some?
    ensures r.Some? ==> Reported(text, r.value)
  {
    if text == [] {
      return None;
    }
    var reports: seq<KeyReport> := [];
    var i := 0;
    while i < |text|
      invariant 0 <= i <= |text| && |reports| == i
      invariant forall k | 0 <= k < i :: ReportForByte(text[k]) == Some(reports[k])
    {
      var report := ReportForByte(text[i]);
      if report.None? {
        return None;
      }
      reports := reports + [report.value];
      i := i + 1;
    }
    r := Some(reports);
  }

  lemma SymbolBytes(b: byte)
    ensures b in SYMBOLS <==> b == 33 || b == 64 || b == 35 || b == 36 || b == 37 || b == 94 || b == 38 || b == 42 || b == 40 || b == 41
  {
    assert SYMBOLS[0] == 33 && SYMBOLS[1] == 64 && SYMBOLS[2] == 35 && SYMBOLS[3] == 36 && SYMBOLS[4] == 37;
    assert SYMBOLS[5] == 94 && SYMBOLS[6] == 38 && SYMBOLS[7] == 42 && SYMBOLS[8] == 40 && SYMBOLS[9] == 41;
  }

  /** Exactly the printable US-ASCII characters, tab, line feed and carriage return can be typed. */
  lemma AcceptedBytes(b: byte)
    ensures ReportForByte(b).Some? <==> (0x20 <= b <= 0x7e || b == 9 || b == 10 || b == 13)
  {
    SymbolBytes(b);
    hide IndexOf;
    assert '!' as int == 33 && '~' as int == 126;
  }

  // ---- A host with a US layout ----

  const LETTERS: string := "abcdefghijklmnopqrstuvwxyz"
  const CAPITALS: string := "ABCDEFGHIJKLMNOPQRSTUVWXYZ"
  const DIGITS: string := "1234567890"
  const SHIFTED_DIGITS: string := "!@#$%^&*()"
  const PLAIN_FROM_2D: string := "-=[]\\"
  const SHIFTED_FROM_2D: string := "_+{}|"
  const PLAIN_FROM_33: string := ";'`,./"
  const SHIFTED_FROM_33: string := ":\"~<>?"

  function At(row: string, i: int): Option<char> {
    if 0 <= i < |row| then Some(row[i]) else None
  }

  /** The character a key types, by the usage tables of the USB HID keyboard page. */
  function Typed(shift: bool, usage: nat): Option<char> {
    if usage < 0x1e then At(if shift then CAPITALS else LETTERS, usage - 0x04)
    else if usage < 0x28 then At(if shift then SHIFTED_DIGITS else DIGITS, usage - 0x1e)
    else if usage == 0x28 then if shift then None else Some('\n')
    else if usage == 0x2b then if shift then None else Some('\t')
    else if usage == 0x2c then if shift then None else Some(' ')
    else if usage < 0x33 then At(if shift then SHIFTED_FROM_2D else PLAIN_FROM_2D, usage - 0x2d)
    else At(if shift then SHIFTED_FROM_33 else PLAIN_FROM_33, usage - 0x33)
  }

  datatype Host = Host(down: set<nat>, modifier: byte, typed: string)

  const IDLE_HOST := Host({}, 0, "")

  /** A key types when it goes down, not while it stays down. */
  function Press(h: Host, report: KeyReport): Host {
    var character := if report.usage in h.down then None else Typed(report.modifier == SHIFT, report.usage);
    Host({report.usage}, report.modifier, if character.Some? then h.typed + [character.value] else h.typed)
  }

  function LetGo(h: Host): Host {
    h.(down := {}, modifier := 0)
  }

  /** Every report is followed by a release. */
  function Replay(h: Host, reports: seq<KeyReport>): Host
    decreases |reports|
  {
    if reports == [] then h else Replay(LetGo(Press(h, reports[0])), reports[1..])
  }

  function Shown(b: byte): char
    requires b < 0x80
  {
    if b == 13 then '\n' else b as char
  }

  function ShownText(text: seq<byte>): string
    requires Ascii(text)
  {
    if text == [] then "" else [Shown(text[0])] + ShownText(text[1..])
  }

  /** The report of each byte types that byte; carriage return types as Enter. */
  lemma ByteTyped(b: byte)
    requires ReportForByte(b).Some?
    ensures b < 0x80
    ensures var report := ReportForByte(b).value;
            (report.modifier == 0 || report.modifier == SHIFT)
            && Typed(report.modifier == SHIFT, report.usage) == Some(Shown(b))
  {
    AcceptedBytes(b);
    if 'a' as int <= b <= 'z' as int {
      LetterAt(b - 'a' as int);
    } else if 'A' as int <= b <= 'Z' as int {
      LetterAt(b - 'A' as int);
    }
  }

  lemma LetterAt(i: int)
    requires 0 <= i < 26
    ensures LETTERS[i] == ('a' as int + i) as char && CAPITALS[i] == ('A' as int + i) as char
  {
  }

  lemma AllAscii(text: seq<byte>)
    requires forall i | 0 <= i < |text| :: ReportForByte(text[i]).Some?
    ensures forall i | 0 <= i < |text| :: text[i] < 0x80
  {
    forall i | 0 <= i < |text|
      ensures text[i] < 0x80
    {
      ByteTyped(text[i]);
    }
  }

  /** One byte: the key goes down, types its character, and is let go. */
  lemma TypeOne(h: Host, b: byte)
    requires h.down == {} && h.modifier == 0 && ReportForByte(b).Some?
    ensures b < 0x80
    ensures LetGo(Press(h, ReportForByte(b).value)) == Host({}, 0, h.typed + [Shown(b)])
  {
    ByteTyped(b);
    hide ReportForByte, Typed, Shown;
  }

  ghost predicate Reported(text: seq<byte>, reports: seq<KeyReport>) {
    |reports| == |text| && forall i | 0 <= i < |text| :: ReportForByte(text[i]) == Some(reports[i])
  }

  lemma ReportedTail(text: seq<byte>, reports: seq<KeyReport>)
    requires Reported(text, reports) && text != []
    ensures ReportForByte(text[0]) == Some(reports[0]) && Reported(text[1..], reports[1..])
  {
    hide ReportForByte;
  }

  lemma ReportedAscii(text: seq<byte>, reports: seq<KeyReport>)
    requires Reported(text, reports)
    ensures Ascii(text)
  {
    hide ReportForByte;
    AllAscii(text);
  }

  predicate Ascii(text: seq<byte>) {
    forall i | 0 <= i < |text| :: text[i] < 0x80
  }

  lemma Grouped(a: string, c: char, b: string)
    ensures a + [c] + b == a + ([c] + b)
  {
  }

  /** Typing an accepted text on a US-layout host yields that text and leaves no key down. */
  lemma {:induction false} TypingYieldsText(h: Host, text: seq<byte>, reports: seq<KeyReport>)
    requires h.down == {} && h.modifier == 0 && Reported(text, reports)
    ensures Ascii(text)
    ensures Replay(h, reports) == Host({}, 0, h.typed + ShownText(text))
    decreases |text|
  {
    ReportedAscii(text, reports);
    if text == [] {
      assert reports == [] && h.typed + "" == h.typed;
    } else {
      ReportedTail(text, reports);
      assert ShownText(text) == [Shown(text[0])] + ShownText(text[1..]);
      hide ReportForByte, Press, LetGo, Shown, Reported, Ascii, ShownText;
      TypeOne(h, text[0]);
      var next := Host({}, 0, h.typed + [Shown(text[0])]);
      TypingYieldsText(next, text[1..], reports[1..]);
      Grouped(h.typed, Shown(text[0]), ShownText(text[1..]));
    }
  }
}
