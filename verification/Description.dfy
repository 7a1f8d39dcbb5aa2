/** The on-chain description of a record: the Python printer, the contract-call
    encoding it travels in, and the JavaScript that decodes and parses it. */
module Description {
  import opened Basics
  import opened Utf8
  import opened Json
  import opened Audit

  // -------------------------------------------------------------------- printing

  /** Fixed-point formatting of a number to four, one and no decimals. */
  datatype Format = Format(four: string -> string, one: string -> string, zero: string -> string)

  function Get(block: map<string, Json>, key: string): Json {
    if key in block then block[key] else Null
  }

  function Text(j: Json): string {
    match j
    case Str(text) => text
    case Num(token) => token
    case _ => ""
  }

  function Compact(name: string): string {
    if name == "UP" then "UP"
    else if name == "DOWN" then "DN"
    else if name == "RANGE" then "RG"
    else if name == "COMPRESSED" then "CMP"
    else if name == "NORMAL" then "NRM"
    else if name == "EXPANDED" then "EXP"
    else if name == "CRISIS" then "CRI"
    else if name == "NEUTRAL" then "NEU"
    else if name == "BULL_BIAS" then "B+"
    else if name == "BEAR_BIAS" then "B-"
    else if name == "EXTREME_POS" then "E+"
    else if name == "EXTREME_NEG" then "E-"
    else if |name| <= 4 then name
    else name[..4]
  }

  const DOT := " · "

  function Join(parts: seq<string>): string
    decreases |parts|
  {
    if parts == [] then ""
    else if |parts| == 1 then parts[0]
    else Join(parts[..|parts| - 1]) + DOT + parts[|parts| - 1]
  }

  function ShortId(r: AuditRecord): string {
    if |r.auditId| <= 8 then r.auditId else r.auditId[..8]
  }

  function SideText(r: AuditRecord): string {
    if r.side.Some? && r.side.value != "" then r.side.value else "?"
  }

  function BlockOf(r: AuditRecord): map<string, Json> {
    if r.sized.Some? then r.sized.value else map[]
  }

  function TradePart(r: AuditRecord, fmt: Format): string {
    var qty, leverage := Get(BlockOf(r), "qty"), Get(BlockOf(r), "leverage");
    if !qty.Null? && !leverage.Null? then
      r.asset + " " + SideText(r) + " " + fmt.four(Text(qty)) + " @ " + fmt.one(Text(leverage)) + "x"
    else r.asset + " " + SideText(r)
  }

  function NotionalPart(r: AuditRecord, fmt: Format): seq<string> {
    var notional := Get(BlockOf(r), "notional_usd");
    if notional.Null? then [] else ["$" + fmt.zero(Text(notional)) + " notional"]
  }

  function LevelsPart(r: AuditRecord, fmt: Format): seq<string> {
    var stop, take := Get(BlockOf(r), "stop_price"), Get(BlockOf(r), "take_price");
    if stop.Null? || take.Null? then [] else ["stop $" + fmt.four(Text(stop)) + " take $" + fmt.four(Text(take))]
  }

  function TierPart(r: AuditRecord): seq<string> {
    var tier := Text(Get(BlockOf(r), "tier"));
    if tier == "" then [] else ["tier " + tier]
  }

  function RegimePart(r: AuditRecord): seq<string> {
    var trend, vol, fund :=
      Text(Get(BlockOf(r), "regime_trend")), Text(Get(BlockOf(r), "regime_vol")),
        Text(Get(BlockOf(r), "regime_funding"));
    if trend == "" || vol == "" || fund == "" then []
    else ["regime " + Compact(trend) + "/" + Compact(vol) + "/" + Compact(fund)]
  }

  function BuildDescription(r: AuditRecord, hashHex: string, fmt: Format): string {
    Join(["agora-perp-agent", TradePart(r, fmt)] + NotionalPart(r, fmt) + LevelsPart(r, fmt) + TierPart(r)
      + RegimePart(r)
         + ["audit " + ShortId(r), "keccak " + hashHex])
  }

  // ------------------------------------------------------------ call encoding

  const SELECTOR := "0x41528812"

  /** The last k hexadecimal digits of a number. */
  function HexDigits(n: nat, k: nat): (s: string)
    ensures |s| == k
  {
    if k == 0 then "" else HexDigits(n / 16, k - 1) + [HexDigit(n % 16)]
  }

  /** A 32-byte word. */
  function Word(n: nat): (s: string)
    ensures |s| == 64
  {
    HexDigits(n, 64)
  }

  function HexBytes(bs: seq<Byte>): (s: string)
    ensures |s| == 2 * |bs|
    decreases |bs|
  {
    if bs == [] then ""
    else HexBytes(bs[..|bs| - 1]) + [HexDigit(bs[|bs| - 1] / 16), HexDigit(bs[|bs| - 1] % 16)]
  }

  function Padding(n: nat): seq<Byte> {
    seq((32 - n % 32) % 32, i => 0)
  }

  /** createJob(address,address,uint256,string,address): five head words, the
      fourth the offset of the string, then its length and padded bytes. */
  function EncodeCall(provider: nat, evaluator: nat, expiredAt: nat, description: string, hook: nat): string {
    var bytes := Encode(description);
    SELECTOR + Word(provider) + Word(evaluator) + Word(expiredAt) + Word(160) + Word(hook)
    + Word(|bytes|) + HexBytes(bytes + Padding(|bytes|))
  }

  function ParseHex(s: string): Option<nat>
    decreases |s|
  {
    if s == "" then Some(0)
    else
      var high, low := ParseHex(s[..|s| - 1]), HexValue(s[|s| - 1]);
      if high.None? || low.None? then None else Some(high.value * 16 + low.value)
  }

  function Lower(c: char): char {
    if 'A' <= c <= 'Z' then (c as int + 32) as char else c
  }

  predicate StartsLower(s: string, word: string) {
    |word| <= |s| && forall i :: 0 <= i < |word| ==> Lower(s[i]) == word[i]
  }

  function ParseBytes(s: string, n: nat): Option<seq<Byte>>
    requires |s| == 2 * n
    decreases n
  {
    if n == 0 then Some([])
    else
      var rest, b := ParseBytes(s[..2 * n - 2], n - 1), ParseHex(s[2 * n - 2..]);
      if rest.None? || b.None? || b.value >= 256 then None else Some(rest.value + [b.value])
  }

  /** The description bytes inside a call, if the call has the layout. */
  function DescriptionBytes(raw: string): Option<seq<Byte>> {
    if !StartsLower(raw, SELECTOR) then None
    else
      var hex := raw[10..];
      if |hex| < 320 then None
      else
        var offset := ParseHex(hex[192..256]);
        if offset.None? || |hex| < 2 * offset.value + 64 then None
        else
          var cursor := 2 * offset.value;
          var len := ParseHex(hex[cursor..cursor + 64]);
          if len.None? || len.value == 0 || |hex| < cursor + 64 + 2 * len.value then None
          else ParseBytes(hex[cursor + 64..cursor + 64 + 2 * len.value], len.value)
  }

  function DecodeDescription(raw: string): Option<string> {
    var bytes := DescriptionBytes(raw);
    if bytes.None? then None else Decode(bytes.value)
  }

  lemma {:induction false} ParseNext(data: string, i: nat)
    requires |data| >= 2 * i + 2
    ensures
      var rest, b := ParseBytes(data[..2 * i], i), ParseHex(data[2 * i..2 * i + 2]);
      ParseBytes(data[..2 * (i + 1)], i + 1)
        == if rest.None? || b.None? || b.value >= 256 then None else Some(rest.value + [b.value])
  {
    assert data[..2 * (i + 1)][..2 * (i + 1) - 2] == data[..2 * i];
    assert data[..2 * (i + 1)][2 * (i + 1) - 2..] == data[2 * i..2 * i + 2];
  }

  /** Fill an array with the bytes of some hex text. */
  method FillBytes(data: string, n: nat) returns (bytes: array<Byte>, ok: bool)
    requires |data| == 2 * n
    ensures ok <==> ParseBytes(data, n).Some?
    ensures ok ==> bytes[..] == ParseBytes(data, n).value
  {
    bytes := new Byte[n];
    ok := true;
    assert ParseBytes(data[..0], 0) == Some(bytes[..0]);
    hide ParseHex, ParseBytes;
    for i := 0 to n
      invariant ParseBytes(data[..2 * i], i) == Some(bytes[..i])
    {
      ParseNext(data, i);
      var b := ParseHex(data[2 * i..2 * i + 2]);
      if b.None? || b.value >= 256 {
        ParsePrefix(data, i + 1, n);
        ok := false;
        return;
      }
      bytes[i] := b.value;
      assert bytes[..i + 1] == bytes[..i] + [b.value];
    }
    assert data[..2 * n] == data;
    assert bytes[..n] == bytes[..];
  }

  /** The dashboard's decoder: locate the string, fill a byte array from its hex
      text, decode the bytes. */
  method DecodeCreateJobDescription(raw: string) returns (description: Option<string>)
    ensures description == DecodeDescription(raw)
  {
    if !StartsLower(raw, SELECTOR) {
      return None;
    }
    var hex := raw[10..];
    hide ParseHex, ParseBytes, Decode, StartsLower;
    if |hex| < 320 {
      return None;
    }
    var offset := ParseHex(hex[192..256]);
    if offset.None? || |hex| < 2 * offset.value + 64 {
      return None;
    }
    var cursor := 2 * offset.value;
    var len := ParseHex(hex[cursor..cursor + 64]);
    if len.None? || len.value == 0 || |hex| < cursor + 64 + 2 * len.value {
      return None;
    }
    var data := hex[cursor + 64..cursor + 64 + 2 * len.value];
    assert DescriptionBytes(raw) == ParseBytes(data, len.value);
    hide DescriptionBytes;
    var bytes, ok := FillBytes(data, len.value);
    description := if ok then Decode(bytes[..]) else None;
  }

  lemma {:induction false} ParsePrefix(data: string, i: nat, n: nat)
    requires i <= n && |data| == 2 * n && ParseBytes(data[..2 * i], i).None?
    ensures ParseBytes(data, n).None?
    decreases n - i
  {
    if i < n {
      assert data[..2 * (i + 1)][..2 * (i + 1) - 2] == data[..2 * i];
      ParsePrefix(data, i + 1, n);
    } else {
      assert data[..2 * i] == data;
    }
  }

  // --------------------------------------------------------------------- parsing

  predicate Hex(c: char) {
    '0' <= c <= '9' || 'a' <= c <= 'f' || 'A' <= c <= 'F'
  }

  predicate IsX(c: char) {
    c == 'x' || c == 'X'
  }

  /** White space of a JavaScript regular expression. */
  predicate Space(c: char) {
    c == ' ' || ('\t' <= c <= '\r') || c == '\U{00a0}' || c == '\U{1680}' || ('\U{2000}' <= c <= '\U{200a}')
    || c == '\U{2028}' || c == '\U{2029}' || c == '\U{202f}' || c == '\U{205f}' || c == '\U{3000}' || c == '\U{feff}'
  }

  predicate WordChar(c: char) {
    '0' <= c <= '9' || 'a' <= c <= 'z' || 'A' <= c <= 'Z' || c == '_'
  }

  predicate HashAt(s: string) {
    |s| >= 66 && s[0] == '0' && IsX(s[1]) && forall k :: 2 <= k < 66 ==> Hex(s[k])
  }

  /** The leftmost 0x with 64 hexadecimal digits. */
  function FindHash(s: string): Option<string> {
    if s == "" then None else if HashAt(s) then Some(s[..66]) else FindHash(s[1..])
  }

  function Spaces(s: string): (n: nat)
    ensures n <= |s|
  {
    if s != "" && Space(s[0]) then 1 + Spaces(s[1..]) else 0
  }

  predicate ShortHex(s: string) {
    |s| >= 8 && (forall k :: 0 <= k < 8 ==> Hex(s[k])) && (|s| == 8 || !WordChar(s[8]))
  }

  /** The word audit, white space, and eight hexadecimal digits on their own. */
  function AuditAt(s: string): Option<string> {
    if !StartsLower(s, "audit") then None
    else
      var n := Spaces(s[5..]);
      var rest := s[5 + n..];
      if n >= 1 && ShortHex(rest) then Some(rest[..8]) else None
  }

  /** The leftmost such match; it may start only at a word boundary. */
  function FindAudit(s: string, boundary: bool): Option<string> {
    if s == "" then None
    else if boundary && AuditAt(s).Some? then AuditAt(s)
    else FindAudit(s[1..], !WordChar(s[0]))
  }

  predicate Legacy(s: string) {
    |s| >= 43 && StartsLower(s, "agora:") && s[42] == ':' && forall k :: 6 <= k < 42 ==> Hex(s[k]) || s[k] == '-'
  }

  predicate Piped(s: string) {
    |s| >= 15 && StartsLower(s, "agora|") && s[14] == '|' && forall k :: 6 <= k < 14 ==> Hex(s[k])
  }

  datatype Parsed = Parsed(auditId: Option<string>, anchorHash: Option<string>)

  function ParseDescription(s: string): Option<Parsed> {
    if !StartsLower(s, "agora") then None
    else
      var auditId :=
        if Legacy(s) then Some(s[6..42]) else if Piped(s) then Some(s[6..14]) else FindAudit(s, true);
      Some(Parsed(auditId, FindHash(s)))
  }
}
