/** The dashboard's parser undoes the printer: the description survives the
    call encoding, and its audit id and hash are found again unless the asset
    name itself contains something that looks like them. */
module DescriptionLaws {
  import opened Basics
  import opened Utf8
  import opened Json
  import opened Audit
  import opened Description
  import DecisionLoop
  import Contracts

  // ------------------------------------------------------------ through the call

  function Pow16(k: nat): nat {
    if k == 0 then 1 else 16 * Pow16(k - 1)
  }

  lemma {:induction false} ParseDigits(n: nat, k: nat)
    requires n < Pow16(k)
    ensures ParseHex(HexDigits(n, k)) == Some(n)
  {
    if k > 0 {
      var s := HexDigits(n, k);
      assert s[..|s| - 1] == HexDigits(n / 16, k - 1);
      ParseDigits(n / 16, k - 1);
      HexRoundTrip(n % 16);
    }
  }

  lemma {:induction false} ParseTwo(b: Byte)
    ensures ParseHex([HexDigit(b / 16), HexDigit(b % 16)]) == Some(b)
  {
    var s := [HexDigit(b / 16), HexDigit(b % 16)];
    HexRoundTrip(b / 16);
    HexRoundTrip(b % 16);
    assert s[..1] == [HexDigit(b / 16)] && s[..1][..0] == "";
    assert ParseHex(s[..1]) == Some((b / 16) as nat);
  }

  lemma {:induction false} ParseHexBytes(bs: seq<Byte>)
    ensures ParseBytes(HexBytes(bs), |bs|) == Some(bs)
    decreases |bs|
  {
    if bs != [] {
      var n := |bs| - 1;
      var s := HexBytes(bs);
      ParseHexBytes(bs[..n]);
      ParseTwo(bs[n]);
      assert s[..2 * n] == HexBytes(bs[..n]);
      assert s[2 * n..] == [HexDigit(bs[n] / 16), HexDigit(bs[n] % 16)];
      assert bs == bs[..n] + [bs[n]];
    }
  }

  lemma {:induction false} HexBytesConcat(a: seq<Byte>, b: seq<Byte>)
    ensures HexBytes(a + b) == HexBytes(a) + HexBytes(b)
    decreases |b|
  {
    if b == [] {
      assert a + b == a;
    } else {
      assert (a + b)[..|a + b| - 1] == a + b[..|b| - 1];
      HexBytesConcat(a, b[..|b| - 1]);
    }
  }

  lemma {:induction false} SmallWord()
    ensures 160 < Pow16(64)
  {
    PowGrows(2, 64);
  }

  lemma {:induction false} PowGrows(j: nat, k: nat)
    requires j <= k
    ensures Pow16(j) <= Pow16(k)
    decreases k
  {
    if j < k {
      PowGrows(j, k - 1);
    }
  }

  lemma {:induction false} SelectorStarts(rest: string)
    ensures StartsLower(SELECTOR + rest, SELECTOR)
  {
    forall i | 0 <= i < |SELECTOR| ensures Lower(SELECTOR[i]) == SELECTOR[i] {
    }
  }

  /** The six words and the data, sliced back out of the call. */
  lemma {:induction false} CallLayout(a: string, b: string, c: string, offset: string, hook: string, len: string,
                                      data: string)
    requires |a| == |b| == |c| == |offset| == |hook| == |len| == 64
    ensures
      var raw := SELECTOR + a + b + c + offset + hook + len + data;
      && StartsLower(raw, SELECTOR) && |raw| == 394 + |data|
      && raw[10..][192..256] == offset && raw[10..][320..384] == len && raw[10..][384..] == data
  {
    var raw := SELECTOR + a + b + c + offset + hook + len + data;
    var hex := a + b + c + offset + hook + len + data;
    assert raw == SELECTOR + hex;
    SelectorStarts(hex);
    assert |SELECTOR| == 10;
    assert raw[10..] == hex;
    assert hex[192..256] == offset;
    assert hex[320..384] == len;
    assert hex[384..] == data;
  }

  lemma {:induction false} BytesFrom(raw: string, bytes: seq<Byte>)
    requires StartsLower(raw, SELECTOR) && bytes != [] && |raw| >= 394 + 2 * |bytes|
    requires ParseHex(raw[10..][192..256]) == Some(160)
    requires ParseHex(raw[10..][320..384]) == Some(|bytes|)
    requires raw[10..][384..384 + 2 * |bytes|] == HexBytes(bytes)
    ensures DescriptionBytes(raw) == Some(bytes)
  {
    ParseHexBytes(bytes);
    hide ParseHex, ParseBytes, HexBytes, StartsLower;
  }

  lemma {:induction false} Prefix(s: string, a: string, b: string, from: nat)
    requires from <= |s| && s[from..] == a + b
    ensures s[from..from + |a|] == a
  {
    assert s[from..from + |a|] == s[from..][..|a|];
  }

  /** Main result on the encoding: the decoder finds the description again in
      the call that carries it. */
  lemma {:induction false} DecodeEncodeCall(provider: nat, evaluator: nat, expiredAt: nat, description: string,
                                            hook: nat)
    requires description != "" && |Encode(description)| < Pow16(64)
    ensures DecodeDescription(EncodeCall(provider, evaluator, expiredAt, description, hook)) == Some(description)
  {
    var bytes := Encode(description);
    var raw := EncodeCall(provider, evaluator, expiredAt, description, hook);
    EncodesSomething(description);
    DecodeEncode(description);
    CallCarries(provider, evaluator, expiredAt, description, hook);
    hide HexDigits, ParseHex, HexBytes, ParseBytes, Encode, Decode, StartsLower, Pow16, DescriptionBytes, EncodeCall;
    BytesFrom(raw, bytes);
  }

  lemma {:induction false} EncodesSomething(s: string)
    requires s != ""
    ensures Encode(s) != []
  {
    assert |EncodeChar(s[0])| > 0;
  }

  lemma {:induction false} CallCarries(provider: nat, evaluator: nat, expiredAt: nat, description: string, hook: nat)
    requires |Encode(description)| < Pow16(64)
    ensures
      var bytes := Encode(description);
      var raw := EncodeCall(provider, evaluator, expiredAt, description, hook);
      && StartsLower(raw, SELECTOR) && |raw| >= 394 + 2 * |bytes|
      && ParseHex(raw[10..][192..256]) == Some(160) && ParseHex(raw[10..][320..384]) == Some(|bytes|)
      && raw[10..][384..384 + 2 * |bytes|] == HexBytes(bytes)
  {
    hide HexDigits, ParseHex, HexBytes, Encode, StartsLower, Pow16, Padding;
    var bytes := Encode(description);
    HexBytesConcat(bytes, Padding(|bytes|));
    SmallWord();
    ParseDigits(160, 64);
    ParseDigits(|bytes|, 64);
    var data := HexBytes(bytes) + HexBytes(Padding(|bytes|));
    CallLayout(Word(provider), Word(evaluator), Word(expiredAt), Word(160), Word(hook), Word(|bytes|), data);
    var raw := EncodeCall(provider, evaluator, expiredAt, description, hook);
    assert raw == SELECTOR + Word(provider) + Word(evaluator) + Word(expiredAt) + Word(160) + Word(hook)
      + Word(|bytes|) + data;
    hide EncodeCall, Word, SELECTOR;
    Prefix(raw[10..], HexBytes(bytes), HexBytes(Padding(|bytes|)), 384);
  }

  // ---------------------------------------------------------------- text searches

  function First(a: Option<string>, b: Option<string>): Option<string> {
    if a.Some? then a else b
  }

  /** No hash match straddles a space. */
  lemma {:induction false} HashSplit(a: string, b: string)
    ensures FindHash(a + [' '] + b) == First(FindHash(a), FindHash(b))
  {
    var s := a + [' '] + b;
    if a == "" {
      assert s[1..] == b;
      assert s[0] == ' ';
    } else {
      assert s[1..] == a[1..] + [' '] + b;
      HashSplit(a[1..], b);
      assert s[0] == a[0];
      if |a| < 66 {
        assert s[|a|] == ' ';
        assert !HashAt(s);
      } else {
        assert s[..66] == a[..66];
        assert forall k :: 0 <= k < 66 ==> s[k] == a[k];
        assert HashAt(s) <==> HashAt(a);
      }
    }
  }

  /** A zero and an x are followed by something else than a hexadecimal digit,
      and an a is not followed by a u. */
  predicate CalmAt(p: string, i: nat)
    requires i < |p|
  {
    && (p[i] == '0' ==> i + 1 < |p| && (IsX(p[i + 1]) ==> i + 2 < |p| && !Hex(p[i + 2])))
    && (Lower(p[i]) == 'a' ==> i + 1 < |p| && Lower(p[i + 1]) != 'u')
  }

  /** Text in which neither search can begin a match. */
  predicate Quiet(p: string) {
    (forall i :: 0 <= i < |p| ==> CalmAt(p, i)) && (p != "" ==> p[|p| - 1] == ' ')
  }

  lemma {:induction false} QuietConcat(p: string, q: string)
    requires Quiet(p) && Quiet(q)
    ensures Quiet(p + q)
  {
    var s := p + q;
    forall i | 0 <= i < |s| ensures CalmAt(s, i) {
      if i < |p| {
        assert CalmAt(p, i);
        assert s[i] == p[i] && (i + 1 < |p| ==> s[i + 1] == p[i + 1]) && (i + 2 < |p| ==> s[i + 2] == p[i + 2]);
      } else {
        assert CalmAt(q, i - |p|);
        assert s[i] == q[i - |p|];
        assert i + 1 < |s| ==> s[i + 1] == q[i + 1 - |p|];
        assert i + 2 < |s| ==> s[i + 2] == q[i + 2 - |p|];
      }
    }
  }

  lemma {:induction false} QuietTail(p: string)
    requires Quiet(p) && p != ""
    ensures Quiet(p[1..])
  {
    forall i | 0 <= i < |p| - 1 ensures CalmAt(p[1..], i) {
      assert CalmAt(p, i + 1);
    }
  }

  lemma {:induction false} HashSkip(p: string, s: string)
    requires Quiet(p)
    ensures FindHash(p + s) == FindHash(s)
  {
    if p == "" {
      assert p + s == s;
    } else {
      QuietTail(p);
      HashSkip(p[1..], s);
      assert (p + s)[1..] == p[1..] + s;
      assert CalmAt(p, 0);
      if p[0] == '0' {
        assert (p + s)[1] == p[1];
      }
      if p[0] == '0' && IsX(p[1]) {
        assert (p + s)[2] == p[2];
      }
    }
  }

  lemma {:induction false} AuditSkip(p: string, s: string, boundary: bool)
    requires Quiet(p) && p != ""
    ensures FindAudit(p + s, boundary) == FindAudit(s, true)
  {
    assert (p + s)[0] == p[0] && (p + s)[1..] == p[1..] + s;
    assert CalmAt(p, 0);
    if Lower(p[0]) == 'a' {
      assert (p + s)[1] == p[1];
    }
    assert AuditAt(p + s).None? by {
      assert "audit"[0] == 'a' && "audit"[1] == 'u';
    }
    if |p| == 1 {
      assert p[1..] + s == s;
    } else {
      QuietTail(p);
      AuditSkip(p[1..], s, !WordChar(p[0]));
    }
  }

  /** The text after a space cannot complete a match begun before it. */
  predicate Inert(b: string) {
    b != "" && !Hex(b[0]) && !Space(b[0])
  }

  lemma {:induction false} SpacesSplit(a: string, b: string)
    requires Inert(b)
    ensures Spaces(a + [' '] + b) == if Spaces(a) < |a| then Spaces(a) else |a| + 1
  {
    var s := a + [' '] + b;
    if a == "" {
      assert s[0] == ' ' && s[1..] == b;
      assert Spaces(b) == 0;
    } else {
      assert s[0] == a[0] && s[1..] == a[1..] + [' '] + b;
      SpacesSplit(a[1..], b);
    }
  }

  lemma {:induction false} ShortHexSplit(a: string, b: string)
    ensures ShortHex(a + [' '] + b) <==> ShortHex(a)
    ensures ShortHex(a) ==> (a + [' '] + b)[..8] == a[..8]
  {
    var s := a + [' '] + b;
    if |a| < 8 {
      assert s[|a|] == ' ' && !Hex(s[|a|]);
    } else {
      assert forall k :: 0 <= k < 8 ==> s[k] == a[k];
    }
  }

  lemma {:induction false} AuditAtSplit(a: string, b: string)
    requires a != "" && Inert(b)
    ensures AuditAt(a + [' '] + b) == AuditAt(a)
  {
    var s := a + [' '] + b;
    if |a| < 5 {
      assert s[|a|] == ' ';
      assert forall k :: 0 <= k < 5 ==> "audit"[k] != ' ';
    } else {
      assert forall k :: 0 <= k < 5 ==> s[k] == a[k];
      assert s[5..] == a[5..] + [' '] + b;
      SpacesSplit(a[5..], b);
      var n := Spaces(a[5..]);
      if n < |a| - 5 {
        assert s[5 + n..] == a[5 + n..] + [' '] + b;
        ShortHexSplit(a[5 + n..], b);
      } else {
        assert a[5 + n..] == "";
        assert s[5 + (n + 1)..] == b;
      }
    }
  }

  /** No audit match straddles the space in front of inert text. */
  lemma {:induction false} AuditSplit(a: string, b: string, boundary: bool)
    requires Inert(b)
    ensures FindAudit(a + [' '] + b, boundary) == First(FindAudit(a, boundary), FindAudit(b, true))
  {
    var s := a + [' '] + b;
    if a == "" {
      assert s[0] == ' ' && s[1..] == b;
      assert AuditAt(s).None? by {
        assert "audit"[0] == 'a';
      }
    } else {
      assert s[0] == a[0] && s[1..] == a[1..] + [' '] + b;
      AuditAtSplit(a, b);
      hide AuditAt;
      AuditSplit(a[1..], b, !WordChar(a[0]));
    }
  }

  // ----------------------------------------------------- the shape of descriptions

  /** Formatting yields digits, points and signs. */
  predicate Plain(s: string) {
    forall i :: 0 <= i < |s| ==> '0' <= s[i] <= '9' || s[i] == '.' || s[i] == '-'
  }

  ghost predicate Formats(fmt: Format) {
    forall t :: Plain(fmt.four(t)) && Plain(fmt.one(t)) && Plain(fmt.zero(t))
  }

  const TIERS: set<string> := {"T1", "T2", "T3", "T4"}
  const TRENDS: set<string> := {"UP", "DOWN", "RANGE"}
  const VOLS: set<string> := {"COMPRESSED", "NORMAL", "EXPANDED", "CRISIS"}
  const FUNDINGS: set<string> := {"NEUTRAL", "BULL_BIAS", "BEAR_BIAS", "EXTREME_POS", "EXTREME_NEG"}

  predicate OneOf(j: Json, names: set<string>) {
    j.Null? || (j.Str? && j.text in names)
  }

  /** A record whose side and labels are the engine's own; the asset, the
      reasoning and everything else are free. */
  predicate Regular(r: AuditRecord) {
    && (r.side.None? || r.side.value == "long" || r.side.value == "short")
    && OneOf(Get(BlockOf(r), "tier"), TIERS)
    && OneOf(Get(BlockOf(r), "regime_trend"), TRENDS)
    && OneOf(Get(BlockOf(r), "regime_vol"), VOLS)
    && OneOf(Get(BlockOf(r), "regime_funding"), FUNDINGS)
  }

  /** No zero and no a. */
  predicate Bare(s: string) {
    forall i :: 0 <= i < |s| ==> s[i] != '0' && Lower(s[i]) != 'a'
  }

  lemma {:induction false} BareQuiet(s: string)
    requires Bare(s)
    ensures Quiet(s + " ")
  {
    var p := s + " ";
    assert forall i :: 0 <= i < |s| ==> p[i] == s[i];
  }

  lemma {:induction false} BareBefore(p: string, q: string)
    requires Bare(p) && Quiet(q) && q != ""
    ensures Quiet(p + q)
  {
    var s := p + q;
    assert s[|s| - 1] == q[|q| - 1];
    forall i | 0 <= i < |s| ensures CalmAt(s, i) {
      if i < |p| {
        assert s[i] == p[i];
      } else {
        assert CalmAt(q, i - |p|);
        assert s[i] == q[i - |p|];
        assert i + 1 < |s| ==> s[i + 1] == q[i + 1 - |p|];
        assert i + 2 < |s| ==> s[i + 2] == q[i + 2 - |p|];
      }
    }
  }

  /** An a followed by anything but a u. */
  lemma {:induction false} LetterA(q: string)
    requires Quiet(q) && q != "" && Lower(q[0]) != 'u'
    ensures Quiet(['a'] + q)
  {
    var s := ['a'] + q;
    assert s[|s| - 1] == q[|q| - 1];
    forall i | 0 <= i < |s| ensures CalmAt(s, i) {
      if i == 0 {
        assert s[1] == q[0];
      } else {
        assert CalmAt(q, i - 1);
        assert s[i] == q[i - 1];
        assert i + 1 < |s| ==> s[i + 1] == q[i];
        assert i + 2 < |s| ==> s[i + 2] == q[i + 1];
      }
    }
  }

  lemma {:induction false} PlainQuiet(n: string, end: string)
    requires Plain(n) && (end == " " || end == "x ")
    ensures Quiet(n + end)
  {
    var p := n + end;
    assert p[|p| - 1] == ' ';
    forall i | 0 <= i < |p| ensures CalmAt(p, i) {
      assert i < |n| ==> p[i] == n[i];
      assert i + 1 < |n| ==> p[i + 1] == n[i + 1];
      assert p[|n|] == end[0];
      if end == "x " {
        assert p[|n| + 1] == ' ';
      }
    }
  }

  lemma {:induction false} DollarQuiet(n: string)
    requires Plain(n)
    ensures Quiet("$" + n + " ")
  {
    PlainQuiet(n, " ");
    assert Bare("$");
    BareBefore("$", n + " ");
    assert "$" + n + " " == "$" + (n + " ");
  }

  lemma {:induction false} TierQuiet(t: string)
    requires t in TIERS
    ensures Quiet("tier " + t + " ")
  {
    var s := "tier " + t;
    assert |t| == 2 && t[0] == 'T' && t[1] != '0' && Lower(t[1]) != 'a';
    hide TIERS;
    assert forall i :: 0 <= i < 5 ==> s[i] == "tier "[i];
    assert Bare("tier ");
    assert s[5] == t[0] && s[6] == t[1];
    BareQuiet(s);
  }

  lemma {:induction false} BareConcat(s: string, t: string)
    requires Bare(s) && Bare(t)
    ensures Bare(s + t)
  {
  }

  lemma {:induction false} CompactBare(name: string)
    requires name in TRENDS + VOLS + FUNDINGS
    ensures Bare(Compact(name))
  {
  }

  lemma {:induction false} RegimeQuiet(trend: string, vol: string, fund: string)
    requires trend in TRENDS && vol in VOLS && fund in FUNDINGS
    ensures Quiet("regime " + Compact(trend) + "/" + Compact(vol) + "/" + Compact(fund) + " ")
  {
    CompactBare(trend);
    CompactBare(vol);
    CompactBare(fund);
    assert Bare("regime ") && Bare("/");
    hide Compact, TRENDS, VOLS, FUNDINGS, Bare, Quiet;
    BareConcat("regime ", Compact(trend));
    BareConcat("regime " + Compact(trend), "/");
    BareConcat("regime " + Compact(trend) + "/", Compact(vol));
    BareConcat("regime " + Compact(trend) + "/" + Compact(vol), "/");
    BareConcat("regime " + Compact(trend) + "/" + Compact(vol) + "/", Compact(fund));
    BareQuiet("regime " + Compact(trend) + "/" + Compact(vol) + "/" + Compact(fund));
  }

  lemma {:induction false} DotQuiet()
    ensures Quiet("· ")
  {
    assert Bare("·");
    BareQuiet("·");
    hide Quiet;
    assert "·" + " " == "· ";
  }

  lemma {:induction false} AtQuiet()
    ensures Quiet("@ ")
  {
    assert Bare("@");
    BareQuiet("@");
    hide Quiet;
    assert "@" + " " == "@ ";
  }

  lemma {:induction false} StopQuiet()
    ensures Quiet("stop ")
  {
    assert Bare("stop");
    BareQuiet("stop");
    hide Quiet;
    assert "stop" + " " == "stop ";
  }

  lemma {:induction false} TakeQuiet()
    ensures Quiet("take ")
  {
    assert Bare("ke") && Bare("t");
    BareQuiet("ke");
    assert ("ke" + " ")[0] == 'k';
    LetterA("ke" + " ");
    BareBefore("t", ['a'] + ("ke" + " "));
    hide Quiet;
    assert "t" + (['a'] + ("ke" + " ")) == "take ";
  }

  lemma {:induction false} NotionalWordQuiet()
    ensures Quiet("notional ")
  {
    assert Bare("l") && Bare("notion");
    BareQuiet("l");
    assert ("l" + " ")[0] == 'l';
    LetterA("l" + " ");
    BareBefore("notion", ['a'] + ("l" + " "));
    hide Quiet;
    assert "notion" + (['a'] + ("l" + " ")) == "notional ";
  }

  lemma {:induction false} SideWordsQuiet(side: string)
    requires side == "long" || side == "short" || side == "?"
    ensures Quiet(side + " ") && Inert(side + " ")
  {
    assert Bare("long") && Bare("short") && Bare("?");
    BareQuiet(side);
    hide Quiet, Bare;
    assert (side + " ")[0] == side[0];
  }

  const HEADER := "agora-perp-agent · "

  lemma {:induction false} HeaderQuiet()
    ensures Quiet(HEADER)
  {
    assert Bare("gent ·") && Bare("-perp-") && Bare("gor");
    var a := ['a'] + ("gent ·" + " ");
    var b := ['a'] + ("-perp-" + a);
    BareQuiet("gent ·");
    assert ("gent ·" + " ")[0] == 'g';
    LetterA("gent ·" + " ");
    BareBefore("-perp-", a);
    assert ("-perp-" + a)[0] == '-';
    LetterA("-perp-" + a);
    BareBefore("gor", b);
    assert ("gor" + b)[0] == 'g';
    LetterA("gor" + b);
    hide Quiet, Bare;
    HeaderSpells();
  }

  lemma {:induction false} HeaderSpells()
    ensures ['a'] + ("gor" + (['a'] + ("-perp-" + (['a'] + ("gent ·" + " "))))) == HEADER
  {
  }

  /** Header, asset, and then text that hides nothing. */
  ghost predicate Shaped(t: string, asset: string) {
    exists rest :: t == HEADER + (asset + [' '] + rest) && Quiet(rest) && Inert(rest)
  }

  lemma {:induction false} JoinExtends(parts: seq<string>, part: string)
    requires parts != []
    ensures Join(parts + [part]) == Join(parts) + DOT + part
  {
    assert (parts + [part])[..|parts|] == parts;
  }

  lemma {:induction false} Regroup(header: string, asset: string, rest: string, part: string)
    ensures header + (asset + [' '] + rest) + part + DOT == header + (asset + [' '] + (rest + (part + " " + "· ")))
  {
    assert DOT == " " + "· ";
    hide DOT;
    assert part + " " + "· " == part + (" " + "· ");
    assert header + (asset + [' '] + rest) + part + (" " + "· ")
        == header + ((asset + [' '] + rest) + (part + (" " + "· ")));
    assert (asset + [' '] + rest) + (part + (" " + "· ")) == asset + [' '] + (rest + (part + (" " + "· ")));
  }

  lemma {:induction false} Extend(parts: seq<string>, part: string, asset: string)
    requires parts != [] && Shaped(Join(parts) + DOT, asset) && Quiet(part + " ")
    ensures Shaped(Join(parts + [part]) + DOT, asset)
  {
    hide Quiet, HEADER;
    var rest :| Join(parts) + DOT == HEADER + (asset + [' '] + rest) && Quiet(rest) && Inert(rest);
    DotQuiet();
    QuietConcat(part + " ", "· ");
    QuietConcat(rest, part + " " + "· ");
    var more := rest + (part + " " + "· ");
    assert more[0] == rest[0];
    JoinExtends(parts, part);
    hide Join, Inert;
    Regroup(HEADER, asset, rest, part);
  }

  lemma {:induction false} ExtendMaybe(parts: seq<string>, more: seq<string>, asset: string)
    requires parts != [] && Shaped(Join(parts) + DOT, asset)
    requires |more| <= 1 && (more != [] ==> Quiet(more[0] + " "))
    ensures Shaped(Join(parts + more) + DOT, asset)
  {
    if more == [] {
      assert parts + more == parts;
    } else {
      Extend(parts, more[0], asset);
      assert more == [more[0]];
    }
  }

  lemma {:induction false} SideQuiet(r: AuditRecord)
    requires Regular(r)
    ensures Quiet(SideText(r) + " ") && Inert(SideText(r) + " ")
  {
    hide Quiet, OneOf;
    SideWordsQuiet(SideText(r));
  }

  lemma {:induction false} InertMore(a: string, b: string)
    requires Inert(a)
    ensures Inert(a + b)
  {
    assert (a + b)[0] == a[0];
  }

  lemma {:induction false} FigureTexts(asset: string, side: string, qty: string, leverage: string)
    ensures asset + " " + side + " " + qty + " @ " + leverage + "x" + DOT
         == asset + [' '] + (side + " " + (qty + " ") + "@ " + (leverage + "x ") + "· ")
  {
    assert " @ " == " " + "@ " && "x " == "x" + " " && DOT == " " + "· " && [' '] == " ";
    hide DOT;
    var left := asset + " " + side + " " + qty + (" " + "@ ") + leverage + "x" + (" " + "· ");
    assert left == asset + (" " + (side + (" " + (qty + (" " + ("@ " + (leverage + ("x" + (" " + "· ")))))))));
    var right := asset + " " + (side + " " + (qty + " ") + "@ " + (leverage + ("x" + " ")) + "· ");
    assert right == asset + (" " + (side + (" " + (qty + (" " + ("@ " + (leverage + ("x" + (" " + "· ")))))))));
  }

  lemma {:induction false} BareTrade(asset: string, side: string)
    ensures asset + " " + side + DOT == asset + [' '] + (side + " " + "· ")
  {
    assert DOT == " " + "· " && [' '] == " ";
    hide DOT;
  }

  /** The trade part, after the asset. */
  lemma {:induction false} TradeShape(r: AuditRecord, fmt: Format)
    requires Regular(r) && Formats(fmt)
    ensures exists rest :: TradePart(r, fmt) + DOT == r.asset + [' '] + rest && Quiet(rest) && Inert(rest)
  {
    var qty, leverage := Get(BlockOf(r), "qty"), Get(BlockOf(r), "leverage");
    var q, l := fmt.four(Text(qty)), fmt.one(Text(leverage));
    assert Plain(q) && Plain(l);
    var side := SideText(r) + " ";
    hide Quiet, Inert, Plain, Regular, Formats;
    SideQuiet(r);
    DotQuiet();
    AtQuiet();
    if !qty.Null? && !leverage.Null? {
      assert TradePart(r, fmt) == r.asset + " " + SideText(r) + " " + q + " @ " + l + "x";
      PlainQuiet(q, " ");
      PlainQuiet(l, "x ");
      QuietConcat(side, q + " ");
      QuietConcat(side + (q + " "), "@ ");
      QuietConcat(side + (q + " ") + "@ ", l + "x ");
      QuietConcat(side + (q + " ") + "@ " + (l + "x "), "· ");
      InertMore(side, q + " ");
      InertMore(side + (q + " "), "@ ");
      InertMore(side + (q + " ") + "@ ", l + "x ");
      InertMore(side + (q + " ") + "@ " + (l + "x "), "· ");
      hide TradePart, SideText;
      FigureTexts(r.asset, SideText(r), q, l);
    } else {
      assert TradePart(r, fmt) == r.asset + " " + SideText(r);
      QuietConcat(side, "· ");
      InertMore(side, "· ");
      hide TradePart, SideText;
      BareTrade(r.asset, SideText(r));
    }
  }

  lemma {:induction false} NotionalQuiet(r: AuditRecord, fmt: Format)
    requires Formats(fmt) && NotionalPart(r, fmt) != []
    ensures |NotionalPart(r, fmt)| == 1 && Quiet(NotionalPart(r, fmt)[0] + " ")
  {
    var n := fmt.zero(Text(Get(BlockOf(r), "notional_usd")));
    assert Plain(n);
    hide Quiet, Plain, Formats;
    NotionalWordQuiet();
    DollarQuiet(n);
    QuietConcat("$" + n + " ", "notional ");
    NotionalText("$" + n);
  }

  lemma {:induction false} NotionalText(n: string)
    ensures n + " notional" + " " == n + " " + "notional "
  {
    assert " notional" + " " == " " + "notional ";
    assert n + " notional" + " " == n + (" notional" + " ");
    assert n + " " + "notional " == n + (" " + "notional ");
  }

  lemma {:induction false} LevelsQuiet(r: AuditRecord, fmt: Format)
    requires Formats(fmt) && LevelsPart(r, fmt) != []
    ensures |LevelsPart(r, fmt)| == 1 && Quiet(LevelsPart(r, fmt)[0] + " ")
  {
    var s := fmt.four(Text(Get(BlockOf(r), "stop_price")));
    var t := fmt.four(Text(Get(BlockOf(r), "take_price")));
    assert Plain(s) && Plain(t);
    hide Quiet, Plain, Formats;
    StopQuiet();
    TakeQuiet();
    DollarQuiet(s);
    DollarQuiet(t);
    var s', t' := "$" + s + " ", "$" + t + " ";
    QuietConcat("stop ", s');
    QuietConcat("stop " + s', "take ");
    QuietConcat("stop " + s' + "take ", t');
    LevelsText(s, t);
  }

  lemma {:induction false} LevelsText(s: string, t: string)
    ensures "stop $" + s + " take $" + t + " " == "stop " + ("$" + s + " ") + "take " + ("$" + t + " ")
  {
    assert "stop $" == "stop " + "$" && " take $" == " " + "take " + "$";
    var left := "stop " + "$" + s + (" " + "take " + "$") + t + " ";
    assert left == "stop " + ("$" + (s + (" " + ("take " + ("$" + (t + " "))))));
    assert "stop " + ("$" + s + " ") + "take " + ("$" + t + " ")
      == "stop " + ("$" + (s + (" " + ("take " + ("$" + (t + " "))))));
  }

  lemma {:induction false} LabelsQuiet(r: AuditRecord)
    requires Regular(r)
    ensures |TierPart(r)| <= 1 && (TierPart(r) != [] ==> Quiet(TierPart(r)[0] + " "))
    ensures |RegimePart(r)| <= 1 && (RegimePart(r) != [] ==> Quiet(RegimePart(r)[0] + " "))
  {
    hide Quiet, Compact;
    if TierPart(r) != [] {
      TierQuiet(Text(Get(BlockOf(r), "tier")));
    }
    if RegimePart(r) != [] {
      RegimeQuiet(Text(Get(BlockOf(r), "regime_trend")), Text(Get(BlockOf(r), "regime_vol")),
        Text(Get(BlockOf(r), "regime_funding")));
    }
  }

  function Front(r: AuditRecord, fmt: Format): seq<string> {
    ["agora-perp-agent", TradePart(r, fmt)] + NotionalPart(r, fmt) + LevelsPart(r, fmt) + TierPart(r) + RegimePart(r)
  }

  lemma {:induction false} FrontShaped(r: AuditRecord, fmt: Format)
    requires Regular(r) && Formats(fmt)
    ensures Shaped(Join(Front(r, fmt)) + DOT, r.asset)
  {
    TradeShape(r, fmt);
    var rest :| TradePart(r, fmt) + DOT == r.asset + [' '] + rest && Quiet(rest) && Inert(rest);
    var parts := ["agora-perp-agent", TradePart(r, fmt)];
    assert parts[..1] == ["agora-perp-agent"];
    assert Join(parts) + DOT == "agora-perp-agent" + DOT + (TradePart(r, fmt) + DOT);
    assert "agora-perp-agent" + DOT == HEADER;
    assert Shaped(Join(parts) + DOT, r.asset);
    if NotionalPart(r, fmt) != [] {
      NotionalQuiet(r, fmt);
    }
    if LevelsPart(r, fmt) != [] {
      LevelsQuiet(r, fmt);
    }
    LabelsQuiet(r);
    hide Shaped, Join, NotionalPart, LevelsPart, TierPart, RegimePart, TradePart, Quiet;
    ExtendMaybe(parts, NotionalPart(r, fmt), r.asset);
    ExtendMaybe(parts + NotionalPart(r, fmt), LevelsPart(r, fmt), r.asset);
    ExtendMaybe(parts + NotionalPart(r, fmt) + LevelsPart(r, fmt), TierPart(r), r.asset);
    ExtendMaybe(parts + NotionalPart(r, fmt) + LevelsPart(r, fmt) + TierPart(r), RegimePart(r), r.asset);
  }

  /** The last two parts. */
  function Ending(id: string, hash: string): string {
    "audit " + id + " · keccak " + hash
  }

  lemma {:induction false} EndingText(id: string, hash: string)
    ensures "audit " + id + DOT + ("keccak " + hash) == Ending(id, hash)
  {
    assert " · keccak " == DOT + "keccak ";
    assert "audit " + id + (DOT + "keccak ") + hash == "audit " + id + DOT + ("keccak " + hash);
  }

  lemma {:induction false} JoinTwo(front: seq<string>, a: string, k: string)
    requires front != []
    ensures Join(front + [a, k]) == (Join(front) + DOT) + (a + DOT + k)
  {
    assert front + [a, k] == front + [a] + [k];
    JoinExtends(front + [a], k);
    JoinExtends(front, a);
    hide Join, DOT;
    assert Join(front) + DOT + a + DOT + k == (Join(front) + DOT) + (a + DOT + k);
  }

  lemma {:induction false} DescriptionShape(r: AuditRecord, hash: string, fmt: Format)
    requires Regular(r) && Formats(fmt)
    ensures exists rest ::
      BuildDescription(r, hash, fmt) == HEADER + (r.asset + [' '] + (rest + Ending(ShortId(r), hash))) && Quiet(rest)
        && Inert(rest)
  {
    FrontShaped(r, fmt);
    var front := Front(r, fmt);
    var a, k := "audit " + ShortId(r), "keccak " + hash;
    assert BuildDescription(r, hash, fmt) == Join(front + [a, k]);
    hide BuildDescription, NotionalPart, LevelsPart, TierPart, RegimePart, TradePart, Quiet, Inert, ShortId, Regular,
      Formats, HEADER;
    var rest :| Join(front) + DOT == HEADER + (r.asset + [' '] + rest) && Quiet(rest) && Inert(rest);
    hide Front;
    assert front != [];
    JoinTwo(front, a, k);
    EndingText(ShortId(r), hash);
    hide Join, Ending, DOT;
    Nest(HEADER, r.asset, rest, Ending(ShortId(r), hash));
  }

  lemma {:induction false} Nest(header: string, asset: string, rest: string, end: string)
    ensures header + (asset + [' '] + rest) + end == header + (asset + [' '] + (rest + end))
  {
    assert asset + [' '] + rest + end == asset + [' '] + (rest + end);
    assert header + (asset + [' '] + rest) + end == header + (asset + [' '] + rest + end);
  }

  // --------------------------------------------------------------- the round trip

  lemma {:induction false} ShortNone(s: string)
    requires |s| < 66
    ensures FindHash(s).None?
  {
    if s != "" {
      ShortNone(s[1..]);
    }
  }

  /** A printed anchor hash. */
  predicate HashText(h: string) {
    |h| == 66 && HashAt(h)
  }

  predicate IdText(id: string) {
    |id| == 8 && forall k :: 0 <= k < 8 ==> Hex(id[k])
  }

  lemma {:induction false} EndingHash(id: string, hash: string)
    requires HashText(hash) && |id| < 66
    ensures FindHash(Ending(id, hash)) == Some(hash)
  {
    var k := "keccak" + [' '] + hash;
    var d := "·" + [' '] + k;
    var i := id + [' '] + d;
    assert Ending(id, hash) == "audit" + [' '] + i;
    HashSplit("audit", i);
    HashSplit(id, d);
    HashSplit("·", k);
    HashSplit("keccak", hash);
    ShortNone("audit");
    ShortNone(id);
    ShortNone("·");
    ShortNone("keccak");
    assert hash[..66] == hash;
  }

  lemma {:induction false} EndingAudit(id: string, hash: string)
    requires IdText(id)
    ensures FindAudit(Ending(id, hash), true) == Some(id)
  {
    var s := Ending(id, hash);
    var tail := id + " · keccak " + hash;
    assert s == "audit" + (" " + tail);
    assert s[5..] == " " + tail && (" " + tail)[1..] == tail;
    assert forall k :: 0 <= k < 5 ==> s[k] == "audit"[k];
    assert tail[0] == id[0] && !Space(id[0]);
    assert Spaces(tail) == 0 && Spaces(s[5..]) == 1;
    assert s[6..] == tail;
    assert forall k :: 0 <= k < 8 ==> tail[k] == id[k];
    assert tail[8] == ' ';
    assert tail[..8] == id;
  }

  lemma {:induction false} HeaderStarts(rest: string)
    ensures
      var s := HEADER + rest;
      StartsLower(s, "agora") && !Legacy(s) && !Piped(s)
  {
    var s := HEADER + rest;
    assert forall k :: 0 <= k < |HEADER| ==> s[k] == HEADER[k];
    assert HEADER[5] == '-' && "agora:"[5] == ':' && "agora|"[5] == '|';
    assert HEADER[0] == 'a' && HEADER[1] == 'g' && HEADER[2] == 'o' && HEADER[3] == 'r' && HEADER[4] == 'a';
  }

  /** What the parser finds in a printed description: whatever the asset name
      offers first, and otherwise the record's own id and hash. */
  lemma {:induction false} ParsePrinted(r: AuditRecord, hash: string, fmt: Format)
    requires Regular(r) && Formats(fmt) && HashText(hash) && IdText(ShortId(r))
    ensures ParseDescription(BuildDescription(r, hash, fmt))
         == Some(Parsed(First(FindAudit(r.asset, true), Some(ShortId(r))), First(FindHash(r.asset), Some(hash))))
  {
    DescriptionShape(r, hash, fmt);
    var id := ShortId(r);
    hide BuildDescription, ShortId, Quiet;
    var rest :| BuildDescription(r, hash, fmt) == HEADER + (r.asset + [' '] + (rest + Ending(id, hash))) && Quiet(rest)
      && Inert(rest);
    EndingHash(id, hash);
    EndingAudit(id, hash);
    HeaderQuiet();
    hide FindHash, FindAudit, HashAt, Ending, Regular;
    var after := r.asset + [' '] + (rest + Ending(id, hash));
    assert (rest + Ending(id, hash))[0] == rest[0];
    HeaderStarts(after);
    HashSkip(HEADER, after);
    HashSplit(r.asset, rest + Ending(id, hash));
    HashSkip(rest, Ending(id, hash));
    AuditSkip(HEADER, after, true);
    AuditSplit(r.asset, rest + Ending(id, hash), true);
    AuditSkip(rest, Ending(id, hash), true);
  }

  /** Main result: encoded, decoded and parsed, a description yields the first
      eight characters of its audit id exactly when the asset name holds no
      other audit id, and its exact hash exactly when the asset name holds no
      other hash. */
  lemma {:induction false} DashboardReadsChain(r: AuditRecord, hash: string, fmt: Format, provider: nat,
                                               evaluator: nat, expiredAt: nat, hook: nat)
    requires Regular(r) && Formats(fmt) && HashText(hash) && IdText(ShortId(r))
    requires |Encode(BuildDescription(r, hash, fmt))| < Pow16(64)
    ensures
      var description := BuildDescription(r, hash, fmt);
      var decoded := DecodeDescription(EncodeCall(provider, evaluator, expiredAt, description, hook));
      && decoded == Some(description)
      && var parsed := ParseDescription(decoded.value);
         && parsed.Some?
         && (parsed.value.anchorHash == Some(hash) <==> FindHash(r.asset) in {None, Some(hash)})
         && (parsed.value.auditId == Some(ShortId(r)) <==> FindAudit(r.asset, true) in {None, Some(ShortId(r))})
  {
    ParsePrinted(r, hash, fmt);
    var description := BuildDescription(r, hash, fmt);
    assert description != "" by {
      assert ParseDescription("").None?;
    }
    hide *;
    DecodeEncodeCall(provider, evaluator, expiredAt, description, hook);
    FirstIs(FindHash(r.asset), hash);
    FirstIs(FindAudit(r.asset, true), ShortId(r));
  }

  lemma {:induction false} FirstIs(a: Option<string>, x: string)
    ensures First(a, Some(x)) == Some(x) <==> a in {None, Some(x)}
  {
  }

  /** Every record the decision loop writes is regular. */
  lemma {:induction false} LoopRecordsRegular(rig: DecisionLoop.Rig, d: DecisionLoop.Decision, side: string,
                                              s: Contracts.Sized, seal: DecisionLoop.Seal)
    requires side == "long" || side == "short"
    requires DecisionLoop.Stored(rig, d, side, s, seal).Ok?
    ensures Regular(DecisionLoop.Stored(rig, d, side, s, seal).value)
  {
    var r := DecisionLoop.Stored(rig, d, side, s, seal).value;
    var block := BlockOf(r);
    assert block == DecisionLoop.Breakdown(rig, s) && r.side == Some(side);
    TierListed(s.tier);
    RegimeListed(s.regime);
    hide DecisionLoop.TierName, DecisionLoop.TrendName, DecisionLoop.VolName, DecisionLoop.FundingName, TIERS, TRENDS,
      VOLS, FUNDINGS;
    assert block["tier"] == Str(DecisionLoop.TierName(s.tier));
    assert block["regime_trend"] == Str(DecisionLoop.TrendName(s.regime.trend));
    assert block["regime_vol"] == Str(DecisionLoop.VolName(s.regime.vol));
    assert block["regime_funding"] == Str(DecisionLoop.FundingName(s.regime.funding));
  }

  lemma {:induction false} TierListed(tier: Contracts.Tier)
    ensures DecisionLoop.TierName(tier) in TIERS
  {
  }

  lemma {:induction false} RegimeListed(regime: Contracts.Regime)
    ensures DecisionLoop.TrendName(regime.trend) in TRENDS
    ensures DecisionLoop.VolName(regime.vol) in VOLS
    ensures DecisionLoop.FundingName(regime.funding) in FUNDINGS
  {
  }

  /** A coin symbol without white space and shorter than a hash offers neither. */
  lemma {:induction false} PlainSymbol(asset: string, boundary: bool)
    requires |asset| < 66 && forall k :: 0 <= k < |asset| ==> !Space(asset[k])
    ensures FindHash(asset).None? && FindAudit(asset, boundary).None?
  {
    ShortNone(asset);
    if asset != "" {
      assert AuditAt(asset).None? by {
        if |asset| > 5 {
          assert asset[5..][0] == asset[5];
        }
      }
      PlainSymbol(asset[1..], !WordChar(asset[0]));
    }
  }

  /** An asset name that spells out an audit id takes the place of the record's. */
  lemma {:induction false} MisleadingAsset()
    ensures FindAudit("audit deadbeef", true) == Some("deadbeef")
  {
    var id := "deadbeef";
    var s := "audit " + id;
    assert s == "audit deadbeef";
    assert IdText(id);
    hide IdText;
    LoneAudit(id);
  }

  lemma {:induction false} LoneAudit(id: string)
    requires IdText(id)
    ensures FindAudit("audit " + id, true) == Some(id)
  {
    var s := "audit " + id;
    assert s == "audit" + (" " + id);
    assert s[5..] == " " + id && (" " + id)[1..] == id;
    assert forall k :: 0 <= k < 5 ==> s[k] == "audit"[k];
    assert Spaces(id) == 0 && Spaces(s[5..]) == 1;
    assert s[6..] == id && id[..8] == id;
  }

  // -------------------------------------------------------- what the sentence says

  function SaidTrade(rig: DecisionLoop.Rig, asset: string, side: string, s: Contracts.Sized, fmt: Format): string {
    asset + " " + side + " " + fmt.four(rig.numeral(s.qty)) + " @ " + fmt.one(rig.numeral(s.leverage)) + "x"
  }

  function SaidNotional(rig: DecisionLoop.Rig, s: Contracts.Sized, fmt: Format): string {
    "$" + fmt.zero(rig.numeral(s.notional)) + " notional"
  }

  function SaidLevels(rig: DecisionLoop.Rig, s: Contracts.Sized, fmt: Format): string {
    "stop $" + fmt.four(rig.numeral(s.stopPrice)) + " take $" + fmt.four(rig.numeral(s.takePrice))
  }

  function SaidRegime(regime: Contracts.Regime): string {
    "regime " + Compact(DecisionLoop.TrendName(regime.trend)) + "/" + Compact(DecisionLoop.VolName(regime.vol))
    + "/" + Compact(DecisionLoop.FundingName(regime.funding))
  }

  function SaidId(auditId: string): string {
    "audit " + (if |auditId| <= 8 then auditId else auditId[..8])
  }

  /** The parts of the sentence a stored open prints, each in terms of the trade. */
  function Spoken(rig: DecisionLoop.Rig, asset: string, side: string, s: Contracts.Sized, auditId: string,
                  hash: string, fmt: Format): seq<string>
  {
    ["agora-perp-agent", SaidTrade(rig, asset, side, s, fmt), SaidNotional(rig, s, fmt), SaidLevels(rig, s, fmt),
      "tier " + DecisionLoop.TierName(s.tier), SaidRegime(s.regime), SaidId(auditId), "keccak " + hash]
  }

  lemma {:induction false} TradeSpoken(r: AuditRecord, fmt: Format, rig: DecisionLoop.Rig, side: string,
                                       s: Contracts.Sized)
    requires r.side == Some(side) && side != "" && r.sized == Some(DecisionLoop.Breakdown(rig, s))
    ensures TradePart(r, fmt) == SaidTrade(rig, r.asset, side, s, fmt)
    ensures NotionalPart(r, fmt) == [SaidNotional(rig, s, fmt)] && LevelsPart(r, fmt) == [SaidLevels(rig, s, fmt)]
  {
    hide DecisionLoop.TierName, DecisionLoop.TrendName, DecisionLoop.VolName, DecisionLoop.FundingName;
  }

  lemma {:induction false} LabelsSpoken(r: AuditRecord, rig: DecisionLoop.Rig, s: Contracts.Sized)
    requires r.sized == Some(DecisionLoop.Breakdown(rig, s))
    ensures TierPart(r) == ["tier " + DecisionLoop.TierName(s.tier)] && RegimePart(r) == [SaidRegime(s.regime)]
    ensures "audit " + ShortId(r) == SaidId(r.auditId)
  {
    LabelsNotEmpty(s);
    hide DecisionLoop.TierName, DecisionLoop.TrendName, DecisionLoop.VolName, DecisionLoop.FundingName, Compact;
  }

  lemma {:induction false} LabelsNotEmpty(s: Contracts.Sized)
    ensures DecisionLoop.TierName(s.tier) != "" && DecisionLoop.TrendName(s.regime.trend) != ""
    ensures DecisionLoop.VolName(s.regime.vol) != "" && DecisionLoop.FundingName(s.regime.funding) != ""
  {
  }

  /** Main result on the sentence: the description of a stored open says the
      asset and the side, then quantity and leverage, the notional, the stop
      before the take, the tier, the regime, the short id and the hash of that
      very trade, in this order, with a dot between them. */
  lemma {:induction false} DescriptionSpeaks(rig: DecisionLoop.Rig, d: DecisionLoop.Decision, side: string,
                                             s: Contracts.Sized, seal: DecisionLoop.Seal, hash: string, fmt: Format)
    requires side == "long" || side == "short"
    requires DecisionLoop.Stored(rig, d, side, s, seal).Ok?
    ensures BuildDescription(DecisionLoop.Stored(rig, d, side, s, seal).value, hash, fmt)
         == Join(Spoken(rig, d.asset, side, s, seal.auditId, hash, fmt))
  {
    var r := DecisionLoop.Stored(rig, d, side, s, seal).value;
    StoredTrade(rig, d, side, s, seal);
    assert side != "";
    SpokenParts(rig, d.asset, side, s, seal.auditId, hash, fmt);
    var parts := Spoken(rig, d.asset, side, s, seal.auditId, hash, fmt);
    hide *;
    TradeSpoken(r, fmt, rig, side, s);
    LabelsSpoken(r, rig, s);
    Assembled(r, hash, fmt, parts);
  }

  lemma {:induction false} SpokenParts(rig: DecisionLoop.Rig, asset: string, side: string, s: Contracts.Sized,
                                       auditId: string, hash: string, fmt: Format)
    ensures
      var parts := Spoken(rig, asset, side, s, auditId, hash, fmt);
      && |parts| == 8 && parts[0] == "agora-perp-agent" && parts[1] == SaidTrade(rig, asset, side, s, fmt)
      && parts[2] == SaidNotional(rig, s, fmt) && parts[3] == SaidLevels(rig, s, fmt)
      && parts[4] == "tier " + DecisionLoop.TierName(s.tier) && parts[5] == SaidRegime(s.regime)
      && parts[6] == SaidId(auditId) && parts[7] == "keccak " + hash
  {
    hide SaidTrade, SaidNotional, SaidLevels, SaidRegime, SaidId, DecisionLoop.TierName;
  }

  lemma {:induction false} Assembled(r: AuditRecord, hash: string, fmt: Format, parts: seq<string>)
    requires |parts| == 8 && parts[0] == "agora-perp-agent" && parts[1] == TradePart(r, fmt)
    requires NotionalPart(r, fmt) == [parts[2]] && LevelsPart(r, fmt) == [parts[3]]
    requires TierPart(r) == [parts[4]] && RegimePart(r) == [parts[5]]
    requires parts[6] == "audit " + ShortId(r) && parts[7] == "keccak " + hash
    ensures BuildDescription(r, hash, fmt) == Join(parts)
  {
    hide TradePart, NotionalPart, LevelsPart, TierPart, RegimePart, ShortId, Join;
    assert ["agora-perp-agent", TradePart(r, fmt)] + NotionalPart(r, fmt) + LevelsPart(r, fmt) + TierPart(r)
      + RegimePart(r) + ["audit " + ShortId(r), "keccak " + hash] == parts;
  }

  lemma {:induction false} StoredTrade(rig: DecisionLoop.Rig, d: DecisionLoop.Decision, side: string,
                                       s: Contracts.Sized, seal: DecisionLoop.Seal)
    requires DecisionLoop.Stored(rig, d, side, s, seal).Ok?
    ensures
      var r := DecisionLoop.Stored(rig, d, side, s, seal).value;
      && r.auditId == seal.auditId && r.asset == d.asset && r.side == Some(side)
      && r.sized == Some(DecisionLoop.Breakdown(rig, s))
  {
    hide DecisionLoop.Breakdown, Shortened;
  }

  /** Between two parts stands exactly one separator. */
  lemma {:induction false} JoinSplits(left: seq<string>, right: seq<string>)
    requires left != [] && right != []
    ensures Join(left + right) == Join(left) + DOT + Join(right)
    decreases |right|
  {
    var k := |right| - 1;
    assert (left + right)[..|left + right| - 1] == left + right[..k];
    if k > 0 {
      JoinSplits(left, right[..k]);
      hide Join, DOT;
      assert Join(left) + DOT + Join(right[..k]) + DOT + right[k]
          == Join(left) + DOT + (Join(right[..k]) + DOT + right[k]);
    } else {
      assert left + right[..0] == left;
    }
  }

  /** The regime codes of the chain tell every regime apart. */
  lemma {:induction false} CodesTellApart(x: Contracts.Regime, y: Contracts.Regime)
    requires Compact(DecisionLoop.TrendName(x.trend)) == Compact(DecisionLoop.TrendName(y.trend))
    requires Compact(DecisionLoop.VolName(x.vol)) == Compact(DecisionLoop.VolName(y.vol))
    requires Compact(DecisionLoop.FundingName(x.funding)) == Compact(DecisionLoop.FundingName(y.funding))
    ensures x == y
  {
    TrendCodes(x.trend, y.trend);
    VolCodes(x.vol, y.vol);
    FundingCodes(x.funding, y.funding);
  }

  lemma {:induction false} TrendCodes(x: Contracts.Trend, y: Contracts.Trend)
    requires Compact(DecisionLoop.TrendName(x)) == Compact(DecisionLoop.TrendName(y))
    ensures x == y
  {
    assert Compact(DecisionLoop.TrendName(x))[0] == Compact(DecisionLoop.TrendName(y))[0];
  }

  lemma {:induction false} VolCodes(x: Contracts.Vol, y: Contracts.Vol)
    requires Compact(DecisionLoop.VolName(x)) == Compact(DecisionLoop.VolName(y))
    ensures x == y
  {
    var s, t := Compact(DecisionLoop.VolName(x)), Compact(DecisionLoop.VolName(y));
    assert s[0] == t[0] && s[1] == t[1];
  }

  lemma {:induction false} FundingCodes(x: Contracts.Funding, y: Contracts.Funding)
    requires Compact(DecisionLoop.FundingName(x)) == Compact(DecisionLoop.FundingName(y))
    ensures x == y
  {
    var s, t := Compact(DecisionLoop.FundingName(x)), Compact(DecisionLoop.FundingName(y));
    assert s[0] == t[0] && s[1] == t[1];
  }
}
