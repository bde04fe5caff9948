/**
 Access codes, invites and the control messages between members
 (src/steamlan/app/access.py). A message is text whose characters stand for
 its bytes.
 */
module Access {
  import opened Basics
  import opened Ipv4
  import opened Text

  const CODE_LENGTH := 10
  const MAX_SEQUENCE := 0xFFFF_FFFF
  const CHAT_ACCOUNT_TYPE := 8

  predicate IsAscii(c: char) { c as int < 128 }

  /** The alphabet of codes: digits and capitals, without I, L, O and U. */
  predicate InAlphabet(c: char) {
    '0' <= c <= '9' || ('A' <= c <= 'Z' && c != 'I' && c != 'L' && c != 'O' && c != 'U')
  }

  /** An access code as networks generate it. */
  predicate IsCode(code: string) {
    |code| == CODE_LENGTH && forall i :: 0 <= i < |code| ==> InAlphabet(code[i])
  }

  // Typed and pasted codes

  function Upper(c: char): char {
    if 'a' <= c <= 'z' then ((c as int) - 32) as char else c
  }

  /** What one character of a typed code stands for; "" for spaces and dashes. */
  function Fold(c: char): string {
    var u := Upper(c);
    if u == ' ' || u == '-' then ""
    else if u == 'O' then "0"
    else if u == 'I' || u == 'L' then "1"
    else [u]
  }

  function FoldAll(text: string): string {
    if text == "" then "" else Fold(text[0]) + FoldAll(text[1..])
  }

  function NormalizeCode(text: string): Option<string> {
    var code := FoldAll(text);
    if IsCode(code) then Some(code) else None
  }

  function FormatCode(code: string): string {
    if |code| < 5 then code + "-" else code[..5] + "-" + code[5..]
  }

  lemma FoldAlphabet(c: char)
    requires InAlphabet(c)
    ensures Fold(c) == [c]
  {
  }

  lemma {:induction false} FoldCode(code: string)
    requires forall i :: 0 <= i < |code| ==> InAlphabet(code[i])
    ensures FoldAll(code) == code
  {
    if code != "" {
      FoldAlphabet(code[0]);
      FoldCode(code[1..]);
    }
  }

  lemma {:induction false} FoldConcat(a: string, b: string)
    ensures FoldAll(a + b) == FoldAll(a) + FoldAll(b)
  {
    if a == "" {
      assert a + b == b;
    } else {
      assert (a + b)[1..] == a[1..] + b;
      FoldConcat(a[1..], b);
    }
  }

  /** Normalizing is idempotent: what it returns is returned unchanged. */
  lemma NormalizeIdempotent(text: string)
    ensures NormalizeCode(text).Some? ==>
      NormalizeCode(NormalizeCode(text).value) == NormalizeCode(text)
  {
    if NormalizeCode(text).Some? {
      FoldCode(NormalizeCode(text).value);
    }
  }

  lemma FoldDash(b: string)
    ensures FoldAll("-" + b) == FoldAll(b)
  {
  }

  lemma FoldDashed(a: string, b: string)
    requires forall i :: 0 <= i < |a| ==> InAlphabet(a[i])
    requires forall i :: 0 <= i < |b| ==> InAlphabet(b[i])
    ensures FoldAll(a + ("-" + b)) == a + b
  {
    FoldCode(a);
    FoldCode(b);
    FoldDash(b);
    FoldConcat(a, "-" + b);
  }

  /** A code shown with its dash and typed back in is the same code. */
  lemma NormalizeFormat(code: string)
    requires IsCode(code)
    ensures NormalizeCode(FormatCode(code)) == Some(code)
  {
    FoldDashed(code[..5], code[5..]);
    assert code[..5] + code[5..] == code;
    assert FormatCode(code) == code[..5] + ("-" + code[5..]);
  }

  const ALPHABET: string := DIGITS + "ABCDEFGH" + "JKMN" + "PQRST" + "VWXYZ"

  /** What a typed character may stand for: itself, its capital, or the digit it looks like. */
  predicate StandsFor(typed: char, meant: char) {
    || typed == meant
    || ('A' <= meant <= 'Z' && typed as int == meant as int + 32)
    || (meant == '0' && (typed == 'o' || typed == 'O'))
    || (meant == '1' && (typed == 'i' || typed == 'I' || typed == 'l' || typed == 'L'))
  }

  predicate IsGap(c: char) { c == ' ' || c == '-' }

  /** text without its spaces and dashes. */
  function Squeezed(text: string): string {
    if text == "" then ""
    else if IsGap(text[0]) then Squeezed(text[1..])
    else [text[0]] + Squeezed(text[1..])
  }

  /** A text of successive characters has all those between its first and its last. */
  lemma RangeIs(text: string, first: char, c: char)
    requires forall i :: 0 <= i < |text| ==> text[i] as int == first as int + i
    ensures c in text <==> first as int <= c as int < first as int + |text|
  {
    if first as int <= c as int < first as int + |text| {
      assert text[c as int - first as int] == c;
    }
  }

  lemma AlphabetIs(c: char)
    ensures InAlphabet(c) <==> c in ALPHABET
  {
    RangeIs(DIGITS, '0', c);
    RangeIs("ABCDEFGH", 'A', c);
    RangeIs("PQRST", 'P', c);
    RangeIs("VWXYZ", 'V', c);
  }

  lemma FoldIs(c: char, meant: char)
    requires !IsGap(c)
    ensures |Fold(c)| == 1
    ensures Fold(c) == [meant] && InAlphabet(meant) <==> StandsFor(c, meant) && InAlphabet(meant)
  {
  }

  lemma {:induction false} FoldSqueezed(text: string)
    ensures |FoldAll(text)| == |Squeezed(text)|
    ensures forall i :: 0 <= i < |Squeezed(text)| ==>
      !IsGap(Squeezed(text)[i]) && Fold(Squeezed(text)[i]) == [FoldAll(text)[i]]
  {
    if text != "" {
      FoldSqueezed(text[1..]);
      if !IsGap(text[0]) {
        FoldIs(text[0], '0');
      }
    }
  }

  lemma TypedIs(text: string, code: string)
    requires |FoldAll(text)| == |Squeezed(text)|
    requires forall i, c :: 0 <= i < |Squeezed(text)| ==>
      (FoldAll(text)[i] == c && InAlphabet(c) <==> StandsFor(Squeezed(text)[i], c) && c in ALPHABET)
    ensures NormalizeCode(text) == Some(code) <==>
      && |code| == |Squeezed(text)| == CODE_LENGTH
      && forall i :: 0 <= i < |code| ==> StandsFor(Squeezed(text)[i], code[i]) && code[i] in ALPHABET
  {
    hide InAlphabet, StandsFor, FoldAll, Squeezed;
    var typed, folded := Squeezed(text), FoldAll(text);
    if |code| == |typed| && forall i :: 0 <= i < |code| ==> StandsFor(typed[i], code[i]) && code[i] in ALPHABET {
      assert folded == code;
    }
  }

  /** A typed code is taken for the code that its characters stand for, spaces and dashes
      apart, and nothing else is taken. */
  lemma TypedExactly(text: string, code: string)
    ensures NormalizeCode(text) == Some(code) <==>
      && |code| == |Squeezed(text)| == CODE_LENGTH
      && forall i :: 0 <= i < |code| ==> StandsFor(Squeezed(text)[i], code[i]) && code[i] in ALPHABET
  {
    hide InAlphabet, StandsFor, Squeezed;
    FoldSqueezed(text);
    forall i, c | 0 <= i < |Squeezed(text)|
      ensures FoldAll(text)[i] == c && InAlphabet(c) <==> StandsFor(Squeezed(text)[i], c) && c in ALPHABET
    {
      FoldIs(Squeezed(text)[i], c);
      AlphabetIs(c);
    }
    TypedIs(text, code);
  }

  /** A shown code is the code with a dash after five characters. */
  lemma FormatIs(code: string)
    ensures var shown, k := FormatCode(code), if |code| < 5 then |code| else 5;
      |shown| == |code| + 1 && shown[k] == '-' && shown[..k] + shown[k + 1..] == code
  {
  }

  // Invites

  const INVITE_PREFIX: string := "steamvirtuallan:1:"

  predicate IsLobbyId(id: nat) {
    0 < id < 0x1_0000_0000_0000_0000 && id / 0x10_0000_0000_0000 % 16 == CHAT_ACCOUNT_TYPE
  }

  predicate IsSpace(c: char) {
    c == ' ' || 9 <= c as int <= 13 || 28 <= c as int <= 31
  }

  function Strip(text: string): string
    decreases |text|
  {
    if text != "" && IsSpace(text[0]) then Strip(text[1..])
    else if text != "" && IsSpace(text[|text| - 1]) then Strip(text[..|text| - 1])
    else text
  }

  function ParseLobbyId(text: string): Option<nat> {
    var stripped := Strip(text);
    if !IsDecimal(stripped) || !IsLobbyId(ParseDecimal(stripped)) then None
    else Some(ParseDecimal(stripped))
  }

  function InviteString(lobbyId: nat, code: string): string {
    INVITE_PREFIX + (Decimal(lobbyId) + [':'] + code)
  }

  predicate StartsWith(text: string, prefix: string) {
    |prefix| <= |text| && text[..|prefix|] == prefix
  }

  function ParseInvite(text: string): Option<(nat, string)> {
    if !StartsWith(text, INVITE_PREFIX) then None
    else
      var rest := text[|INVITE_PREFIX|..];
      var i := Find(rest, ':');
      var lobbyId := ParseLobbyId(rest[..i]);
      var code := NormalizeCode(if i == |rest| then "" else rest[i + 1..]);
      if lobbyId.None? || code.None? then None else Some((lobbyId.value, code.value))
  }

  /** The lobby id with these bits above and below its type. */
  function Chat(high: nat, low: nat): nat { (high * 16 + 8) * 0x10_0000_0000_0000 + low }

  /** The account type is in bits 52 to 55 of a SteamID. */
  lemma LobbyIdIs(id: nat)
    ensures IsLobbyId(id) <==>
      exists high, low :: 0 <= high < 0x100 && 0 <= low < 0x10_0000_0000_0000 &&
        id == Chat(high, low)
  {
    if IsLobbyId(id) {
      var rest := id / 0x10_0000_0000_0000;
      assert id == Chat(rest / 16, id % 0x10_0000_0000_0000);
    }
  }

  const BLANKS := [9, 10, 11, 12, 13, 28, 29, 30, 31, 32]

  predicate Blank(text: string) { forall i :: 0 <= i < |text| ==> text[i] as int in BLANKS }

  lemma SpaceIs(c: char)
    ensures IsSpace(c) <==> c as int in BLANKS
  {
  }

  /** text is middle with blanks around it. */
  ghost predicate Around(text: string, before: string, middle: string, after: string) {
    text == before + middle + after && Blank(before) && Blank(after)
  }

  lemma AroundMore(c: char, text: string, before: string, middle: string, after: string)
    requires Around(text, before, middle, after) && IsSpace(c)
    ensures Around([c] + text, [c] + before, middle, after) && Around(text + [c], before, middle, after + [c])
  {
    SpaceIs(c);
  }

  lemma {:induction false} StripAround(text: string) returns (before: string, after: string)
    ensures Around(text, before, Strip(text), after)
    decreases |text|
  {
    hide IsSpace;
    var n := |text|;
    before, after := "", "";
    if text != "" && IsSpace(text[0]) {
      before, after := StripAround(text[1..]);
      AroundMore(text[0], text[1..], before, Strip(text), after);
      assert [text[0]] + text[1..] == text;
      before := [text[0]] + before;
    } else if text != "" && IsSpace(text[n - 1]) {
      before, after := StripAround(text[..n - 1]);
      AroundMore(text[n - 1], text[..n - 1], before, Strip(text), after);
      assert text[..n - 1] + [text[n - 1]] == text;
      after := after + [text[n - 1]];
    } else {
      assert Around(text, "", text, "");
    }
  }

  lemma DigitEnds(digits: string)
    requires IsDecimal(digits)
    ensures digits != "" && !IsSpace(digits[0]) && !IsSpace(digits[|digits| - 1])
  {
  }

  lemma AroundLess(text: string, before: string, middle: string, after: string)
    requires Around(text, before, middle, after)
    ensures before != "" ==> text != "" && IsSpace(text[0]) && Around(text[1..], before[1..], middle, after)
    ensures after != "" ==>
      && text != "" && IsSpace(text[|text| - 1])
      && Around(text[..|text| - 1], before, middle, after[..|after| - 1])
  {
    if before != "" {
      SpaceIs(before[0]);
      assert text[1..] == before[1..] + middle + after;
    }
    if after != "" {
      SpaceIs(after[|after| - 1]);
      assert text[..|text| - 1] == before + middle + after[..|after| - 1];
    }
  }

  lemma {:induction false} StripExactly(text: string, before: string, middle: string, after: string)
    requires Around(text, before, middle, after) && IsDecimal(middle)
    ensures Strip(text) == middle
    decreases |text|
  {
    hide IsSpace, Blank, IsDecimal;
    AroundLess(text, before, middle, after);
    DigitEnds(middle);
    if before != "" {
      StripExactly(text[1..], before[1..], middle, after);
    } else if after != "" {
      assert text[0] == middle[0];
      StripExactly(text[..|text| - 1], before, middle, after[..|after| - 1]);
    } else {
      assert text == middle;
    }
  }

  /** An invite in its parts. */
  ghost predicate Invites(text: string, before: string, digits: string, after: string, typed: string) {
    && text == INVITE_PREFIX + (before + digits + after + [':'] + typed)
    && Blank(before) && Blank(after) && IsDecimal(digits)
  }

  lemma ApartDigits(before: string, digits: string, after: string)
    requires Blank(before) && Blank(after) && IsDecimal(digits)
    ensures ':' !in before + digits + after
  {
  }

  lemma InviteReads(text: string, before: string, digits: string, after: string, typed: string)
    requires Invites(text, before, digits, after, typed)
    ensures ParseInvite(text) ==
      if IsLobbyId(ParseDecimal(digits)) && NormalizeCode(typed).Some?
        then Some((ParseDecimal(digits), NormalizeCode(typed).value)) else None
  {
    hide Strip, NormalizeCode, IsLobbyId, Blank, IsDecimal;
    var middle := before + digits + after;
    var rest := middle + [':'] + typed;
    assert text[..|INVITE_PREFIX|] == INVITE_PREFIX && text[|INVITE_PREFIX|..] == rest;
    ApartDigits(before, digits, after);
    FindPrefix(middle, ':', typed);
    assert rest[..|middle|] == middle && rest[|middle| + 1..] == typed;
    assert Around(middle, before, digits, after);
    StripExactly(middle, before, digits, after);
  }

  lemma NoCode()
    ensures NormalizeCode("").None?
  {
  }

  /** An invite is read as a lobby and a code if and only if it is the prefix, the lobby's
      number with blanks around it, a colon and a text that is taken for the code. */
  lemma InviteExactly(text: string, lobby: nat, code: string)
    ensures ParseInvite(text) == Some((lobby, code)) <==>
      exists before, digits, after, typed :: Invites(text, before, digits, after, typed)
        && lobby == ParseDecimal(digits) && IsLobbyId(lobby) && NormalizeCode(typed) == Some(code)
  {
    hide Strip, NormalizeCode, IsLobbyId;
    if ParseInvite(text) == Some((lobby, code)) {
      var rest := text[|INVITE_PREFIX|..];
      var i := Find(rest, ':');
      var before, after := StripAround(rest[..i]);
      if i == |rest| {
        assert NormalizeCode("").None? by { NoCode(); }
      } else {
        assert rest == rest[..i] + [':'] + rest[i + 1..];
        assert Invites(text, before, Strip(rest[..i]), after, rest[i + 1..]);
      }
    }
    forall before, digits, after, typed | Invites(text, before, digits, after, typed)
      && lobby == ParseDecimal(digits) && IsLobbyId(lobby) && NormalizeCode(typed) == Some(code)
      ensures ParseInvite(text) == Some((lobby, code))
    {
      InviteReads(text, before, digits, after, typed);
    }
  }

  /** An accepted invite carries the lobby and code it was made from. */
  lemma InviteInverse(lobbyId: nat, code: string)
    requires IsLobbyId(lobbyId) && IsCode(code)
    ensures ParseInvite(InviteString(lobbyId, code)) == Some((lobbyId, code))
  {
    var text, d := InviteString(lobbyId, code), Decimal(lobbyId);
    var rest := d + [':'] + code;
    assert text[..|INVITE_PREFIX|] == INVITE_PREFIX && text[|INVITE_PREFIX|..] == rest;
    DecimalHas(lobbyId, ':');
    FindPrefix(d, ':', code);
    assert rest[..|d|] == d && rest[|d| + 1..] == code;
    assert !IsSpace(d[0]) && !IsSpace(d[|d| - 1]);
    ParseDecimalInverse(lobbyId);
    FoldCode(code);
  }

  // Control messages

  datatype Message =
    | Auth(code: string, address: Option<Address>)
    | Accepted(grant: string)
    | Denied
    | Leave
    | Ping(sequence: nat)
    | Pong(answered: nat)

  const PREFIX: string := "SVL2 "
  const DENIED: string := "SVL2 DENIED"
  const LEAVE: string := "SVL2 LEAVE"
  const PING: string := "SVL2 PING "
  const PONG: string := "SVL2 PONG "
  const OK: string := "SVL2 OK "
  const AUTH: string := "SVL2 AUTH "

  function Print(m: Message): string {
    match m
    case Auth(code, address) =>
      AUTH + (if address.None? then code else code + [' '] + AddressText(address.value))
    case Accepted(code) => OK + code
    case Denied => DENIED
    case Leave => LEAVE
    case Ping(n) => PING + Decimal(n)
    case Pong(n) => PONG + Decimal(n)
  }

  function ParseSequence(text: string): Option<nat> {
    if 0 < |text| <= 10 && IsDecimal(text) && 0 < ParseDecimal(text) <= MAX_SEQUENCE then Some(ParseDecimal(text))
    else None
  }

  /** A code as a message may carry it: short, and one word. */
  predicate IsWord(code: string) {
    |code| <= CODE_LENGTH && ' ' !in code && forall i :: 0 <= i < |code| ==> IsAscii(code[i])
  }

  function ParseAuth(text: string): Option<Message> {
    var i := Find(text, ' ');
    var code := text[..i];
    var rest := if i == |text| then "" else text[i + 1..];
    if !IsWord(code) then None
    else if rest == "" then Some(Auth(code, None))
    else
      match ParseAddress(rest)
      case None => None
      case Some(a) => if IsMemberAddress(a) then Some(Auth(code, Some(a))) else None
  }

  function ParseMessage(data: string): Option<Message> {
    if data == DENIED then Some(Denied)
    else if data == LEAVE then Some(Leave)
    else if StartsWith(data, PING) then
      var n := ParseSequence(data[|PING|..]);
      if n.Some? then Some(Ping(n.value)) else None
    else if StartsWith(data, PONG) then
      var n := ParseSequence(data[|PONG|..]);
      if n.Some? then Some(Pong(n.value)) else None
    else if StartsWith(data, OK) then
      var code := data[|OK|..];
      if IsWord(code) && IsCode(code) then Some(Accepted(code)) else None
    else if StartsWith(data, AUTH) then ParseAuth(data[|AUTH|..])
    else None
  }

  /** The messages that have a text form. */
  predicate Sendable(m: Message) {
    match m
    case Auth(code, address) => IsWord(code) && (address.Some? ==> IsMemberAddress(address.value))
    case Accepted(code) => IsCode(code)
    case Denied => true
    case Leave => true
    case Ping(n) => 0 < n <= MAX_SEQUENCE
    case Pong(n) => 0 < n <= MAX_SEQUENCE
  }

  lemma SequenceInverse(n: nat)
    requires 0 < n <= MAX_SEQUENCE
    ensures ParseSequence(Decimal(n)) == Some(n)
  {
    ParseDecimalInverse(n);
    assert Power10(10) == 10_000_000_000 by {
      assert Power10(5) == 100_000 by {
        assert Power10(3) == 10 * Power10(2) == 100 * Power10(1) == 1000 * Power10(0);
      }
      assert Power10(8) == 10 * Power10(7) == 100 * Power10(6) == 1000 * Power10(5);
      assert Power10(10) == 10 * Power10(9) == 100 * Power10(8);
    }
    DecimalLength(n, 10);
  }

  lemma AuthInverse(code: string, address: Option<Address>)
    requires IsWord(code) && (address.Some? ==> IsMemberAddress(address.value))
    ensures ParseAuth(if address.None? then code else code + [' '] + AddressText(address.value))
      == Some(Auth(code, address))
  {
    if address.None? {
      FindNone(code, ' ');
      assert code[..|code|] == code;
    } else {
      var dotted := AddressText(address.value);
      var text := code + [' '] + dotted;
      FindPrefix(code, ' ', dotted);
      assert text[..|code|] == code && text[|code| + 1..] == dotted;
      AddressInverse(address.value);
    }
  }

  predicate Counts(digits: string, n: nat) { IsDecimal(digits) && |digits| <= 10 && ParseDecimal(digits) == n }

  /** The texts that are read as a message: its printed form, and an AUTH with a space at
      its end, and a number with zeros before it that is no longer than ten digits. */
  ghost predicate Spells(data: string, m: Message) {
    match m
    case Auth(code, None) => data == AUTH + code || data == AUTH + (code + [' '])
    case Auth(code, Some(address)) => data == AUTH + (code + [' '] + AddressText(address))
    case Accepted(code) => data == OK + code
    case Denied => data == DENIED
    case Leave => data == LEAVE
    case Ping(n) => StartsWith(data, PING) && Counts(data[|PING|..], n)
    case Pong(n) => StartsWith(data, PONG) && Counts(data[|PONG|..], n)
  }

  /** 10.77.0.h */
  function MemberAt(h: nat): (a: int) { ((10 * 256 + 77) * 256 + 0) * 256 + h }

  /** The messages the program may send or read. */
  ghost predicate Proper(m: Message) {
    match m
    case Auth(code, address) =>
      && |code| <= 10 && (forall c :: c in code ==> c != ' ' && c as int < 128)
      && (address.Some? ==> exists h :: 1 <= h <= 254 && address.value == MemberAt(h))
    case Accepted(code) => |code| == 10 && forall c :: c in code ==> c in ALPHABET
    case Denied => true
    case Leave => true
    case Ping(n) => 0 < n < 0x1_0000_0000
    case Pong(n) => 0 < n < 0x1_0000_0000
  }

  lemma WordIs(code: string)
    ensures (forall c :: c in code ==> c != ' ' && c as int < 128) <==>
      ' ' !in code && forall i :: 0 <= i < |code| ==> IsAscii(code[i])
  {
    if forall c :: c in code ==> c != ' ' && c as int < 128 {
      forall i | 0 <= i < |code|
        ensures IsAscii(code[i])
      {
        assert code[i] in code;
      }
    }
  }

  lemma ProperIs(m: Message)
    ensures Proper(m) <==> Sendable(m)
  {
    match m
    case Auth(code, address) =>
      WordIs(code);
      if address.Some? && IsMemberAddress(address.value) {
        assert address.value == MemberAt(address.value % 256);
      }
    case Accepted(code) =>
      forall c
        ensures InAlphabet(c) <==> c in ALPHABET
      {
        AlphabetIs(c);
      }
      assert (forall c :: c in code ==> c in ALPHABET) <==> (forall i :: 0 <= i < |code| ==> InAlphabet(code[i]));
    case _ =>
  }

  lemma AuthSpelled(text: string, code: string, address: Option<Address>)
    requires ParseAuth(text) == Some(Auth(code, address))
    ensures IsWord(code)
    ensures address.None? ==> text == code || text == code + [' ']
    ensures address.Some? ==> text == code + [' '] + AddressText(address.value)
  {
    hide ParseAddress, AddressText, IsMemberAddress, IsWord;
    var i := Find(text, ' ');
    if i < |text| {
      assert text == text[..i] + [' '] + text[i + 1..];
      if text[i + 1..] != "" {
        AddressSpelled(text[i + 1..]);
      }
    }
  }

  lemma AuthEnd(code: string)
    requires IsWord(code)
    ensures ParseAuth(code + [' ']) == Some(Auth(code, None))
  {
    var text := code + [' '];
    FindPrefix(code, ' ', "");
    assert code + [' '] + "" == text;
    assert text[..|code|] == code && text[|code| + 1..] == "";
  }

  lemma AlphabetIsAscii(code: string)
    requires IsCode(code)
    ensures IsWord(code)
  {
  }

  lemma Sixth(data: string, keyword: string)
    requires |keyword| > 6
    ensures StartsWith(data, keyword) ==> data[5] == keyword[5] && data[6] == keyword[6]
  {
  }

  /** Which keyword a printed message starts with. */
  lemma Keyword(keyword: string, rest: string)
    requires keyword in {PING, PONG, OK, AUTH}
    ensures var data := keyword + rest;
      && data != DENIED && data != LEAVE
      && data[|keyword|..] == rest
      && (StartsWith(data, PING) <==> keyword == PING)
      && (StartsWith(data, PONG) <==> keyword == PONG)
      && (StartsWith(data, OK) <==> keyword == OK)
      && (StartsWith(data, AUTH) <==> keyword == AUTH)
  {
    var data := keyword + rest;
    assert data[5] == keyword[5] && data[6] == keyword[6];
    assert data[..|keyword|] == keyword;
    assert DENIED[5] == 'D' && LEAVE[5] == 'L' && OK[5] == 'O' && AUTH[5] == 'A';
    assert PING[5] == 'P' && PING[6] == 'I' && PONG[5] == 'P' && PONG[6] == 'O';
    Sixth(data, PING);
    Sixth(data, PONG);
    Sixth(data, OK);
    Sixth(data, AUTH);
  }

  /** Parsing undoes printing, for every message that has a text form. */
  lemma ParsePrint(m: Message)
    requires Sendable(m)
    ensures ParseMessage(Print(m)) == Some(m)
  {
    match m
    case Auth(code, address) =>
      var rest := if address.None? then code else code + [' '] + AddressText(address.value);
      Keyword(AUTH, rest);
      AuthInverse(code, address);
    case Accepted(code) =>
      Keyword(OK, code);
      AlphabetIsAscii(code);
    case Denied =>
    case Leave =>
    case Ping(n) =>
      Keyword(PING, Decimal(n));
      SequenceInverse(n);
    case Pong(n) =>
      Keyword(PONG, Decimal(n));
      SequenceInverse(n);
  }

  lemma Reopened(data: string, keyword: string)
    requires StartsWith(data, keyword)
    ensures data == keyword + data[|keyword|..]
  {
  }

  lemma SequenceIs(digits: string, n: nat)
    ensures ParseSequence(digits) == Some(n) <==> Counts(digits, n) && 0 < n <= MAX_SEQUENCE
  {
  }

  lemma SpelledReads(data: string, m: Message)
    requires Sendable(m) && Spells(data, m)
    ensures ParseMessage(data) == Some(m)
  {
    hide ParseAuth, ParseSequence, IsWord, Decimal;
    match m
    case Auth(code, address) =>
      if data == AUTH + (code + [' ']) && address.None? {
        Keyword(AUTH, code + [' ']);
        AuthEnd(code);
      } else {
        ParsePrint(m);
      }
    case Accepted(code) => ParsePrint(m);
    case Denied =>
    case Leave =>
    case Ping(n) =>
      Reopened(data, PING);
      Keyword(PING, data[|PING|..]);
      SequenceIs(data[|PING|..], n);
    case Pong(n) =>
      Reopened(data, PONG);
      Keyword(PONG, data[|PONG|..]);
      SequenceIs(data[|PONG|..], n);
  }

  lemma AuthIsAuth(text: string)
    ensures ParseAuth(text).Some? ==> ParseAuth(text).value.Auth?
  {
  }

  lemma Through(data: string, keyword: string)
    requires StartsWith(keyword, PREFIX)
    ensures StartsWith(data, keyword) ==> StartsWith(data, PREFIX)
  {
  }

  lemma PrintedPrefix(m: Message)
    ensures StartsWith(Print(m), PREFIX)
  {
  }

  /** Only such messages are ever parsed, and their text starts with the prefix. */
  lemma ParsedIsSendable(data: string)
    requires ParseMessage(data).Some?
    ensures Sendable(ParseMessage(data).value)
    ensures StartsWith(data, PREFIX) && StartsWith(Print(ParseMessage(data).value), PREFIX)
  {
    var keywords := [DENIED, LEAVE, PING, PONG, OK, AUTH];
    forall i | 0 <= i < |keywords|
      ensures StartsWith(keywords[i], PREFIX)
    {
    }
    Through(data, DENIED);
    Through(data, LEAVE);
    Through(data, PING);
    Through(data, PONG);
    Through(data, OK);
    Through(data, AUTH);
    PrintedPrefix(ParseMessage(data).value);
  }

  lemma ReadSpells(data: string, m: Message)
    requires ParseMessage(data) == Some(m)
    ensures Sendable(m) && Spells(data, m)
  {
    hide ParseAuth, ParseSequence, IsWord, Decimal, AddressText;
    ParsedIsSendable(data);
    if StartsWith(data, AUTH) {
      AuthIsAuth(data[|AUTH|..]);
    }
    match m
    case Auth(code, address) =>
      Reopened(data, AUTH);
      AuthSpelled(data[|AUTH|..], code, address);
    case Accepted(code) => Reopened(data, OK);
    case Denied =>
    case Leave =>
    case Ping(n) => SequenceIs(data[|PING|..], n);
    case Pong(n) => SequenceIs(data[|PONG|..], n);
  }

  /** Exactly which texts are read as which message. */
  lemma ReadExactly(data: string, m: Message)
    ensures ParseMessage(data) == Some(m) <==> Proper(m) && Spells(data, m)
  {
    ProperIs(m);
    if ParseMessage(data) == Some(m) {
      ReadSpells(data, m);
    }
    if Sendable(m) && Spells(data, m) {
      SpelledReads(data, m);
    }
  }
}
