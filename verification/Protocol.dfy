/** The wire protocol of src/protocol.hpp: tokenising, strict decimal parsing, and the messages the
    server sends.  Bytes are written as `char`; nothing below depends on which characters exist
    beyond the ones named. */
module Protocol {
  import opened Wrappers
  import opened Book

  const MIN_VALUE := 1
  const MAX_VALUE := 2147483647
  const MAX_ORDER_ID := 2147483647

  // ------------------------------------------------------------------ tokenising

  predicate Blank(c: char) {
    c == ' ' || c == '\t'
  }

  /** The maximal blank-free words of a line, left to right. */
  function Tokens(s: string): (ts: seq<string>)
    ensures s != [] && !Blank(s[0]) ==> ts != []
  {
    if s == [] then []
    else if Blank(s[0]) then Tokens(s[1..])
    else if |s| == 1 || Blank(s[1]) then [[s[0]]] + Tokens(s[1..])
    else
      var ts := Tokens(s[1..]);
      [[s[0]] + ts[0]] + ts[1..]
  }

  /** A token: not empty and without blanks. */
  ghost predicate IsWord(w: string) {
    w != [] && forall i :: 0 <= i < |w| ==> !Blank(w[i])
  }

  lemma {:induction false} TokensAreWords(s: string)
    ensures forall i :: 0 <= i < |Tokens(s)| ==> IsWord(Tokens(s)[i])
  {
    if s != [] {
      TokensAreWords(s[1..]);
    }
  }

  /** Tokenising is a homomorphism over any cut at a blank. */
  lemma {:induction false} TokensConcat(a: string, b: string)
    requires b != [] && Blank(b[0])
    ensures Tokens(a + b) == Tokens(a) + Tokens(b)
  {
    if a == [] {
      assert a + b == b;
    } else {
      TokensConcat(a[1..], b);
      assert (a + b)[1..] == a[1..] + b;
      if |a| == 1 {
        assert a[1..] + b == b;
      }
    }
  }

  lemma {:induction false} TokensWord(w: string)
    requires IsWord(w)
    ensures Tokens(w) == [w]
  {
    if |w| > 1 {
      TokensWord(w[1..]);
      assert [w[0]] + w[1..] == w;
    } else {
      assert w == [w[0]] && w[1..] == [];
    }
  }

  lemma TokensBlank(c: char, s: string)
    requires Blank(c)
    ensures Tokens([c] + s) == Tokens(s)
  {
    assert ([c] + s)[1..] == s;
  }

  lemma TokensEmpty()
    ensures Tokens([]) == []
  {
  }

  lemma TokensFirst(s: string, n: nat)
    requires 0 < n <= |s| && IsWord(s[..n]) && (n < |s| ==> Blank(s[n]))
    ensures Tokens(s) == [s[..n]] + Tokens(s[n..])
  {
    hide Tokens;
    TokensWord(s[..n]);
    assert s == s[..n] + s[n..];
    if n < |s| {
      TokensConcat(s[..n], s[n..]);
    } else {
      TokensEmpty();
      assert s[..n] == s && s[n..] == [];
    }
  }

  /** `split_ws`: two index walks over the line. */
  method SplitWs(s: string) returns (out: seq<string>)
    ensures out == Tokens(s)
  {
    hide Tokens;
    TokensEmpty();
    out := [];
    var i := 0;
    assert s[0..] == s;
    while i < |s|
      invariant i <= |s|
      invariant out + Tokens(s[i..]) == Tokens(s)
    {
      while i < |s| && Blank(s[i])
        invariant i <= |s|
        invariant out + Tokens(s[i..]) == Tokens(s)
      {
        TokensBlank(s[i], s[i + 1..]);
        assert [s[i]] + s[i + 1..] == s[i..];
        i := i + 1;
      }
      if i >= |s| {
        break;
      }
      var start := i;
      while i < |s| && !Blank(s[i])
        invariant start <= i <= |s|
        invariant forall j :: start <= j < i ==> !Blank(s[j])
      {
        i := i + 1;
      }
      assert s[start..][..i - start] == s[start..i];
      assert s[start..][i - start..] == s[i..];
      TokensFirst(s[start..], i - start);
      out := out + [s[start..i]];
    }
  }

  /** Words joined with single blanks. */
  function Join(ws: seq<string>): string {
    if ws == [] then [] else ws[0] + if |ws| == 1 then [] else " " + Join(ws[1..])
  }

  /** Splitting undoes joining. */
  lemma {:induction false} SplitJoin(ws: seq<string>)
    requires forall i :: 0 <= i < |ws| ==> IsWord(ws[i])
    ensures Tokens(Join(ws)) == ws
  {
    if |ws| == 1 {
      TokensWord(ws[0]);
      assert ws[0] + [] == ws[0];
    } else if |ws| > 1 {
      SplitJoin(ws[1..]);
      TokensConcat(ws[0], " " + Join(ws[1..]));
      TokensWord(ws[0]);
      TokensBlank(' ', Join(ws[1..]));
    }
  }

  /** A run of spaces and tabs. */
  ghost predicate Gap(g: string) {
    forall i :: 0 <= i < |g| ==> g[i] == ' ' || g[i] == '\t'
  }

  /** Words, each with the gap in front of it, and one more gap at the end. */
  function Layout(gaps: seq<string>, ws: seq<string>, last: string): string
    requires |gaps| == |ws|
  {
    if ws == [] then last else gaps[0] + ws[0] + Layout(gaps[1..], ws[1..], last)
  }

  lemma {:induction false} TokensGap(g: string, s: string)
    requires Gap(g)
    ensures Tokens(g + s) == Tokens(s)
  {
    if g == [] {
      assert g + s == s;
    } else {
      assert g + s == [g[0]] + (g[1..] + s);
      TokensBlank(g[0], g[1..] + s);
      TokensGap(g[1..], s);
    }
  }

  /** However words are spaced, with any spaces and tabs between, before and after them, splitting gives
      the words; anything but a space or a tab may stand in a word. */
  lemma {:induction false} SplitLayout(gaps: seq<string>, ws: seq<string>, last: string)
    requires |gaps| == |ws| && Gap(last)
    requires forall i :: 0 <= i < |ws| ==> ws[i] != [] && ' ' !in ws[i] && '\t' !in ws[i]
    requires forall i :: 0 <= i < |gaps| ==> Gap(gaps[i]) && (i > 0 ==> gaps[i] != [])
    ensures Tokens(Layout(gaps, ws, last)) == ws
  {
    hide Tokens;
    if ws == [] {
      TokensGap(last, []);
      TokensEmpty();
      assert last + [] == last;
    } else {
      var more := Layout(gaps[1..], ws[1..], last);
      SplitLayout(gaps[1..], ws[1..], last);
      assert gaps[0] + ws[0] + more == gaps[0] + (ws[0] + more);
      TokensGap(gaps[0], ws[0] + more);
      TokensWord(ws[0]);
      if more == [] {
        TokensEmpty();
        assert ws[0] + more == ws[0];
      } else {
        TokensConcat(ws[0], more);
      }
    }
  }

  /** Every line means the same as its normal form, one blank between tokens. */
  lemma RejoinStable(s: string)
    ensures Tokens(Join(Tokens(s))) == Tokens(s)
  {
    TokensAreWords(s);
    SplitJoin(Tokens(s));
  }

  // ------------------------------------------------------------------ numbers

  predicate Digit(c: char) {
    '0' <= c <= '9'
  }

  predicate Digits(s: string) {
    forall i :: 0 <= i < |s| ==> Digit(s[i])
  }

  function DigitValue(c: char): nat
    requires Digit(c)
  {
    (c - '0') as nat
  }

  /** Value of a decimal string. */
  function Value(s: string): nat
    requires Digits(s)
  {
    if s == [] then 0 else 10 * Value(s[..|s| - 1]) + DigitValue(s[|s| - 1])
  }

  /** What `parse_u32` accepts, and as what. */
  function Parsed(s: string, lo: nat, hi: nat): Option<nat> {
    if 1 <= |s| <= 10 && Digits(s) && lo <= Value(s) <= hi then Some(Value(s)) else None
  }

  /** `parse_u32`: length, then digits, then value, then range. */
  method ParseU32(s: string, lo: nat, hi: nat) returns (out: Option<nat>)
    ensures out == Parsed(s, lo, hi)
  {
    if s == [] {
      return None;
    }
    if |s| > 10 {
      return None;
    }
    for i := 0 to |s|
      invariant Digits(s[..i])
    {
      if !Digit(s[i]) {
        return None;
      }
    }
    assert s[..|s|] == s;
    var v := 0;
    for i := 0 to |s|
      invariant v == Value(s[..i])
    {
      v := 10 * v + DigitValue(s[i]);
      assert s[..i + 1][..i] == s[..i];
    }
    if v < lo || v > hi {
      return None;
    }
    return Some(v);
  }

  function DigitChar(d: nat): (c: char)
    requires d < 10
    ensures Digit(c) && DigitValue(c) == d && c == "0123456789"[d]
  {
    '0' + d as char
  }

  /** `std::to_string`. */
  function Decimal(n: nat): (s: string)
    ensures s != [] && Digits(s)
  {
    if n < 10 then [DigitChar(n)] else Decimal(n / 10) + [DigitChar(n % 10)]
  }

  lemma {:induction false} ValueDecimal(n: nat)
    ensures Value(Decimal(n)) == n
  {
    if n >= 10 {
      ValueDecimal(n / 10);
      assert Decimal(n)[..|Decimal(n)| - 1] == Decimal(n / 10);
    } else {
      assert Decimal(n)[..0] == [];
    }
  }

  function Pow10(k: nat): (p: nat)
    ensures p > 0
  {
    if k == 0 then 1 else 10 * Pow10(k - 1)
  }

  lemma {:induction false} DecimalLength(n: nat, k: nat)
    requires n < Pow10(k) && k > 0
    ensures |Decimal(n)| <= k
  {
    if n >= 10 {
      DecimalLength(n / 10, k - 1);
    }
  }

  /** Every printed 32-bit number in range parses back to itself. */
  lemma ParsePrint(n: nat, lo: nat, hi: nat)
    requires lo <= n <= hi < 0x1_0000_0000
    ensures Parsed(Decimal(n), lo, hi) == Some(n)
  {
    ValueDecimal(n);
    assert Pow10(10) == 10 * Pow10(9) && Pow10(9) == 10 * Pow10(8) && Pow10(8) == 10 * Pow10(7);
    assert Pow10(7) == 10 * Pow10(6) && Pow10(6) == 10 * Pow10(5) && Pow10(5) == 10 * Pow10(4);
    assert Pow10(4) == 10 * Pow10(3) && Pow10(3) == 10 * Pow10(2) && Pow10(2) == 10 * Pow10(1) && Pow10(1) == 10;
    DecimalLength(n, 10);
  }

  /** Leading zeros change nothing, as long as the token stays within ten characters. */
  lemma LeadingZeros(z: string, s: string, lo: nat, hi: nat)
    requires forall i :: 0 <= i < |z| ==> z[i] == '0'
    requires s != [] && |z + s| <= 10
    ensures Parsed(z + s, lo, hi) == Parsed(s, lo, hi)
  {
    if Digits(s) {
      ZeroPadded(z, s);
    } else {
      var i :| 0 <= i < |s| && !Digit(s[i]);
      assert (z + s)[|z| + i] == s[i];
    }
  }

  lemma {:induction false} ZeroPadded(z: string, s: string)
    requires (forall i :: 0 <= i < |z| ==> z[i] == '0') && Digits(s)
    ensures Digits(z + s) && Value(z + s) == Value(s)
    decreases |z + s|
  {
    if s != [] {
      ZeroPadded(z, s[..|s| - 1]);
      assert (z + s)[..|z + s| - 1] == z + s[..|s| - 1];
    } else if z != [] {
      ZeroPadded(z[..|z| - 1], s);
      assert (z + s)[..|z + s| - 1] == z[..|z| - 1] + s;
    }
  }

  function Zeros(k: nat): string {
    seq(k, _ => '0')
  }

  /** `t` is the number `n` written out, perhaps with leading zeros, in at most ten characters. */
  ghost predicate Spells(t: string, n: nat) {
    |t| <= 10 && exists k: nat :: t == Zeros(k) + Decimal(n)
  }

  /** One more digit at the end of a number. */
  lemma DecimalNext(v: nat, d: char)
    requires Digit(d)
    ensures Decimal(10 * v + DigitValue(d)) == if v == 0 then [d] else Decimal(v) + [d]
  {
    var n := 10 * v + DigitValue(d);
    assert n / 10 == v && n % 10 == DigitValue(d) && DigitChar(DigitValue(d)) == d;
  }

  lemma {:induction false} DigitsSpell(t: string) returns (k: nat)
    requires t != [] && Digits(t)
    ensures t == Zeros(k) + Decimal(Value(t))
  {
    hide Decimal, Zeros;
    var n, d := |t| - 1, t[|t| - 1];
    assert t == t[..n] + [d];
    DecimalNext(Value(t[..n]), d);
    if n == 0 {
      k := 0;
      ZerosMore(0);
      assert t == [] + [d];
    } else {
      var j := DigitsSpell(t[..n]);
      if Value(t[..n]) == 0 {
        k := j + 1;
        ZerosMore(j);
      } else {
        k := j;
      }
    }
  }

  lemma ZerosMore(k: nat)
    ensures Zeros(0) == [] && Zeros(k + 1) == Zeros(k) + Decimal(0)
  {
    assert Decimal(0) == ['0'];
  }

  /** `parse_u32` takes a token for a number in range exactly when the token spells that number. */
  lemma ParsedSpells(t: string, lo: nat, hi: nat, n: nat)
    ensures Parsed(t, lo, hi) == Some(n) <==> Spells(t, n) && lo <= n <= hi
  {
    hide Decimal;
    if Parsed(t, lo, hi) == Some(n) {
      var k := DigitsSpell(t);
    }
    if Spells(t, n) {
      var k: nat :| t == Zeros(k) + Decimal(n);
      ValueDecimal(n);
      ZeroPadded(Zeros(k), Decimal(n));
    }
  }

  // ------------------------------------------------------------------ instruments and messages

  function InstName(i: Inst): string {
    if i == 0 then "JNST" else "IMCT"
  }

  function Instrument(s: string): (r: Option<Inst>)
    ensures forall i: Inst :: r == Some(i) <==> s == InstName(i)
  {
    NamesDiffer();
    if s == "JNST" then Some(0) else if s == "IMCT" then Some(1) else None
  }

  lemma NamesDiffer()
    ensures "JNST" != "IMCT"
  {
    assert "JNST"[0] != "IMCT"[0];
  }

  datatype Verb = Bought | Sold | TradeVerb {
    function Text(): string {
      match this
      case Bought => "BOUGHT"
      case Sold => "SOLD"
      case TradeVerb => "TRADE"
    }
  }

  /** The reasons the server gives in ERROR replies. */
  datatype Reason =
    | LineTooLong | UnknownCommand | BadArguments | NotPermitted | AlreadyLoggedIn | DuplicateUsername
    | NotLoggedIn | UnknownInstrument | BadQuantity | BadPrice | BadOrderId | NoSuchOrder | ForeignOrder
  {
    function Text(): string {
      match this
      case LineTooLong => "line too long"
      case UnknownCommand => "unknown command"
      case BadArguments => "bad arguments"
      case NotPermitted => "not permitted " + "for this client type"
      case AlreadyLoggedIn => "already logged in"
      case DuplicateUsername => "duplicate username"
      case NotLoggedIn => "not logged in"
      case UnknownInstrument => "unknown instrument"
      case BadQuantity => "bad quantity"
      case BadPrice => "bad price"
      case BadOrderId => "bad order id"
      case NoSuchOrder => "unknown order"
      case ForeignOrder => "not your order"
    }
  }

  datatype Msg =
    | OkMsg
    | ErrorMsg(reason: Reason)
    | OrderAccepted(id: nat)
    | OrderCancelled(id: nat)
    | Exec(verb: Verb, inst: Inst, qty: nat, price: nat)

  /** A message without its newline. */
  function Body(m: Msg): string {
    match m
    case OkMsg => "OK"
    case ErrorMsg(reason) => "ERROR " + reason.Text()
    case OrderAccepted(id) => "ORDER_ACCEPTED " + Decimal(id)
    case OrderCancelled(id) => "ORDER_CANCELLED " + Decimal(id)
    case Exec(verb, inst, qty, price) =>
      verb.Text() + " " + InstName(inst) + " " + Decimal(qty) + " " + Decimal(price)
  }

  function Render(m: Msg): string {
    Body(m) + "\n"
  }

  ghost predicate Clean(s: string) {
    '\n' !in s && '\r' !in s
  }

  lemma DigitsClean(s: string)
    requires Digits(s)
    ensures Clean(s)
  {
  }

  lemma CleanConcat(a: string, b: string)
    requires Clean(a) && Clean(b)
    ensures Clean(a + b)
  {
  }

  predicate LoginReason(r: Reason) {
    r.NotPermitted? || r.AlreadyLoggedIn? || r.DuplicateUsername? || r.NotLoggedIn?
  }

  lemma ReasonClean(r: Reason)
    ensures Clean(r.Text())
  {
    if LoginReason(r) {
      LoginReasonClean(r);
    } else {
      OtherReasonClean(r);
    }
  }

  lemma LoginReasonClean(r: Reason)
    requires LoginReason(r)
    ensures Clean(r.Text())
  {
    if r.NotPermitted? {
      NotPermittedClean();
    }
  }

  lemma NotPermittedClean()
    ensures Clean(NotPermitted.Text())
  {
    assert Clean("not permitted ");
    assert Clean("for this client type");
    CleanConcat("not permitted ", "for this client type");
  }

  lemma OtherReasonClean(r: Reason)
    requires !LoginReason(r)
    ensures Clean(r.Text())
  {
    if OrderReason(r) {
      OrderReasonClean(r);
    }
  }

  predicate OrderReason(r: Reason) {
    r.BadQuantity? || r.BadPrice? || r.BadOrderId? || r.NoSuchOrder? || r.ForeignOrder?
  }

  lemma OrderReasonClean(r: Reason)
    requires OrderReason(r)
    ensures Clean(r.Text())
  {
  }

  /** No message contains a newline or a carriage return before its terminator. */
  lemma BodyClean(m: Msg)
    ensures Clean(Body(m))
  {
    match m
    case OkMsg =>
    case ErrorMsg(reason) =>
      ReasonClean(reason);
      CleanConcat("ERROR ", reason.Text());
    case OrderAccepted(id) =>
      DigitsClean(Decimal(id));
      CleanConcat("ORDER_ACCEPTED ", Decimal(id));
    case OrderCancelled(id) =>
      DigitsClean(Decimal(id));
      CleanConcat("ORDER_CANCELLED ", Decimal(id));
    case Exec(verb, inst, qty, price) =>
      DigitsClean(Decimal(qty));
      DigitsClean(Decimal(price));
      var a := verb.Text() + " ";
      var b := a + InstName(inst);
      assert Clean(verb.Text()) && Clean(" ") && Clean(InstName(inst));
      CleanConcat(a, InstName(inst));
      CleanConcat(b, " ");
      CleanConcat(b + " ", Decimal(qty));
      CleanConcat(b + " " + Decimal(qty), " ");
      CleanConcat(b + " " + Decimal(qty) + " ", Decimal(price));
  }

  lemma DigitsWord(s: string)
    requires s != [] && Digits(s)
    ensures IsWord(s)
  {
  }

  lemma JoinFour(a: string, b: string, c: string, d: string)
    ensures Join([a, b, c, d]) == a + " " + b + " " + c + " " + d
  {
    assert [a, b, c, d][1..] == [b, c, d] && [b, c, d][1..] == [c, d] && [c, d][1..] == [d];
    assert Join([d]) == d;
    assert Join([c, d]) == c + " " + d;
    assert Join([b, c, d]) == b + " " + c + " " + d;
  }

  /** An execution message re-tokenises to its verb, instrument, quantity and price. */
  lemma ExecRoundTrip(verb: Verb, inst: Inst, qty: nat, price: nat)
    requires MIN_VALUE <= qty <= MAX_VALUE && MIN_VALUE <= price <= MAX_VALUE
    ensures var ts := Tokens(Body(Exec(verb, inst, qty, price)));
            && |ts| == 4 && ts[0] == verb.Text() && Instrument(ts[1]) == Some(inst)
            && Parsed(ts[2], MIN_VALUE, MAX_VALUE) == Some(qty)
            && Parsed(ts[3], MIN_VALUE, MAX_VALUE) == Some(price)
  {
    hide Tokens, Decimal, Join, Parsed;
    var ws := [verb.Text(), InstName(inst), Decimal(qty), Decimal(price)];
    DigitsWord(Decimal(qty));
    DigitsWord(Decimal(price));
    assert IsWord(verb.Text()) && IsWord(InstName(inst));
    SplitJoin(ws);
    JoinFour(verb.Text(), InstName(inst), Decimal(qty), Decimal(price));
    ParsePrint(qty, MIN_VALUE, MAX_VALUE);
    ParsePrint(price, MIN_VALUE, MAX_VALUE);
  }

  // ------------------------------------------------------------------ reading messages back

  /** The reason behind the text of an ERROR line. */
  function ReasonNamed(t: string): Option<Reason> {
    if t == "line too long" then Some(LineTooLong)
    else if t == "unknown command" then Some(UnknownCommand)
    else if t == "bad arguments" then Some(BadArguments)
    else if t == "not permitted " + "for this client type" then Some(NotPermitted)
    else if t == "already logged in" then Some(AlreadyLoggedIn)
    else if t == "duplicate username" then Some(DuplicateUsername)
    else if t == "not logged in" then Some(NotLoggedIn)
    else if t == "unknown instrument" then Some(UnknownInstrument)
    else if t == "bad quantity" then Some(BadQuantity)
    else if t == "bad price" then Some(BadPrice)
    else if t == "bad order id" then Some(BadOrderId)
    else if t == "unknown order" then Some(NoSuchOrder)
    else if t == "not your order" then Some(ForeignOrder)
    else None
  }

  function VerbNamed(t: string): Option<Verb> {
    if t == "BOUGHT" then Some(Bought)
    else if t == "SOLD" then Some(Sold)
    else if t == "TRADE" then Some(TradeVerb)
    else None
  }

  /** What a client makes of a line of the server. */
  function ReadMsg(line: string): Option<Msg> {
    if line == "OK" then Some(OkMsg)
    else if "ERROR " <= line then
      match ReasonNamed(line[6..])
      case Some(r) => Some(ErrorMsg(r))
      case None => None
    else
      var ts := Tokens(line);
      if |ts| == 2 then ReadReceipt(ts[0], Parsed(ts[1], 0, 0xFFFF_FFFF))
      else if |ts| == 4 then
        ReadExec(VerbNamed(ts[0]), Instrument(ts[1]), Parsed(ts[2], 1, 2147483647), Parsed(ts[3], 1, 2147483647))
      else None
  }

  function ReadReceipt(word: string, id: Option<nat>): Option<Msg> {
    if id.None? then None
    else if word == "ORDER_ACCEPTED" then Some(OrderAccepted(id.value))
    else if word == "ORDER_CANCELLED" then Some(OrderCancelled(id.value))
    else None
  }

  function ReadExec(verb: Option<Verb>, inst: Option<Inst>, qty: Option<nat>, price: Option<nat>): Option<Msg> {
    if verb.Some? && inst.Some? && qty.Some? && price.Some?
    then Some(Exec(verb.value, inst.value, qty.value, price.value))
    else None
  }

  /** Numbers are in the ranges of the protocol. */
  predicate Sane(m: Msg) {
    match m
    case Exec(_, _, qty, price) => 1 <= qty <= 2147483647 && 1 <= price <= 2147483647
    case OrderAccepted(id) => id <= 0xFFFF_FFFF
    case OrderCancelled(id) => id <= 0xFFFF_FFFF
    case _ => true
  }

  lemma ReasonsDiffer(r: Reason)
    ensures ReasonNamed(r.Text()) == Some(r)
  {
    assert "line too long"[0] == 'l' && "bad arguments"[0] == 'b';
    assert "not logged in"[0] == 'n' && "unknown order"[0] == 'u';
    assert "duplicate username"[0] == 'd' && "unknown instrument"[0] == 'u';
    assert "bad quantity"[4] == 'q' && "bad order id"[4] == 'o';
    assert |"not permitted " + "for this client type"| == 34;
  }

  lemma VerbsDiffer(v: Verb)
    ensures VerbNamed(v.Text()) == Some(v)
  {
    assert "BOUGHT"[0] == 'B' && "SOLD"[0] == 'S' && "TRADE"[0] == 'T';
  }

  lemma TwoTokens(a: string, b: string)
    requires IsWord(a)
    ensures Tokens(a + " " + b) == [a] + Tokens(b)
  {
    hide Tokens;
    assert a + " " + b == a + ([' '] + b);
    TokensConcat(a, [' '] + b);
    TokensWord(a);
    TokensBlank(' ', b);
  }

  lemma NumberTokens(w: string, n: nat)
    requires IsWord(w)
    ensures Tokens(w + " " + Decimal(n)) == [w, Decimal(n)]
  {
    hide Tokens, Decimal;
    TwoTokens(w, Decimal(n));
    DigitsWord(Decimal(n));
    TokensWord(Decimal(n));
  }

  /** A line that does not start like an ERROR line. */
  lemma NoError(line: string)
    requires |line| >= 2 && line[0] != 'E' && line[1] != 'K'
    ensures line != "OK" && !("ERROR " <= line)
  {
    assert "ERROR "[0] == 'E' && "OK"[1] == 'K';
  }

  lemma ReadReceipts(id: nat)
    requires id <= 0xFFFF_FFFF
    ensures ReadMsg(Body(OrderAccepted(id))) == Some(OrderAccepted(id))
    ensures ReadMsg(Body(OrderCancelled(id))) == Some(OrderCancelled(id))
  {
    hide Tokens, Decimal, Parsed;
    ParsePrint(id, 0, 0xFFFF_FFFF);
    assert "ORDER_ACCEPTED " == "ORDER_ACCEPTED" + " " && "ORDER_CANCELLED " == "ORDER_CANCELLED" + " ";
    NumberTokens("ORDER_ACCEPTED", id);
    NumberTokens("ORDER_CANCELLED", id);
    NoError(Body(OrderAccepted(id)));
    NoError(Body(OrderCancelled(id)));
    assert "ORDER_ACCEPTED"[6] == 'A' && "ORDER_CANCELLED"[6] == 'C';
  }

  lemma ReadExecution(verb: Verb, inst: Inst, qty: nat, price: nat)
    requires 1 <= qty <= 2147483647 && 1 <= price <= 2147483647
    ensures ReadMsg(Body(Exec(verb, inst, qty, price))) == Some(Exec(verb, inst, qty, price))
  {
    hide Tokens, Decimal, Parsed;
    var line := Body(Exec(verb, inst, qty, price));
    ExecRoundTrip(verb, inst, qty, price);
    VerbsDiffer(verb);
    assert |verb.Text()| >= 4 && verb.Text()[0] != 'E' && verb.Text()[1] != 'K';
    assert line[0] == verb.Text()[0] && line[1] == verb.Text()[1];
    NoError(line);
  }

  lemma ReadError(reason: Reason)
    ensures ReadMsg(Body(ErrorMsg(reason))) == Some(ErrorMsg(reason))
  {
    hide Tokens, ReasonNamed, Reason.Text;
    var line := "ERROR " + reason.Text();
    ReasonsDiffer(reason);
    assert line[..6] == "ERROR " && line[6..] == reason.Text();
    assert line[0] == 'E' && "OK"[0] == 'O';
  }

  /** Reading undoes printing: every message is read back from its line, whole. */
  lemma ReadBack(m: Msg)
    requires Sane(m)
    ensures ReadMsg(Body(m)) == Some(m)
  {
    hide ReadMsg, Body;
    match m
    case OkMsg => ReadOk();
    case ErrorMsg(reason) => ReadError(reason);
    case OrderAccepted(id) => ReadReceipts(id);
    case OrderCancelled(id) => ReadReceipts(id);
    case Exec(verb, inst, qty, price) => ReadExecution(verb, inst, qty, price);
  }

  lemma ReadOk()
    ensures ReadMsg(Body(OkMsg)) == Some(OkMsg)
  {
  }
}
